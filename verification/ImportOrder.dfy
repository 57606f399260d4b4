/** Imports are loaded, and included files read, in the order in which a source first names them. */
module ImportOrders {
  import opened ImportGraph

  /** The elements of `values`, each once, in the order in which they first occur there. */
  ghost predicate FirstOccurrences<T(!new)>(values: seq<T>, r: seq<T>) {
    && (forall v :: v in r <==> v in values)
    && (forall i, j :: 0 <= i < j < |r| ==> Earlier(values, r[i], r[j]))
  }

  /** `a` occurs at a place up to which `b` does not. */
  ghost predicate Earlier<T(!new)>(values: seq<T>, a: T, b: T) {
    exists p :: 0 <= p < |values| && values[p] == a && b !in values[..p + 1]
  }

  lemma EarlierLonger<T(!new)>(values: seq<T>, more: seq<T>, a: T, b: T)
    requires Earlier(values, a, b) && values <= more
    ensures Earlier(more, a, b)
  {
    var p :| 0 <= p < |values| && values[p] == a && b !in values[..p + 1];
    assert more[..p + 1] == values[..p + 1] && more[p] == a;
  }

  lemma {:induction false} DistinctInOrder<T(!new)>(values: seq<T>)
    ensures FirstOccurrences(values, Distinct(values))
  {
    if values != [] {
      var most, last := values[..|values| - 1], values[|values| - 1];
      var before, r := Distinct(most), Distinct(values);
      DistinctInOrder(most);
      forall i, j | 0 <= i < j < |r| ensures Earlier(values, r[i], r[j]) {
        if j < |before| {
          EarlierLonger(most, values, r[i], r[j]);
        } else {
          assert r[i] == before[i] && before[i] in before;
          var p :| 0 <= p < |most| && most[p] == r[i];
          assert forall x :: x in values[..p + 1] ==> x in most;
          assert values[p] == r[i] && r[j] !in values[..p + 1];
        }
      }
    }
  }

  /* ---------- the sites of one module ---------- */

  /** What the import site `k` loads, below the module at `path`. */
  ghost function SiteLoad(w: World, path: Path, active: seq<Path>, sites: seq<Specifier>, k: nat): Result<Tree>
    requires k < |sites|
  {
    Load(w, w.language.resolve(sites[k], path), active)
  }

  ghost predicate FirstFails(w: World, path: Path, active: seq<Path>, sites: seq<Specifier>, k: nat) {
    && k < |sites| && SiteLoad(w, path, active, sites, k).Failure?
    && forall q :: 0 <= q < k ==> SiteLoad(w, path, active, sites, q).Success?
  }

  /** The first `n` sites load. */
  ghost predicate AllLoad(w: World, path: Path, active: seq<Path>, sites: seq<Specifier>, n: nat)
    requires n <= |sites|
  {
    forall q :: 0 <= q < n ==> SiteLoad(w, path, active, sites, q).Success?
  }

  lemma {:induction false} EdgesAppend(w: World, edges: seq<Edge>, e: Edge, active: seq<Path>)
    ensures var front, last := LoadEdges(w, edges, active), Load(w, e.path, active);
            LoadEdges(w, edges + [e], active) ==
            if front.Failure? then front
            else if last.Failure? then Failure(last.error)
            else Success(front.value + [Dependency(e.specifier, last.value)])
  {
    hide Load;
    if edges == [] {
      assert edges + [e] == [e] && [e][1..] == [];
      assert LoadEdges(w, [], active) == Success([]);
      if Load(w, e.path, active).Success? { Single(Dependency(e.specifier, Load(w, e.path, active).value)); }
    } else {
      assert (edges + [e])[1..] == edges[1..] + [e];
      EdgesAppend(w, edges[1..], e, active);
      var first, rest := Load(w, edges[0].path, active), LoadEdges(w, edges[1..], active);
      if first.Success? && rest.Success? && Load(w, e.path, active).Success? {
        Regroup(Dependency(edges[0].specifier, first.value), rest.value, Dependency(e.specifier, Load(w, e.path, active).value));
      }
    }
  }

  lemma Regroup<T>(a: T, s: seq<T>, b: T)
    ensures [a] + (s + [b]) == ([a] + s) + [b]
  {
  }

  lemma Single<T>(a: T)
    ensures [a] + [] == [] + [a]
  {
  }

  lemma EdgesOfMore(language: Language, path: Path, specifiers: seq<Specifier>, s: Specifier)
    ensures ImportEdges(language, path, specifiers + [s]) == ImportEdges(language, path, specifiers) + [Edge(s, language.resolve(s, path))]
  {
  }

  /** Loading the edges gives the failure of the first site that fails, or all dependencies. */
  lemma {:induction false} SitesLoad(w: World, path: Path, active: seq<Path>, sites: seq<Specifier>, n: nat)
    requires n <= |sites|
    ensures var edges := ImportEdges(w.language, path, Distinct(sites[..n]));
            && (forall k: nat :: k < n && FirstFails(w, path, active, sites, k) ==>
                  LoadEdges(w, edges, active) == Failure(SiteLoad(w, path, active, sites, k).error))
            && (AllLoad(w, path, active, sites, n) ==> LoadEdges(w, edges, active).Success?)
  {
    hide Load, LoadEdges, Distinct, ImportEdges;
    if n == 0 {
      NoSites(w, path, active);
      assert sites[..0] == [];
    } else {
      var before, s := sites[..n - 1], sites[n - 1];
      SitesLoad(w, path, active, sites, n - 1);
      assert sites[..n][..n - 1] == before && sites[..n] == before + [s];
      DistinctMore(before, s);
      EdgesOfMore(w.language, path, Distinct(before), s);
      EdgesAppend(w, ImportEdges(w.language, path, Distinct(before)), Edge(s, w.language.resolve(s, path)), active);
      SitesBefore(w, path, active, sites, n);
    }
  }

  lemma NoSites(w: World, path: Path, active: seq<Path>)
    ensures LoadEdges(w, ImportEdges(w.language, path, Distinct([])), active) == Success([])
  {
  }

  lemma DistinctMore<T(!new)>(values: seq<T>, v: T)
    ensures Distinct(values + [v]) == if v in values then Distinct(values) else Distinct(values) + [v]
  {
    assert (values + [v])[..|values|] == values;
  }

  lemma SitesBefore(w: World, path: Path, active: seq<Path>, sites: seq<Specifier>, n: nat)
    requires 0 < n <= |sites|
    ensures AllLoad(w, path, active, sites, n) <==> AllLoad(w, path, active, sites, n - 1) && SiteLoad(w, path, active, sites, n - 1).Success?
    ensures FirstFails(w, path, active, sites, n - 1) ==> AllLoad(w, path, active, sites, n - 1) && sites[n - 1] !in sites[..n - 1]
    ensures sites[n - 1] in sites[..n - 1] ==> exists q :: 0 <= q < n - 1 && SiteLoad(w, path, active, sites, q) == SiteLoad(w, path, active, sites, n - 1)
  {
    hide Load;
    if FirstFails(w, path, active, sites, n - 1) {
      forall q | 0 <= q < n - 1 ensures sites[q] != sites[n - 1] {
        Differ(w, path, active, sites, n - 1, q);
      }
    }
    if sites[n - 1] in sites[..n - 1] {
      var q :| 0 <= q < n - 1 && sites[..n - 1][q] == sites[n - 1];
      assert SiteLoad(w, path, active, sites, q) == SiteLoad(w, path, active, sites, n - 1);
    }
  }

  lemma Differ(w: World, path: Path, active: seq<Path>, sites: seq<Specifier>, k: nat, q: nat)
    requires FirstFails(w, path, active, sites, k) && q < k
    ensures sites[q] != sites[k]
  {
    hide Load;
    assert SiteLoad(w, path, active, sites, q).Success?;
  }

  /* ---------- include sites ---------- */

  predicate Present(w: World, path: Path, s: Specifier) {
    w.language.resolveInclude(s, path) in w.disk
  }

  ghost predicate FirstMissing(w: World, path: Path, sites: seq<Specifier>, k: nat) {
    k < |sites| && !Present(w, path, sites[k]) && forall q :: 0 <= q < k ==> Present(w, path, sites[q])
  }

  lemma {:induction false} IncludesAppend(w: World, path: Path, specifiers: seq<Specifier>, s: Specifier)
    ensures var front, file := ReadIncludes(w, path, specifiers), w.language.resolveInclude(s, path);
            ReadIncludes(w, path, specifiers + [s]) ==
            if front.Failure? then front
            else if file !in w.disk then Failure(IncludeNotFound(path, s))
            else Success(front.value + [Included(s, file, w.disk[file])])
  {
    if specifiers == [] {
      assert specifiers + [s] == [s] && [s][1..] == [];
      var file := w.language.resolveInclude(s, path);
      if file in w.disk { Single(Included(s, file, w.disk[file])); }
    } else {
      assert (specifiers + [s])[1..] == specifiers[1..] + [s];
      IncludesAppend(w, path, specifiers[1..], s);
      var first, file, rest := w.language.resolveInclude(specifiers[0], path), w.language.resolveInclude(s, path), ReadIncludes(w, path, specifiers[1..]);
      if first in w.disk && file in w.disk && rest.Success? {
        Regroup(Included(specifiers[0], first, w.disk[first]), rest.value, Included(s, file, w.disk[file]));
      }
    }
  }

  /** Reading the included files gives the first that is missing, or all of them. */
  lemma {:induction false} SitesRead(w: World, path: Path, sites: seq<Specifier>, n: nat)
    requires n <= |sites|
    ensures var read := ReadIncludes(w, path, Distinct(sites[..n]));
            && (forall k: nat :: k < n && FirstMissing(w, path, sites, k) ==> read == Failure(IncludeNotFound(path, sites[k])))
            && ((forall q :: 0 <= q < n ==> Present(w, path, sites[q])) ==>
                  && read.Success? && |read.value| == |Distinct(sites[..n])|
                  && forall i :: 0 <= i < |read.value| ==>
                       && read.value[i].specifier == Distinct(sites[..n])[i]
                       && read.value[i].path == w.language.resolveInclude(read.value[i].specifier, path)
                       && read.value[i].path in w.disk && read.value[i].source == w.disk[read.value[i].path])
  {
    hide ReadIncludes, Distinct, Present;
    if n == 0 {
      assert sites[..0] == [];
      NoIncludes(w, path);
    } else {
      var before, s := sites[..n - 1], sites[n - 1];
      SitesRead(w, path, sites, n - 1);
      assert sites[..n] == before + [s];
      DistinctMore(before, s);
      IncludesAppend(w, path, Distinct(before), s);
      PresentIs(w, path, s);
      if s in before {
        var q :| 0 <= q < n - 1 && before[q] == s;
        assert sites[q] == s;
      }
    }
  }

  lemma PresentIs(w: World, path: Path, s: Specifier)
    ensures Present(w, path, s) <==> w.language.resolveInclude(s, path) in w.disk
  {
  }

  lemma NoIncludes(w: World, path: Path)
    ensures ReadIncludes(w, path, Distinct([])) == Success([]) && Distinct<Specifier>([]) == []
  {
  }

  /* ---------- a module ---------- */

  /** The sites of a module that is not pinned and whose source parses. */
  ghost function SitesOf(w: World, path: Path): Syntax
    requires path !in w.pinned && OwnInputs(w, path).Success?
  {
    w.language.parse(EffectiveSource(w, path).value).value
  }

  /** The failure of a load is that of the first import site that fails; if none does, it is the first
      include site whose file is missing. */
  lemma LoadFailsAtTheFirstSite(w: World, path: Path, active: seq<Path>, k: nat)
    requires path !in active && path !in w.pinned && OwnInputs(w, path).Success?
    ensures var sites, inner := SitesOf(w, path), active + [path];
            && (FirstFails(w, path, inner, sites.imports, k) ==>
                  Load(w, path, active) == Failure(SiteLoad(w, path, inner, sites.imports, k).error))
            && (AllLoad(w, path, inner, sites.imports, |sites.imports|) && FirstMissing(w, path, sites.includes, k) ==>
                  Load(w, path, active) == Failure(IncludeNotFound(path, sites.includes[k])))
  {
    hide LoadEdges, Distinct, ImportEdges, ReadIncludes, FirstFails, AllLoad, FirstMissing;
    var sites := SitesOf(w, path);
    LoadUnfolds(w, path, active);
    assert sites.imports[..|sites.imports|] == sites.imports && sites.includes[..|sites.includes|] == sites.includes;
    SitesLoad(w, path, active + [path], sites.imports, |sites.imports|);
    SitesRead(w, path, sites.includes, |sites.includes|);
    InRange(w, path, active + [path], k);
  }

  lemma InRange(w: World, path: Path, active: seq<Path>, k: nat)
    requires path !in w.pinned && OwnInputs(w, path).Success?
    ensures FirstFails(w, path, active, SitesOf(w, path).imports, k) ==> k < |SitesOf(w, path).imports|
    ensures FirstMissing(w, path, SitesOf(w, path).includes, k) ==> k < |SitesOf(w, path).includes|
  {
    hide Load;
  }

  lemma LoadUnfolds(w: World, path: Path, active: seq<Path>)
    requires path !in active && path !in w.pinned && OwnInputs(w, path).Success?
    ensures var sites := SitesOf(w, path);
            var loaded := LoadEdges(w, ImportEdges(w.language, path, Distinct(sites.imports)), active + [path]);
            var read := ReadIncludes(w, path, Distinct(sites.includes));
            Load(w, path, active) ==
            if loaded.Failure? then Failure(loaded.error)
            else if read.Failure? then Failure(read.error)
            else Success(Tree(path, SourceFile, EffectiveSource(w, path).value, read.value, loaded.value))
  {
    hide LoadEdges, Distinct, ImportEdges, ReadIncludes;
    RemainingShrinks(w, active, path);
  }

  function Specifiers(ds: seq<Dependency>): (r: seq<Specifier>)
    ensures |r| == |ds| && forall i :: 0 <= i < |r| ==> r[i] == ds[i].specifier
  {
    seq(|ds|, i requires 0 <= i < |ds| => ds[i].specifier)
  }

  function IncludeSpecifiers(includes: seq<Included>): (r: seq<Specifier>)
    ensures |r| == |includes| && forall i :: 0 <= i < |r| ==> r[i] == includes[i].specifier
  {
    seq(|includes|, i requires 0 <= i < |includes| => includes[i].specifier)
  }

  /** The dependencies and the included files of a returned module follow the first occurrences of
      its sites; each dependency is what its specifier resolves to. */
  lemma LoadFollowsTheSites(w: World, path: Path, active: seq<Path>)
    requires path !in w.pinned && Load(w, path, active).Success?
    ensures path !in active && OwnInputs(w, path).Success?
    ensures var t, sites := Load(w, path, active).value, SitesOf(w, path);
            && FirstOccurrences(sites.imports, Specifiers(t.dependencies))
            && FirstOccurrences(sites.includes, IncludeSpecifiers(t.includes))
            && (forall i :: 0 <= i < |t.dependencies| ==>
                  Load(w, w.language.resolve(t.dependencies[i].specifier, path), active + [path]) == Success(t.dependencies[i].target))
            && (forall i :: 0 <= i < |t.includes| ==>
                  var file := w.language.resolveInclude(t.includes[i].specifier, path);
                  t.includes[i].path == file && file in w.disk && t.includes[i].source == w.disk[file])
  {
    hide LoadEdges, Distinct, ImportEdges, ReadIncludes, FirstOccurrences;
    var t, sites := Load(w, path, active).value, SitesOf(w, path);
    LoadUnfolds(w, path, active);
    var edges := ImportEdges(w.language, path, Distinct(sites.imports));
    DistinctInOrder(sites.imports);
    DistinctInOrder(sites.includes);
    EdgesGive(w, edges, active + [path]);
    EdgeAt(w.language, path, Distinct(sites.imports));
    assert Specifiers(t.dependencies) == Distinct(sites.imports);
    IncludesGive(w, path, Distinct(sites.includes));
    assert IncludeSpecifiers(t.includes) == Distinct(sites.includes);
  }

  lemma EdgeAt(language: Language, path: Path, specifiers: seq<Specifier>)
    ensures forall i :: 0 <= i < |specifiers| ==>
              ImportEdges(language, path, specifiers)[i] == Edge(specifiers[i], language.resolve(specifiers[i], path))
  {
  }

  lemma {:induction false} EdgesGive(w: World, edges: seq<Edge>, active: seq<Path>)
    requires LoadEdges(w, edges, active).Success?
    ensures var ds := LoadEdges(w, edges, active).value;
            && |ds| == |edges|
            && forall i :: 0 <= i < |ds| ==> ds[i].specifier == edges[i].specifier && Load(w, edges[i].path, active) == Success(ds[i].target)
  {
    hide Load;
    if edges != [] { EdgesGive(w, edges[1..], active); }
  }

  lemma {:induction false} IncludesGive(w: World, path: Path, specifiers: seq<Specifier>)
    requires ReadIncludes(w, path, specifiers).Success?
    ensures var read := ReadIncludes(w, path, specifiers).value;
            && |read| == |specifiers|
            && (forall i :: 0 <= i < |read| ==> read[i].specifier == specifiers[i])
            && forall i :: 0 <= i < |read| ==>
                 var file := w.language.resolveInclude(specifiers[i], path);
                 read[i].path == file && file in w.disk && read[i].source == w.disk[file]
  {
    if specifiers != [] { IncludesGive(w, path, specifiers[1..]); }
  }

  /** A module that is not pinned has the text of its overlay, or of its file; without either it is not
      found, and a text that does not parse is refused, before any import is loaded. */
  lemma LoadNeedsAText(w: World, path: Path, active: seq<Path>)
    requires path !in active && path !in w.pinned
    ensures path !in w.overlays && path !in w.disk ==> Load(w, path, active) == Failure(NotFound(path))
    ensures path in w.overlays && w.language.parse(w.overlays[path]).None? ==> Load(w, path, active) == Failure(ParseFailure(path))
    ensures path !in w.overlays && path in w.disk && w.language.parse(w.disk[path]).None? ==>
              Load(w, path, active) == Failure(ParseFailure(path))
    ensures Load(w, path, active).Success? ==>
              Load(w, path, active).value.source == if path in w.overlays then w.overlays[path] else if path in w.disk then w.disk[path] else ""
  {
  }
}
