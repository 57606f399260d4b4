/** Who decides: which arm a new select takes, what becomes of a new send, and which event ends a waiting
    select or a waiting send, with what outcome. */
module ChannelDecisions {
  import opened ChannelProtocol
  import opened ChannelRuns
  import opened ChannelLifetimes

  datatype Option<+T> = None | Some(value: T)

  /* ---------- a new select ---------- */

  /** The arm decides at once: its channel's scope has ended, or the channel has something to give or is
      closed, or its timer cannot be set. */
  predicate Decisive(w: World, a: Arm) {
    match a
    case Timer(fails) => fails
    case Receive(c) => c in w.channels && (w.channels[c].aborted || w.channels[c].messages != [] || w.channels[c].senders != [] || w.channels[c].closed)
  }

  ghost predicate FirstDecisive(w: World, arms: seq<Arm>, i: nat) {
    i < |arms| && Decisive(w, arms[i]) && forall j :: 0 <= j < i ==> !Decisive(w, arms[j])
  }

  /** What a decisive arm makes of its select. */
  function ArmOutcome(w: World, arms: seq<Arm>, i: nat): Outcome
    requires i < |arms| && Known(w, arms) && Decisive(w, arms[i])
  {
    match arms[i]
    case Timer(_) => Rejected
    case Receive(c) =>
      assert arms[i] in arms;
      var ch := w.channels[c];
      if ch.aborted then Rejected
      else if ch.messages != [] then Got(i, ch.messages[0])
      else if ch.senders != [] then Got(i, ch.senders[0])
      else Ended(i)
  }

  /** The waiting sender, if any, whose message moves up when a decisive arm takes. */
  function ArmAccepts(w: World, arms: seq<Arm>, i: nat): Option<SendId>
    requires i < |arms| && Known(w, arms) && Decisive(w, arms[i])
  {
    match arms[i]
    case Timer(_) => None
    case Receive(c) =>
      assert arms[i] in arms;
      var ch := w.channels[c];
      if ch.aborted || ch.senders == [] then None else Some(ch.senders[0].id)
  }

  /** All sends are as they were, but for this one, which is accepted. */
  ghost predicate Accepts(w: World, t: World, id: Option<SendId>) {
    t.sends.Keys == w.sends.Keys
    && forall x :: x in w.sends ==> t.sends[x] == if id == Some(x) then w.sends[x].(state := Accepted) else w.sends[x]
  }

  /** The channels are the same but for who waits. */
  ghost predicate SameButWaiters(w: World, t: World) {
    && t.channels.Keys == w.channels.Keys && t.sends == w.sends
    && forall c :: c in w.channels ==> t.channels[c] == w.channels[c].(receivers := t.channels[c].receivers)
  }

  ghost predicate Waits(w: World, c: ChannelId, x: Waiter) {
    c in w.channels && x in w.channels[c].receivers
  }

  lemma QuietArm(w: World, s: SelectId, i: nat, c: ChannelId)
    requires s in w.selects && c in w.channels && !Decisive(w, Receive(c))
    ensures var t := Register(w, s, i, c);
            && SameButWaiters(w, t) && t.selects == w.selects && t.next == w.next
            && Waits(t, c, Waiter(s, i)) && forall d, x :: Waits(w, d, x) ==> Waits(t, d, x)
  {
    var t := Register(w, s, i, c);
    assert t.channels[c].receivers == w.channels[c].receivers + [Waiter(s, i)];
  }

  lemma DecisiveArm(w: World, s: SelectId, arms: seq<Arm>, i: nat)
    requires s in w.selects && i < |arms| && Known(w, arms) && Decisive(w, arms[i]) && arms[i].Receive?
    ensures s in Register(w, s, i, arms[i].channel).selects
    ensures Register(w, s, i, arms[i].channel).selects[s].outcome == ArmOutcome(w, arms, i)
    ensures Accepts(w, Register(w, s, i, arms[i].channel), ArmAccepts(w, arms, i))
  {
  }

  lemma SameDecisions(w: World, t: World, arms: seq<Arm>)
    requires SameButWaiters(w, t)
    ensures forall a :: a in arms ==> (Decisive(t, a) <==> Decisive(w, a))
    ensures Known(w, arms) <==> Known(t, arms)
    ensures Known(w, arms) ==> forall i :: 0 <= i < |arms| && Decisive(w, arms[i]) ==>
              ArmOutcome(t, arms, i) == ArmOutcome(w, arms, i) && ArmAccepts(t, arms, i) == ArmAccepts(w, arms, i)
  {
  }

  lemma {:induction false} ArmsDecide(w: World, s: SelectId, arms: seq<Arm>, i: nat, k: nat)
    requires s in w.selects && w.selects[s].outcome.Pending? && i <= k < |arms| && Known(w, arms)
    requires Decisive(w, arms[k]) && forall j :: i <= j < k ==> !Decisive(w, arms[j])
    ensures var t := RegisterArms(w, s, arms, i);
            s in t.selects && t.selects[s].outcome == ArmOutcome(w, arms, k) && Accepts(w, t, ArmAccepts(w, arms, k))
    decreases |arms| - i
  {
    hide Register, Decide, Decisive, ArmOutcome, ArmAccepts, Accepts, SameButWaiters, Waits;
    assert arms[i] in arms && arms[k] in arms;
    if i == k {
      DecidedHere(w, s, arms, i);
    } else if arms[i].Receive? {
      var u := Register(w, s, i, arms[i].channel);
      QuietArm(w, s, i, arms[i].channel);
      SameDecisions(w, u, arms);
      assert forall j :: i + 1 <= j < k ==> arms[j] in arms && !Decisive(w, arms[j]);
      ArmsDecide(u, s, arms, i + 1, k);
      SameSends(w, u, RegisterArms(u, s, arms, i + 1));
    } else {
      QuietTimer(w, s, arms, i);
      ArmsDecide(w, s, arms, i + 1, k);
    }
  }

  lemma {:induction false} ArmsWait(w: World, s: SelectId, arms: seq<Arm>, i: nat)
    requires s in w.selects && w.selects[s].outcome.Pending? && i <= |arms| && Known(w, arms)
    requires forall j :: i <= j < |arms| ==> !Decisive(w, arms[j])
    ensures var t := RegisterArms(w, s, arms, i);
            && t.selects == w.selects && SameButWaiters(w, t) && (forall d, x :: Waits(w, d, x) ==> Waits(t, d, x))
            && forall j :: i <= j < |arms| && arms[j].Receive? ==> Waits(t, arms[j].channel, Waiter(s, j))
    decreases |arms| - i
  {
    hide Register, Decide, Decisive, SameButWaiters, Waits;
    if i == |arms| {
      Unchanged(w);
    } else {
      assert arms[i] in arms;
      if arms[i].Receive? {
        var u := Register(w, s, i, arms[i].channel);
        QuietArm(w, s, i, arms[i].channel);
        SameDecisions(w, u, arms);
        assert forall j :: i + 1 <= j < |arms| ==> arms[j] in arms && !Decisive(w, arms[j]);
        ArmsWait(u, s, arms, i + 1);
        ButWaitersTrans(w, u, RegisterArms(u, s, arms, i + 1));
      } else {
        QuietTimer(w, s, arms, i);
        ArmsWait(w, s, arms, i + 1);
      }
    }
  }

  lemma Unchanged(w: World)
    ensures SameButWaiters(w, w)
  {
  }

  lemma ButWaitersTrans(w: World, u: World, t: World)
    requires SameButWaiters(w, u)
    ensures SameButWaiters(u, t) ==> SameButWaiters(w, t)
  {
  }

  lemma SameSends(w: World, u: World, t: World)
    requires SameButWaiters(w, u)
    ensures forall id :: Accepts(u, t, id) ==> Accepts(w, t, id)
  {
  }

  lemma QuietTimer(w: World, s: SelectId, arms: seq<Arm>, i: nat)
    requires s in w.selects && w.selects[s].outcome.Pending? && i < |arms| && Known(w, arms) && arms[i].Timer? && !Decisive(w, arms[i])
    ensures RegisterArms(w, s, arms, i) == RegisterArms(w, s, arms, i + 1)
  {
  }

  lemma DecidedHere(w: World, s: SelectId, arms: seq<Arm>, i: nat)
    requires s in w.selects && w.selects[s].outcome.Pending? && i < |arms| && Known(w, arms) && Decisive(w, arms[i])
    ensures s in RegisterArms(w, s, arms, i).selects
    ensures RegisterArms(w, s, arms, i).selects[s].outcome == ArmOutcome(w, arms, i)
    ensures Accepts(w, RegisterArms(w, s, arms, i), ArmAccepts(w, arms, i))
  {
    hide Register;
    if arms[i].Receive? {
      assert arms[i] in arms;
      DecisiveArm(w, s, arms, i);
      var t := Register(w, s, i, arms[i].channel);
      KeepsChannels(w, s, i, arms[i].channel);
      assert Known(t, arms);
      DecidedStays(t, s, arms, i + 1);
    }
  }

  lemma KeepsChannels(w: World, s: SelectId, i: nat, c: ChannelId)
    requires s in w.selects && c in w.channels
    ensures Register(w, s, i, c).channels.Keys == w.channels.Keys
  {
  }

  lemma DecidedStays(w: World, s: SelectId, arms: seq<Arm>, i: nat)
    requires s in w.selects && !w.selects[s].outcome.Pending? && i <= |arms| && Known(w, arms)
    ensures RegisterArms(w, s, arms, i) == w
  {
  }

  /** A new select takes its first arm that decides at once, with the outcome of that arm; if none does it
      waits at the channel of every receiving arm, and nothing else changes. */
  lemma SelectsTakeTheFirstArm(w: World, arms: seq<Arm>)
    requires Known(w, arms)
    ensures var t, s := Step(w, Selecting(arms)), w.next;
            && s in t.selects && t.selects[s].arms == arms
            && (forall i: nat :: FirstDecisive(w, arms, i) ==>
                  t.selects[s].outcome == ArmOutcome(w, arms, i) && Accepts(w, t, ArmAccepts(w, arms, i)))
            && ((forall i :: 0 <= i < |arms| ==> !Decisive(w, arms[i])) ==>
                  && t.selects[s].outcome == Pending && SameButWaiters(w, t)
                  && forall i :: 0 <= i < |arms| && arms[i].Receive? ==> Waits(t, arms[i].channel, Waiter(s, i)))
  {
    hide RegisterArms, Decisive, ArmOutcome, ArmAccepts, Accepts, SameButWaiters, Waits;
    var u := w.(selects := w.selects[w.next := Select(arms, Pending)], next := w.next + 1);
    assert Known(u, arms);
    assert SameButWaiters(w, u) by { OnlySelects(w, u); }
    SameDecisions(w, u, arms);
    RegisterArmsFinal(u, w.next, arms, 0);
    assert forall i :: 0 <= i < |arms| ==> arms[i] in arms;
    if i: nat :| FirstDecisive(w, arms, i) { ArmsDecide(u, w.next, arms, 0, i); OneFirst(w, arms, i); }
    if forall i :: 0 <= i < |arms| ==> !Decisive(w, arms[i]) { ArmsWait(u, w.next, arms, 0); }
    ButWaitersTrans(w, u, RegisterArms(u, w.next, arms, 0));
    SameSends(w, u, RegisterArms(u, w.next, arms, 0));
  }

  lemma OneFirst(w: World, arms: seq<Arm>, i: nat)
    requires FirstDecisive(w, arms, i)
    ensures forall k: nat :: FirstDecisive(w, arms, k) ==> k == i
  {
    hide Decisive;
  }

  lemma OnlySelects(w: World, u: World)
    requires u.channels == w.channels && u.sends == w.sends
    ensures SameButWaiters(w, u)
  {
  }

  /* ---------- a new send ---------- */

  lemma FirstIsPending(w: World, c: ChannelId)
    requires Inv(w) && c in w.channels && w.channels[c].receivers != []
    ensures IsPending(w, w.channels[c].receivers[0].select)
    ensures !w.channels[c].closed && !w.channels[c].aborted
  {
    hide SendsOk, SendKept, GotOk, DeliveriesOk;
    assert ChannelOk(Settled(w.channels[c], false)) && WaitersOk(w.channels[c], c, w.selects);
    assert w.channels[c].receivers[0] in w.channels[c].receivers;
  }

  /** What becomes of a send: it is cancelled when the channel's scope has ended and refused when the
      channel is closed; else the receiver that waits longest takes it, the buffer takes it if it has
      room, or it waits behind all earlier senders. */
  lemma SendsGoTheirWay(w: World, c: ChannelId, value: int)
    requires Inv(w) && c in w.channels
    ensures var t, ch, m := Step(w, Sending(c, value)), w.channels[c], Message(w.next, value);
            && c in t.channels && m.id in t.sends && t.sends[m.id].channel == c
            && t.sends[m.id].state ==
                 (if ch.aborted then Cancelled else if ch.closed then Refused
                  else if ch.receivers != [] || |ch.messages| < ch.capacity then Accepted else Waiting)
            && (forall id :: id in w.sends ==> id in t.sends && t.sends[id] == w.sends[id])
            && (if ch.receivers != [] then
                  var x := ch.receivers[0];
                  && x.select in t.selects && t.selects[x.select].outcome == Got(x.arm, m)
                  && t.channels[c].delivered == ch.delivered + [Delivery(m, x.select)]
                  && t.channels[c].messages == ch.messages && t.channels[c].senders == ch.senders
                else
                  && t.selects == w.selects && t.channels[c].delivered == ch.delivered
                  && t.channels[c].messages == ch.messages + (if !ch.closed && |ch.messages| < ch.capacity then [m] else [])
                  && t.channels[c].senders == ch.senders + (if !ch.closed && |ch.messages| >= ch.capacity then [m] else []))
  {
    hide Inv, Without, Offer;
    AbortedIsClosed(w, c);
    NewName(w);
    var u := w.(next := w.next + 1);
    if w.channels[c].receivers != [] { FirstIsPending(w, c); }
    OfferIs(u, c, Message(w.next, value));
  }

  lemma OfferIs(w: World, c: ChannelId, m: Message)
    requires c in w.channels && (w.channels[c].receivers != [] ==> IsPending(w, w.channels[c].receivers[0].select))
    ensures var ch := w.channels[c];
            if ch.receivers == [] then Offer(w, c, m) == (w, false)
            else
              var t := Offer(w, c, m).0;
              var x := ch.receivers[0];
              && Offer(w, c, m).1
              && t.selects == w.selects[x.select := w.selects[x.select].(outcome := Got(x.arm, m))]
              && t.sends == w.sends
              && t.channels[c].delivered == ch.delivered + [Delivery(m, x.select)]
              && t.channels[c].messages == ch.messages && t.channels[c].senders == ch.senders
  {
    hide Without;
  }

  lemma AbortedIsClosed(w: World, c: ChannelId)
    requires Inv(w) && c in w.channels
    ensures w.channels[c].aborted ==> w.channels[c].closed
    ensures w.channels[c].receivers != [] ==> !w.channels[c].closed
  {
    hide SendsOk, SendKept, Linked;
    assert ChannelOk(Settled(w.channels[c], false));
  }

  lemma NewName(w: World)
    requires Inv(w)
    ensures w.next !in w.sends && w.next !in w.selects && w.next !in w.channels
  {
    hide Local, Linked;
  }

  /* ---------- what ends a waiting select ---------- */

  /** The arm of the first place at which the select waits here. */
  ghost predicate WaitsFirst(receivers: seq<Waiter>, s: SelectId, arm: nat) {
    exists k :: 0 <= k < |receivers| && receivers[k] == Waiter(s, arm) && forall j :: 0 <= j < k ==> receivers[j].select != s
  }

  ghost predicate NotHere(receivers: seq<Waiter>, s: SelectId) {
    forall x :: x in receivers ==> x.select != s
  }

  lemma {:induction false} FirstStays(receivers: seq<Waiter>, s: SelectId, x: SelectId, arm: nat)
    requires x != s && WaitsFirst(receivers, s, arm)
    ensures WaitsFirst(Without(receivers, x), s, arm)
  {
    var k :| 0 <= k < |receivers| && receivers[k] == Waiter(s, arm) && forall j :: 0 <= j < k ==> receivers[j].select != s;
    var rest := Without(receivers[1..], x);
    if k == 0 {
      assert Without(receivers, x)[0] == receivers[0];
    } else {
      assert receivers[1..][k - 1] == Waiter(s, arm);
      FirstStays(receivers[1..], s, x, arm);
      var i :| 0 <= i < |rest| && rest[i] == Waiter(s, arm) && forall j :: 0 <= j < i ==> rest[j].select != s;
      var r := Without(receivers, x);
      if receivers[0].select == x {
        assert r == rest;
      } else {
        assert r == [receivers[0]] + rest && r[i + 1] == rest[i];
        assert forall j :: 0 < j < i + 1 ==> r[j] == rest[j - 1];
      }
    }
  }

  lemma PopFirst(receivers: seq<Waiter>, s: SelectId, arm: nat)
    requires WaitsFirst(receivers, s, arm)
    ensures receivers[0].select == s ==> receivers[0].arm == arm
    ensures receivers[0].select != s ==> WaitsFirst(receivers[1..], s, arm)
  {
    var k :| 0 <= k < |receivers| && receivers[k] == Waiter(s, arm) && forall j :: 0 <= j < k ==> receivers[j].select != s;
    if receivers[0].select != s {
      assert receivers[1..][k - 1] == Waiter(s, arm);
      assert forall j :: 0 <= j < k - 1 ==> receivers[1..][j] == receivers[j + 1];
    }
  }

  lemma {:induction false} EndedAre(w: World, c: ChannelId, rejected: bool, s: SelectId)
    requires c in w.channels && s in w.selects && w.selects[s].outcome.Pending?
    ensures var t := EndReceivers(w, c, rejected);
            && s in t.selects
            && (forall arm :: WaitsFirst(w.channels[c].receivers, s, arm) ==> t.selects[s].outcome == if rejected then Rejected else Ended(arm))
            && (NotHere(w.channels[c].receivers, s) ==> t.selects[s] == w.selects[s])
    decreases |w.channels[c].receivers|
  {
    hide WaitsFirst;
    var ch := w.channels[c];
    if ch.receivers == [] {
      NoneFirst(s);
    } else {
      var x, rest := ch.receivers[0], ch.receivers[1..];
      var t := w.(channels := w.channels[c := ch.(receivers := rest)]);
      forall arm | WaitsFirst(ch.receivers, s, arm)
        ensures x.select == s ==> x.arm == arm
        ensures x.select != s ==> WaitsFirst(rest, s, arm) && WaitsFirst(Without(rest, x.select), s, arm)
      {
        PopFirst(ch.receivers, s, arm);
        if x.select != s { FirstStays(rest, s, x.select, arm); }
      }
      assert NotHere(ch.receivers, s) ==> x.select != s && NotHere(rest, s) && NotHere(Without(rest, x.select), s);
      if IsPending(t, x.select) {
        var u := Decide(t, x.select, if rejected then Rejected else Ended(x.arm));
        if x.select == s {
          EndReceiversFinal(u, c, rejected);
        } else {
          EndedAre(u, c, rejected, s);
        }
      } else {
        EndedAre(t, c, rejected, s);
      }
    }
  }

  lemma NoneFirst(s: SelectId)
    ensures forall arm :: !WaitsFirst([], s, arm)
  {
  }

  lemma {:induction false} FirstOrNot(receivers: seq<Waiter>, s: SelectId)
    ensures NotHere(receivers, s) || exists arm :: WaitsFirst(receivers, s, arm)
  {
    if receivers != [] {
      if receivers[0].select == s {
        assert receivers[0] == Waiter(s, receivers[0].arm) && WaitsFirst(receivers, s, receivers[0].arm);
      } else {
        FirstOrNot(receivers[1..], s);
        if arm :| WaitsFirst(receivers[1..], s, arm) {
          var rest := receivers[1..];
          var k :| 0 <= k < |rest| && rest[k] == Waiter(s, arm) && forall j :: 0 <= j < k ==> rest[j].select != s;
          assert receivers[k + 1] == Waiter(s, arm);
          assert forall j :: 0 < j < k + 1 ==> receivers[j] == rest[j - 1];
          assert WaitsFirst(receivers, s, arm);
        }
      }
    }
  }

  /** The channel ends with this event, and its receivers were still waiting. */
  predicate Ends(w: World, e: Event, c: ChannelId) {
    c in w.channels && (((e == Closing(c) || e == Disposing(c)) && !w.channels[c].closed) || e == Aborting(c))
  }

  /** The channel that the event is about. */
  function Target(e: Event): ChannelId {
    match e
    case Sending(c, _) => c
    case CancellingSend(c, _) => c
    case Closing(c) => c
    case Disposing(c) => c
    case Aborting(c) => c
    case _ => 0
  }

  /** The end of a channel gives a select the arm of its first place there, or a failure. */
  ghost predicate EndsWith(receivers: seq<Waiter>, s: SelectId, failing: bool, o: Outcome) {
    if failing then o == Rejected else o.Ended? && WaitsFirst(receivers, s, o.last)
  }

  /** What the event makes of a select that waits. */
  ghost predicate Becomes(w: World, e: Event, s: SelectId, o: Outcome)
    requires s in w.selects
  {
    var c := Target(e);
    if e.Sending? && c in w.channels && w.channels[c].receivers != [] && w.channels[c].receivers[0].select == s then
      o == Got(w.channels[c].receivers[0].arm, Message(w.next, e.value))
    else if e == CancellingSelect(s) || e == TimerFails(s) then o == Rejected
    else if e.TimerFires? && e.select == s && e.arm < |w.selects[s].arms| && w.selects[s].arms[e.arm].Timer? then o == TimedOut(e.arm)
    else if Ends(w, e, c) && !NotHere(w.channels[c].receivers, s) then EndsWith(w.channels[c].receivers, s, e.Aborting?, o)
    else o == Pending
  }

  lemma EndsSelects(w: World, e: Event, s: SelectId)
    requires Inv(w) && s in w.selects && w.selects[s].outcome.Pending? && (e.Closing? || e.Disposing? || e.Aborting?)
    ensures s in Step(w, e).selects && Becomes(w, e, s, Step(w, e).selects[s].outcome)
  {
    hide Inv, EndReceivers, WaitsFirst, SettleAll;
    var c := Target(e);
    if c in w.channels {
      AbortedIsClosed(w, c);
      FirstOrNot(w.channels[c].receivers, s);
      var u := EndSenders(w.(channels := w.channels[c := w.channels[c].(closed := true)]), c, if e.Aborting? then Cancelled else Refused);
      EndedAre(u, c, e.Aborting?, s);
    }
  }

  lemma StartsElsewhere(w: World, arms: seq<Arm>, s: SelectId)
    requires Inv(w) && s in w.selects && w.selects[s].outcome.Pending? && Known(w, arms)
    ensures s in Step(w, Selecting(arms)).selects && Step(w, Selecting(arms)).selects[s] == w.selects[s]
  {
    hide Inv, RegisterArms;
    NewName(w);
    var u := w.(selects := w.selects[w.next := Select(arms, Pending)], next := w.next + 1);
    assert Known(u, arms);
    ArmsElsewhere(u, w.next, arms, 0, s);
  }

  lemma {:induction false} ArmsElsewhere(w: World, s: SelectId, arms: seq<Arm>, i: nat, x: SelectId)
    requires s in w.selects && x in w.selects && x != s && i <= |arms| && Known(w, arms)
    ensures x in RegisterArms(w, s, arms, i).selects && RegisterArms(w, s, arms, i).selects[x] == w.selects[x]
    decreases |arms| - i
  {
    if i < |arms| && IsPending(w, s) {
      if arms[i].Receive? {
        assert arms[i] in arms;
        var t := Register(w, s, i, arms[i].channel);
        assert t.channels.Keys == w.channels.Keys;
        ArmsElsewhere(t, s, arms, i + 1, x);
      } else if !arms[i].fails {
        ArmsElsewhere(w, s, arms, i + 1, x);
      }
    }
  }

  /** Over any run a waiting select is decided by one of these alone: a send to a channel at which it
      waits first of all, which gives it the message at that arm; its own cancellation or timer; or the
      end of a channel at which it waits, which gives the arm of its first place there, or a failure
      when the channel's scope has ended. */
  lemma WaitingSelectsAreDecidedSo(events: seq<Event>, e: Event, s: SelectId)
    requires IsPending(Run(EMPTY, events), s)
    ensures var w, t := Run(EMPTY, events), Run(EMPTY, events + [e]);
            s in t.selects && Becomes(w, e, s, t.selects[s].outcome)
  {
    hide Inv, Run, StartSend, StartSelect, Close, Abort, Dispose, CancelSend, WaitsFirst, EndReceivers;
    var w := Run(EMPTY, events);
    RunKeeps(events);
    RunNext(events, e);
    match e
    case Sending(c, value) =>
      if c in w.channels {
        SendsGoTheirWay(w, c, value);
        SendElsewhere(w, c, value, s);
      }
    case Selecting(arms) => if Known(w, arms) { StartsElsewhere(w, arms, s); }
    case Closing(_) => EndsSelects(w, e, s);
    case Disposing(_) => EndsSelects(w, e, s);
    case Aborting(_) => EndsSelects(w, e, s);
    case CancellingSend(c, m) => CancelsNoSelect(w, c, m);
    case _ =>
  }

  lemma CancelsNoSelect(w: World, c: ChannelId, m: Message)
    ensures CancelSend(w, c, m).selects == w.selects
  {
  }

  lemma SendElsewhere(w: World, c: ChannelId, value: int, s: SelectId)
    requires Inv(w) && c in w.channels && s in w.selects
    ensures w.channels[c].receivers == [] || w.channels[c].receivers[0].select != s ==>
              s in Step(w, Sending(c, value)).selects && Step(w, Sending(c, value)).selects[s] == w.selects[s]
  {
    hide Inv, Offer, Without;
    if w.channels[c].receivers != [] { FirstIsPending(w, c); }
    OfferIs(w.(next := w.next + 1), c, Message(w.next, value));
  }

  lemma RunNext(events: seq<Event>, e: Event)
    ensures Run(EMPTY, events + [e]) == Step(Run(EMPTY, events), e)
  {
    assert (events + [e])[..|events|] == events;
  }

  /* ---------- what ends a waiting send ---------- */

  /** The first decisive arm of the new select takes from this channel, where this send waits first. */
  ghost predicate MovesUp(w: World, e: Event, id: SendId) {
    e.Selecting? && Known(w, e.arms)
    && exists i :: FirstDecisive(w, e.arms, i) && ArmAccepts(w, e.arms, i) == Some(id)
  }

  /** What the event makes of a send that waits at `c`. */
  ghost function Sent(w: World, e: Event, c: ChannelId, id: SendId): SendState
    requires c in w.channels
  {
    if e.CancellingSend? && e.channel == c && e.message in w.channels[c].senders && e.message.id == id then Cancelled
    else if (e == Closing(c) || e == Disposing(c)) then Refused
    else if e == Aborting(c) then Cancelled
    else if MovesUp(w, e, id) then Accepted
    else Waiting
  }

  lemma SenderThere(w: World, id: SendId)
    requires Inv(w) && id in w.sends && w.sends[id].state.Waiting?
    ensures var c := w.sends[id].channel;
            && c in w.channels && Holds(w.channels[c].senders, id) && !w.channels[c].closed && !w.channels[c].aborted
    ensures forall k, m :: k in w.channels && m in w.channels[k].senders && m.id == id ==> k == w.sends[id].channel
  {
    hide Linked, DistinctIds;
    var c := w.sends[id].channel;
    assert SendKept(w.channels, id, w.sends[id]);
    assert ChannelOk(Settled(w.channels[c], false));
    forall k, m | k in w.channels && m in w.channels[k].senders && m.id == id ensures k == c {
      assert SendsOk(w.channels[k], k, w.sends);
    }
  }

  lemma {:induction false} EndsNoSend(w: World, c: ChannelId, rejected: bool)
    requires c in w.channels
    ensures EndReceivers(w, c, rejected).sends == w.sends
    decreases |w.channels[c].receivers|
  {
    var ch := w.channels[c];
    if ch.receivers != [] {
      var x := ch.receivers[0];
      var t := w.(channels := w.channels[c := ch.(receivers := ch.receivers[1..])]);
      EndsNoSend(if IsPending(t, x.select) then Decide(t, x.select, if rejected then Rejected else Ended(x.arm)) else t, c, rejected);
    }
  }

  lemma EndsSends(w: World, e: Event, id: SendId)
    requires Inv(w) && id in w.sends && w.sends[id].state.Waiting? && (e.Closing? || e.Disposing? || e.Aborting?)
    ensures id in Step(w, e).sends && Step(w, e).sends[id] == w.sends[id].(state := Sent(w, e, w.sends[id].channel, id))
  {
    hide Inv, EndReceivers, SettleAll;
    var c := Target(e);
    SenderThere(w, id);
    if c in w.channels {
      var state := if e.Aborting? then Cancelled else Refused;
      SettledAt(w.sends, w.channels[c].senders, state, id);
      var u := EndSenders(w.(channels := w.channels[c := w.channels[c].(closed := true)]), c, state);
      EndsNoSend(u, c, e.Aborting?);
    }
  }

  /** Over any run a waiting send ends by its own cancellation, the end of its channel, or a new select
      that takes from its channel while it is the first to wait there. */
  lemma WaitingSendsEndSo(events: seq<Event>, e: Event, id: SendId)
    requires id in Run(EMPTY, events).sends && Run(EMPTY, events).sends[id].state.Waiting?
    ensures var w, t := Run(EMPTY, events), Run(EMPTY, events + [e]);
            var c := w.sends[id].channel;
            c in w.channels && id in t.sends && t.sends[id] == Send(c, Sent(w, e, c, id))
  {
    hide Inv, Run, StartSend, StartSelect, Close, Abort, Dispose, EndReceivers, Decisive, ArmAccepts, ArmOutcome;
    var w := Run(EMPTY, events);
    RunKeeps(events);
    RunNext(events, e);
    SenderThere(w, id);
    match e
    case Sending(c, value) => if c in w.channels { SendsGoTheirWay(w, c, value); }
    case Selecting(arms) => if Known(w, arms) { SelectMoves(w, arms, id); }
    case Closing(_) => EndsSends(w, e, id);
    case Disposing(_) => EndsSends(w, e, id);
    case Aborting(_) => EndsSends(w, e, id);
    case _ =>
  }

  lemma SelectMoves(w: World, arms: seq<Arm>, id: SendId)
    requires Known(w, arms) && id in w.sends
    ensures var t := Step(w, Selecting(arms));
            id in t.sends && t.sends[id] == if MovesUp(w, Selecting(arms), id) then w.sends[id].(state := Accepted) else w.sends[id]
  {
    hide StartSelect, Decisive, ArmAccepts, ArmOutcome;
    SelectsTakeTheFirstArm(w, arms);
    DecisiveOrNot(w, arms, |arms|);
    if i :| FirstDecisive(w, arms, i) {
      forall j | FirstDecisive(w, arms, j) ensures j == i {
      }
    }
  }

  lemma {:induction false} DecisiveOrNot(w: World, arms: seq<Arm>, n: nat)
    requires n <= |arms|
    ensures (forall i :: 0 <= i < n ==> !Decisive(w, arms[i])) || exists i :: FirstDecisive(w, arms, i)
  {
    hide Decisive;
    if n > 0 {
      DecisiveOrNot(w, arms, n - 1);
      if (forall i :: 0 <= i < n - 1 ==> !Decisive(w, arms[i])) && Decisive(w, arms[n - 1]) {
        assert FirstDecisive(w, arms, n - 1);
      }
    }
  }

  /* ---------- the end of a channel ---------- */

  lemma {:induction false} EndsOnlyWaiters(w: World, c: ChannelId, rejected: bool)
    requires c in w.channels
    ensures SameButWaiters(w, EndReceivers(w, c, rejected)) && EndReceivers(w, c, rejected).channels[c].receivers == []
    decreases |w.channels[c].receivers|
  {
    hide Without, SameButWaiters;
    var ch := w.channels[c];
    if ch.receivers == [] {
      Unchanged(w);
    } else {
      var x := ch.receivers[0];
      var t := w.(channels := w.channels[c := ch.(receivers := ch.receivers[1..])]);
      var u := if IsPending(t, x.select) then Decide(t, x.select, if rejected then Rejected else Ended(x.arm)) else t;
      FewerWait(w, c, ch.receivers[1..]);
      Unchanged(t);
      if IsPending(t, x.select) { DecidedWait(t, x.select, if rejected then Rejected else Ended(x.arm)); }
      ButWaitersTrans(w, t, u);
      EndsOnlyWaiters(u, c, rejected);
      ButWaitersTrans(w, u, EndReceivers(u, c, rejected));
    }
  }

  lemma FewerWait(w: World, c: ChannelId, receivers: seq<Waiter>)
    requires c in w.channels
    ensures SameButWaiters(w, w.(channels := w.channels[c := w.channels[c].(receivers := receivers)]))
  {
  }

  lemma DecidedWait(w: World, s: SelectId, outcome: Outcome)
    requires s in w.selects
    ensures SameButWaiters(w, Decide(w, s, outcome))
  {
    hide Without;
  }

  /** A channel opens empty, with the capacity asked for and for ever after; it closes by its own end
      alone, which sends all waiters away. Closing keeps what is buffered, disposing and the end of its
      scope drop it, and the last alone marks it as ended. */
  lemma ChannelsEndSo(events: seq<Event>, e: Event, c: ChannelId)
    requires c in Run(EMPTY, events + [e]).channels
    ensures var w, t := Run(EMPTY, events), Run(EMPTY, events + [e]);
            var ch := t.channels[c];
            if c !in w.channels then
              e == Opening(ch.capacity) && ch == Channel(ch.capacity, [], [], [], false, false, [], [], false)
            else
              var was := w.channels[c];
              && ch.capacity == was.capacity
              && (ch.closed <==> was.closed || e == Closing(c) || e == Disposing(c) || e == Aborting(c))
              && (ch.aborted <==> was.aborted || e == Aborting(c))
              && (ch.dropped <==> was.dropped || e == Disposing(c) || e == Aborting(c))
              && (ch.closed ==> ch.senders == [] && ch.receivers == [])
              && (e == Closing(c) ==> ch.messages == was.messages && ch.delivered == was.delivered)
              && (e == Disposing(c) || e == Aborting(c) ==> ch.messages == [] && ch.delivered == was.delivered)
  {
    hide Inv, Run, Step;
    var w := Run(EMPTY, events);
    RunKeeps(events);
    RunKeeps(events + [e]);
    RunNext(events, e);
    ClosedIsLeft(Step(w, e), c);
    if e.Closing? || e.Disposing? || e.Aborting? {
      ChannelEnds(w, e, c);
    } else {
      ChannelGoesOn(w, e, c);
    }
  }

  lemma ClosedIsLeft(w: World, c: ChannelId)
    requires Inv(w) && c in w.channels
    ensures w.channels[c].closed ==> w.channels[c].senders == [] && w.channels[c].receivers == []
  {
    hide SendsOk, SendKept, Linked;
    assert ChannelOk(Settled(w.channels[c], false));
  }

  lemma ChannelEnds(w: World, e: Event, c: ChannelId)
    requires Inv(w) && (e.Closing? || e.Disposing? || e.Aborting?)
    ensures Step(w, e).channels.Keys == w.channels.Keys
    ensures c in w.channels ==>
              var was, ch := w.channels[c], Step(w, e).channels[c];
              && ch.capacity == was.capacity && ch.delivered == was.delivered
              && (ch.closed <==> was.closed || Target(e) == c)
              && (ch.aborted <==> was.aborted || e == Aborting(c))
              && (ch.dropped <==> was.dropped || e == Disposing(c) || e == Aborting(c))
              && ch.messages == if e == Disposing(c) || e == Aborting(c) then [] else was.messages
  {
    hide Inv, EndReceivers, SettleAll, SameButWaiters;
    var d := Target(e);
    if d in w.channels {
      var u := EndSenders(w.(channels := w.channels[d := w.channels[d].(closed := true)]), d, if e.Aborting? then Cancelled else Refused);
      EndsOnlyWaiters(u, d, e.Aborting?);
      OnlyWaitersAt(u, EndReceivers(u, d, e.Aborting?), c);
      OnlyWaitersAt(u, EndReceivers(u, d, e.Aborting?), d);
    }
  }

  lemma OnlyWaitersAt(w: World, t: World, c: ChannelId)
    requires SameButWaiters(w, t)
    ensures t.channels.Keys == w.channels.Keys
    ensures c in w.channels ==> t.channels[c] == w.channels[c].(receivers := t.channels[c].receivers)
  {
  }

  lemma ChannelGoesOn(w: World, e: Event, c: ChannelId)
    requires Inv(w) && !e.Closing? && !e.Disposing? && !e.Aborting? && c in Step(w, e).channels
    ensures if c in w.channels then
              var was, ch := w.channels[c], Step(w, e).channels[c];
              ch.capacity == was.capacity && ch.closed == was.closed && ch.aborted == was.aborted && ch.dropped == was.dropped
            else e.Opening? && Step(w, e).channels[c] == Channel(e.capacity, [], [], [], false, false, [], [], false)
  {
    hide Inv, StartSend, StartSelect, Without;
    NewName(w);
    match e
    case Sending(d, value) => if d in w.channels { SendGoesOn(w, d, value); }
    case Selecting(arms) =>
      if Known(w, arms) {
        var u := w.(selects := w.selects[w.next := Select(arms, Pending)], next := w.next + 1);
        assert Known(u, arms);
        ArmsGoOn(u, w.next, arms, 0);
        SelectRuns(w, arms);
      }
    case _ =>
  }

  lemma SelectRuns(w: World, arms: seq<Arm>)
    requires Known(w, arms)
    ensures var u := w.(selects := w.selects[w.next := Select(arms, Pending)], next := w.next + 1);
            Known(u, arms) && StartSelect(w, arms) == RegisterArms(u, w.next, arms, 0)
  {
    hide RegisterArms;
  }

  /** Channels stay open or closed as they are. */
  ghost predicate GoOn(w: World, t: World) {
    t.channels.Keys == w.channels.Keys
    && forall c :: c in w.channels ==>
         var was, ch := w.channels[c], t.channels[c];
         ch.capacity == was.capacity && ch.closed == was.closed && ch.aborted == was.aborted && ch.dropped == was.dropped
  }

  lemma RegisterGoesOn(w: World, s: SelectId, arm: nat, c: ChannelId)
    requires s in w.selects && c in w.channels
    ensures GoOn(w, Register(w, s, arm, c)) && s in Register(w, s, arm, c).selects
  {
    hide Without;
  }

  lemma {:induction false} ArmsGoOn(w: World, s: SelectId, arms: seq<Arm>, i: nat)
    requires s in w.selects && i <= |arms| && Known(w, arms)
    ensures GoOn(w, RegisterArms(w, s, arms, i))
    decreases |arms| - i
  {
    hide Register, Without;
    if i < |arms| && IsPending(w, s) {
      if arms[i].Receive? {
        assert arms[i] in arms;
        RegisterGoesOn(w, s, i, arms[i].channel);
        ArmsGoOn(Register(w, s, i, arms[i].channel), s, arms, i + 1);
      } else if !arms[i].fails {
        ArmsGoOn(w, s, arms, i + 1);
      }
    }
  }

  lemma SendGoesOn(w: World, c: ChannelId, value: int)
    requires Inv(w) && c in w.channels
    ensures GoOn(w, StartSend(w, c, value))
  {
    hide Inv, Offer, Without;
    var u := w.(next := w.next + 1);
    if w.channels[c].receivers != [] { FirstIsPending(w, c); }
    OfferGoesOn(u, c, Message(w.next, value));
  }

  lemma OfferGoesOn(w: World, c: ChannelId, m: Message)
    requires c in w.channels && (w.channels[c].receivers != [] ==> IsPending(w, w.channels[c].receivers[0].select))
    ensures GoOn(w, Offer(w, c, m).0)
  {
    hide Without;
  }
}
