/** What a channel's history of sends holds: the sends that were not withdrawn, in the order of their
    calls. */
module ChannelOrders {
  import opened ChannelProtocol
  import opened ChannelRuns
  import opened ChannelLifetimes

  /** Sends are numbered as they are called. */
  ghost predicate InOrder(sent: seq<Message>, next: nat) {
    && (forall i, j :: 0 <= i < j < |sent| ==> sent[i].id < sent[j].id)
    && (forall m :: m in sent ==> m.id < next)
  }

  ghost predicate AllInOrder(w: World) {
    forall c :: c in w.channels ==> InOrder(w.channels[c].sent, w.next)
  }

  /** The history grows by the newest send, or loses one send, or some of its last. */
  ghost predicate Moves(a: seq<Message>, b: seq<Message>, next: nat, later: nat) {
    && next <= later
    && (b <= a || (exists m :: b == Less(a, m)) || (|b| == |a| + 1 && b[..|a|] == a && b[|a|].id == next < later))
  }

  lemma InOrderTail(a: seq<Message>, rest: seq<Message>, next: nat)
    requires InOrder(a, next) && a != [] && rest == a[1..]
    ensures InOrder(rest, next) && a[0].id < next && forall x :: x in rest ==> a[0].id < x.id
  {
    assert forall x :: x in rest ==> x in a;
    assert forall i :: 0 <= i < |rest| ==> rest[i] == a[i + 1];
    assert a[0] in a;
  }

  lemma {:induction false} LessInOrder(a: seq<Message>, m: Message, next: nat)
    requires InOrder(a, next)
    ensures InOrder(Less(a, m), next)
  {
    hide InOrder;
    if a == [] {
      assert Less(a, m) == a;
    } else {
      var rest := a[1..];
      InOrderTail(a, rest, next);
      LessInOrder(rest, m, next);
      if a[0] == m {
        assert [] + Less(rest, m) == Less(rest, m);
      } else {
        FirstInOrder(a[0], Less(rest, m), next);
      }
    }
  }

  lemma FirstInOrder(m: Message, rest: seq<Message>, next: nat)
    requires InOrder(rest, next) && m.id < next && forall x :: x in rest ==> m.id < x.id
    ensures InOrder([m] + rest, next)
  {
    forall i, j | 0 <= i < j < |[m] + rest| ensures ([m] + rest)[i].id < ([m] + rest)[j].id {
      assert rest[j - 1] in rest;
    }
  }

  lemma MovesInOrder(a: seq<Message>, b: seq<Message>, next: nat, later: nat)
    requires InOrder(a, next) && Moves(a, b, next, later)
    ensures InOrder(b, later)
  {
    if b <= a {
      assert forall m :: m in b ==> m in a;
    } else if exists m :: b == Less(a, m) {
      var m :| b == Less(a, m);
      LessInOrder(a, m, next);
    } else {
      assert b == a + [b[|a|]];
      forall i, j | 0 <= i < j < |b| ensures b[i].id < b[j].id {
        assert b[i] == a[i] && a[i] in a;
      }
    }
  }

  /* ---------- which steps move it ---------- */

  ghost predicate SameSent(w: World, t: World) {
    t.channels.Keys == w.channels.Keys && forall c :: c in w.channels ==> t.channels[c].sent == w.channels[c].sent
  }

  lemma DecideSent(w: World, s: SelectId, outcome: Outcome)
    requires s in w.selects
    ensures SameSent(w, Decide(w, s, outcome)) && Decide(w, s, outcome).next == w.next
    ensures Decide(w, s, outcome).selects.Keys == w.selects.Keys
  {
  }

  lemma RegisterSent(w: World, s: SelectId, arm: nat, c: ChannelId)
    requires s in w.selects && c in w.channels
    ensures SameSent(w, Register(w, s, arm, c)) && Register(w, s, arm, c).next == w.next && s in Register(w, s, arm, c).selects
  {
  }

  lemma {:induction false} RegisterArmsSent(w: World, s: SelectId, arms: seq<Arm>, i: nat)
    requires s in w.selects && i <= |arms| && Known(w, arms)
    ensures SameSent(w, RegisterArms(w, s, arms, i)) && RegisterArms(w, s, arms, i).next == w.next
    decreases |arms| - i
  {
    hide Register, Decide;
    if i < |arms| && IsPending(w, s) {
      assert arms[i] in arms;
      if arms[i].Receive? {
        RegisterSent(w, s, i, arms[i].channel);
        RegisterArmsSent(Register(w, s, i, arms[i].channel), s, arms, i + 1);
      } else if arms[i].fails {
        DecideSent(w, s, Rejected);
      } else {
        RegisterArmsSent(w, s, arms, i + 1);
      }
    }
  }

  lemma {:induction false} OfferSent(w: World, c: ChannelId, m: Message)
    requires c in w.channels
    ensures var t := Offer(w, c, m);
            && t.0.channels.Keys == w.channels.Keys && t.0.next == w.next
            && (forall k :: k in w.channels && k != c ==> t.0.channels[k].sent == w.channels[k].sent)
            && t.0.channels[c].sent == if t.1 then w.channels[c].sent + [m] else w.channels[c].sent
    decreases |w.channels[c].receivers|
  {
    var ch := w.channels[c];
    if ch.receivers != [] && !IsPending(w, ch.receivers[0].select) {
      OfferSent(w.(channels := w.channels[c := ch.(receivers := ch.receivers[1..])]), c, m);
    }
  }

  lemma ShorterQueue(channels: map<ChannelId, Channel>, s: SelectId, c: ChannelId)
    requires c in channels
    ensures c in Detach(channels, s) && |Detach(channels, s)[c].receivers| <= |channels[c].receivers|
  {
  }

  lemma {:induction false} EndReceiversSent(w: World, c: ChannelId, rejected: bool)
    requires c in w.channels
    ensures SameSent(w, EndReceivers(w, c, rejected)) && EndReceivers(w, c, rejected).next == w.next
    decreases |w.channels[c].receivers|
  {
    hide Detach;
    var ch := w.channels[c];
    if ch.receivers != [] {
      var waiter := ch.receivers[0];
      var t := w.(channels := w.channels[c := ch.(receivers := ch.receivers[1..])]);
      if IsPending(t, waiter.select) {
        var outcome := if rejected then Rejected else Ended(waiter.arm);
        DecideSent(t, waiter.select, outcome);
        ShorterQueue(t.channels, waiter.select, c);
        EndReceiversSent(Decide(t, waiter.select, outcome), c, rejected);
      } else {
        EndReceiversSent(t, c, rejected);
      }
    }
  }

  ghost predicate AllMove(w: World, t: World) {
    && w.channels.Keys <= t.channels.Keys && w.next <= t.next
    && (forall c :: c in w.channels ==> Moves(w.channels[c].sent, t.channels[c].sent, w.next, t.next))
    && (forall c :: c in t.channels && c !in w.channels ==> t.channels[c].sent == [])
  }

  lemma SameMoves(w: World, t: World)
    requires SameSent(w, t) && w.next <= t.next
    ensures AllMove(w, t)
  {
  }

  /** Only the history of `c` changes. */
  lemma OneMoves(w: World, t: World, c: ChannelId)
    requires c in w.channels && t.channels.Keys == w.channels.Keys && w.next <= t.next
    requires forall k :: k in w.channels && k != c ==> t.channels[k].sent == w.channels[k].sent
    requires Moves(w.channels[c].sent, t.channels[c].sent, w.next, t.next)
    ensures AllMove(w, t)
  {
    hide Less;
    forall k | k in w.channels ensures Moves(w.channels[k].sent, t.channels[k].sent, w.next, t.next) {
      if k != c { assert t.channels[k].sent <= w.channels[k].sent; }
    }
  }

  /** The history of `c` loses some of its last sends. */
  ghost predicate Shortens(w: World, t: World, c: ChannelId) {
    && c in w.channels && t.channels.Keys == w.channels.Keys && t.next == w.next
    && (forall k :: k in w.channels && k != c ==> t.channels[k].sent == w.channels[k].sent)
    && t.channels[c].sent <= w.channels[c].sent
  }

  lemma CloseShortens(w: World, c: ChannelId)
    requires c in w.channels
    ensures Shortens(w, Close(w, c), c)
  {
    hide EndReceivers, SettleAll;
    if !w.channels[c].closed {
      var t := EndSenders(w.(channels := w.channels[c := w.channels[c].(closed := true)]), c, Refused);
      EndReceiversSent(t, c, false);
    }
  }

  lemma DisposeShortens(w: World, c: ChannelId)
    requires c in w.channels
    ensures Shortens(w, Dispose(w, c), c)
  {
    hide Close;
    CloseShortens(w, c);
  }

  lemma AbortShortens(w: World, c: ChannelId)
    requires c in w.channels
    ensures Shortens(w, Abort(w, c), c)
  {
    hide EndReceivers, SettleAll;
    var t := EndSenders(w.(channels := w.channels[c := w.channels[c].(closed := true)]), c, Cancelled);
    EndReceiversSent(t, c, true);
  }

  lemma SendMoves(w: World, c: ChannelId, value: int)
    requires c in w.channels
    ensures AllMove(w, StartSend(w, c, value))
  {
    hide Less, Moves, StartSend;
    var t, m := StartSend(w, c, value), Message(w.next, value);
    SendSent(w, c, value);
    SentMoves(w.channels[c].sent, t.channels[c].sent, m, w.next);
    OneMoves(w, t, c);
  }

  lemma SendSent(w: World, c: ChannelId, value: int)
    requires c in w.channels
    ensures var t := StartSend(w, c, value);
            && t.channels.Keys == w.channels.Keys && t.next == w.next + 1
            && (forall k :: k in w.channels && k != c ==> t.channels[k].sent == w.channels[k].sent)
            && (t.channels[c].sent == w.channels[c].sent || t.channels[c].sent == w.channels[c].sent + [Message(w.next, value)])
  {
    hide Offer;
    OfferSent(w.(next := w.next + 1), c, Message(w.next, value));
  }

  lemma SentMoves(a: seq<Message>, b: seq<Message>, m: Message, next: nat)
    requires (b == a || b == a + [m]) && m.id == next
    ensures Moves(a, b, next, next + 1)
  {
    hide Less;
  }

  lemma CancelMoves(w: World, c: ChannelId, m: Message)
    ensures AllMove(w, CancelSend(w, c, m))
  {
    hide Less, Settle;
    var t := CancelSend(w, c, m);
    if c in w.channels && m in w.channels[c].senders {
      assert t.channels[c].sent == Less(w.channels[c].sent, m);
      OneMoves(w, t, c);
    } else {
      SameMoves(w, t);
    }
  }

  lemma StepMoves(w: World, e: Event)
    requires NamesOk(w)
    ensures AllMove(w, Step(w, e))
  {
    hide RegisterArms, StartSend, Close, Dispose, Abort, CancelSend, Less, Moves;
    var t := Step(w, e);
    if t == w { SameMoves(w, t); }
    match e
    case Opening(capacity) => OpenMoves(w, capacity);
    case Sending(c, value) => if c in w.channels { SendMoves(w, c, value); }
    case CancellingSend(c, m) => CancelMoves(w, c, m);
    case Selecting(arms) =>
      if Known(w, arms) {
        var u := w.(selects := w.selects[w.next := Select(arms, Pending)], next := w.next + 1);
        assert Known(u, arms);
        RegisterArmsSent(u, w.next, arms, 0);
        SameMoves(w, t);
      }
    case Closing(c) => if c in w.channels { CloseShortens(w, c); ShorterMoves(w, t, c); }
    case Disposing(c) => if c in w.channels { DisposeShortens(w, c); ShorterMoves(w, t, c); }
    case Aborting(c) => if c in w.channels { AbortShortens(w, c); ShorterMoves(w, t, c); }
    case _ => SameMoves(w, t);
  }

  lemma ShorterMoves(w: World, t: World, c: ChannelId)
    requires Shortens(w, t, c)
    ensures AllMove(w, t)
  {
    OneMoves(w, t, c);
  }

  lemma OpenMoves(w: World, capacity: nat)
    requires NamesOk(w)
    ensures AllMove(w, Open(w, capacity))
  {
  }

  lemma {:induction false} RunInOrder(events: seq<Event>)
    ensures AllInOrder(Run(EMPTY, events))
  {
    hide Step, InOrder, Moves, NamesOk, Inv;
    if events != [] {
      var before, e := events[..|events| - 1], events[|events| - 1];
      var w := Run(EMPTY, before);
      RunInOrder(before);
      RunKeeps(before);
      InvNames(w);
      StepMoves(w, e);
      forall c | c in Step(w, e).channels ensures InOrder(Step(w, e).channels[c].sent, Step(w, e).next) {
        if c in w.channels {
          MovesInOrder(w.channels[c].sent, Step(w, e).channels[c].sent, w.next, Step(w, e).next);
        } else {
          NothingInOrder(Step(w, e).next);
        }
      }
    }
  }

  lemma NothingInOrder(next: nat)
    ensures InOrder([], next)
  {
  }

  /** The history of a channel is in the order of the calls, and holds exactly the sends that still
      wait or were accepted; once the channel has dropped its buffer, only those that were delivered. */
  lemma SentIsExact(events: seq<Event>, c: ChannelId, id: SendId)
    requires c in Run(EMPTY, events).channels
    ensures var w, sent := Run(EMPTY, events), Run(EMPTY, events).channels[c].sent;
            && (forall i, j :: 0 <= i < j < |sent| ==> sent[i].id < sent[j].id)
            && (if w.channels[c].dropped then Holds(sent, id) <==> Holds(Taken(w.channels[c].delivered), id)
                else Holds(sent, id) <==> id in w.sends && w.sends[id].channel == c && w.sends[id].state in {Waiting, Accepted})
            && (Holds(sent, id) ==> id in w.sends && w.sends[id].channel == c && w.sends[id].state in {Waiting, Accepted})
  {
    hide Run, AllInOrder;
    var w := Run(EMPTY, events);
    RunKeeps(events);
    RunInOrder(events);
    OrderOf(w, c);
    SentHolds(w, c, id);
  }

  lemma OrderOf(w: World, c: ChannelId)
    requires AllInOrder(w) && c in w.channels
    ensures var sent := w.channels[c].sent; forall i, j :: 0 <= i < j < |sent| ==> sent[i].id < sent[j].id
  {
  }

  lemma SentHolds(w: World, c: ChannelId, id: SendId)
    requires Inv(w) && c in w.channels
    ensures var sent := w.channels[c].sent;
            && (w.channels[c].dropped ==> sent == Taken(w.channels[c].delivered))
            && (Holds(sent, id) ==> id in w.sends && w.sends[id].channel == c && w.sends[id].state in {Waiting, Accepted})
            && (!w.channels[c].dropped && id in w.sends && w.sends[id].channel == c && w.sends[id].state in {Waiting, Accepted} ==> Holds(sent, id))
  {
    hide Linked, Local, ChannelOk, SendsOk;
    AtChannel(w.channels, w.sends, c);
    var ch := w.channels[c];
    SentParts(ch);
    if Holds(ch.sent, id) {
      var m :| m in ch.sent && m.id == id;
      SentKnown(ch, c, w.sends, m);
    }
    if id in w.sends && w.sends[id].channel == c {
      KeptAt(w, id);
    }
  }

  lemma SentParts(ch: Channel)
    requires ChannelOk(ch)
    ensures ch.dropped ==> ch.sent == Taken(ch.delivered)
    ensures forall id {:trigger Holds(ch.sent, id)} ::
              Holds(ch.senders, id) || Holds(Taken(ch.delivered) + ch.messages, id) ==> Holds(ch.sent, id)
  {
    forall m | m in ch.senders || m in Taken(ch.delivered) + ch.messages ensures m in ch.sent {
      assert ch.sent == Taken(ch.delivered) + ch.messages + ch.senders;
    }
  }

  lemma KeptAt(w: World, id: SendId)
    requires Inv(w) && id in w.sends
    ensures SendKept(w.channels, id, w.sends[id])
  {
    hide Linked, ChannelOk, SendsOk, SendKept;
  }
}
