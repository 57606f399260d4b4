/** How channels end, and what holds over whole runs of channels, receives and selects. */
module ChannelLifetimes {
  import opened ChannelProtocol
  import opened ChannelRuns

  /* ---------- ending the senders ---------- */

  lemma {:induction false} SettledAt(sends: map<SendId, Send>, messages: seq<Message>, state: SendState, i: SendId)
    requires i in sends
    ensures SettleAll(sends, messages, state)[i] == if Holds(messages, i) then sends[i].(state := state) else sends[i]
  {
    if messages != [] {
      var rest, m := messages[..|messages| - 1], messages[|messages| - 1];
      SettledAt(sends, rest, state, i);
      assert messages == rest + [m];
      assert Holds(messages, i) <==> Holds(rest, i) || m.id == i by {
        assert m in messages;
        if Holds(rest, i) {
          var x :| x in rest && x.id == i;
          assert x in messages;
        }
      }
    }
  }

  /** Closing a channel and settling its waiting senders, before its receivers leave. */
  function Shut(ch: Channel): Channel {
    ch.(closed := true, senders := [], sent := ch.sent[..Max(|ch.sent| - |ch.senders|)])
  }

  lemma ShutOk(ch: Channel, c: ChannelId, sends: map<SendId, Send>, state: SendState)
    requires ChannelOk(ch) && SendsOk(ch, c, sends)
    ensures ChannelOk(Settled(Shut(ch), true)) && Shut(ch).sent == Taken(ch.delivered) + ch.messages
    ensures SendsOk(Shut(ch), c, SettleAll(sends, ch.senders, state))
  {
    var prefix := Taken(ch.delivered) + ch.messages;
    assert ch.sent[..|prefix|] == prefix;
    forall x | x in prefix ensures !Holds(ch.senders, x.id) {
      var i :| 0 <= i < |prefix| && prefix[i] == x;
      assert ch.sent[i] == x;
      forall m | m in ch.senders ensures m.id != x.id {
        var j :| 0 <= j < |ch.senders| && ch.senders[j] == m;
        assert ch.sent[|prefix| + j] == m;
      }
    }
    forall m | m in ch.messages ensures SettleAll(sends, ch.senders, state)[m.id] == sends[m.id] {
      assert m in prefix;
      SettledAt(sends, ch.senders, state, m.id);
    }
    forall d | d in ch.delivered ensures SettleAll(sends, ch.senders, state)[d.message.id] == sends[d.message.id] {
      var i :| 0 <= i < |ch.delivered| && ch.delivered[i] == d;
      assert prefix[i] == d.message;
      SettledAt(sends, ch.senders, state, d.message.id);
    }
  }

  lemma ShutKept(channels: map<ChannelId, Channel>, c: ChannelId, sends: map<SendId, Send>, state: SendState, i: SendId)
    requires c in channels && i in sends && sends[i].channel == c && SendKept(channels, i, sends[i]) && state in {Refused, Cancelled}
    ensures SendKept(channels[c := Shut(channels[c])], i, SettleAll(sends, channels[c].senders, state)[i])
  {
    SettledAt(sends, channels[c].senders, state, i);
  }

  lemma ShutKeeps(w: World, c: ChannelId, state: SendState)
    requires Inv(w) && c in w.channels && state in {Refused, Cancelled}
    ensures var t := EndSenders(w.(channels := w.channels[c := w.channels[c].(closed := true)]), c, state);
            && t == w.(channels := w.channels[c := Shut(w.channels[c])], sends := SettleAll(w.sends, w.channels[c].senders, state))
            && Local(t.channels, t.sends, {c}) && Linked(t.channels, t.selects) && NamesOk(t)
  {
    hide Linked, Local, ChannelOk, SendsOk, SendKept, SettleAll, OthersLoseWaiters, OtherSends;
    var ch, sends' := w.channels[c], SettleAll(w.sends, w.channels[c].senders, state);
    AtChannel(w.channels, w.sends, c);
    ShutOk(ch, c, w.sends, state);
    forall i | i in sends' && sends'[i].channel == c ensures SendKept(w.channels[c := Shut(ch)], i, sends'[i]) {
      SettledAt(w.sends, ch.senders, state, i);
      ShutKept(w.channels, c, w.sends, state, i);
    }
    SettledElsewhere(ch, c, w.sends, state);
    LoseNone(w.channels, w.channels[c := Shut(ch)], c);
    LocalStep(w.channels, w.sends, w.channels[c := Shut(ch)], sends', c, {}, {c});
    QuietLinked(w.channels, w.selects, c, Shut(ch));
  }

  lemma SettledElsewhere(ch: Channel, c: ChannelId, sends: map<SendId, Send>, state: SendState)
    requires SendsOk(ch, c, sends)
    ensures OtherSends(sends, SettleAll(sends, ch.senders, state), c)
  {
    forall i | i in sends
      ensures SettleAll(sends, ch.senders, state)[i].channel == sends[i].channel
      ensures sends[i].channel != c ==> SettleAll(sends, ch.senders, state)[i] == sends[i]
    {
      SettledAt(sends, ch.senders, state, i);
    }
  }

  /* ---------- ending the receivers ---------- */

  ghost predicate InvEnding(w: World, c: ChannelId) {
    c in w.channels && Local(w.channels, w.sends, {c}) && Linked(w.channels, w.selects) && NamesOk(w)
  }

  lemma PopKeeps(w: World, c: ChannelId)
    requires InvEnding(w, c) && w.channels[c].receivers != []
    ensures var ch := w.channels[c].(receivers := w.channels[c].receivers[1..]); InvEnding(w.(channels := w.channels[c := ch]), c)
    ensures IsPending(w, w.channels[c].receivers[0].select)
  {
    hide Linked, Local, ChannelOk, SendsOk, SendKept;
    var ch := w.channels[c].(receivers := w.channels[c].receivers[1..]);
    AtWaiters(w.channels, w.selects, c);
    assert w.channels[c].receivers[0] in w.channels[c].receivers;
    AtEnding(w.channels, w.sends, c, ch);
    LocalStep(w.channels, w.sends, w.channels[c := ch], w.sends, c, {c}, {c});
    QuietLinked(w.channels, w.selects, c, ch);
  }

  lemma AtEnding(channels: map<ChannelId, Channel>, sends: map<SendId, Send>, c: ChannelId, ch: Channel)
    requires Local(channels, sends, {c}) && c in channels && ch == channels[c].(receivers := ch.receivers)
    ensures ChannelOk(Settled(ch, true)) && SendsOk(ch, c, sends)
    ensures forall i :: i in sends && sends[i].channel == c ==> SendKept(channels[c := ch], i, sends[i])
  {
    hide ChannelOk;
    assert Settled(ch, true) == Settled(channels[c], true);
    forall i | i in sends && sends[i].channel == c ensures SendKept(channels[c := ch], i, sends[i]) {
      assert SendKept(channels, i, sends[i]);
    }
  }

  lemma {:induction false} EndReceiversKeeps(w: World, c: ChannelId, rejected: bool)
    requires InvEnding(w, c)
    ensures Inv(EndReceivers(w, c, rejected))
    ensures EndReceivers(w, c, rejected).channels[c] == w.channels[c].(receivers := [])
    decreases |w.channels[c].receivers|
  {
    hide Linked, Local;
    var ch := w.channels[c];
    if ch.receivers == [] {
      EndedLocal(w, c);
    } else {
      var waiter := ch.receivers[0];
      var t := w.(channels := w.channels[c := ch.(receivers := ch.receivers[1..])]);
      PopKeeps(w, c);
      EndOne(t, waiter.select, if rejected then Rejected else Ended(waiter.arm), c);
      EndReceiversKeeps(Decide(t, waiter.select, if rejected then Rejected else Ended(waiter.arm)), c, rejected);
    }
  }

  lemma EndedLocal(w: World, c: ChannelId)
    requires InvEnding(w, c) && w.channels[c].receivers == []
    ensures Inv(w)
  {
    hide ChannelOk, SendsOk, SendKept, Linked;
    assert Settled(w.channels[c], true) == w.channels[c];
    forall k | k in w.channels ensures ChannelOk(Settled(w.channels[k], false)) {
      assert ChannelOk(Settled(w.channels[k], k in {c}));
    }
  }

  lemma EndOne(w: World, s: SelectId, outcome: Outcome, c: ChannelId)
    requires InvEnding(w, c) && IsPending(w, s) && !outcome.Got?
    ensures InvEnding(Decide(w, s, outcome), c)
    ensures |Decide(w, s, outcome).channels[c].receivers| <= |w.channels[c].receivers|
    ensures Decide(w, s, outcome).channels[c].(receivers := []) == w.channels[c].(receivers := [])
  {
    hide Linked, Local;
    DecideKeeps(w, s, outcome, {c});
  }

  lemma CloseKeeps(w: World, c: ChannelId)
    requires Inv(w) && c in w.channels
    ensures Inv(Close(w, c)) && c in Close(w, c).channels && Close(w, c).channels[c].closed
    ensures Close(w, c).channels[c].senders == [] && Close(w, c).channels[c].receivers == []
  {
    hide Linked, Local, EndReceivers, EndSenders, SettleAll;
    if w.channels[c].closed {
      AtChannel(w.channels, w.sends, c);
    } else {
      ShutKeeps(w, c, Refused);
      var t := EndSenders(w.(channels := w.channels[c := w.channels[c].(closed := true)]), c, Refused);
      assert InvEnding(t, c);
      EndReceiversKeeps(t, c, false);
    }
  }

  /** An ended channel without its buffer. */
  function Emptied(ch: Channel, aborted: bool): Channel {
    ch.(messages := [], dropped := true, sent := ch.sent[..Max(|ch.sent| - |ch.messages|)], aborted := aborted)
  }

  lemma EmptiedOk(ch: Channel, c: ChannelId, sends: map<SendId, Send>, aborted: bool)
    requires ChannelOk(ch) && SendsOk(ch, c, sends) && ch.closed && ch.senders == [] && ch.receivers == []
    ensures ChannelOk(Emptied(ch, aborted)) && SendsOk(Emptied(ch, aborted), c, sends)
  {
    var prefix := Taken(ch.delivered);
    assert ch.sent == prefix + ch.messages;
    assert ch.sent[..|prefix|] == prefix;
  }

  lemma EmptiedKept(channels: map<ChannelId, Channel>, c: ChannelId, aborted: bool, i: SendId, send: Send)
    requires c in channels && send.channel == c && SendKept(channels, i, send)
    ensures SendKept(channels[c := Emptied(channels[c], aborted)], i, send)
  {
  }

  lemma DiscardKeeps(w: World, c: ChannelId, aborted: bool)
    requires Inv(w) && c in w.channels && w.channels[c].closed && w.channels[c].senders == [] && w.channels[c].receivers == []
    ensures Inv(w.(channels := w.channels[c := Emptied(w.channels[c], aborted)]))
  {
    hide Linked, Local, ChannelOk, SendsOk, SendKept;
    var ch := w.channels[c];
    AtChannel(w.channels, w.sends, c);
    EmptiedOk(ch, c, w.sends, aborted);
    forall i | i in w.sends && w.sends[i].channel == c ensures SendKept(w.channels[c := Emptied(ch, aborted)], i, w.sends[i]) {
      EmptiedKept(w.channels, c, aborted, i, w.sends[i]);
    }
    LocalStep(w.channels, w.sends, w.channels[c := Emptied(ch, aborted)], w.sends, c, {}, {});
    QuietLinked(w.channels, w.selects, c, Emptied(ch, aborted));
  }

  lemma DisposeKeeps(w: World, c: ChannelId)
    requires Inv(w) && c in w.channels
    ensures Inv(Dispose(w, c))
  {
    hide Inv, Close;
    CloseKeeps(w, c);
    var t := Close(w, c);
    DiscardKeeps(t, c, t.channels[c].aborted);
    assert Discard(t, c).channels == t.channels[c := Emptied(t.channels[c], t.channels[c].aborted)];
  }

  lemma AbortKeeps(w: World, c: ChannelId)
    requires Inv(w) && c in w.channels
    ensures Inv(Abort(w, c))
  {
    hide Inv, EndReceivers, EndSenders, SettleAll, Local, Linked, NamesOk;
    ShutKeeps(w, c, Cancelled);
    var t := EndSenders(w.(channels := w.channels[c := w.channels[c].(closed := true)]), c, Cancelled);
    assert InvEnding(t, c);
    EndReceiversKeeps(t, c, true);
    var u := EndReceivers(t, c, true);
    DiscardKeeps(u, c, true);
    assert Abort(w, c).channels == u.channels[c := Emptied(u.channels[c], true)];
  }

  lemma OpenKeeps(w: World, capacity: nat)
    requires Inv(w)
    ensures Inv(Open(w, capacity))
  {
    var t := Open(w, capacity);
    forall k | k in t.channels ensures ChannelOk(t.channels[k]) && SendsOk(t.channels[k], k, t.sends) {
      if k in w.channels { assert ChannelOk(Settled(w.channels[k], false)) && SendsOk(w.channels[k], k, w.sends); }
    }
    forall i | i in t.sends ensures SendKept(t.channels, i, t.sends[i]) {
      assert SendKept(w.channels, i, w.sends[i]);
    }
    forall s | s in t.selects ensures GotOk(t.channels, s, t.selects[s]) {
      assert GotOk(w.channels, s, w.selects[s]);
    }
  }

  lemma StepKeeps(w: World, e: Event)
    requires Inv(w)
    ensures Inv(Step(w, e))
  {
    hide Inv, StartSend, StartSelect, CancelSend, Close, Dispose, Abort, Open, Decide;
    match e
    case Opening(capacity) => OpenKeeps(w, capacity);
    case Sending(c, value) => if c in w.channels { SendKeeps(w, c, value); }
    case CancellingSend(c, m) => CancelSendKeeps(w, c, m);
    case Selecting(arms) => if Known(w, arms) { StartSelectKeeps(w, arms); }
    case CancellingSelect(s) => if IsPending(w, s) { DecideInv(w, s, Rejected); }
    case TimerFires(s, arm) => if IsPending(w, s) { DecideInv(w, s, TimedOut(arm)); }
    case TimerFails(s) => if IsPending(w, s) { DecideInv(w, s, Rejected); }
    case Closing(c) => if c in w.channels { CloseKeeps(w, c); }
    case Disposing(c) => if c in w.channels { DisposeKeeps(w, c); }
    case Aborting(c) => if c in w.channels { AbortKeeps(w, c); }
  }

  lemma {:induction false} RunKeeps(events: seq<Event>)
    ensures Inv(Run(EMPTY, events))
  {
    hide Inv, Step;
    if events == [] {
      EmptyOk();
    } else {
      RunKeeps(events[..|events| - 1]);
      StepKeeps(Run(EMPTY, events[..|events| - 1]), events[|events| - 1]);
    }
  }

  lemma EmptyOk()
    ensures Inv(EMPTY)
  {
  }

  /* ---------- what holds in every reachable state ---------- */

  /** A channel is a bounded queue: what was delivered, then the buffer, then the waiting senders'
      messages, is what was sent. Receivers wait only on an empty open channel, senders only behind
      a full buffer. */
  lemma ChannelsAreBoundedQueues(events: seq<Event>, c: ChannelId)
    requires c in Run(EMPTY, events).channels
    ensures var ch := Run(EMPTY, events).channels[c];
            && Taken(ch.delivered) + ch.messages + ch.senders == ch.sent
            && |ch.messages| <= ch.capacity
            && (ch.receivers != [] ==> ch.messages == [] && ch.senders == [] && !ch.closed)
            && (ch.senders != [] ==> |ch.messages| == ch.capacity && !ch.closed)
  {
    RunKeeps(events);
    AtChannel(Run(EMPTY, events).channels, Run(EMPTY, events).sends, c);
  }

  /** A select gets at most one message over all channels, and a message goes to at most one select. */
  lemma OneMessagePerSelect(events: seq<Event>, c: ChannelId, i: nat, d: ChannelId, j: nat)
    requires var w := Run(EMPTY, events);
             c in w.channels && i < |w.channels[c].delivered| && d in w.channels && j < |w.channels[d].delivered|
    requires var w := Run(EMPTY, events);
             w.channels[c].delivered[i].select == w.channels[d].delivered[j].select
             || w.channels[c].delivered[i].message.id == w.channels[d].delivered[j].message.id
    ensures c == d && i == j
    ensures var w := Run(EMPTY, events);
            var delivery := w.channels[c].delivered[i];
            delivery.select in w.selects && w.selects[delivery.select].outcome.Got? && w.selects[delivery.select].outcome.message == delivery.message
  {
    RunKeeps(events);
    var w := Run(EMPTY, events);
    hide Inv, Run;
    OneMessage(w, c, i, d, j);
  }

  lemma OneMessage(w: World, c: ChannelId, i: nat, d: ChannelId, j: nat)
    requires Inv(w) && c in w.channels && i < |w.channels[c].delivered| && d in w.channels && j < |w.channels[d].delivered|
    requires w.channels[c].delivered[i].select == w.channels[d].delivered[j].select
             || w.channels[c].delivered[i].message.id == w.channels[d].delivered[j].message.id
    ensures c == d && i == j
    ensures var delivery := w.channels[c].delivered[i];
            delivery.select in w.selects && w.selects[delivery.select].outcome.Got? && w.selects[delivery.select].outcome.message == delivery.message
  {
    hide ChannelOk, SendKept, WaitersOk, GotOk;
    var x, y := w.channels[c].delivered[i], w.channels[d].delivered[j];
    AtChannel(w.channels, w.sends, c);
    AtChannel(w.channels, w.sends, d);
    assert x in w.channels[c].delivered && y in w.channels[d].delivered;
    assert DeliveriesOk(w.channels[c], c, w.selects) && DeliveriesOk(w.channels[d], d, w.selects);
    assert c == d;
    SentAt(w.channels[c], i);
    SentAt(w.channels[c], j);
  }

  lemma SentAt(ch: Channel, i: nat)
    requires ChannelOk(ch) && i < |ch.delivered|
    ensures i < |ch.sent| && ch.sent[i] == ch.delivered[i].message
  {
    assert Taken(ch.delivered)[i] == ch.delivered[i].message;
  }

  /** An accepted message was delivered or is still buffered, unless its channel dropped its buffer;
      a message that a select got was delivered to it. */
  lemma NothingIsLost(events: seq<Event>, id: SendId, s: SelectId)
    ensures var w := Run(EMPTY, events);
            && (id in w.sends && w.sends[id].state == Accepted ==>
                  && w.sends[id].channel in w.channels
                  && var ch := w.channels[w.sends[id].channel];
                     Holds(Taken(ch.delivered) + ch.messages, id) || ch.dropped)
            && (s in w.selects ==> GotOk(w.channels, s, w.selects[s]))
  {
    RunKeeps(events);
    hide ChannelOk, SendsOk, WaitersOk, DeliveriesOk, Run;
    var w := Run(EMPTY, events);
    assert id in w.sends ==> SendKept(w.channels, id, w.sends[id]);
  }

  /** A select that is decided waits nowhere. */
  lemma LosersDoNotWait(events: seq<Event>, c: ChannelId, x: Waiter)
    requires c in Run(EMPTY, events).channels && x in Run(EMPTY, events).channels[c].receivers
    ensures IsPending(Run(EMPTY, events), x.select)
  {
    RunKeeps(events);
    AtWaiters(Run(EMPTY, events).channels, Run(EMPTY, events).selects, c);
  }

  /* ---------- decisions are final ---------- */

  /** Selects keep their arms, and decided ones their outcome. */
  ghost predicate Final(w: World, t: World) {
    forall s :: s in w.selects ==>
      && s in t.selects && t.selects[s].arms == w.selects[s].arms
      && (!w.selects[s].outcome.Pending? ==> t.selects[s].outcome == w.selects[s].outcome)
  }

  lemma {:induction false} RegisterArmsFinal(w: World, s: SelectId, arms: seq<Arm>, i: nat)
    requires s in w.selects && i <= |arms| && Known(w, arms)
    ensures Final(w, RegisterArms(w, s, arms, i))
    decreases |arms| - i
  {
    if i < |arms| && IsPending(w, s) {
      if arms[i].Receive? {
        assert arms[i] in arms;
        var t := Register(w, s, i, arms[i].channel);
        assert t.channels.Keys == w.channels.Keys;
        RegisterArmsFinal(t, s, arms, i + 1);
      } else if !arms[i].fails {
        RegisterArmsFinal(w, s, arms, i + 1);
      }
    }
  }

  lemma {:induction false} OfferFinal(w: World, c: ChannelId, m: Message)
    requires c in w.channels
    ensures Final(w, Offer(w, c, m).0)
    decreases |w.channels[c].receivers|
  {
    var ch := w.channels[c];
    if ch.receivers != [] && !IsPending(w, ch.receivers[0].select) {
      OfferFinal(w.(channels := w.channels[c := ch.(receivers := ch.receivers[1..])]), c, m);
    }
  }

  lemma {:induction false} EndReceiversFinal(w: World, c: ChannelId, rejected: bool)
    requires c in w.channels
    ensures Final(w, EndReceivers(w, c, rejected))
    decreases |w.channels[c].receivers|
  {
    var ch := w.channels[c];
    if ch.receivers != [] {
      var waiter := ch.receivers[0];
      var t := w.(channels := w.channels[c := ch.(receivers := ch.receivers[1..])]);
      EndReceiversFinal(if IsPending(t, waiter.select) then Decide(t, waiter.select, if rejected then Rejected else Ended(waiter.arm)) else t, c, rejected);
    }
  }

  lemma StepFinal(w: World, e: Event)
    requires NamesOk(w)
    ensures Final(w, Step(w, e))
  {
    hide RegisterArms, Offer, EndReceivers;
    match e
    case Sending(c, value) => if c in w.channels { OfferFinal(w.(next := w.next + 1), c, Message(w.next, value)); }
    case Selecting(arms) =>
      if Known(w, arms) {
        var t := w.(selects := w.selects[w.next := Select(arms, Pending)], next := w.next + 1);
        assert Known(t, arms);
        RegisterArmsFinal(t, w.next, arms, 0);
      }
    case Closing(c) => if c in w.channels { CloseFinal(w, c); }
    case Disposing(c) => if c in w.channels { CloseFinal(w, c); }
    case Aborting(c) =>
      if c in w.channels {
        EndReceiversFinal(EndSenders(w.(channels := w.channels[c := w.channels[c].(closed := true)]), c, Cancelled), c, true);
      }
    case _ =>
  }

  lemma CloseFinal(w: World, c: ChannelId)
    requires c in w.channels
    ensures Final(w, Close(w, c))
  {
    if !w.channels[c].closed {
      EndReceiversFinal(EndSenders(w.(channels := w.channels[c := w.channels[c].(closed := true)]), c, Refused), c, false);
    }
  }

  /** Once decided, a select keeps its one outcome whatever happens later: a cancelled or failed
      select never takes a message. */
  lemma {:induction false} DecisionsAreFinal(w: World, events: seq<Event>)
    requires Inv(w)
    ensures Inv(Run(w, events)) && Final(w, Run(w, events))
    decreases |events|
  {
    hide Inv, Step;
    if events != [] {
      var before, e := events[..|events| - 1], events[|events| - 1];
      DecisionsAreFinal(w, before);
      StepKeeps(Run(w, before), e);
      assert NamesOk(Run(w, before)) by { InvNames(Run(w, before)); }
      StepFinal(Run(w, before), e);
    }
  }

  lemma InvNames(w: World)
    requires Inv(w)
    ensures NamesOk(w)
  {
  }

  /* ---------- a closed channel ---------- */

  /** A closed channel only drains: nothing is sent any more, and unless the buffer is dropped what
      was sent keeps its order while deliveries go on from the front. */
  ghost predicate Drains(ch: Channel, ch': Channel) {
    && ch.closed ==>
         && ch'.closed && ch.delivered <= ch'.delivered
         && (ch'.dropped || ch'.sent == ch.sent)
         && (ch.dropped ==> ch'.dropped) && (ch.messages == [] ==> ch'.messages == [])
  }

  ghost predicate AllDrain(w: World, t: World) {
    t.channels.Keys == w.channels.Keys && forall c :: c in w.channels ==> Drains(w.channels[c], t.channels[c])
  }

  lemma DrainsTrans(w: World, t: World, u: World)
    requires AllDrain(w, t) && AllDrain(t, u)
    ensures AllDrain(w, u)
  {
    forall c | c in w.channels ensures Drains(w.channels[c], u.channels[c]) {
      assert Drains(w.channels[c], t.channels[c]) && Drains(t.channels[c], u.channels[c]);
    }
  }

  lemma RegisterDrains(w: World, s: SelectId, arm: nat, c: ChannelId)
    requires Inv(w) && IsPending(w, s) && c in w.channels
    ensures AllDrain(w, Register(w, s, arm, c))
  {
    hide Linked, Local, ChannelOk, SendsOk;
    AtChannel(w.channels, w.sends, c);
    if !w.channels[c].aborted && (w.channels[c].messages != [] || w.channels[c].senders != []) {
      TakeOk(w.channels[c], s);
    }
  }

  lemma {:induction false} RegisterArmsDrain(w: World, s: SelectId, arms: seq<Arm>, i: nat)
    requires Inv(w) && s in w.selects && w.selects[s].arms == arms && i <= |arms| && Known(w, arms)
    ensures AllDrain(w, RegisterArms(w, s, arms, i))
    decreases |arms| - i
  {
    hide Inv, Register, Drains;
    Still(w);
    if i < |arms| && IsPending(w, s) {
      assert arms[i] in arms;
      if arms[i].Receive? {
        RegisterDrains(w, s, i, arms[i].channel);
        RegisterKeeps(w, s, i, arms[i].channel);
        RegisterSelects(w, s, i, arms[i].channel);
        RegisterArmsDrain(Register(w, s, i, arms[i].channel), s, arms, i + 1);
        DrainsTrans(w, Register(w, s, i, arms[i].channel), RegisterArms(w, s, arms, i));
      } else if arms[i].fails {
        DecideDrains(w, s, Rejected);
      } else {
        RegisterArmsDrain(w, s, arms, i + 1);
      }
    }
  }

  lemma Still(w: World)
    ensures AllDrain(w, w)
  {
  }

  lemma DecideDrains(w: World, s: SelectId, outcome: Outcome)
    requires s in w.selects
    ensures AllDrain(w, Decide(w, s, outcome))
  {
  }

  /** All channels but `c` at most lose waiters. */
  lemma {:induction false} OfferElsewhere(w: World, c: ChannelId, m: Message)
    requires c in w.channels
    ensures OthersLoseWaiters(w.channels, Offer(w, c, m).0.channels, c)
    decreases |w.channels[c].receivers|
  {
    var ch := w.channels[c];
    if ch.receivers != [] && !IsPending(w, ch.receivers[0].select) {
      OfferElsewhere(w.(channels := w.channels[c := ch.(receivers := ch.receivers[1..])]), c, m);
    }
  }

  lemma {:induction false} EndReceiversElsewhere(w: World, c: ChannelId, rejected: bool)
    requires c in w.channels
    ensures OthersLoseWaiters(w.channels, EndReceivers(w, c, rejected).channels, c)
    decreases |w.channels[c].receivers|
  {
    hide OthersLoseWaiters;
    var ch := w.channels[c];
    if ch.receivers == [] {
      LoseNone(w.channels, w.channels, c);
    } else {
      var waiter := ch.receivers[0];
      var t := w.(channels := w.channels[c := ch.(receivers := ch.receivers[1..])]);
      var u := if IsPending(t, waiter.select) then Decide(t, waiter.select, if rejected then Rejected else Ended(waiter.arm)) else t;
      LoseNone(w.channels, t.channels, c);
      DetachedWaiters(t.channels, waiter.select, c);
      LoseNone(t.channels, t.channels, c);
      EndReceiversElsewhere(u, c, rejected);
      LoseTrans(w.channels, t.channels, u.channels, c);
      LoseTrans(w.channels, u.channels, EndReceivers(w, c, rejected).channels, c);
    }
  }

  lemma LoseNone(channels: map<ChannelId, Channel>, channels': map<ChannelId, Channel>, c: ChannelId)
    requires channels'.Keys == channels.Keys && forall k :: k in channels && k != c ==> channels'[k] == channels[k]
    ensures OthersLoseWaiters(channels, channels', c)
  {
  }

  lemma LoseTrans(a: map<ChannelId, Channel>, b: map<ChannelId, Channel>, d: map<ChannelId, Channel>, c: ChannelId)
    requires OthersLoseWaiters(a, b, c) && OthersLoseWaiters(b, d, c)
    ensures OthersLoseWaiters(a, d, c)
  {
    forall k | k in a && k != c ensures FewerWaiters(a[k], d[k]) {
      assert FewerWaiters(a[k], b[k]) && FewerWaiters(b[k], d[k]);
    }
  }

  lemma ElsewhereDrains(w: World, t: World, c: ChannelId)
    requires c in w.channels && OthersLoseWaiters(w.channels, t.channels, c) && Drains(w.channels[c], t.channels[c])
    ensures AllDrain(w, t)
  {
    forall k | k in w.channels ensures Drains(w.channels[k], t.channels[k]) {
      assert k != c ==> FewerWaiters(w.channels[k], t.channels[k]);
    }
  }

  lemma CloseDrains(w: World, c: ChannelId)
    requires Inv(w) && c in w.channels
    ensures AllDrain(w, Close(w, c))
  {
    hide Inv, EndReceivers, SettleAll, Drains;
    Still(w);
    if !w.channels[c].closed {
      var t := EndSenders(w.(channels := w.channels[c := w.channels[c].(closed := true)]), c, Refused);
      EndReceiversElsewhere(t, c, false);
      OpenDrains(w.channels[c], Close(w, c).channels[c]);
      ElsewhereDrains(w, Close(w, c), c);
    }
  }

  lemma OpenDrains(ch: Channel, ch': Channel)
    requires !ch.closed
    ensures Drains(ch, ch')
  {
  }

  lemma AbortDrains(w: World, c: ChannelId)
    requires Inv(w) && c in w.channels
    ensures AllDrain(w, Abort(w, c))
  {
    hide Inv, EndReceivers, EndSenders, SettleAll, Local, Linked, NamesOk;
    ShutKeeps(w, c, Cancelled);
    var t := EndSenders(w.(channels := w.channels[c := w.channels[c].(closed := true)]), c, Cancelled);
    assert InvEnding(t, c);
    EndReceiversKeeps(t, c, true);
    EndReceiversElsewhere(t, c, true);
    ElsewhereDrains(w, Abort(w, c), c);
  }

  lemma StepDrains(w: World, e: Event)
    requires Inv(w) && !e.Opening?
    ensures AllDrain(w, Step(w, e))
  {
    hide Inv, RegisterArms, Offer, EndReceivers, Close, Abort, Drains;
    Still(w);
    match e
    case Sending(c, value) => if c in w.channels { SendDrains(w, c, value); }
    case CancellingSend(c, m) => CancelDrains(w, c, m);
    case Selecting(arms) =>
      if Known(w, arms) {
        var t := w.(selects := w.selects[w.next := Select(arms, Pending)], next := w.next + 1);
        StartedInv(w, arms);
        assert Known(t, arms);
        RegisterArmsDrain(t, w.next, arms, 0);
        assert AllDrain(t, StartSelect(w, arms));
      }
    case CancellingSelect(s) => if IsPending(w, s) { DecideDrains(w, s, Rejected); }
    case TimerFires(s, arm) => if IsPending(w, s) { DecideDrains(w, s, TimedOut(arm)); }
    case TimerFails(s) => if IsPending(w, s) { DecideDrains(w, s, Rejected); }
    case Closing(c) => if c in w.channels { CloseDrains(w, c); }
    case Disposing(c) => if c in w.channels { DisposeDrains(w, c); }
    case Aborting(c) => if c in w.channels { AbortDrains(w, c); }
  }

  lemma StartedInv(w: World, arms: seq<Arm>)
    requires Inv(w) && Known(w, arms)
    ensures Inv(w.(selects := w.selects[w.next := Select(arms, Pending)], next := w.next + 1))
  {
    hide Local;
    var t := w.(selects := w.selects[w.next := Select(arms, Pending)], next := w.next + 1);
    forall k | k in t.channels ensures WaitersOk(t.channels[k], k, t.selects) && DeliveriesOk(t.channels[k], k, t.selects) {
      assert WaitersOk(w.channels[k], k, w.selects) && DeliveriesOk(w.channels[k], k, w.selects);
    }
    forall r | r in t.selects ensures GotOk(t.channels, r, t.selects[r]) {
      if r != w.next { assert GotOk(w.channels, r, w.selects[r]); }
    }
  }

  lemma DisposeDrains(w: World, c: ChannelId)
    requires Inv(w) && c in w.channels
    ensures AllDrain(w, Dispose(w, c))
  {
    hide Inv, Close;
    CloseDrains(w, c);
    CloseKeeps(w, c);
    var t := Close(w, c);
    assert AllDrain(t, Discard(t, c));
    DrainsTrans(w, t, Discard(t, c));
  }

  lemma SendDrains(w: World, c: ChannelId, value: int)
    requires Inv(w) && c in w.channels
    ensures AllDrain(w, StartSend(w, c, value))
  {
    hide Inv, Offer;
    var t := w.(next := w.next + 1);
    if !w.channels[c].aborted && !w.channels[c].closed {
      OfferElsewhere(t, c, Message(w.next, value));
      OpenDrains(w.channels[c], StartSend(w, c, value).channels[c]);
      ElsewhereDrains(w, StartSend(w, c, value), c);
    }
  }

  lemma CancelDrains(w: World, c: ChannelId, m: Message)
    requires Inv(w)
    ensures AllDrain(w, CancelSend(w, c, m))
  {
    hide Linked, Local, SendsOk;
    if c in w.channels {
      AtChannel(w.channels, w.sends, c);
    }
  }

  lemma {:induction false} ClosedDrainsForEver(w: World, events: seq<Event>, c: ChannelId)
    requires Inv(w) && c in w.channels && w.channels[c].closed
    ensures c in Run(w, events).channels && Drains(w.channels[c], Run(w, events).channels[c]) && Inv(Run(w, events))
    decreases |events|
  {
    hide Inv, Step;
    if events != [] {
      var before, e := events[..|events| - 1], events[|events| - 1];
      ClosedDrainsForEver(w, before, c);
      var t := Run(w, before);
      StepKeeps(t, e);
      if e.Opening? {
        OpenSame(t, e, c);
      } else {
        StepDrains(t, e);
      }
      assert Drains(t.channels[c], Step(t, e).channels[c]);
    }
  }

  lemma OpenSame(w: World, e: Event, c: ChannelId)
    requires Inv(w) && c in w.channels && e.Opening?
    ensures c in Step(w, e).channels && Step(w, e).channels[c] == w.channels[c]
  {
    InvNames(w);
  }

  /** A receive on a closed channel takes the oldest buffered message, and None once there is none. */
  lemma ReceiveOnClosed(w: World, c: ChannelId)
    requires Inv(w) && c in w.channels && w.channels[c].closed && !w.channels[c].aborted
    ensures var t := StartSelect(w, [Receive(c)]);
            && w.next in t.selects && c in t.channels
            && t.selects[w.next].outcome ==
               (if w.channels[c].messages != [] then Got(0, w.channels[c].messages[0]) else Ended(0))
            && t.channels[c].messages == if w.channels[c].messages != [] then w.channels[c].messages[1..] else []
  {
    hide Linked, Local, SendsOk;
    AtChannel(w.channels, w.sends, c);
    var arms := [Receive(c)];
    var t := w.(selects := w.selects[w.next := Select(arms, Pending)], next := w.next + 1);
    assert RegisterArms(t, w.next, arms, 0) == RegisterArms(Register(t, w.next, 0, c), w.next, arms, 1);
  }
}
