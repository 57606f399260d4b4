/** The channels, receives and selects of one runtime. Every method is the step of `ChannelProtocol`
    that it names; the loops are those of the mailbox and of the selection. */
module ChannelRuntimes {
  import opened ChannelProtocol
  import opened ChannelRuns
  import opened ChannelLifetimes

  /** The select waits only on channels that its arms name. */
  ghost predicate WaitsOnArms(channels: map<ChannelId, Channel>, arms: seq<Arm>, s: SelectId) {
    forall c, x :: c in channels && x in channels[c].receivers && x.select == s ==> Receive(c) in arms
  }

  class ChannelRuntime {
    var channels: map<ChannelId, Channel>
    var selects: map<SelectId, Select>
    var sends: map<SendId, ChannelProtocol.Send>
    var next: nat

    function View(): World
      reads this
    {
      World(channels, selects, sends, next)
    }

    ghost predicate Valid()
      reads this
    {
      Inv(View())
    }

    constructor ()
      ensures Valid() && View() == EMPTY
    {
      channels, selects, sends, next := map[], map[], map[], 0;
      new;
      EmptyOk();
    }

    method Open(capacity: nat) returns (c: ChannelId)
      requires Valid()
      modifies this
      ensures Valid() && View() == Step(old(View()), Opening(capacity)) && c !in old(channels) && c in channels
    {
      hide Inv;
      StepKeeps(View(), Opening(capacity));
      InvNames(View());
      c := next;
      channels := channels[c := Channel(capacity, [], [], [], false, false, [], [], false)];
      next := next + 1;
    }

    /** Unregisters a select from the sources of its arms. */
    method Detach(s: SelectId)
      requires s in selects && WaitsOnArms(channels, selects[s].arms, s)
      modifies `channels
      ensures channels == ChannelProtocol.Detach(old(channels), s)
    {
      var arms := selects[s].arms;
      ghost var before := channels;
      for i := 0 to |arms|
        invariant channels.Keys == before.Keys
        invariant forall c :: c in before ==>
                    channels[c] == if Receive(c) in arms[..i] then before[c].(receivers := Without(before[c].receivers, s)) else before[c]
      {
        assert arms[..i + 1] == arms[..i] + [arms[i]];
        if arms[i].Receive? && arms[i].channel in channels {
          var c := arms[i].channel;
          WithoutTwice(before[c].receivers, s);
          channels := channels[c := channels[c].(receivers := Without(channels[c].receivers, s))];
        }
      }
      assert arms[..|arms|] == arms;
      assert channels == ChannelProtocol.Detach(before, s);
    }

    lemma WithoutTwice(receivers: seq<Waiter>, s: SelectId)
      ensures Without(Without(receivers, s), s) == Without(receivers, s)
    {
    }

    /** The one decision of a select. */
    method Decide(s: SelectId, outcome: Outcome)
      requires s in selects && WaitsOnArms(channels, selects[s].arms, s)
      modifies `channels, `selects
      ensures View() == ChannelProtocol.Decide(old(View()), s, outcome)
    {
      selects := selects[s := selects[s].(outcome := outcome)];
      Detach(s);
    }

    lemma Arms(w: World, s: SelectId)
      requires Linked(w.channels, w.selects) && s in w.selects
      ensures WaitsOnArms(w.channels, w.selects[s].arms, s)
    {
      forall c, x | c in w.channels && x in w.channels[c].receivers && x.select == s ensures Receive(c) in w.selects[s].arms {
        assert WaitersOk(w.channels[c], c, w.selects);
      }
    }

    /** Registers one arm of a pending select. */
    method Register(s: SelectId, arm: nat, c: ChannelId)
      requires Valid() && IsPending(View(), s) && c in channels && arm < |selects[s].arms| && selects[s].arms[arm] == Receive(c)
      modifies this
      ensures Valid() && View() == ChannelProtocol.Register(old(View()), s, arm, c)
    {
      hide Local, Linked;
      RegisterKeeps(View(), s, arm, c);
      Arms(View(), s);
      var ch := channels[c];
      if ch.aborted {
        Decide(s, Rejected);
        return;
      }
      if Ready(ch) {
        if ch.messages == [] && ch.senders == [] {
          Decide(s, Ended(arm));
          return;
        }
        // The winner is taken before the other arms are unregistered.
        var message := TakeReady(c, s);
        Decide(s, Got(arm, message));
        return;
      }
      channels := channels[c := ch.(receivers := ch.receivers + [Waiter(s, arm)])];
    }

    /** Takes the oldest message; the oldest waiting sender moves up. */
    method TakeReady(c: ChannelId, s: SelectId) returns (message: Message)
      requires c in channels && (channels[c].messages != [] || channels[c].senders != [])
      modifies `channels, `sends
      ensures message == Head(old(channels)[c]) && channels == old(channels)[c := Take(old(channels)[c], s)]
      ensures sends == if old(channels)[c].senders != [] then Settle(old(sends), old(channels)[c].senders[0].id, Accepted) else old(sends)
    {
      hide Settle;
      var ch := channels[c];
      if ch.messages != [] {
        message := ch.messages[0];
        assert ch.messages[1..] + [] == ch.messages[1..];
        ch := ch.(messages := ch.messages[1..], delivered := ch.delivered + [Delivery(message, s)]);
        if ch.senders != [] {
          var sender := ch.senders[0];
          ch := ch.(senders := ch.senders[1..], messages := ch.messages + [sender]);
          sends := Settle(sends, sender.id, Accepted);
        }
      } else {
        message := ch.senders[0];
        ch := ch.(senders := ch.senders[1..], delivered := ch.delivered + [Delivery(message, s)]);
        sends := Settle(sends, message.id, Accepted);
      }
      channels := channels[c := ch];
    }

    method StartSelect(arms: seq<Arm>) returns (s: SelectId)
      requires Valid() && Known(View(), arms)
      modifies this
      ensures Valid() && View() == Step(old(View()), Selecting(arms)) && s == old(next)
    {
      hide Inv, ChannelProtocol.Register;
      ghost var w := View();
      StepKeeps(w, Selecting(arms));
      StartedInv(w, arms);
      s := next;
      selects := selects[s := Select(arms, Pending)];
      next := next + 1;
      ghost var start := View();
      var index := 0;
      while index < |arms| && selects[s].outcome.Pending?
        invariant index <= |arms| && Valid() && s in selects && selects[s].arms == arms && Known(View(), arms)
        invariant RegisterArms(View(), s, arms, index) == RegisterArms(start, s, arms, 0)
      {
        assert arms[index] in arms;
        if arms[index].Receive? {
          RegisterSelects(View(), s, index, arms[index].channel);
          RegisterKeeps(View(), s, index, arms[index].channel);
          Register(s, index, arms[index].channel);
        } else if arms[index].fails {
          PendingArms(View(), s);
          DecideInv(View(), s, Rejected);
          DecidedStops(View(), s, arms, index);
          Decide(s, Rejected);
        }
        index := index + 1;
      }
    }

    lemma PendingArms(w: World, s: SelectId)
      requires Inv(w) && s in w.selects
      ensures WaitsOnArms(w.channels, w.selects[s].arms, s)
    {
      hide Local, Linked;
      Arms(w, s);
    }

    lemma DecidedStops(w: World, s: SelectId, arms: seq<Arm>, i: nat)
      requires s in w.selects && i < |arms| && Known(w, arms) && IsPending(w, s) && arms[i] == Timer(true)
      ensures Known(ChannelProtocol.Decide(w, s, Rejected), arms)
      ensures RegisterArms(w, s, arms, i) == RegisterArms(ChannelProtocol.Decide(w, s, Rejected), s, arms, i + 1)
    {
    }

    /** Cancels a select, or fails one of its timers. */
    method CancelSelect(s: SelectId)
      requires Valid()
      modifies this
      ensures Valid() && View() == Step(old(View()), CancellingSelect(s)) && View() == Step(old(View()), TimerFails(s))
    {
      hide Inv, ChannelProtocol.Decide;
      StepKeeps(View(), CancellingSelect(s));
      if s !in selects || !selects[s].outcome.Pending? { return; }
      PendingArms(View(), s);
      Decide(s, Rejected);
    }

    method TimerFired(s: SelectId, arm: nat)
      requires Valid()
      modifies this
      ensures Valid() && View() == Step(old(View()), TimerFires(s, arm))
    {
      hide Inv, ChannelProtocol.Decide;
      StepKeeps(View(), TimerFires(s, arm));
      if s !in selects || !selects[s].outcome.Pending? { return; }
      if arm >= |selects[s].arms| || !selects[s].arms[arm].Timer? { return; }
      PendingArms(View(), s);
      Decide(s, TimedOut(arm));
    }

    /** Sends a message; the result says whether it was accepted at once. */
    method Send(c: ChannelId, value: int) returns (state: SendState)
      requires Valid() && c in channels
      modifies this
      ensures Valid() && View() == Step(old(View()), Sending(c, value))
      ensures old(next) in sends && sends[old(next)].state == state
    {
      hide Inv, Offer, ChannelProtocol.Decide;
      ghost var w := View();
      StepKeeps(w, Sending(c, value));
      InvNames(w);
      var m := Message(next, value);
      next := next + 1;
      if channels[c].aborted {
        sends := sends[m.id := ChannelProtocol.Send(c, Cancelled)];
        return Cancelled;
      }
      if channels[c].closed {
        sends := sends[m.id := ChannelProtocol.Send(c, Refused)];
        return Refused;
      }
      var taken := Offering(c, m, w);
      if taken {
        sends := sends[m.id := ChannelProtocol.Send(c, Accepted)];
        return Accepted;
      }
      var ch := channels[c];
      if |ch.messages| < ch.capacity {
        channels := channels[c := ch.(messages := ch.messages + [m], sent := ch.sent + [m])];
        sends := sends[m.id := ChannelProtocol.Send(c, Accepted)];
        return Accepted;
      }
      channels := channels[c := ch.(senders := ch.senders + [m], sent := ch.sent + [m])];
      sends := sends[m.id := ChannelProtocol.Send(c, Waiting)];
      state := Waiting;
    }

    /** The loop over queued receivers. */
    method Offering(c: ChannelId, m: Message, ghost w: World) returns (taken: bool)
      requires Inv(w) && c in channels && View() == w.(next := next)
      modifies `channels, `selects
      ensures (View(), taken) == Offer(old(View()), c, m)
    {
      hide Local, Linked;
      ghost var start := View();
      while channels[c].receivers != []
        invariant c in channels && Linked(channels, selects)
        invariant Offer(View(), c, m) == Offer(start, c, m)
        decreases |channels[c].receivers|
      {
        var ch := channels[c];
        var receiver := ch.receivers[0];
        FirstWaits(channels, selects, c);
        PopLinked(channels, selects, c);
        ghost var v := View();
        channels := channels[c := ch.(receivers := ch.receivers[1..])];
        if selects[receiver.select].outcome.Pending? {
          Arms(View(), receiver.select);
          channels := channels[c := channels[c].(delivered := ch.delivered + [Delivery(m, receiver.select)], sent := ch.sent + [m])];
          Decide(receiver.select, Got(receiver.arm, m));
          return true;
        }
      }
      taken := false;
    }

    lemma FirstWaits(channels: map<ChannelId, Channel>, selects: map<SelectId, Select>, c: ChannelId)
      requires Linked(channels, selects) && c in channels && channels[c].receivers != []
      ensures channels[c].receivers[0].select in selects
    {
      AtWaiters(channels, selects, c);
      assert channels[c].receivers[0] in channels[c].receivers;
    }

    lemma PopLinked(channels: map<ChannelId, Channel>, selects: map<SelectId, Select>, c: ChannelId)
      requires Linked(channels, selects) && c in channels && channels[c].receivers != []
      ensures Linked(channels[c := channels[c].(receivers := channels[c].receivers[1..])], selects)
    {
      hide Linked;
      QuietLinked(channels, selects, c, channels[c].(receivers := channels[c].receivers[1..]));
    }

    method CancelSend(c: ChannelId, m: Message)
      requires Valid()
      modifies this
      ensures Valid() && View() == Step(old(View()), CancellingSend(c, m))
    {
      hide Inv;
      StepKeeps(View(), CancellingSend(c, m));
      if c !in channels || m !in channels[c].senders { return; }
      var ch := channels[c];
      channels := channels[c := ch.(senders := Less(ch.senders, m), sent := Less(ch.sent, m))];
      sends := Settle(sends, m.id, Cancelled);
    }

    /** Drains the waiting senders of a channel. */
    method EndSenders(c: ChannelId, state: SendState)
      requires c in channels
      modifies `channels, `sends
      ensures View() == ChannelProtocol.EndSenders(old(View()), c, state)
    {
      hide SettleAll, Settle;
      var ch := channels[c];
      ghost var all, was := ch.senders, sends;
      var count := 0;
      NoneSettled(was, all, state);
      while ch.senders != []
        invariant count <= |all| && ch == old(channels)[c].(senders := all[count..]) && channels == old(channels)
        invariant sends == SettleAll(was, all[..count], state)
        decreases |ch.senders|
      {
        SettledNext(was, all, count, state);
        sends := Settle(sends, ch.senders[0].id, state);
        ch := ch.(senders := ch.senders[1..]);
        count := count + 1;
      }
      assert all[..count] == all;
      channels := channels[c := ch.(sent := ch.sent[..Max(|ch.sent| - count)])];
    }

    lemma NoneSettled(sends: map<SendId, ChannelProtocol.Send>, all: seq<Message>, state: SendState)
      ensures SettleAll(sends, all[..0], state) == sends
    {
    }

    lemma SettledNext(sends: map<SendId, ChannelProtocol.Send>, all: seq<Message>, count: nat, state: SendState)
      requires count < |all|
      ensures SettleAll(sends, all[..count + 1], state) == Settle(SettleAll(sends, all[..count], state), all[count].id, state)
    {
      assert all[..count + 1][..count] == all[..count];
    }

    /** Drains the queued receivers of a channel. */
    method EndReceivers(c: ChannelId, rejected: bool)
      requires InvEnding(View(), c)
      modifies `channels, `selects
      ensures Inv(View()) && View() == ChannelProtocol.EndReceivers(old(View()), c, rejected)
    {
      hide InvEnding, Inv;
      ghost var start := View();
      EndReceiversKeeps(start, c, rejected);
      HasChannel(start, c);
      while channels[c].receivers != []
        invariant InvEnding(View(), c) && c in channels
        invariant ChannelProtocol.EndReceivers(View(), c, rejected) == ChannelProtocol.EndReceivers(start, c, rejected)
        decreases |channels[c].receivers|
      {
        var ch := channels[c];
        var receiver := ch.receivers[0];
        PopKeeps(View(), c);
        channels := channels[c := ch.(receivers := ch.receivers[1..])];
        EndingArms(View(), c, receiver.select);
        EndOne(View(), receiver.select, if rejected then Rejected else Ended(receiver.arm), c);
        Decide(receiver.select, if rejected then Rejected else Ended(receiver.arm));
        HasChannel(View(), c);
      }
    }

    lemma HasChannel(w: World, c: ChannelId)
      requires InvEnding(w, c)
      ensures c in w.channels
    {
    }

    lemma EndingArms(w: World, c: ChannelId, s: SelectId)
      requires InvEnding(w, c) && s in w.selects
      ensures WaitsOnArms(w.channels, w.selects[s].arms, s)
    {
      hide Local, Linked;
      Arms(w, s);
    }

    method Close(c: ChannelId)
      requires Valid() && c in channels
      modifies this
      ensures Valid() && View() == ChannelProtocol.Close(old(View()), c) && View() == Step(old(View()), Closing(c))
    {
      hide Inv, ChannelProtocol.EndReceivers, ChannelProtocol.EndSenders, Local, Linked, NamesOk;
      CloseKeeps(View(), c);
      if channels[c].closed { return; }
      ShutKeeps(View(), c, Refused);
      channels := channels[c := channels[c].(closed := true)];
      EndSenders(c, Refused);
      EndReceivers(c, false);
    }

    method Clear(c: ChannelId)
      requires c in channels
      modifies `channels
      ensures View() == Discard(old(View()), c)
    {
      var ch := channels[c];
      channels := channels[c := ch.(messages := [], dropped := true, sent := ch.sent[..Max(|ch.sent| - |ch.messages|)])];
    }

    method Dispose(c: ChannelId)
      requires Valid() && c in channels
      modifies this
      ensures Valid() && View() == Step(old(View()), Disposing(c))
    {
      hide Inv, ChannelProtocol.Close;
      StepKeeps(View(), Disposing(c));
      CloseKeeps(View(), c);
      Close(c);
      Clear(c);
    }

    /** The channel's scope is cancelled. */
    method Abort(c: ChannelId)
      requires Valid() && c in channels
      modifies this
      ensures Valid() && View() == Step(old(View()), Aborting(c))
    {
      hide Inv, ChannelProtocol.EndReceivers, ChannelProtocol.EndSenders, Local, Linked, NamesOk;
      StepKeeps(View(), Aborting(c));
      ShutKeeps(View(), c, Cancelled);
      channels := channels[c := channels[c].(closed := true)];
      EndSenders(c, Cancelled);
      EndReceivers(c, true);
      Clear(c);
      channels := channels[c := channels[c].(aborted := true)];
    }
  }
}
