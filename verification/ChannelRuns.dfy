/** Channels are bounded queues, and a select takes at most one message, in every run. */
module ChannelRuns {
  import opened ChannelProtocol

  /* ---------- changing one channel ---------- */

  /** Other channels at most lose waiters. */
  ghost predicate OthersLoseWaiters(channels: map<ChannelId, Channel>, channels': map<ChannelId, Channel>, c: ChannelId) {
    && channels'.Keys == channels.Keys
    && forall k :: k in channels && k != c ==> FewerWaiters(channels[k], channels'[k])
  }

  ghost predicate FewerWaiters(ch: Channel, ch': Channel) {
    && ch' == ch.(receivers := ch'.receivers)
    && forall x :: x in ch'.receivers ==> x in ch.receivers
  }

  /** Sends of other channels are as before. */
  ghost predicate OtherSends(sends: map<SendId, Send>, sends': map<SendId, Send>, c: ChannelId) {
    forall i :: (i in sends && sends[i].channel != c) || (i in sends' && sends'[i].channel != c) ==>
      i in sends && i in sends' && sends'[i] == sends[i]
  }

  lemma FewerOk(ch: Channel, ch': Channel, ending: bool)
    requires ChannelOk(Settled(ch, ending)) && FewerWaiters(ch, ch')
    ensures ChannelOk(Settled(ch', ending))
  {
    if ch'.receivers != [] { assert ch'.receivers[0] in ch.receivers; }
  }

  lemma LocalStep(
    channels: map<ChannelId, Channel>, sends: map<SendId, Send>,
    channels': map<ChannelId, Channel>, sends': map<SendId, Send>, c: ChannelId, ending: set<ChannelId>, ending': set<ChannelId>)
    requires Local(channels, sends, ending) && c in channels && ending - {c} == ending' - {c}
    requires OthersLoseWaiters(channels, channels', c) && OtherSends(sends, sends', c)
    requires ChannelOk(Settled(channels'[c], c in ending')) && SendsOk(channels'[c], c, sends')
    requires forall i :: i in sends' && sends'[i].channel == c ==> SendKept(channels', i, sends'[i])
    ensures Local(channels', sends', ending')
  {
    hide ChannelOk, SendKept;
    forall k | k in channels' ensures ChannelOk(Settled(channels'[k], k in ending')) && SendsOk(channels'[k], k, sends') {
      if k != c {
        assert k in ending' <==> k in ending by { assert k in ending - {c} <==> k in ending' - {c}; }
        FewerOk(channels[k], channels'[k], k in ending);
        OtherSendsOk(channels[k], channels'[k], k, sends, sends', c);
      }
    }
    forall i | i in sends' ensures SendKept(channels', i, sends'[i]) {
      if sends'[i].channel != c {
        assert SendKept(channels, i, sends[i]);
        KeptElsewhere(channels, channels', c, i, sends[i]);
      }
    }
  }

  lemma OtherSendsOk(ch: Channel, ch': Channel, k: ChannelId, sends: map<SendId, Send>, sends': map<SendId, Send>, c: ChannelId)
    requires SendsOk(ch, k, sends) && k != c && OtherSends(sends, sends', c) && ch' == ch.(receivers := ch'.receivers)
    ensures SendsOk(ch', k, sends')
  {
  }

  lemma KeptElsewhere(channels: map<ChannelId, Channel>, channels': map<ChannelId, Channel>, c: ChannelId, i: SendId, send: Send)
    requires SendKept(channels, i, send) && send.channel != c && OthersLoseWaiters(channels, channels', c)
    ensures SendKept(channels', i, send)
  {
  }

  /** A decided select leaves all queues, and nothing else changes. */
  lemma DetachedWaiters(channels: map<ChannelId, Channel>, s: SelectId, c: ChannelId)
    ensures OthersLoseWaiters(channels, Detach(channels, s), c)
    ensures c in channels ==> FewerWaiters(channels[c], Detach(channels, s)[c])
  {
  }

  /* ---------- deciding a select ---------- */

  lemma DecideLinked(channels: map<ChannelId, Channel>, selects: map<SelectId, Select>, s: SelectId, outcome: Outcome)
    requires Linked(channels, selects) && s in selects && selects[s].outcome.Pending? && !outcome.Got?
    ensures Linked(Detach(channels, s), selects[s := selects[s].(outcome := outcome)])
  {
    var t, u := Detach(channels, s), selects[s := selects[s].(outcome := outcome)];
    forall k | k in t ensures WaitersOk(t[k], k, u) && DeliveriesOk(t[k], k, u) {
      assert WaitersOk(channels[k], k, selects) && DeliveriesOk(channels[k], k, selects);
    }
    forall r | r in u ensures GotOk(t, r, u[r]) {
      assert GotOk(channels, r, selects[r]);
    }
  }

  /** A message goes from channel `c` to select `s`. */
  lemma GotLinked(
    channels: map<ChannelId, Channel>, selects: map<SelectId, Select>, c: ChannelId, ch': Channel, s: SelectId, arm: nat, m: Message)
    requires Linked(channels, selects) && c in channels && s in selects && selects[s].outcome.Pending?
    requires arm < |selects[s].arms| && selects[s].arms[arm] == Receive(c)
    requires ch'.delivered == channels[c].delivered + [Delivery(m, s)]
    requires forall x :: x in ch'.receivers ==> x in channels[c].receivers
    ensures Linked(Detach(channels[c := ch'], s), selects[s := selects[s].(outcome := Got(arm, m))])
  {
    var t, u := Detach(channels[c := ch'], s), selects[s := selects[s].(outcome := Got(arm, m))];
    forall k | k in t ensures WaitersOk(t[k], k, u) && DeliveriesOk(t[k], k, u) {
      assert WaitersOk(channels[k], k, selects) && DeliveriesOk(channels[k], k, selects);
    }
    forall r | r in u ensures GotOk(t, r, u[r]) {
      assert GotOk(channels, r, selects[r]);
      if r == s {
        assert ch'.delivered[|ch'.delivered| - 1] == Delivery(m, s);
      } else if u[r].outcome.Got? && u[r].arms[u[r].outcome.arm].channel == c {
        assert Delivery(u[r].outcome.message, r) in channels[c].delivered;
      }
    }
  }

  lemma DecideKeeps(w: World, s: SelectId, outcome: Outcome, ending: set<ChannelId>)
    requires Local(w.channels, w.sends, ending) && Linked(w.channels, w.selects) && NamesOk(w) && IsPending(w, s) && !outcome.Got?
    ensures var t := Decide(w, s, outcome);
            Local(t.channels, t.sends, ending) && Linked(t.channels, t.selects) && NamesOk(t) && t.channels.Keys == w.channels.Keys
    ensures Decide(w, s, outcome).sends == w.sends && Decide(w, s, outcome).next == w.next
  {
    hide Linked, Local;
    DecideLinked(w.channels, w.selects, s, outcome);
    DetachedLocal(w.channels, w.sends, s, ending);
  }

  lemma DetachedLocal(channels: map<ChannelId, Channel>, sends: map<SendId, Send>, s: SelectId, ending: set<ChannelId>)
    requires Local(channels, sends, ending)
    ensures Local(Detach(channels, s), sends, ending)
  {
    hide ChannelOk;
    var t := Detach(channels, s);
    forall k | k in t ensures ChannelOk(Settled(t[k], k in ending)) && SendsOk(t[k], k, sends) {
      FewerOk(channels[k], t[k], k in ending);
    }
    forall i | i in sends ensures SendKept(t, i, sends[i]) {
      assert SendKept(channels, i, sends[i]);
    }
  }

  /* ---------- taking a message ---------- */

  lemma TakenSnoc(delivered: seq<Delivery>, d: Delivery)
    ensures Taken(delivered + [d]) == Taken(delivered) + [d.message]
  {
  }

  /** Taking hands out the oldest message and keeps the order of the rest. */
  lemma TakeOk(ch: Channel, s: SelectId)
    requires ChannelOk(ch) && (ch.messages != [] || ch.senders != [])
    ensures ChannelOk(Take(ch, s)) && Take(ch, s).receivers == [] && Take(ch, s).sent == ch.sent
    ensures Take(ch, s).delivered == ch.delivered + [Delivery(Head(ch), s)]
    ensures Head(ch) == (ch.messages + ch.senders)[0]
  {
    TakenSnoc(ch.delivered, Delivery(Head(ch), s));
    var t := Take(ch, s);
    assert ch.messages + ch.senders == [Head(ch)] + (t.messages + t.senders);
    Regroup(Taken(ch.delivered), [Head(ch)], t.messages + t.senders);
    Regroup(Taken(t.delivered), t.messages, t.senders);
    Regroup(Taken(ch.delivered), ch.messages, ch.senders);
  }

  /** The send states after a take: only the oldest waiting sender changes. */
  lemma TakeSends(ch: Channel, c: ChannelId, sends: map<SendId, Send>, s: SelectId)
    requires ChannelOk(ch) && SendsOk(ch, c, sends) && (ch.messages != [] || ch.senders != [])
    ensures SendsOk(Take(ch, s), c, if ch.senders != [] then Settle(sends, ch.senders[0].id, Accepted) else sends)
  {
    TakeOk(ch, s);
    if ch.senders != [] {
      var first, n := ch.senders[0], |Taken(ch.delivered) + ch.messages|;
      assert ch.sent[n] == first;
      forall m | m in ch.senders[1..] ensures m.id != first.id {
        var i :| 0 <= i < |ch.senders[1..]| && ch.senders[1..][i] == m;
        assert ch.sent[n + 1 + i] == m;
      }
    }
  }

  lemma TakeKept(channels: map<ChannelId, Channel>, channels': map<ChannelId, Channel>, c: ChannelId, sends: map<SendId, Send>, s: SelectId, i: SendId)
    requires c in channels && ChannelOk(channels[c]) && SendsOk(channels[c], c, sends)
    requires channels[c].messages != [] || channels[c].senders != []
    requires c in channels' && channels'[c] == Take(channels[c], s).(receivers := channels'[c].receivers)
    requires i in sends && sends[i].channel == c && SendKept(channels, i, sends[i])
    ensures SendKept(channels', i, (if channels[c].senders != [] then Settle(sends, channels[c].senders[0].id, Accepted) else sends)[i])
  {
    var ch, t := channels[c], Take(channels[c], s);
    TakeOk(ch, s);
    var before, after := Taken(ch.delivered) + ch.messages, Taken(t.delivered) + t.messages;
    TakenSnoc(ch.delivered, Delivery(Head(ch), s));
    assert after == before + (if ch.senders == [] then [] else [ch.senders[0]]) by {
      if ch.messages != [] {
        assert ch.messages == [ch.messages[0]] + ch.messages[1..];
      }
    }
    if ch.senders != [] {
      assert after[|before|] == ch.senders[0];
      assert ch.senders == [ch.senders[0]] + ch.senders[1..];
    }
  }

  lemma RegisterKeeps(w: World, s: SelectId, arm: nat, c: ChannelId)
    requires Inv(w) && IsPending(w, s) && c in w.channels && arm < |w.selects[s].arms| && w.selects[s].arms[arm] == Receive(c)
    ensures Inv(Register(w, s, arm, c)) && Register(w, s, arm, c).channels.Keys == w.channels.Keys
  {
    hide Linked, Local, ChannelOk, SendsOk;
    var ch := w.channels[c];
    if ch.aborted {
      DecideKeeps(w, s, Rejected, {});
    } else if ch.messages != [] || ch.senders != [] {
      RegisterTakes(w, s, arm, c);
    } else if ch.closed {
      DecideKeeps(w, s, Ended(arm), {});
    } else {
      RegisterWaits(w, s, arm, c);
    }
  }

  lemma AtChannel(channels: map<ChannelId, Channel>, sends: map<SendId, Send>, c: ChannelId)
    requires Local(channels, sends, {}) && c in channels
    ensures ChannelOk(channels[c]) && SendsOk(channels[c], c, sends)
    ensures forall i :: i in sends ==> SendKept(channels, i, sends[i])
  {
    hide ChannelOk, SendsOk, SendKept;
  }

  lemma RegisterTakes(w: World, s: SelectId, arm: nat, c: ChannelId)
    requires Inv(w) && IsPending(w, s) && c in w.channels && arm < |w.selects[s].arms| && w.selects[s].arms[arm] == Receive(c)
    requires !w.channels[c].aborted && (w.channels[c].messages != [] || w.channels[c].senders != [])
    ensures Inv(Register(w, s, arm, c)) && Register(w, s, arm, c).channels.Keys == w.channels.Keys
  {
    hide Linked, Local, ChannelOk, SendsOk, SendKept;
    var ch := w.channels[c];
    var t := w.channels[c := Take(ch, s)];
    var sends' := if ch.senders != [] then Settle(w.sends, ch.senders[0].id, Accepted) else w.sends;
    AtChannel(w.channels, w.sends, c);
    TakeOk(ch, s);
    TakeSends(ch, c, w.sends, s);
    forall i | i in sends' && sends'[i].channel == c ensures SendKept(t, i, sends'[i]) {
      TakeKept(w.channels, t, c, w.sends, s, i);
    }
    SettleElsewhere(ch, c, w.sends);
    LocalStep(w.channels, w.sends, t, sends', c, {}, {});
    DetachedLocal(t, sends', s, {});
    GotLinked(w.channels, w.selects, c, Take(ch, s), s, arm, Head(ch));
  }

  lemma SettleElsewhere(ch: Channel, c: ChannelId, sends: map<SendId, Send>)
    requires SendsOk(ch, c, sends)
    ensures OtherSends(sends, if ch.senders != [] then Settle(sends, ch.senders[0].id, Accepted) else sends, c)
    ensures ch.senders != [] ==> ch.senders[0].id in sends
  {
    if ch.senders != [] { assert ch.senders[0] in ch.senders; }
  }

  lemma RegisterWaits(w: World, s: SelectId, arm: nat, c: ChannelId)
    requires Inv(w) && IsPending(w, s) && c in w.channels && arm < |w.selects[s].arms| && w.selects[s].arms[arm] == Receive(c)
    requires !Ready(w.channels[c])
    ensures Inv(w.(channels := w.channels[c := w.channels[c].(receivers := w.channels[c].receivers + [Waiter(s, arm)])]))
  {
    hide Local, ChannelOk, SendsOk, SendKept;
    var ch := w.channels[c];
    var ch' := ch.(receivers := ch.receivers + [Waiter(s, arm)]);
    var t := w.channels[c := ch'];
    AtChannel(w.channels, w.sends, c);
    WaitingOk(ch, ch', c, w.sends);
    forall i | i in w.sends && w.sends[i].channel == c ensures SendKept(t, i, w.sends[i]) {
      SameKept(w.channels, t, c, i, w.sends[i]);
    }
    LocalStep(w.channels, w.sends, t, w.sends, c, {}, {});
    forall k | k in t ensures WaitersOk(t[k], k, w.selects) && DeliveriesOk(t[k], k, w.selects) {
      assert WaitersOk(w.channels[k], k, w.selects) && DeliveriesOk(w.channels[k], k, w.selects);
    }
    forall r | r in w.selects ensures GotOk(t, r, w.selects[r]) {
      assert GotOk(w.channels, r, w.selects[r]);
    }
  }

  lemma WaitingOk(ch: Channel, ch': Channel, c: ChannelId, sends: map<SendId, Send>)
    requires ChannelOk(ch) && SendsOk(ch, c, sends) && !Ready(ch) && ch' == ch.(receivers := ch'.receivers)
    ensures ChannelOk(ch') && SendsOk(ch', c, sends)
  {
  }

  lemma SameKept(channels: map<ChannelId, Channel>, channels': map<ChannelId, Channel>, c: ChannelId, i: SendId, send: Send)
    requires SendKept(channels, i, send) && send.channel == c && c in channels && c in channels'
    requires channels'[c] == channels[c].(receivers := channels'[c].receivers)
    ensures SendKept(channels', i, send)
  {
  }

  /* ---------- select ---------- */

  lemma {:induction false} RegisterArmsKeeps(w: World, s: SelectId, arms: seq<Arm>, i: nat)
    requires Inv(w) && s in w.selects && w.selects[s].arms == arms && i <= |arms| && Known(w, arms)
    ensures Inv(RegisterArms(w, s, arms, i))
    decreases |arms| - i
  {
    hide Inv, Register;
    if i < |arms| && IsPending(w, s) {
      assert arms[i] in arms;
      if arms[i].Timer? {
        if arms[i].fails {
          DecideInv(w, s, Rejected);
        } else {
          RegisterArmsKeeps(w, s, arms, i + 1);
        }
      } else {
        RegisterKeeps(w, s, i, arms[i].channel);
        RegisterSelects(w, s, i, arms[i].channel);
        RegisterArmsKeeps(Register(w, s, i, arms[i].channel), s, arms, i + 1);
      }
    }
  }

  lemma RegisterSelects(w: World, s: SelectId, arm: nat, c: ChannelId)
    requires s in w.selects && c in w.channels
    ensures s in Register(w, s, arm, c).selects && Register(w, s, arm, c).selects[s].arms == w.selects[s].arms
  {
  }

  lemma DecideInv(w: World, s: SelectId, outcome: Outcome)
    requires Inv(w) && IsPending(w, s) && !outcome.Got?
    ensures Inv(Decide(w, s, outcome))
  {
    hide Local, Linked;
    DecideKeeps(w, s, outcome, {});
  }

  lemma StartSelectKeeps(w: World, arms: seq<Arm>)
    requires Inv(w) && Known(w, arms)
    ensures Inv(StartSelect(w, arms))
  {
    hide Local, RegisterArms;
    var t := w.(selects := w.selects[w.next := Select(arms, Pending)], next := w.next + 1);
    forall k | k in t.channels ensures WaitersOk(t.channels[k], k, t.selects) && DeliveriesOk(t.channels[k], k, t.selects) {
      assert WaitersOk(w.channels[k], k, w.selects) && DeliveriesOk(w.channels[k], k, w.selects);
    }
    forall r | r in t.selects ensures GotOk(t.channels, r, t.selects[r]) {
      if r != w.next { assert GotOk(w.channels, r, w.selects[r]); }
    }
    assert Known(t, arms);
    RegisterArmsKeeps(t, w.next, arms, 0);
  }

  /* ---------- send ---------- */

  /** Everything ever sent and not withdrawn is a known send of this channel. */
  lemma SentKnown(ch: Channel, c: ChannelId, sends: map<SendId, Send>, m: Message)
    requires ChannelOk(ch) && SendsOk(ch, c, sends) && m in ch.sent
    ensures m.id in sends && sends[m.id].channel == c && sends[m.id].state in {Waiting, Accepted}
  {
    var i :| 0 <= i < |ch.sent| && ch.sent[i] == m;
    var d := |ch.delivered|;
    if i < d {
      assert ch.delivered[i] in ch.delivered && Taken(ch.delivered)[i] == m;
    } else if i < d + |ch.messages| {
      assert ch.messages[i - d] == m;
    } else {
      assert ch.senders[i - d - |ch.messages|] == m;
    }
  }

  /** How a new message joins a channel. */
  ghost predicate Joins(ch: Channel, ch': Channel, m: Message, state: SendState) {
    && ch' == ch.(delivered := ch'.delivered, messages := ch'.messages, senders := ch'.senders, receivers := ch'.receivers, sent := ch.sent + [m])
    && (forall x :: x in ch'.receivers ==> x in ch.receivers)
    && !ch.closed
    && ((exists s :: ch'.delivered == ch.delivered + [Delivery(m, s)] && ch'.messages == ch.messages == [] && ch'.senders == ch.senders == [] && state == Accepted)
        || (ch'.delivered == ch.delivered && ch'.messages == ch.messages + [m] && ch'.senders == ch.senders == []
            && ch'.receivers == [] && |ch.messages| < ch.capacity && state == Accepted)
        || (ch'.delivered == ch.delivered && ch'.messages == ch.messages && ch'.senders == ch.senders + [m]
            && ch'.receivers == [] && |ch.messages| == ch.capacity && state == Waiting))
  }

  lemma JoinsOk(ch: Channel, ch': Channel, m: Message, c: ChannelId, sends: map<SendId, Send>, state: SendState)
    requires ChannelOk(ch) && SendsOk(ch, c, sends) && Joins(ch, ch', m, state) && m.id !in sends
    ensures ChannelOk(ch') && SendsOk(ch', c, sends[m.id := Send(c, state)])
  {
    forall x | x in ch.sent ensures x.id != m.id {
      SentKnown(ch, c, sends, x);
    }
    if ch'.delivered != ch.delivered {
      var s :| ch'.delivered == ch.delivered + [Delivery(m, s)];
      TakenSnoc(ch.delivered, Delivery(m, s));
    }
    assert Taken(ch'.delivered) + ch'.messages + ch'.senders == ch.sent + [m];
  }

  lemma JoinsKept(channels: map<ChannelId, Channel>, channels': map<ChannelId, Channel>, c: ChannelId, m: Message, state: SendState,
                  sends: map<SendId, Send>, i: SendId)
    requires c in channels && c in channels' && Joins(channels[c], channels'[c], m, state)
    requires i == m.id || (i in sends && sends[i].channel == c && SendKept(channels, i, sends[i]))
    ensures SendKept(channels', i, sends[m.id := Send(c, state)][i])
  {
    var ch, ch' := channels[c], channels'[c];
    var before, after := Taken(ch.delivered) + ch.messages, Taken(ch'.delivered) + ch'.messages;
    if ch'.delivered != ch.delivered {
      var s :| ch'.delivered == ch.delivered + [Delivery(m, s)];
      TakenSnoc(ch.delivered, Delivery(m, s));
      assert after == before + [m];
    } else if ch'.messages != ch.messages {
      assert after == before + [m];
    } else {
      assert ch'.senders[|ch.senders|] == m;
    }
    assert after == before + [m] ==> after[|before|] == m;
    assert forall x :: x in before ==> x in after;
  }

  /** The channel with one more message keeps the agreement of channels and sends. */
  lemma JoinsLocal(channels: map<ChannelId, Channel>, channels': map<ChannelId, Channel>, c: ChannelId, m: Message, state: SendState, sends: map<SendId, Send>)
    requires Local(channels, sends, {}) && c in channels && OthersLoseWaiters(channels, channels', c)
    requires Joins(channels[c], channels'[c], m, state) && m.id !in sends
    ensures Local(channels', sends[m.id := Send(c, state)], {})
  {
    hide Local, ChannelOk, SendsOk, SendKept, Joins;
    var sends' := sends[m.id := Send(c, state)];
    AtChannel(channels, sends, c);
    JoinsOk(channels[c], channels'[c], m, c, sends, state);
    forall i | i in sends' && sends'[i].channel == c ensures SendKept(channels', i, sends'[i]) {
      JoinsKept(channels, channels', c, m, state, sends, i);
    }
    LocalStep(channels, sends, channels', sends', c, {}, {});
  }

  /** In a reachable state the first queued receiver takes the message. */
  lemma OfferTakes(w: World, c: ChannelId, m: Message)
    requires c in w.channels && w.channels[c].receivers != []
    requires WaitersOk(w.channels[c], c, w.selects)
    ensures var ch := w.channels[c];
            var waiter := ch.receivers[0];
            var ch' := ch.(receivers := ch.receivers[1..], delivered := ch.delivered + [Delivery(m, waiter.select)], sent := ch.sent + [m]);
            IsPending(w, waiter.select) &&
            Offer(w, c, m) == (Decide(w.(channels := w.channels[c := ch']), waiter.select, Got(waiter.arm, m)), true)
  {
    var ch := w.channels[c];
    assert ch.receivers[0] in ch.receivers;
    var t := w.(channels := w.channels[c := ch.(receivers := ch.receivers[1..])]);
    var ch' := ch.(receivers := ch.receivers[1..], delivered := ch.delivered + [Delivery(m, ch.receivers[0].select)], sent := ch.sent + [m]);
    assert t.channels[c := ch'] == w.channels[c := ch'];
  }

  lemma AtWaiters(channels: map<ChannelId, Channel>, selects: map<SelectId, Select>, c: ChannelId)
    requires Linked(channels, selects) && c in channels
    ensures WaitersOk(channels[c], c, selects)
  {
    hide WaitersOk, DeliveriesOk, GotOk;
  }

  lemma OfferKeeps(w: World, c: ChannelId, m: Message)
    requires Inv(w) && c in w.channels && w.channels[c].receivers != [] && m.id == w.next
    ensures Offer(w.(next := w.next + 1), c, m).1
    ensures var t := Offer(w.(next := w.next + 1), c, m).0; Inv(t.(sends := t.sends[m.id := Send(c, Accepted)]))
  {
    hide Linked, Local, ChannelOk, SendsOk, Offer;
    var ch := w.channels[c];
    AtChannel(w.channels, w.sends, c);
    AtWaiters(w.channels, w.selects, c);
    var waiter := ch.receivers[0];
    assert waiter in ch.receivers;
    var v := w.(next := w.next + 1);
    OfferTakes(v, c, m);
    var ch' := ch.(receivers := ch.receivers[1..], delivered := ch.delivered + [Delivery(m, waiter.select)], sent := ch.sent + [m]);
    OfferJoins(ch, ch', m, waiter);
    JoinsLocal(w.channels, w.channels[c := ch'], c, m, Accepted, w.sends);
    DetachedLocal(w.channels[c := ch'], w.sends[m.id := Send(c, Accepted)], waiter.select, {});
    GotLinked(w.channels, w.selects, c, ch', waiter.select, waiter.arm, m);
  }

  lemma OfferJoins(ch: Channel, ch': Channel, m: Message, waiter: Waiter)
    requires ChannelOk(ch) && ch.receivers != [] && waiter == ch.receivers[0]
    requires ch' == ch.(receivers := ch.receivers[1..], delivered := ch.delivered + [Delivery(m, waiter.select)], sent := ch.sent + [m])
    ensures Joins(ch, ch', m, Accepted)
  {
  }

  lemma SendKeeps(w: World, c: ChannelId, value: int)
    requires Inv(w) && c in w.channels
    ensures Inv(StartSend(w, c, value))
  {
    hide Linked, Local, ChannelOk, SendsOk;
    var ch, m := w.channels[c], Message(w.next, value);
    AtChannel(w.channels, w.sends, c);
    if ch.aborted {
      SettledSend(w, c, m, Cancelled);
    } else if ch.closed {
      SettledSend(w, c, m, Refused);
    } else if ch.receivers != [] {
      OfferKeeps(w, c, m);
    } else {
      EnqueueKeeps(w, c, m);
    }
  }

  lemma SettledSend(w: World, c: ChannelId, m: Message, state: SendState)
    requires Inv(w) && c in w.channels && m.id == w.next && state in {Cancelled, Refused}
    ensures Inv(w.(sends := w.sends[m.id := Send(c, state)], next := w.next + 1))
  {
    hide Linked, ChannelOk;
    var sends' := w.sends[m.id := Send(c, state)];
    forall k | k in w.channels ensures SendsOk(w.channels[k], k, sends') {
      assert SendsOk(w.channels[k], k, w.sends);
    }
    forall i | i in sends' ensures SendKept(w.channels, i, sends'[i]) {
      if i != m.id { assert SendKept(w.channels, i, w.sends[i]); }
    }
  }

  lemma EnqueueKeeps(w: World, c: ChannelId, m: Message)
    requires Inv(w) && c in w.channels && m.id == w.next && !w.channels[c].closed && w.channels[c].receivers == []
    ensures var ch := w.channels[c];
            var buffered := |ch.messages| < ch.capacity;
            var ch' := if buffered then ch.(messages := ch.messages + [m], sent := ch.sent + [m])
                       else ch.(senders := ch.senders + [m], sent := ch.sent + [m]);
            Inv(w.(channels := w.channels[c := ch'], sends := w.sends[m.id := Send(c, if buffered then Accepted else Waiting)], next := w.next + 1))
  {
    hide Linked, Local, ChannelOk, SendsOk;
    var ch := w.channels[c];
    var buffered := |ch.messages| < ch.capacity;
    var state := if buffered then Accepted else Waiting;
    var ch' := if buffered then ch.(messages := ch.messages + [m], sent := ch.sent + [m])
               else ch.(senders := ch.senders + [m], sent := ch.sent + [m]);
    AtChannel(w.channels, w.sends, c);
    EnqueueJoins(ch, ch', m);
    JoinsLocal(w.channels, w.channels[c := ch'], c, m, state, w.sends);
    QuietLinked(w.channels, w.selects, c, ch');
  }

  lemma EnqueueJoins(ch: Channel, ch': Channel, m: Message)
    requires ChannelOk(ch) && ch.receivers == [] && !ch.closed
    requires ch' == if |ch.messages| < ch.capacity then ch.(messages := ch.messages + [m], sent := ch.sent + [m])
                    else ch.(senders := ch.senders + [m], sent := ch.sent + [m])
    ensures Joins(ch, ch', m, if |ch.messages| < ch.capacity then Accepted else Waiting)
  {
  }

  /** A change of one channel that delivers nothing and adds no waiter does not concern selects. */
  lemma QuietLinked(channels: map<ChannelId, Channel>, selects: map<SelectId, Select>, c: ChannelId, ch': Channel)
    requires Linked(channels, selects) && c in channels && ch'.delivered == channels[c].delivered
    requires forall x :: x in ch'.receivers ==> x in channels[c].receivers
    ensures Linked(channels[c := ch'], selects)
  {
    var t := channels[c := ch'];
    forall k | k in t ensures WaitersOk(t[k], k, selects) && DeliveriesOk(t[k], k, selects) {
      assert WaitersOk(channels[k], k, selects) && DeliveriesOk(channels[k], k, selects);
    }
    forall r | r in selects ensures GotOk(t, r, selects[r]) {
      assert GotOk(channels, r, selects[r]);
    }
  }

  lemma Regroup<T>(a: seq<T>, b: seq<T>, c: seq<T>)
    ensures (a + b) + c == a + (b + c)
  {
  }

  lemma {:induction false} LessAppend(a: seq<Message>, b: seq<Message>, m: Message)
    ensures Less(a + b, m) == Less(a, m) + Less(b, m)
  {
    if a == [] {
      assert a + b == b;
    } else {
      LessAppend(a[1..], b, m);
      assert (a + b)[1..] == a[1..] + b && (a + b)[0] == a[0];
      Regroup(if a[0] == m then [] else [a[0]], Less(a[1..], m), Less(b, m));
    }
  }

  lemma {:induction false} LessDistinct(s: seq<Message>, m: Message)
    requires DistinctIds(s)
    ensures DistinctIds(Less(s, m))
    ensures m in s ==> forall x :: x in Less(s, m) ==> x.id != m.id
  {
    if s != [] {
      LessDistinct(s[1..], m);
      forall x | x in s[1..] ensures x.id != s[0].id {
        var i :| 0 <= i < |s[1..]| && s[1..][i] == x;
        assert s[i + 1] == x;
      }
      forall x | x in Less(s[1..], m) ensures x.id != s[0].id {
      }
    }
  }

  /** The message of a waiting sender is not among what was delivered or buffered. */
  lemma WaitsApart(ch: Channel, m: Message)
    requires ChannelOk(ch) && DistinctIds(ch.sent) && m in ch.senders
    ensures m in ch.sent && forall x :: x in Taken(ch.delivered) + ch.messages ==> x.id != m.id
  {
    var prefix := Taken(ch.delivered) + ch.messages;
    var n :| 0 <= n < |ch.senders| && ch.senders[n] == m;
    assert ch.sent[|prefix| + n] == m;
    forall x | x in prefix ensures x.id != m.id {
      var i :| 0 <= i < |prefix| && prefix[i] == x;
      assert ch.sent[i] == x;
    }
  }

  lemma CancelShape(ch: Channel, m: Message)
    requires ChannelOk(ch) && DistinctIds(ch.sent) && m in ch.senders
    ensures ChannelOk(ch.(senders := Less(ch.senders, m), sent := Less(ch.sent, m)))
    ensures DistinctIds(Less(ch.sent, m)) && forall x :: x in Less(ch.senders, m) ==> x.id != m.id
  {
    hide DistinctIds;
    var prefix := Taken(ch.delivered) + ch.messages;
    WaitsApart(ch, m);
    LessAppend(prefix, ch.senders, m);
    LessDistinct(ch.sent, m);
    forall x | x in Less(ch.senders, m) ensures x.id != m.id {
      assert x in Less(prefix, m) + Less(ch.senders, m);
    }
  }

  lemma CancelOk(ch: Channel, c: ChannelId, sends: map<SendId, Send>, m: Message)
    requires ChannelOk(ch) && SendsOk(ch, c, sends) && m in ch.senders
    ensures var ch' := ch.(senders := Less(ch.senders, m), sent := Less(ch.sent, m));
            ChannelOk(ch') && SendsOk(ch', c, Settle(sends, m.id, Cancelled))
  {
    hide ChannelOk, DistinctIds;
    WaitsApart(ch, m);
    CancelShape(ch, m);
    forall d | d in ch.delivered ensures d.message.id != m.id {
      var i :| 0 <= i < |ch.delivered| && ch.delivered[i] == d;
      assert (Taken(ch.delivered) + ch.messages)[i] == d.message;
    }
    forall x | x in ch.messages ensures x.id != m.id {
      assert x in Taken(ch.delivered) + ch.messages;
    }
  }

  lemma CancelSendKeeps(w: World, c: ChannelId, m: Message)
    requires Inv(w)
    ensures Inv(CancelSend(w, c, m))
  {
    hide Linked, Local, ChannelOk, SendsOk, SendKept;
    if c in w.channels && m in w.channels[c].senders {
      var ch := w.channels[c];
      var ch' := ch.(senders := Less(ch.senders, m), sent := Less(ch.sent, m));
      var sends' := Settle(w.sends, m.id, Cancelled);
      AtChannel(w.channels, w.sends, c);
      CancelOk(ch, c, w.sends, m);
      OneSender(ch, c, w.sends, m);
      forall i | i in sends' && sends'[i].channel == c ensures SendKept(w.channels[c := ch'], i, sends'[i]) {
        CancelKept(w.channels, c, m, w.sends, i);
      }
      LocalStep(w.channels, w.sends, w.channels[c := ch'], sends', c, {}, {});
      QuietLinked(w.channels, w.selects, c, ch');
    }
  }

  lemma OneSender(ch: Channel, c: ChannelId, sends: map<SendId, Send>, m: Message)
    requires SendsOk(ch, c, sends) && m in ch.senders
    ensures m.id in sends && sends[m.id] == Send(c, Waiting)
  {
  }

  lemma CancelKept(channels: map<ChannelId, Channel>, c: ChannelId, m: Message, sends: map<SendId, Send>, i: SendId)
    requires c in channels && m in channels[c].senders && i in sends && sends[i].channel == c && SendKept(channels, i, sends[i])
    ensures var ch' := channels[c].(senders := Less(channels[c].senders, m), sent := Less(channels[c].sent, m));
            SendKept(channels[c := ch'], i, Settle(sends, m.id, Cancelled)[i])
  {
    if sends[i].state == Waiting && i != m.id {
      var x :| x in channels[c].senders && x.id == i;
      assert x in Less(channels[c].senders, m);
    }
  }
}
