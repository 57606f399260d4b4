/** Channels, receives and selects as a state machine. A receive is a select with one channel arm. */
module ChannelProtocol {
  type ChannelId = nat
  type SelectId = nat
  type SendId = nat

  datatype Message = Message(id: SendId, value: int)

  /** An arm of a select, queued on a channel. */
  datatype Waiter = Waiter(select: SelectId, arm: nat)

  datatype Delivery = Delivery(message: Message, select: SelectId)

  /** `delivered` and `sent` are history: what receivers took, and what senders sent in order, less
      what was refused or cancelled. `dropped` says that buffered messages were discarded. */
  datatype Channel = Channel(
    capacity: nat, messages: seq<Message>, senders: seq<Message>, receivers: seq<Waiter>,
    closed: bool, aborted: bool, delivered: seq<Delivery>, sent: seq<Message>, dropped: bool)

  datatype Arm = Receive(channel: ChannelId) | Timer(fails: bool)

  datatype Outcome =
    | Pending
    | Got(arm: nat, message: Message)
    | Ended(last: nat)
    | TimedOut(timer: nat)
    | Rejected

  datatype Select = Select(arms: seq<Arm>, outcome: Outcome)

  datatype SendState = Waiting | Accepted | Refused | Cancelled
  datatype Send = Send(channel: ChannelId, state: SendState)

  datatype World = World(
    channels: map<ChannelId, Channel>, selects: map<SelectId, Select>, sends: map<SendId, Send>, next: nat)

  const EMPTY: World := World(map[], map[], map[], 0)

  /* ---------- pieces ---------- */

  /** The queue without the waiters of a select. */
  function Without(receivers: seq<Waiter>, s: SelectId): (r: seq<Waiter>)
    ensures forall x {:trigger x in r} :: x in r <==> x in receivers && x.select != s
    ensures |r| <= |receivers|
    ensures (forall x :: x in receivers ==> x.select != s) ==> r == receivers
  {
    if receivers == [] then []
    else
      assert receivers == [receivers[0]] + receivers[1..];
      (if receivers[0].select == s then [] else [receivers[0]]) + Without(receivers[1..], s)
  }

  /** The messages without one of them. */
  function Less(messages: seq<Message>, m: Message): (r: seq<Message>)
    ensures forall x {:trigger x in r} :: x in r <==> x in messages && x != m
    ensures m !in messages ==> r == messages
  {
    if messages == [] then []
    else
      assert messages == [messages[0]] + messages[1..];
      (if messages[0] == m then [] else [messages[0]]) + Less(messages[1..], m)
  }

  function Taken(delivered: seq<Delivery>): (r: seq<Message>)
    ensures |r| == |delivered|
  {
    seq(|delivered|, i requires 0 <= i < |delivered| => delivered[i].message)
  }

  /** A decided select leaves every queue. */
  function Detach(channels: map<ChannelId, Channel>, s: SelectId): map<ChannelId, Channel> {
    map c | c in channels :: channels[c].(receivers := Without(channels[c].receivers, s))
  }

  function Decide(w: World, s: SelectId, outcome: Outcome): World
    requires s in w.selects
  {
    w.(selects := w.selects[s := w.selects[s].(outcome := outcome)], channels := Detach(w.channels, s))
  }

  function IsPending(w: World, s: SelectId): bool {
    s in w.selects && w.selects[s].outcome.Pending?
  }

  predicate Ready(ch: Channel) {
    ch.messages != [] || ch.senders != [] || ch.closed
  }

  /** What a ready channel hands to select `s`: the oldest message, while the oldest waiting sender
      moves up into the buffer. */
  function Take(ch: Channel, s: SelectId): Channel
    requires ch.messages != [] || ch.senders != []
  {
    if ch.messages != [] then
      var m := ch.messages[0];
      ch.(messages := ch.messages[1..] + (if ch.senders == [] then [] else [ch.senders[0]]),
          senders := if ch.senders == [] then [] else ch.senders[1..],
          delivered := ch.delivered + [Delivery(m, s)])
    else
      ch.(senders := ch.senders[1..], delivered := ch.delivered + [Delivery(ch.senders[0], s)])
  }

  function Head(ch: Channel): Message
    requires ch.messages != [] || ch.senders != []
  {
    if ch.messages != [] then ch.messages[0] else ch.senders[0]
  }

  function Settle(sends: map<SendId, Send>, id: SendId, state: SendState): map<SendId, Send> {
    if id in sends then sends[id := sends[id].(state := state)] else sends
  }

  /** All these sends end in the same way. */
  function SettleAll(sends: map<SendId, Send>, messages: seq<Message>, state: SendState): (r: map<SendId, Send>)
    ensures r.Keys == sends.Keys
  {
    if messages == [] then sends
    else Settle(SettleAll(sends, messages[..|messages| - 1], state), messages[|messages| - 1].id, state)
  }

  /* ---------- select ---------- */

  /** `register` of one arm of a pending select. */
  function Register(w: World, s: SelectId, arm: nat, c: ChannelId): World
    requires s in w.selects && c in w.channels
  {
    var ch := w.channels[c];
    if ch.aborted then Decide(w, s, Rejected)
    else if ch.messages != [] || ch.senders != [] then
      var t := w.(channels := w.channels[c := Take(ch, s)],
                  sends := if ch.senders != [] then Settle(w.sends, ch.senders[0].id, Accepted) else w.sends);
      Decide(t, s, Got(arm, Head(ch)))
    else if ch.closed then Decide(w, s, Ended(arm))
    else w.(channels := w.channels[c := ch.(receivers := ch.receivers + [Waiter(s, arm)])])
  }

  /** The arms from `i` on, until one of them decides the select. */
  function RegisterArms(w: World, s: SelectId, arms: seq<Arm>, i: nat): World
    requires s in w.selects && i <= |arms|
    requires forall a :: a in arms && a.Receive? ==> a.channel in w.channels
    decreases |arms| - i
  {
    if i == |arms| || !IsPending(w, s) then w
    else if arms[i].Timer? then
      if arms[i].fails then Decide(w, s, Rejected) else RegisterArms(w, s, arms, i + 1)
    else
      RegisterArms(Register(w, s, i, arms[i].channel), s, arms, i + 1)
  }

  predicate Known(w: World, arms: seq<Arm>) {
    forall a :: a in arms && a.Receive? ==> a.channel in w.channels
  }

  /** `selectFrom`, and `receiveFrom` for a single channel arm. */
  function StartSelect(w: World, arms: seq<Arm>): World
    requires Known(w, arms)
  {
    var s := w.next;
    RegisterArms(w.(selects := w.selects[s := Select(arms, Pending)], next := s + 1), s, arms, 0)
  }

  /* ---------- send ---------- */

  /** The first waiting receiver that is still undecided takes the message. */
  function Offer(w: World, c: ChannelId, m: Message): (r: (World, bool))
    requires c in w.channels
    ensures c in r.0.channels
    decreases if c in w.channels then |w.channels[c].receivers| else 0
  {
    var ch := w.channels[c];
    if ch.receivers == [] then (w, false)
    else
      var waiter := ch.receivers[0];
      var t := w.(channels := w.channels[c := ch.(receivers := ch.receivers[1..])]);
      if IsPending(t, waiter.select) then
        var u := t.(channels := t.channels[c := t.channels[c].(
                      delivered := ch.delivered + [Delivery(m, waiter.select)], sent := ch.sent + [m])]);
        (Decide(u, waiter.select, Got(waiter.arm, m)), true)
      else Offer(t, c, m)
  }

  function StartSend(w: World, c: ChannelId, value: int): World
    requires c in w.channels
  {
    var m := Message(w.next, value);
    var t := w.(next := w.next + 1);
    var ch := w.channels[c];
    if ch.aborted then t.(sends := t.sends[m.id := Send(c, Cancelled)])
    else if ch.closed then t.(sends := t.sends[m.id := Send(c, Refused)])
    else
      var offered := Offer(t, c, m);
      if offered.1 then offered.0.(sends := offered.0.sends[m.id := Send(c, Accepted)])
      else
        var u := offered.0;
        var now := u.channels[c];
        if |now.messages| < now.capacity then
          u.(channels := u.channels[c := now.(messages := now.messages + [m], sent := now.sent + [m])],
             sends := u.sends[m.id := Send(c, Accepted)])
        else
          u.(channels := u.channels[c := now.(senders := now.senders + [m], sent := now.sent + [m])],
             sends := u.sends[m.id := Send(c, Waiting)])
  }

  /** A waiting sender is cancelled. */
  function CancelSend(w: World, c: ChannelId, m: Message): World {
    if c !in w.channels || m !in w.channels[c].senders then w
    else
      var ch := w.channels[c];
      w.(channels := w.channels[c := ch.(senders := Less(ch.senders, m), sent := Less(ch.sent, m))],
         sends := Settle(w.sends, m.id, Cancelled))
  }

  /* ---------- the end of a channel ---------- */

  /** Every queued receiver that is still undecided ends with this outcome. */
  function EndReceivers(w: World, c: ChannelId, rejected: bool): (t: World)
    requires c in w.channels
    ensures c in t.channels
    decreases if c in w.channels then |w.channels[c].receivers| else 0
  {
    var ch := w.channels[c];
    if ch.receivers == [] then w
    else
      var waiter := ch.receivers[0];
      var t := w.(channels := w.channels[c := ch.(receivers := ch.receivers[1..])]);
      if IsPending(t, waiter.select) then
        EndReceivers(Decide(t, waiter.select, if rejected then Rejected else Ended(waiter.arm)), c, rejected)
      else EndReceivers(t, c, rejected)
  }

  /** The waiting senders end, and their messages count as never sent. */
  function EndSenders(w: World, c: ChannelId, state: SendState): World
    requires c in w.channels
  {
    var ch := w.channels[c];
    w.(channels := w.channels[c := ch.(senders := [], sent := ch.sent[..Max(|ch.sent| - |ch.senders|)])],
       sends := SettleAll(w.sends, ch.senders, state))
  }

  function Max(i: int): nat {
    if i < 0 then 0 else i
  }

  function Close(w: World, c: ChannelId): World
    requires c in w.channels
  {
    if w.channels[c].closed then w
    else EndReceivers(EndSenders(w.(channels := w.channels[c := w.channels[c].(closed := true)]), c, Refused), c, false)
  }

  /** Buffered messages are discarded and count as never sent. */
  function Discard(w: World, c: ChannelId): World
    requires c in w.channels
  {
    var ch := w.channels[c];
    w.(channels := w.channels[c := ch.(messages := [], dropped := true, sent := ch.sent[..Max(|ch.sent| - |ch.messages|)])])
  }

  function Dispose(w: World, c: ChannelId): World
    requires c in w.channels
  {
    if c in Close(w, c).channels then Discard(Close(w, c), c) else w
  }

  /** The scope of the channel is cancelled. */
  function Abort(w: World, c: ChannelId): World
    requires c in w.channels
  {
    var t := EndReceivers(EndSenders(w.(channels := w.channels[c := w.channels[c].(closed := true)]), c, Cancelled), c, true);
    var u := Discard(t, c);
    u.(channels := u.channels[c := u.channels[c].(aborted := true)])
  }

  datatype Event =
    | Opening(capacity: nat)
    | Sending(channel: ChannelId, value: int)
    | CancellingSend(channel: ChannelId, message: Message)
    | Selecting(arms: seq<Arm>)
    | CancellingSelect(select: SelectId)
    | TimerFires(select: SelectId, arm: nat)
    | TimerFails(select: SelectId)
    | Closing(channel: ChannelId)
    | Disposing(channel: ChannelId)
    | Aborting(channel: ChannelId)

  function Open(w: World, capacity: nat): World {
    w.(channels := w.channels[w.next := Channel(capacity, [], [], [], false, false, [], [], false)], next := w.next + 1)
  }

  function Step(w: World, e: Event): World {
    match e
    case Opening(capacity) => Open(w, capacity)
    case Sending(c, value) => if c in w.channels then StartSend(w, c, value) else w
    case CancellingSend(c, m) => CancelSend(w, c, m)
    case Selecting(arms) => if Known(w, arms) then StartSelect(w, arms) else w
    case CancellingSelect(s) => if IsPending(w, s) then Decide(w, s, Rejected) else w
    case TimerFires(s, arm) =>
      if IsPending(w, s) && arm < |w.selects[s].arms| && w.selects[s].arms[arm].Timer? then Decide(w, s, TimedOut(arm)) else w
    case TimerFails(s) => if IsPending(w, s) then Decide(w, s, Rejected) else w
    case Closing(c) => if c in w.channels then Close(w, c) else w
    case Disposing(c) => if c in w.channels then Dispose(w, c) else w
    case Aborting(c) => if c in w.channels then Abort(w, c) else w
  }

  function Run(w: World, events: seq<Event>): World {
    if events == [] then w else Step(Run(w, events[..|events| - 1]), events[|events| - 1])
  }

  /* ---------- the invariant ---------- */

  /** The shape of one channel. */
  ghost predicate ChannelOk(ch: Channel) {
    && |ch.messages| <= ch.capacity
    && (ch.receivers != [] ==> ch.messages == [] && ch.senders == [] && !ch.closed)
    && (ch.senders != [] ==> |ch.messages| == ch.capacity && !ch.closed)
    && (ch.aborted ==> ch.closed && ch.messages == [])
    && (ch.dropped ==> ch.closed && ch.messages == [])
    && Taken(ch.delivered) + ch.messages + ch.senders == ch.sent
  }

  ghost predicate DistinctIds(messages: seq<Message>) {
    forall i, j :: 0 <= i < j < |messages| ==> messages[i].id != messages[j].id
  }

  /** The sends of one channel: the waiting ones wait, the others were accepted. */
  ghost predicate SendsOk(ch: Channel, c: ChannelId, sends: map<SendId, Send>) {
    && DistinctIds(ch.sent)
    && (forall m :: m in ch.senders ==> m.id in sends && sends[m.id] == Send(c, Waiting))
    && (forall m :: m in ch.messages ==> m.id in sends && sends[m.id] == Send(c, Accepted))
    && (forall d :: d in ch.delivered ==> d.message.id in sends && sends[d.message.id] == Send(c, Accepted))
  }

  predicate Holds(messages: seq<Message>, id: SendId) {
    exists m :: m in messages && m.id == id
  }

  /** A waiting send waits on its channel; an accepted one was taken or is buffered, unless the
      channel dropped its buffer. */
  ghost predicate SendKept(channels: map<ChannelId, Channel>, id: SendId, send: Send) {
    && send.channel in channels
    && (send.state == Waiting ==> Holds(channels[send.channel].senders, id))
    && (send.state == Accepted ==>
          Holds(Taken(channels[send.channel].delivered) + channels[send.channel].messages, id) || channels[send.channel].dropped)
  }

  /** Only undecided selects wait, and on channels that they name. */
  ghost predicate WaitersOk(ch: Channel, c: ChannelId, selects: map<SelectId, Select>) {
    forall x :: x in ch.receivers ==>
      && x.select in selects && selects[x.select].outcome.Pending?
      && x.arm < |selects[x.select].arms| && selects[x.select].arms[x.arm] == Receive(c)
  }

  /** What was delivered is what its select got. */
  ghost predicate DeliveriesOk(ch: Channel, c: ChannelId, selects: map<SelectId, Select>) {
    forall d :: d in ch.delivered ==>
      && d.select in selects && selects[d.select].outcome.Got? && selects[d.select].outcome.message == d.message
      && selects[d.select].outcome.arm < |selects[d.select].arms|
      && selects[d.select].arms[selects[d.select].outcome.arm] == Receive(c)
  }

  ghost predicate GotOk(channels: map<ChannelId, Channel>, s: SelectId, select: Select) {
    select.outcome.Got? ==>
      && select.outcome.arm < |select.arms| && select.arms[select.outcome.arm].Receive?
      && select.arms[select.outcome.arm].channel in channels
      && Delivery(select.outcome.message, s) in channels[select.arms[select.outcome.arm].channel].delivered
  }

  ghost predicate Below(names: set<nat>, next: nat) {
    forall n :: n in names ==> n < next
  }

  ghost predicate NamesOk(w: World) {
    Below(w.channels.Keys, w.next) && Below(w.selects.Keys, w.next) && Below(w.sends.Keys, w.next)
  }

  /** While a channel ends, its receivers are still leaving. */
  function Settled(ch: Channel, ending: bool): Channel {
    if ending then ch.(receivers := []) else ch
  }

  /** Channels and sends agree; `ending` marks a channel whose receivers are just leaving. */
  ghost predicate Local(channels: map<ChannelId, Channel>, sends: map<SendId, Send>, ending: set<ChannelId>) {
    && (forall c :: c in channels ==> ChannelOk(Settled(channels[c], c in ending)) && SendsOk(channels[c], c, sends))
    && (forall i :: i in sends ==> SendKept(channels, i, sends[i]))
  }

  /** Channels and selects agree. */
  ghost predicate Linked(channels: map<ChannelId, Channel>, selects: map<SelectId, Select>) {
    && (forall c :: c in channels ==> WaitersOk(channels[c], c, selects) && DeliveriesOk(channels[c], c, selects))
    && (forall s :: s in selects ==> GotOk(channels, s, selects[s]))
  }

  ghost predicate Inv(w: World) {
    Local(w.channels, w.sends, {}) && Linked(w.channels, w.selects) && NamesOk(w)
  }
}
