/** The broadcaster as a value: what each call does to the subscriber map and to every
    channel ever handed out, and what holds after any sequence of calls. */
module Broadcast {
  import opened EventLog

  /** Why a channel is closed, or that it is not. */
  datatype Status = Open | Overflowed | Unsubscribed

  type CloseReason = s: Status | !s.Open? witness Overflowed

  /** One subscriber channel: the buffered events, those already received from it, and the
      length of the publish history when it was created. */
  datatype Chan = Chan(buf: seq<Event>, status: Status, received: seq<Event>, start: nat)
  {
    /** Everything the broadcaster put into this channel. */
    function Accepted(): seq<Event> { received + buf }

    /** Position in the publish history just after the last accepted event. */
    function End(): nat { start + |Accepted()| }
  }

  /** `subs` are the ids in the broadcaster's map; `chans` holds every channel ever created,
      because a handler keeps its channel after the map entry is gone. */
  datatype State = State(bufSize: nat, next: nat, subs: set<nat>, chans: map<nat, Chan>, published: seq<Event>)

  function New(bufSize: int): State {
    State(if bufSize < 1 then 1 else bufSize, 0, {}, map[], [])
  }

  function Subscribe(b: State): State {
    var id := b.next + 1;
    b.(next := id, subs := b.subs + {id}, chans := b.chans[id := Chan([], Open, [], |b.published|)])
  }

  function Unsubscribe(b: State, id: nat): State {
    if id in b.subs && id in b.chans then
      b.(subs := b.subs - {id}, chans := b.chans[id := b.chans[id].(status := Unsubscribed)])
    else b
  }

  /** The `select` inside `Publish`, for one subscriber: enqueue, or close when full. */
  function Offer(c: Chan, ev: Event, bufSize: nat): Chan {
    if |c.buf| < bufSize then c.(buf := c.buf + [ev]) else c.(status := Overflowed)
  }

  function Publish(b: State, ev: Event): State {
    b.(
      subs := (set id | id in b.subs && id in b.chans && |b.chans[id].buf| < b.bufSize),
      chans := (map id | id in b.chans :: if id in b.subs then Offer(b.chans[id], ev, b.bufSize) else b.chans[id]),
      published := b.published + [ev])
  }

  /** A handler takes the oldest buffered event, from an open or a closed channel alike. */
  function Receive(b: State, id: nat): State {
    if id in b.chans && b.chans[id].buf != [] then
      var c := b.chans[id];
      b.(chans := b.chans[id := c.(buf := c.buf[1..], received := c.received + [c.buf[0]])])
    else b
  }

  datatype Op = SubscribeOp | UnsubscribeOp(id: nat) | PublishOp(ev: Event) | ReceiveOp(id: nat)

  function Apply(b: State, op: Op): State {
    match op
    case SubscribeOp => Subscribe(b)
    case UnsubscribeOp(id) => Unsubscribe(b, id)
    case PublishOp(ev) => Publish(b, ev)
    case ReceiveOp(id) => Receive(b, id)
  }

  function Run(b: State, ops: seq<Op>): State {
    if ops == [] then b else Apply(Run(b, ops[..|ops| - 1]), ops[|ops| - 1])
  }

  /** A subscriber has been given one contiguous segment of the publish history: all of it up
      to now while open, and up to a lost event when it was dropped. */
  ghost predicate Contiguous(b: State, c: Chan) {
    && c.End() <= |b.published|
    && c.Accepted() == b.published[c.start..c.End()]
    && (c.status.Open? ==> c.End() == |b.published|)
    && (c.status.Overflowed? ==> c.End() < |b.published| && c.End() - c.start >= b.bufSize)
  }

  ghost predicate Inv(b: State) {
    && b.bufSize >= 1
    && b.subs <= b.chans.Keys
    && (forall id | id in b.chans ::
          && 1 <= id <= b.next
          && (b.chans[id].status.Open? <==> id in b.subs)
          && |b.chans[id].buf| <= b.bufSize
          && Contiguous(b, b.chans[id]))
  }

  lemma {:induction false} PublishKeepsChan(b: State, ev: Event, id: nat)
    requires Inv(b) && id in b.chans
    ensures Contiguous(Publish(b, ev), Publish(b, ev).chans[id])
  {
    var c, c' := b.chans[id], Publish(b, ev).chans[id];
    if id in b.subs && |c.buf| < b.bufSize {
      assert c'.Accepted() == c.Accepted() + [ev];
    } else {
      assert c'.Accepted() == c.Accepted();
    }
  }

  lemma {:induction false} ReceiveKeepsChan(b: State, id: nat)
    requires Inv(b) && id in b.chans
    ensures Contiguous(Receive(b, id), Receive(b, id).chans[id])
    ensures Receive(b, id).chans[id].Accepted() == b.chans[id].Accepted()
  {
    var c := b.chans[id];
    if c.buf != [] {
      assert c.received + [c.buf[0]] + c.buf[1..] == c.received + c.buf;
    }
  }

  lemma {:induction false} PublishKeepsInv(b: State, ev: Event)
    requires Inv(b)
    ensures Inv(Publish(b, ev))
  {
    forall id | id in b.chans ensures Contiguous(Publish(b, ev), Publish(b, ev).chans[id]) {
      PublishKeepsChan(b, ev, id);
    }
    hide Contiguous;
  }

  lemma {:induction false} ApplyKeepsInv(b: State, op: Op)
    requires Inv(b)
    ensures Inv(Apply(b, op))
  {
    hide Publish;
    match op
    case SubscribeOp =>
    case UnsubscribeOp(id) =>
    case PublishOp(ev) => PublishKeepsInv(b, ev);
    case ReceiveOp(id) =>
      if id in b.chans { ReceiveKeepsChan(b, id); }
  }

  /** After any calls whatsoever, every subscriber holds a contiguous segment of what was
      published, no buffer exceeds its size, and a channel is open exactly while its id is
      in the map. */
  lemma {:induction false} RunKeepsInv(bufSize: int, ops: seq<Op>)
    ensures Inv(Run(New(bufSize), ops))
  {
    if ops != [] {
      RunKeepsInv(bufSize, ops[..|ops| - 1]);
      ApplyKeepsInv(Run(New(bufSize), ops[..|ops| - 1]), ops[|ops| - 1]);
    }
  }

  /** Once closed, a channel stays closed and nothing more is put into it: no call sends on or
      closes a closed channel. */
  lemma {:induction false} ClosedStaysClosed(b: State, op: Op, id: nat)
    requires Inv(b) && id in b.chans && !b.chans[id].status.Open?
    ensures id in Apply(b, op).chans
    ensures Apply(b, op).chans[id].status == b.chans[id].status
    ensures Apply(b, op).chans[id].Accepted() == b.chans[id].Accepted()
  {
    if op.ReceiveOp? && op.id == id { ReceiveKeepsChan(b, id); }
  }

  /** What Unsubscribe leaves: the id is not mapped, its channel is not open, and nothing it was given
      is lost; no other subscriber and nothing published is touched. */
  lemma {:induction false} UnsubscribeRemoves(b: State, id: nat)
    requires Inv(b)
    ensures
      var b' := Unsubscribe(b, id);
      && id !in b'.subs && b'.published == b.published && b'.next == b.next && b'.chans.Keys == b.chans.Keys
      && (forall other | other != id :: other in b'.subs <==> other in b.subs)
      && (forall other | other != id && other in b.chans :: b'.chans[other] == b.chans[other])
    ensures id in b.chans ==>
      var c, c' := b.chans[id], Unsubscribe(b, id).chans[id];
      && c'.buf == c.buf && c'.received == c.received
      && c'.status == if c.status.Open? then Unsubscribed else c.status
  {
  }

  /** The calls that concern one subscriber: all but the receives and unsubscribes of others. */
  function Own(ops: seq<Op>, id: nat): seq<Op> {
    if ops == [] then []
    else
      var op := ops[|ops| - 1];
      Own(ops[..|ops| - 1], id) + if (op.ReceiveOp? || op.UnsubscribeOp?) && op.id != id then [] else [op]
  }

  ghost predicate SameFor(a: State, b: State, id: nat) {
    && a.bufSize == b.bufSize && a.next == b.next && a.published == b.published
    && (id in a.subs <==> id in b.subs)
    && (id in a.chans <==> id in b.chans)
    && (id in a.chans ==> a.chans[id] == b.chans[id])
  }

  /** Isolation: how fast the other subscribers read, and whether they leave, has no effect at
      all on one subscriber's channel. */
  lemma {:induction false} Isolation(bufSize: int, ops: seq<Op>, id: nat)
    ensures SameFor(Run(New(bufSize), ops), Run(New(bufSize), Own(ops, id)), id)
  {
    if ops != [] {
      var n := |ops| - 1;
      Isolation(bufSize, ops[..n], id);
      var own := Own(ops[..n], id);
      if !((ops[n].ReceiveOp? || ops[n].UnsubscribeOp?) && ops[n].id != id) {
        assert (own + [ops[n]])[..|own|] == own;
      } else {
        assert own + [] == own;
      }
    }
  }
}
