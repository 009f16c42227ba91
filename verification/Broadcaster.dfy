/** The broadcaster as mutable objects: Go channels, the subscriber map, and the three methods
    that run under its mutex, each proved to do what `Broadcast` says. */
module Broadcaster {
  import opened EventLog
  import Broadcast

  datatype Received = Got(ev: Event) | Closed | WouldBlock

  /** A buffered Go channel. Sending on or closing a closed channel panics, so both demand an
      open one. The ghost fields record what the abstract channel remembers. */
  class Channel {
    const size: nat
    ghost const id: nat
    ghost const start: nat
    var buf: seq<Event>
    var closed: bool
    ghost var received: seq<Event>
    ghost var reason: Broadcast.CloseReason

    constructor (size: nat, ghost id: nat, ghost start: nat)
      ensures this.size == size && this.id == id && this.start == start
      ensures View() == Broadcast.Chan([], Broadcast.Open, [], start) && !closed
    {
      this.size, this.id, this.start := size, id, start;
      buf, closed, received, reason := [], false, [], Broadcast.Overflowed;
    }

    ghost function View(): Broadcast.Chan
      reads this
    {
      Broadcast.Chan(buf, if closed then reason else Broadcast.Open, received, start)
    }

    /** The non-blocking send of a `select` with a default case. */
    method TrySend(ev: Event) returns (sent: bool)
      requires !closed
      modifies this`buf
      ensures sent <==> |old(buf)| < size
      ensures buf == if sent then old(buf) + [ev] else old(buf)
    {
      sent := |buf| < size;
      if sent {
        buf := buf + [ev];
      }
    }

    method Close(ghost why: Broadcast.CloseReason)
      requires !closed
      modifies this`closed, this`reason
      ensures closed && reason == why
    {
      closed := true;
      reason := why;
    }

    /** A receive: buffered events come first, even from a closed channel. */
    method Receive() returns (r: Received)
      modifies this`buf, this`received
      ensures old(buf) != [] ==>
        r == Got(old(buf)[0]) && buf == old(buf)[1..] && received == old(received) + [old(buf)[0]]
      ensures old(buf) == [] ==>
        r == (if closed then Closed else WouldBlock) && buf == [] && received == old(received)
    {
      if |buf| > 0 {
        r := Got(buf[0]);
        received := received + [buf[0]];
        buf := buf[1..];
      } else if closed {
        r := Closed;
      } else {
        r := WouldBlock;
      }
    }
  }

  class Broadcaster {
    var subs: map<nat, Channel>
    var next: nat
    const bufSize: nat
    ghost var chans: map<nat, Channel>
    ghost var published: seq<Event>
    ghost var Repr: set<Channel>

    constructor (bufSize: int)
      ensures Valid() && Repr == {}
      ensures View() == Broadcast.New(bufSize)
    {
      this.bufSize := if bufSize < 1 then 1 else bufSize;
      subs, next, chans, published, Repr := map[], 0, map[], [], {};
    }

    ghost function View(): Broadcast.State
      requires forall id | id in chans :: chans[id] in Repr
      reads this, Repr
    {
      Broadcast.State(bufSize, next, subs.Keys, map id | id in chans :: chans[id].View(), published)
    }

    /** Each id has its own channel, open exactly while the id is in the map. */
    ghost predicate Linked()
      reads this, Repr
    {
      && (forall id | id in subs :: id in chans && subs[id] == chans[id])
      && (forall id | id in chans :: chans[id] in Repr && chans[id].id == id && chans[id].size == bufSize)
      && (forall id | id in chans :: chans[id].closed <==> id !in subs)
    }

    ghost predicate Valid()
      reads this, Repr
    {
      Linked() && Broadcast.Inv(View())
    }

    method Subscribe() returns (id: nat, ch: Channel)
      requires Valid()
      modifies this
      ensures Valid() && View() == Broadcast.Subscribe(old(View()))
      ensures fresh(ch) && id == next && chans == old(chans)[id := ch] && Repr == old(Repr) + {ch}
    {
      Broadcast.ApplyKeepsInv(View(), Broadcast.SubscribeOp);
      id, ch := Register();
    }

    /** The critical section of Subscribe. */
    method Register() returns (id: nat, ch: Channel)
      requires Linked() && next + 1 !in chans
      modifies this
      ensures Linked() && View() == Broadcast.Subscribe(old(View()))
      ensures fresh(ch) && id == next && chans == old(chans)[id := ch] && Repr == old(Repr) + {ch}
    {
      ghost var after := Broadcast.Subscribe(View());
      ch := new Channel(bufSize, next + 1, |published|);
      next := next + 1;
      id := next;
      AddEntry(id, ch);
      assert View().chans == after.chans;
    }

    method AddEntry(id: nat, ch: Channel)
      requires Linked() && id !in chans && ch.id == id
      requires ch.size == bufSize && !ch.closed
      modifies this`subs, this`chans, this`Repr
      ensures Linked() && Repr == old(Repr) + {ch}
      ensures subs == old(subs)[id := ch] && chans == old(chans)[id := ch]
    {
      subs := subs[id := ch];
      chans := chans[id := ch];
      Repr := Repr + {ch};
    }

    method Unsubscribe(id: nat)
      requires Valid()
      modifies this, if id in chans then {chans[id]} else {}
      ensures Valid() && View() == Broadcast.Unsubscribe(old(View()), id)
      ensures chans == old(chans) && Repr == old(Repr)
      ensures subs == old(subs) - {id} && (id in chans ==> chans[id].closed)
      ensures forall other | other in chans && other != id :: chans[other].View() == old(chans[other].View())
    {
      Broadcast.ApplyKeepsInv(View(), Broadcast.UnsubscribeOp(id));
      if id in subs {
        Remove(id);
      }
    }

    /** The critical section of Unsubscribe. */
    method Remove(id: nat)
      requires Linked() && id in subs
      modifies this, chans[id]
      ensures Linked() && View() == Broadcast.Unsubscribe(old(View()), id)
      ensures chans == old(chans) && Repr == old(Repr)
      ensures subs == old(subs) - {id} && chans[id].closed
      ensures forall other | other in chans && other != id :: chans[other].View() == old(chans[other].View())
    {
      ghost var after := Broadcast.Unsubscribe(View(), id);
      var ch := subs[id];
      subs := subs - {id};
      ch.Close(Broadcast.Unsubscribed);
      assert View().chans == after.chans;
    }

    method Publish(ev: Event)
      requires Valid()
      modifies this, Repr
      ensures Valid() && View() == Broadcast.Publish(old(View()), ev)
      ensures chans == old(chans) && Repr == old(Repr)
    {
      Broadcast.ApplyKeepsInv(View(), Broadcast.PublishOp(ev));
      OfferAll(ev);
    }

    /** The critical section of Publish. */
    method OfferAll(ev: Event)
      requires Linked()
      modifies this, Repr
      ensures Linked() && View() == Broadcast.Publish(old(View()), ev)
      ensures chans == old(chans) && Repr == old(Repr)
    {
      ghost var after := Broadcast.Publish(View(), ev);
      OfferEach(ev);
      published := published + [ev];
      assert View().chans == after.chans;
      assert View().subs == after.subs;
    }

    /** The loop of Publish. It visits the subscribers in no particular order, as ranging over a
        Go map does, deleting entries on the way. */
    method OfferEach(ev: Event)
      requires Linked()
      modifies this`subs, Repr`buf, Repr`closed, Repr`reason
      ensures Linked() && subs.Keys <= old(subs.Keys)
      ensures forall id | id in chans ::
        chans[id].View() ==
          if id in old(subs) then Broadcast.Offer(old(chans[id].View()), ev, bufSize) else old(chans[id].View())
    {
      var todo := subs.Keys;
      while todo != {}
        invariant Linked() && todo <= subs.Keys <= old(subs.Keys)
        invariant forall id | id in chans ::
          chans[id].View() ==
            if id in old(subs) && id !in todo then Broadcast.Offer(old(chans[id].View()), ev, bufSize)
            else old(chans[id].View())
        decreases todo
      {
        var id :| id in todo;
        todo := todo - {id};
        Offer(id, ev);
      }
    }

    /** The body of that loop, for one subscriber. */
    method Offer(id: nat, ev: Event)
      requires Linked() && id in subs
      modifies this`subs, {chans[id]}`buf, {chans[id]}`closed, {chans[id]}`reason
      ensures Linked()
      ensures subs == if |old(chans[id].buf)| < bufSize then old(subs) else old(subs) - {id}
      ensures chans[id].View() == Broadcast.Offer(old(chans[id].View()), ev, bufSize)
    {
      var ch := subs[id];
      var sent := ch.TrySend(ev);
      if !sent {
        subs := subs - {id};
        ch.Close(Broadcast.Overflowed);
      }
    }

    /** What a handler's receive from its channel does to the broadcaster's abstract state. */
    method Take(ghost id: nat, ch: Channel) returns (r: Received)
      requires Valid() && id in chans && chans[id] == ch
      modifies ch
      ensures Valid() && View() == Broadcast.Receive(old(View()), id)
      ensures var c := old(View()).chans[id];
        r == if c.buf != [] then Got(c.buf[0]) else if c.status.Open? then WouldBlock else Closed
    {
      Broadcast.ApplyKeepsInv(View(), Broadcast.ReceiveOp(id));
      r := TakeFrom(id, ch);
    }

    method TakeFrom(ghost id: nat, ch: Channel) returns (r: Received)
      requires Linked() && id in chans && chans[id] == ch
      modifies ch
      ensures Linked() && View() == Broadcast.Receive(old(View()), id)
      ensures var c := old(View()).chans[id];
        r == if c.buf != [] then Got(c.buf[0]) else if c.status.Open? then WouldBlock else Closed
    {
      ghost var after := Broadcast.Receive(View(), id);
      r := ch.Receive();
      assert View().chans == after.chans;
    }
  }
}
