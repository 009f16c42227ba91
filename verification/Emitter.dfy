/** Emit: append to the events log, then publish; nothing is published when the append fails. */
module Emitter {
  import opened Wrappers
  import opened EventLog
  import Broadcast
  import opened Broadcaster

  class Emitter {
    const log: EventsLog
    const broadcaster: Broadcaster?

    constructor (log: EventsLog, broadcaster: Broadcaster?)
      ensures this.log == log && this.broadcaster == broadcaster
    {
      this.log, this.broadcaster := log, broadcaster;
    }

    ghost function Footprint(): set<object>
      reads this, broadcaster
    {
      {log} + if broadcaster == null then {} else {broadcaster} + broadcaster.Repr
    }

    ghost predicate Valid()
      reads this, Footprint()
    {
      && log.Valid()
      && (broadcaster != null ==> broadcaster.Valid())
    }

    /** The log gains the row and the broadcaster publishes that same row, or neither changes. */
    method Emit(kind: string, payload: string, skipped: nat, appendFails: bool)
      requires Valid()
      modifies Footprint()
      ensures Valid() && Footprint() == old(Footprint())
      ensures appendFails ==> log.rows == old(log.rows)
      ensures appendFails && broadcaster != null ==> broadcaster.View() == old(broadcaster.View())
      ensures !appendFails ==>
        var row := Event(LastId(old(log.rows), 0) + 1 + skipped, kind, payload);
        && log.rows == old(log.rows) + [row]
        && (broadcaster != null ==> broadcaster.View() == Broadcast.Publish(old(broadcaster.View()), row))
    {
      var seqNo := log.Append(kind, payload, skipped, appendFails);
      if seqNo.Err? {
        return;
      }
      if broadcaster != null {
        broadcaster.Publish(Event(seqNo.value, kind, payload));
      }
    }
  }
}
