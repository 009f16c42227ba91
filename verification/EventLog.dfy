/** The `events_log` table: append-only rows with strictly increasing ids, and the
    paged read `SinceSeq`. */
module EventLog {
  import opened Wrappers

  /** One row of `events_log`, and equally one `sse.Event`: the publisher copies id, kind
      and payload over unchanged. */
  datatype Event = Event(id: nat, kind: string, payload: string)

  /** AUTOINCREMENT ids are positive and strictly increasing, but need not be consecutive. */
  ghost predicate IsLog(rows: seq<Event>) {
    && (forall i | 0 <= i < |rows| :: rows[i].id > 0)
    && (forall i, j | 0 <= i < j < |rows| :: rows[i].id < rows[j].id)
  }

  /** SELECT ... WHERE seq > cursor ORDER BY seq ASC, without a limit. */
  function After(rows: seq<Event>, cursor: nat): seq<Event> {
    if rows == [] then []
    else
      var n := |rows| - 1;
      After(rows[..n], cursor) + if rows[n].id > cursor then [rows[n]] else []
  }

  function Take(rows: seq<Event>, limit: nat): seq<Event> {
    if |rows| <= limit then rows else rows[..limit]
  }

  function Page(rows: seq<Event>, cursor: nat, limit: nat): seq<Event> {
    Take(After(rows, cursor), limit)
  }

  /** The id of the last of `rows`, or `cursor` when there is none: a resume cursor. */
  function LastId(rows: seq<Event>, cursor: nat): nat {
    if rows == [] then cursor else rows[|rows| - 1].id
  }

  /** How many rows a cursor has passed: up to the last row that is not beyond it. */
  function Passed(rows: seq<Event>, cursor: nat): (k: nat)
    ensures k <= |rows|
    ensures k > 0 ==> rows[k - 1].id <= cursor
    ensures forall i | k <= i < |rows| :: rows[i].id > cursor
  {
    if rows == [] then 0
    else if rows[|rows| - 1].id <= cursor then |rows|
    else Passed(rows[..|rows| - 1], cursor)
  }

  lemma {:induction false} NothingAfter(rows: seq<Event>, cursor: nat)
    requires forall i | 0 <= i < |rows| :: rows[i].id <= cursor
    ensures After(rows, cursor) == []
  {
    if rows != [] { NothingAfter(rows[..|rows| - 1], cursor); }
  }

  lemma {:induction false} PassedRows(rows: seq<Event>, cursor: nat)
    requires IsLog(rows)
    ensures forall i | 0 <= i < Passed(rows, cursor) :: rows[i].id <= cursor
  {
    var k := Passed(rows, cursor);
    forall i | 0 <= i < k ensures rows[i].id <= cursor {
      assert i < k - 1 ==> rows[i].id < rows[k - 1].id;
    }
  }

  /** On a log, the query returns exactly the suffix that the cursor has not passed. */
  lemma {:induction false} AfterIsSuffix(rows: seq<Event>, cursor: nat)
    requires IsLog(rows)
    ensures After(rows, cursor) == rows[Passed(rows, cursor)..]
    ensures forall i | 0 <= i < Passed(rows, cursor) :: rows[i].id <= cursor
  {
    PassedRows(rows, cursor);
    if rows != [] {
      var n := |rows| - 1;
      if rows[n].id <= cursor {
        NothingAfter(rows, cursor);
      } else {
        var init, k := rows[..n], Passed(rows, cursor);
        AfterIsSuffix(init, cursor);
        assert init[k..] + [rows[n]] == rows[k..];
      }
    }
  }

  lemma {:induction false} AfterGrows(rows: seq<Event>, row: Event, cursor: nat)
    ensures After(rows + [row], cursor) == After(rows, cursor) + if row.id > cursor then [row] else []
    ensures After(rows, cursor) <= After(rows + [row], cursor)
  {
    assert (rows + [row])[..|rows|] == rows;
  }

  /** A prefix of the log suffix after a cursor stays one when the log grows. */
  lemma {:induction false} AfterMonotone(rows: seq<Event>, more: seq<Event>, cursor: nat)
    ensures After(rows, cursor) <= After(rows + more, cursor)
    decreases |more|
  {
    if more == [] {
      assert rows + more == rows;
    } else {
      var n := |more| - 1;
      AfterMonotone(rows, more[..n], cursor);
      AfterGrows(rows + more[..n], more[n], cursor);
      assert rows + more[..n] + [more[n]] == rows + more;
    }
  }

  /** Resuming after the last id of any prefix read so far continues exactly where that prefix
      ended: the fact that makes ids usable as resume cursors. */
  lemma {:induction false} ResumeContinues(rows: seq<Event>, cursor: nat, read: seq<Event>)
    requires IsLog(rows)
    requires read <= After(rows, cursor)
    ensures After(rows, LastId(read, cursor)) == After(rows, cursor)[|read|..]
    ensures LastId(read, cursor) >= cursor
  {
    var last := LastId(read, cursor);
    AfterIsSuffix(rows, cursor);
    AfterIsSuffix(rows, last);
    var k, m := Passed(rows, cursor), Passed(rows, last);
    if read != [] {
      assert read[|read| - 1] == rows[k + |read| - 1];
      assert rows[k + |read| - 1].id == last;
      assert k + |read| < |rows| ==> rows[k + |read|].id > last;
      assert m == k + |read|;
    }
    assert rows[k..][|read|..] == rows[k + |read|..];
  }

  lemma {:induction false} ScanStep(rows: seq<Event>, i: nat, cursor: nat)
    requires i < |rows|
    ensures After(rows[..i + 1], cursor) == After(rows[..i], cursor) + if rows[i].id > cursor then [rows[i]] else []
  {
    assert rows[..i + 1] == rows[..i] + [rows[i]];
    AfterGrows(rows[..i], rows[i], cursor);
  }

  lemma {:induction false} ScanDone(rows: seq<Event>, i: nat, cursor: nat, limit: nat)
    requires i <= |rows|
    requires |After(rows[..i], cursor)| <= limit
    requires i == |rows| || |After(rows[..i], cursor)| == limit
    ensures After(rows[..i], cursor) == Page(rows, cursor, limit)
  {
    AfterMonotone(rows[..i], rows[i..], cursor);
    assert rows[..i] + rows[i..] == rows;
    if i == |rows| {
      assert rows[..i] == rows;
    } else {
      assert After(rows[..i], cursor) == After(rows, cursor)[..limit];
    }
  }

  class EventsLog {
    var rows: seq<Event>

    ghost predicate Valid()
      reads this
    {
      IsLog(rows)
    }

    constructor ()
      ensures Valid() && rows == []
    {
      rows := [];
    }

    /** Inserts one row. `skipped` is the number of ids the database leaves out first. */
    method Append(kind: string, payload: string, skipped: nat, fails: bool)
      returns (r: Result<nat, string>)
      requires Valid()
      modifies this
      ensures Valid()
      ensures fails ==> r.Err? && rows == old(rows)
      ensures !fails ==> r == Ok(LastId(old(rows), 0) + 1 + skipped)
      ensures !fails ==> rows == old(rows) + [Event(r.value, kind, payload)]
    {
      if fails {
        return Err("events_log append");
      }
      var id := (if |rows| == 0 then 0 else rows[|rows| - 1].id) + 1 + skipped;
      rows := rows + [Event(id, kind, payload)];
      r := Ok(id);
    }

    /** Reads one page by scanning the rows in id order. */
    method SinceSeq(cursor: nat, limit: nat) returns (out: seq<Event>)
      requires Valid()
      ensures out == Page(rows, cursor, limit)
      ensures |out| <= limit
    {
      var table := rows;
      out := [];
      var i := 0;
      while i < |table| && |out| < limit
        invariant 0 <= i <= |table|
        invariant |out| <= limit
        invariant out == After(table[..i], cursor)
      {
        ScanStep(table, i, cursor);
        if table[i].id > cursor {
          out := out + [table[i]];
        }
        i := i + 1;
      }
      ScanDone(table, i, cursor, limit);
    }
  }
}
