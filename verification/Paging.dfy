/** Keyset pagination: newest first, the timestamp of a page's last row as the next cursor. */
module Paging {
  import opened Wrappers
  import opened Store

  /** The rows a query can return, each with the column it is ordered by; NULLs come last. */
  type Rows = map<string, Option<int>>

  predicate Eligible(rows: Rows, before: Option<int>, id: string) {
    id in rows && (before.Some? ==> rows[id].Some? && rows[id].value < before.value)
  }

  predicate NotBefore(a: Option<int>, b: Option<int>) {
    b.None? || (a.Some? && a.value >= b.value)
  }

  ghost predicate Newest(rows: Rows, out: seq<string>) {
    && (forall id | id in out :: id in rows)
    && (forall i, j | 0 <= i < j < |out| :: out[i] != out[j] && NotBefore(rows[out[i]], rows[out[j]]))
  }

  /** A possible result of the query: SQL leaves the order of equal timestamps open. */
  ghost predicate IsPage(rows: Rows, before: Option<int>, limit: nat, out: seq<string>) {
    && Newest(rows, out)
    && |out| <= limit
    && (forall id | id in out :: Eligible(rows, before, id))
    && (forall id | Eligible(rows, before, id) && id !in out ::
          |out| == limit && forall x | x in out :: NotBefore(rows[x], rows[id]))
  }

  // ---------------------------------------------------------------- the queries

  function ChatMessages(t: Tables, chat: string): Rows {
    map id | id in t.messages && t.messages[id].chat == chat && IsLive(t, id) :: Some(t.messages[id].ts)
  }

  function Matching(t: Tables, matches: string -> bool): Rows {
    map id | id in t.messages && matches(t.messages[id].body) && IsLive(t, id) :: Some(t.messages[id].ts)
  }

  function ListedChats(t: Tables, includeArchived: bool): Rows {
    map jid | jid in t.chats && (includeArchived || !t.chats[jid].archived) :: t.chats[jid].lastMsgAt
  }

  function LiveIds(t: Tables): set<string> {
    set id | id in t.messages && IsLive(t, id)
  }

  // ---------------------------------------------------------------- equal timestamps, by id

  predicate LexBelow(a: string, b: string) {
    b != "" && (a == "" || a[0] < b[0] || (a[0] == b[0] && LexBelow(a[1..], b[1..])))
  }

  lemma {:induction false} LexTotal(a: string, b: string)
    ensures a == b || LexBelow(a, b) || LexBelow(b, a)
  {
    if a != "" && b != "" && a[0] == b[0] {
      LexTotal(a[1..], b[1..]);
      assert a == [a[0]] + a[1..] && b == [b[0]] + b[1..];
    }
  }

  lemma {:induction false} LexTransitive(a: string, b: string, c: string)
    requires LexBelow(a, b) && LexBelow(b, c)
    ensures LexBelow(a, c)
  {
    if a != "" && a[0] == b[0] == c[0] { LexTransitive(a[1..], b[1..], c[1..]); }
  }

  /** ORDER BY last_msg_at DESC NULLS LAST, jid ASC. */
  predicate Precedes(rows: Rows, a: string, b: string)
    requires a in rows && b in rows
  {
    NotBefore(rows[a], rows[b]) && (rows[a] == rows[b] ==> LexBelow(a, b))
  }

  lemma {:induction false} PrecedesTransitive(rows: Rows, a: string, b: string, c: string)
    requires a in rows && b in rows && c in rows
    requires Precedes(rows, a, b) && Precedes(rows, b, c)
    ensures Precedes(rows, a, c)
  {
    if rows[a] == rows[b] == rows[c] { LexTransitive(a, b, c); }
  }

  /** The page is in that order, and nothing left out comes before anything on it. */
  ghost predicate TiesByJid(rows: Rows, before: Option<int>, out: seq<string>) {
    && (forall id | id in out :: id in rows)
    && (forall i, j | 0 <= i < j < |out| :: Precedes(rows, out[i], out[j]))
    && (forall id, x | Eligible(rows, before, id) && id !in out && x in out :: Precedes(rows, x, id))
  }

  /** ORDER BY ... LIMIT ?, picking the first remaining row each time. */
  method Select(rows: Rows, before: Option<int>, limit: nat) returns (out: seq<string>)
    ensures IsPage(rows, before, limit, out)
    ensures TiesByJid(rows, before, out)
  {
    var todo := set id | id in rows && Eligible(rows, before, id);
    out := [];
    while |out| < limit && todo != {}
      invariant Newest(rows, out) && todo <= rows.Keys
      invariant |out| <= limit
      invariant forall id :: Eligible(rows, before, id) <==> id in todo || id in out
      invariant forall id, x | id in todo && x in out :: id != x && Precedes(rows, x, id)
      invariant forall i, j | 0 <= i < j < |out| :: Precedes(rows, out[i], out[j])
      decreases limit - |out|
    {
      var first := PickFirst(rows, todo);
      assert forall x | x in out :: x != first && Precedes(rows, x, first);
      assert forall i | 0 <= i < |out| :: out[i] in out;
      out := out + [first];
      todo := todo - {first};
    }
  }

  method PickFirst(rows: Rows, todo: set<string>) returns (first: string)
    requires todo != {} && todo <= rows.Keys
    ensures first in todo && forall id | id in todo && id != first :: Precedes(rows, first, id)
  {
    first :| first in todo;
    var rest := todo - {first};
    while rest != {}
      invariant rest <= todo && first in todo - rest
      invariant forall id | id in todo && id !in rest && id != first :: Precedes(rows, first, id)
      decreases rest
    {
      var id :| id in rest;
      rest := rest - {id};
      if !Precedes(rows, first, id) {
        LexTotal(first, id);
        forall other | other in todo && other !in rest && other != id && other != first
          ensures Precedes(rows, id, other)
        {
          PrecedesTransitive(rows, id, first, other);
        }
        first := id;
      }
    }
  }

  // ---------------------------------------------------------------- following the cursor

  /** There is a next page to ask for: this one is full and its last row has a timestamp. */
  predicate Continues(rows: Rows, limit: nat, page: seq<string>) {
    |page| == limit > 0 && page[|page| - 1] in rows && rows[page[|page| - 1]].Some?
  }

  /** The pages of a client that always asks for what comes before the last row it has seen. */
  ghost predicate IsWalk(rows: Rows, limit: nat, before: Option<int>, pages: seq<seq<string>>)
    decreases pages
  {
    pages == [] ||
    (IsPage(rows, before, limit, pages[0]) &&
      (|pages| > 1 ==>
        && Continues(rows, limit, pages[0])
        && IsWalk(rows, limit, rows[pages[0][limit - 1]], pages[1..])))
  }

  predicate Finished(rows: Rows, limit: nat, pages: seq<seq<string>>) {
    pages != [] && !Continues(rows, limit, pages[|pages| - 1])
  }

  function Flatten(pages: seq<seq<string>>): seq<string> {
    if pages == [] then [] else pages[0] + Flatten(pages[1..])
  }

  /** A row that has the timestamp of a page's last row but did not fit on that page. */
  ghost predicate CutOff(rows: Rows, pages: seq<seq<string>>, id: string) {
    |pages| > 1 && (
      || (id in rows && pages[0] != [] && pages[0][|pages[0]| - 1] in rows
          && rows[id] == rows[pages[0][|pages[0]| - 1]] && id !in pages[0])
      || CutOff(rows, pages[1..], id))
  }

  lemma {:induction false} FlattenEligible(rows: Rows, limit: nat, before: Option<int>, pages: seq<seq<string>>)
    requires IsWalk(rows, limit, before, pages)
    ensures forall id | id in Flatten(pages) :: Eligible(rows, before, id)
    decreases pages
  {
    if |pages| > 1 {
      FlattenEligible(rows, limit, rows[pages[0][limit - 1]], pages[1..]);
    }
  }

  /** The concatenated pages are in order and never repeat a row. */
  lemma {:induction false} WalkIsOrdered(rows: Rows, limit: nat, before: Option<int>, pages: seq<seq<string>>)
    requires IsWalk(rows, limit, before, pages)
    ensures Newest(rows, Flatten(pages))
    decreases pages
  {
    if |pages| > 1 {
      var last := rows[pages[0][limit - 1]];
      WalkIsOrdered(rows, limit, last, pages[1..]);
      FlattenEligible(rows, limit, last, pages[1..]);
      var rest := Flatten(pages[1..]);
      forall x, y | x in pages[0] && y in rest
        ensures x != y && NotBefore(rows[x], rows[y])
      {
        assert Eligible(rows, last, y);
        assert NotBefore(rows[x], last);
      }
    } else if |pages| == 1 {
      assert Flatten(pages[1..]) == [];
      assert Flatten(pages) == pages[0];
    }
  }

  /** A finished walk returns a row with a timestamp exactly unless a page boundary cut it off from
      rows of the same timestamp. */
  lemma {:induction false} WalkReturnsIff(rows: Rows, limit: nat, before: Option<int>, pages: seq<seq<string>>,
                                          id: string)
    requires limit > 0 && IsWalk(rows, limit, before, pages) && Finished(rows, limit, pages)
    requires Eligible(rows, before, id) && rows[id].Some?
    ensures id in Flatten(pages) <==> !CutOff(rows, pages, id)
    decreases pages
  {
    var page, rest := pages[0], pages[1..];
    if |pages| == 1 {
      assert Flatten(rest) == [];
    } else {
      var last := rows[page[limit - 1]];
      assert Finished(rows, limit, rest);
      if id in page {
        NotCutOffLater(rows, limit, last, rest, id);
      } else if rows[id] == last {
        FlattenEligible(rows, limit, last, rest);
      } else {
        assert NotBefore(last, rows[id]);
        WalkReturnsIff(rows, limit, last, rest, id);
      }
    }
  }

  /** A row no later page could hold is not cut off there either. */
  lemma {:induction false} NotCutOffLater(rows: Rows, limit: nat, before: Option<int>, pages: seq<seq<string>>,
                                          id: string)
    requires limit > 0 && IsWalk(rows, limit, before, pages) && before.Some?
    requires id in rows && rows[id].Some? && rows[id].value >= before.value
    ensures !CutOff(rows, pages, id)
    decreases pages
  {
    if |pages| > 1 {
      var last := pages[0][limit - 1];
      assert last in pages[0] && Eligible(rows, before, last);
      NotCutOffLater(rows, limit, rows[last], pages[1..], id);
    }
  }

  ghost predicate DistinctTimes(rows: Rows) {
    forall a, b | a in rows && b in rows && rows[a].Some? && rows[a] == rows[b] :: a == b
  }

  lemma {:induction false} NothingCutOff(rows: Rows, limit: nat, before: Option<int>, pages: seq<seq<string>>,
                                         id: string)
    requires DistinctTimes(rows) && IsWalk(rows, limit, before, pages)
    requires id in rows && rows[id].Some?
    ensures !CutOff(rows, pages, id)
    decreases pages
  {
    if |pages| > 1 {
      NothingCutOff(rows, limit, rows[pages[0][limit - 1]], pages[1..], id);
    }
  }

  /** With distinct timestamps, a finished walk from the start is the full listing: newest first,
      no repeats, and every row that has a timestamp. */
  lemma {:induction false} WalkIsFullListing(rows: Rows, limit: nat, pages: seq<seq<string>>)
    requires limit > 0 && DistinctTimes(rows)
    requires IsWalk(rows, limit, None, pages) && Finished(rows, limit, pages)
    ensures Newest(rows, Flatten(pages))
    ensures forall id | id in rows && rows[id].Some? :: id in Flatten(pages)
  {
    WalkIsOrdered(rows, limit, None, pages);
    forall id | id in rows && rows[id].Some?
      ensures id in Flatten(pages)
    {
      NothingCutOff(rows, limit, None, pages, id);
      WalkReturnsIff(rows, limit, None, pages, id);
    }
  }

  // ---------------------------------------------------------------- completeness, from the rows alone

  /** The rows with a timestamp that a query before this cursor can reach: those newer than `v`, and
      those at `v`. */
  ghost function Newer(rows: Rows, before: Option<int>, v: int): set<string> {
    set id | id in rows && Eligible(rows, before, id) && rows[id].Some? && rows[id].value > v
  }

  ghost function At(rows: Rows, before: Option<int>, v: int): set<string> {
    set id | id in rows && Eligible(rows, before, id) && rows[id].Some? && rows[id].value == v
  }

  /** The end of the k-th full page falls strictly inside the group of rows at `v`. */
  ghost predicate Splits(rows: Rows, before: Option<int>, limit: nat, k: nat, v: int) {
    k >= 1 && |Newer(rows, before, v)| < k * limit < |Newer(rows, before, v)| + |At(rows, before, v)|
  }

  ghost predicate SomeSplit(rows: Rows, before: Option<int>, limit: nat) {
    exists k: nat, v: int :: Splits(rows, before, limit, k, v)
  }

  /** Every reachable row with a timestamp is on some page. */
  ghost predicate Complete(rows: Rows, before: Option<int>, pages: seq<seq<string>>) {
    forall id | Eligible(rows, before, id) && rows[id].Some? :: id in Flatten(pages)
  }

  lemma {:induction false} SubsetSize<T>(a: set<T>, b: set<T>)
    requires a <= b
    ensures |a| <= |b| && (|a| == |b| ==> a == b)
  {
    if a != {} {
      var x :| x in a;
      SubsetSize(a - {x}, b - {x});
    }
  }

  lemma {:induction false} UnionSize<T>(a: set<T>, b: set<T>)
    requires a !! b
    ensures |a + b| == |a| + |b|
  {
    assert a + b - b == a;
  }

  lemma {:induction false} DistinctSize(rows: Rows, out: seq<string>)
    requires Newest(rows, out)
    ensures |set id | id in out| == |out|
  {
    if out != [] {
      var n := |out| - 1;
      DistinctSize(rows, out[..n]);
      assert (set id | id in out) == (set id | id in out[..n]) + {out[n]};
    }
  }

  /** A full page ends at a timestamp `c`: it holds all newer rows and some of those at `c`. */
  lemma {:induction false} FullPageHolds(rows: Rows, before: Option<int>, limit: nat, page: seq<string>)
    requires IsPage(rows, before, limit, page) && Continues(rows, limit, page)
    ensures
      var c := rows[page[limit - 1]].value;
      && (forall id | id in Newer(rows, before, c) :: id in page)
      && (forall id | id in page :: id in Newer(rows, before, c) || id in At(rows, before, c))
      && page[limit - 1] in page && page[limit - 1] !in Newer(rows, before, c)
      && (before.Some? ==> c < before.value)
  {
    var last := page[limit - 1];
    assert last in page && Eligible(rows, before, last);
    forall id | id in page
      ensures NotBefore(rows[id], rows[last])
    {
    }
    forall id | id in Newer(rows, before, rows[last].value)
      ensures id in page
    {
      assert id !in page ==> NotBefore(rows[last], rows[id]);
    }
  }

  /** It holds all of those at `c` exactly if together they fill the page. */
  lemma {:induction false} FullPageSizes(rows: Rows, before: Option<int>, limit: nat, page: seq<string>)
    requires IsPage(rows, before, limit, page) && Continues(rows, limit, page)
    ensures
      var c := rows[page[limit - 1]].value;
      var newer, at := Newer(rows, before, c), At(rows, before, c);
      && |newer| < limit <= |newer| + |at|
      && (|newer| + |at| == limit <==> forall id | id in at :: id in page)
  {
    FullPageHolds(rows, before, limit, page);
    DistinctSize(rows, page);
    var last, c := page[limit - 1], rows[page[limit - 1]].value;
    NewerAndAt(rows, before, c);
    CoverSizes(Newer(rows, before, c), At(rows, before, c), (set id | id in page), last);
    hide IsPage, Newer, At;
    assert forall id :: id in (set x | x in page) <==> id in page;
  }

  lemma {:induction false} NewerAndAt(rows: Rows, before: Option<int>, v: int)
    ensures Newer(rows, before, v) !! At(rows, before, v)
    ensures |Newer(rows, before, v) + At(rows, before, v)| == |Newer(rows, before, v)| + |At(rows, before, v)|
  {
    UnionSize(Newer(rows, before, v), At(rows, before, v));
  }

  /** A set between one of two disjoint sets and their union. */
  lemma {:induction false} CoverSizes<T>(newer: set<T>, at: set<T>, all: set<T>, last: T)
    requires newer !! at && newer <= all <= newer + at && last in all && last !in newer
    ensures |newer| < |all| <= |newer| + |at|
    ensures |newer| + |at| == |all| <==> forall x | x in at :: x in all
  {
    SubsetSize(newer, all - {last});
    SubsetSize(all, newer + at);
    UnionSize(newer, at);
    assert (forall x | x in at :: x in all) ==> all == newer + at;
  }

  /** Beyond `c`, the rows newer than `v` are those from `c` on and those of the older rest. */
  lemma {:induction false} OlderGroups(rows: Rows, before: Option<int>, c: int, v: int)
    requires (before.Some? ==> c < before.value) && v < c
    ensures |Newer(rows, before, v)| == |Newer(rows, before, c)| + |At(rows, before, c)| + |Newer(rows, Some(c), v)|
    ensures At(rows, before, v) == At(rows, Some(c), v)
  {
    var newer, at, rest := Newer(rows, before, c), At(rows, before, c), Newer(rows, Some(c), v);
    NewerAndAt(rows, before, c);
    assert Newer(rows, before, v) == newer + at + rest;
    assert newer + at !! rest;
    UnionSize(newer + at, rest);
  }

  lemma {:induction false} NewerGroups(rows: Rows, before: Option<int>, c: int, v: int)
    requires v >= c
    ensures At(rows, Some(c), v) == {}
    ensures |Newer(rows, before, v)| + |At(rows, before, v)| <= |Newer(rows, before, c)| + |At(rows, before, c)|
  {
    NewerAndAt(rows, before, v);
    NewerAndAt(rows, before, c);
    SubsetSize(Newer(rows, before, v) + At(rows, before, v), Newer(rows, before, c) + At(rows, before, c));
  }

  /** After a page that cut nothing off, the rest is the same question about the older rows. */
  lemma {:induction false} SomeSplitShift(rows: Rows, before: Option<int>, limit: nat, c: int)
    requires limit > 0 && (before.Some? ==> c < before.value)
    requires |Newer(rows, before, c)| + |At(rows, before, c)| == limit
    ensures SomeSplit(rows, before, limit) <==> SomeSplit(rows, Some(c), limit)
  {
    if SomeSplit(rows, before, limit) {
      var k: nat, v: int :| Splits(rows, before, limit, k, v);
      if v < c { OlderGroups(rows, before, c, v); } else { NewerGroups(rows, before, c, v); }
      hide Newer, At;
      Multiples(k, limit);
      assert Splits(rows, Some(c), limit, k - 1, v);
    }
    if SomeSplit(rows, Some(c), limit) {
      var k: nat, v: int :| Splits(rows, Some(c), limit, k, v);
      if v < c { OlderGroups(rows, before, c, v); } else { NewerGroups(rows, before, c, v); }
      hide Newer, At;
      Multiples(k + 1, limit);
      assert Splits(rows, before, limit, k + 1, v);
    }
  }

  lemma {:induction false} Multiples(k: nat, limit: nat)
    requires k >= 1 && limit > 0
    ensures k * limit == (k - 1) * limit + limit && k * limit >= limit
    ensures k * limit > limit ==> k >= 2
  {
    assert (k - 1) * limit >= 0;
  }

  /** A page that does not continue holds every dated row. */
  lemma {:induction false} LastPageHolds(rows: Rows, before: Option<int>, limit: nat, page: seq<string>)
    requires limit > 0 && IsPage(rows, before, limit, page) && !Continues(rows, limit, page)
    ensures forall id | Eligible(rows, before, id) && rows[id].Some? :: id in page
  {
    forall id | Eligible(rows, before, id) && rows[id].Some?
      ensures id in page
    {
      assert |page| == limit ==> page[limit - 1] in page;
    }
  }

  /** They are fewer than the limit. */
  lemma {:induction false} LastPageIsShort(rows: Rows, limit: nat, page: seq<string>)
    requires limit > 0 && Newest(rows, page) && |page| <= limit && !Continues(rows, limit, page)
    ensures |set id | id in page && rows[id].Some?| < limit
  {
    var dated, all := set id | id in page && rows[id].Some?, set id | id in page;
    DistinctSize(rows, page);
    if |page| == limit {
      assert page[limit - 1] in page && page[limit - 1] !in dated;
      SubsetSize(dated, all - {page[limit - 1]});
    } else {
      SubsetSize(dated, all);
    }
  }

  /** So nothing is split. */
  lemma {:induction false} FewSplitNothing(rows: Rows, before: Option<int>, limit: nat, dated: set<string>)
    requires limit > 0 && |dated| < limit
    requires forall id | Eligible(rows, before, id) && rows[id].Some? :: id in dated
    ensures !SomeSplit(rows, before, limit)
  {
    forall k: nat, v: int
      ensures !Splits(rows, before, limit, k, v)
    {
      NewerAndAt(rows, before, v);
      SubsetSize(Newer(rows, before, v) + At(rows, before, v), dated);
      hide Newer, At;
      if k >= 1 { Multiples(k, limit); }
    }
  }

  lemma {:induction false} LastPageIsComplete(rows: Rows, before: Option<int>, limit: nat, page: seq<string>)
    requires limit > 0 && IsPage(rows, before, limit, page) && !Continues(rows, limit, page)
    ensures forall id | Eligible(rows, before, id) && rows[id].Some? :: id in page
    ensures !SomeSplit(rows, before, limit)
  {
    LastPageHolds(rows, before, limit, page);
    LastPageIsShort(rows, limit, page);
    FewSplitNothing(rows, before, limit, set id | id in page && rows[id].Some?);
    hide SomeSplit;
  }

  lemma {:induction false} WalkCompleteFrom(rows: Rows, limit: nat, before: Option<int>, pages: seq<seq<string>>)
    requires limit > 0 && IsWalk(rows, limit, before, pages) && Finished(rows, limit, pages)
    ensures Complete(rows, before, pages) <==> !SomeSplit(rows, before, limit)
    decreases pages
  {
    var page, rest := pages[0], pages[1..];
    if |pages| == 1 {
      LastPageIsComplete(rows, before, limit, page);
      assert Flatten(rest) == [] && Flatten(pages) == page;
    } else {
      var cursor := rows[page[limit - 1]];
      FullPageSizes(rows, before, limit, page);
      FullPageHolds(rows, before, limit, page);
      FlattenEligible(rows, limit, cursor, rest);
      assert page[limit - 1] in page && Eligible(rows, before, page[limit - 1]);
      if |Newer(rows, before, cursor.value)| + |At(rows, before, cursor.value)| == limit {
        WalkCompleteFrom(rows, limit, cursor, rest);
        SomeSplitShift(rows, before, limit, cursor.value);
        CompleteRest(rows, limit, before, pages);
      } else {
        var id :| id in At(rows, before, cursor.value) && id !in page;
        assert Splits(rows, before, limit, 1, cursor.value);
        assert id !in Flatten(rest);
        assert Eligible(rows, before, id) && rows[id].Some? && id !in Flatten(pages);
      }
    }
  }

  lemma {:induction false} CompleteRest(rows: Rows, limit: nat, before: Option<int>, pages: seq<seq<string>>)
    requires |pages| > 1 && IsWalk(rows, limit, before, pages)
    requires
      var c := rows[pages[0][limit - 1]];
      forall id | Eligible(rows, before, id) && rows[id].Some? && rows[id].value >= c.value :: id in pages[0]
    ensures Complete(rows, before, pages) <==> Complete(rows, rows[pages[0][limit - 1]], pages[1..])
  {
    var page, rest, c := pages[0], pages[1..], rows[pages[0][limit - 1]];
    assert page[limit - 1] in page && Eligible(rows, before, page[limit - 1]);
    forall id | id in page && rows[id].Some?
      ensures rows[id].value >= c.value
    {
      assert NotBefore(rows[id], c);
    }
  }

  /** When does following the cursor see everything? Exactly when no multiple of the page size falls
      strictly inside a group of rows with equal timestamps, counting from the newest. This depends
      on the rows alone: then every finished walk is complete, and otherwise none is. */
  lemma {:induction false} WalkCompleteIff(rows: Rows, limit: nat, pages: seq<seq<string>>)
    requires limit > 0 && IsWalk(rows, limit, None, pages) && Finished(rows, limit, pages)
    ensures Complete(rows, None, pages) <==> !SomeSplit(rows, None, limit)
  {
    WalkCompleteFrom(rows, limit, None, pages);
  }

  // ---------------------------------------------------------------- rows arriving during a walk

  /** Two moments of a table agree on the rows older than a cursor. */
  ghost predicate AgreeBelow(rows: Rows, rows': Rows, c: int) {
    forall id :: Eligible(rows, Some(c), id) || Eligible(rows', Some(c), id) ==>
      id in rows && id in rows' && rows[id] == rows'[id]
  }

  /** A walk whose n-th page is read from the n-th moment of the table. Between two pages rows may be
      added, and others changed, as long as those older than the cursor stay what they are. */
  ghost predicate IsLiveWalk(moments: seq<Rows>, limit: nat, before: Option<int>, pages: seq<seq<string>>)
    requires |moments| == |pages|
    decreases pages
  {
    pages == [] ||
    (IsPage(moments[0], before, limit, pages[0]) &&
      (|pages| > 1 ==>
        && Continues(moments[0], limit, pages[0])
        && AgreeBelow(moments[0], moments[1], moments[0][pages[0][limit - 1]].value)
        && IsLiveWalk(moments[1..], limit, moments[0][pages[0][limit - 1]], pages[1..])))
  }

  /** Below the cursor a page cannot tell the moments apart. */
  lemma {:induction false} SamePage(rows: Rows, rows': Rows, c: int, limit: nat, page: seq<string>)
    requires AgreeBelow(rows, rows', c) && IsPage(rows', Some(c), limit, page)
    ensures IsPage(rows, Some(c), limit, page)
    ensures Continues(rows, limit, page) <==> Continues(rows', limit, page)
    ensures forall id | id in page :: id in rows && id in rows' && rows[id] == rows'[id]
  {
    assert forall id :: Eligible(rows, Some(c), id) <==> Eligible(rows', Some(c), id);
    assert |page| == limit > 0 ==> page[limit - 1] in page;
  }

  lemma {:induction false} AgreeBelowTrans(a: Rows, b: Rows, c: Rows, v: int, v': int)
    requires AgreeBelow(a, b, v) && AgreeBelow(b, c, v') && v' <= v
    ensures AgreeBelow(a, c, v')
  {
    forall id | Eligible(a, Some(v'), id) || Eligible(c, Some(v'), id)
      ensures id in a && id in c && a[id] == c[id]
    {
      assert Eligible(a, Some(v'), id) ==> Eligible(a, Some(v), id);
      assert Eligible(c, Some(v'), id) ==> Eligible(b, Some(v'), id);
      assert Eligible(b, Some(v'), id) ==> Eligible(b, Some(v), id);
    }
  }

  lemma {:induction false} LiveWalkFrom(rows: Rows, moments: seq<Rows>, limit: nat, c: int, pages: seq<seq<string>>)
    requires |moments| == |pages| > 0 && IsLiveWalk(moments, limit, Some(c), pages)
    requires AgreeBelow(rows, moments[0], c)
    ensures IsWalk(rows, limit, Some(c), pages)
    ensures Finished(moments[|moments| - 1], limit, pages) <==> Finished(rows, limit, pages)
    decreases pages
  {
    SamePage(rows, moments[0], c, limit, pages[0]);
    if |pages| > 1 {
      var last := pages[0][limit - 1];
      assert last in pages[0] && Eligible(rows, Some(c), last);
      AgreeBelowTrans(rows, moments[0], moments[1], c, rows[last].value);
      LiveWalkFrom(rows, moments[1..], limit, rows[last].value, pages[1..]);
    }
  }

  /** Messages that arrive during a walk do not disturb it: its pages are a walk of the table as it
      was at the first page, so everything said of such walks, what they return and when they are
      complete, holds of it. */
  lemma {:induction false} LiveWalkIsWalk(moments: seq<Rows>, limit: nat, pages: seq<seq<string>>)
    requires |moments| == |pages| > 0 && IsLiveWalk(moments, limit, None, pages)
    ensures IsWalk(moments[0], limit, None, pages)
    ensures Finished(moments[|moments| - 1], limit, pages) <==> Finished(moments[0], limit, pages)
  {
    if |pages| > 1 {
      var last := pages[0][limit - 1];
      LiveWalkFrom(moments[0], moments[1..], limit, moments[0][last].value, pages[1..]);
    }
  }

  /** So with messages arriving meanwhile, a finished walk still returns every dated row that was
      there at its start exactly when no page boundary then split a group of equal timestamps. */
  lemma {:induction false} LiveWalkCompleteIff(moments: seq<Rows>, limit: nat, pages: seq<seq<string>>)
    requires limit > 0 && |moments| == |pages| > 0 && IsLiveWalk(moments, limit, None, pages)
    requires Finished(moments[|moments| - 1], limit, pages)
    ensures Complete(moments[0], None, pages) <==> !SomeSplit(moments[0], None, limit)
  {
    LiveWalkIsWalk(moments, limit, pages);
    WalkCompleteIff(moments[0], limit, pages);
  }

  /** Two rows with one timestamp, read one at a time: the second is never returned. */
  lemma {:induction false} TieLosesARow()
    ensures
      var rows: Rows := map["a" := Some(1), "b" := Some(1)];
      var pages := [["a"], []];
      IsWalk(rows, 1, None, pages) && Finished(rows, 1, pages) && "b" !in Flatten(pages)
  {
    var rows: Rows := map["a" := Some(1), "b" := Some(1)];
    var pages := [["a"], []];
    assert pages[1..] == [[]] && pages[1..][1..] == [];
    assert Flatten(pages) == ["a"] + Flatten(pages[1..]);
    assert IsWalk(rows, 1, Some(1), pages[1..]);
  }

  /** A chat without a last message is only ever on the first page. */
  lemma {:induction false} UndatedOnlyOnFirstPage(rows: Rows, limit: nat, pages: seq<seq<string>>, id: string)
    requires IsWalk(rows, limit, None, pages) && pages != []
    requires id in rows && rows[id].None?
    ensures id in Flatten(pages) <==> id in pages[0]
  {
    if |pages| > 1 {
      FlattenEligible(rows, limit, rows[pages[0][limit - 1]], pages[1..]);
    } else {
      assert Flatten(pages[1..]) == [];
    }
  }

  lemma {:induction false} FlattenLength(rows: Rows, limit: nat, before: Option<int>, pages: seq<seq<string>>)
    requires limit > 0 && IsWalk(rows, limit, before, pages)
    ensures |Flatten(pages)| + 1 >= |pages|
    decreases pages
  {
    if |pages| > 1 {
      FlattenLength(rows, limit, rows[pages[0][limit - 1]], pages[1..]);
    }
  }

  lemma {:induction false} DistinctFit(rows: Rows, out: seq<string>)
    requires Newest(rows, out)
    ensures |out| <= |rows|
  {
    if out != [] {
      var n := |out| - 1;
      var fewer := rows - {out[n]};
      DistinctFit(fewer, out[..n]);
      assert fewer.Keys == rows.Keys - {out[n]};
    }
  }

  /** The walk ends: it cannot have more than one page more than there are rows. */
  lemma {:induction false} WalkEnds(rows: Rows, limit: nat, before: Option<int>, pages: seq<seq<string>>)
    requires limit > 0 && IsWalk(rows, limit, before, pages)
    ensures |pages| <= |rows| + 1
  {
    WalkIsOrdered(rows, limit, before, pages);
    FlattenLength(rows, limit, before, pages);
    DistinctFit(rows, Flatten(pages));
  }

  /** A message of the chat that is not deleted and older than `before`. */
  predicate Listable(messages: map<string, Message>, chat: string, before: Option<int>, id: string) {
    && id in messages && messages[id].chat == chat && messages[id].deletedAt == None
    && (before.Some? ==> messages[id].ts < before.value)
  }

  lemma {:induction false} ChatPage(t: Tables, chat: string, before: Option<int>, limit: nat, out: seq<string>)
    requires IsPage(ChatMessages(t, chat), before, limit, out)
    ensures forall id | id in out :: Listable(t.messages, chat, before, id)
    ensures forall i, j | 0 <= i < j < |out| :: out[i] != out[j] && t.messages[out[i]].ts >= t.messages[out[j]].ts
    ensures forall id | Listable(t.messages, chat, before, id) && id !in out ::
      |out| == limit && forall x | x in out :: t.messages[x].ts >= t.messages[id].ts
  {
    var rows := ChatMessages(t, chat);
    forall id
      ensures Eligible(rows, before, id) <==> Listable(t.messages, chat, before, id)
    {
    }
    forall i, j | 0 <= i < j < |out|
      ensures out[i] != out[j] && t.messages[out[i]].ts >= t.messages[out[j]].ts
    {
      assert out[i] in out && out[j] in out && NotBefore(rows[out[i]], rows[out[j]]);
    }
    forall id, x | Listable(t.messages, chat, before, id) && id !in out && x in out
      ensures t.messages[x].ts >= t.messages[id].ts
    {
      assert Eligible(rows, before, id) && NotBefore(rows[x], rows[id]);
    }
  }

  /** ListByChat: messages of the chat that are not deleted and older than `before`, newest first, none
      newer left out. */
  method ListByChat(bundle: Bundle, chat: string, limit: nat, before: Option<int>) returns (out: seq<string>)
    ensures IsPage(ChatMessages(bundle.View(), chat), before, limit, out)
    ensures forall id | id in out ::
      && id in bundle.messages && bundle.messages[id].chat == chat && bundle.messages[id].deletedAt == None
      && (before.Some? ==> bundle.messages[id].ts < before.value)
    ensures forall i, j | 0 <= i < j < |out| ::
      out[i] != out[j] && bundle.messages[out[i]].ts >= bundle.messages[out[j]].ts
    ensures forall id | Listable(bundle.messages, chat, before, id) && id !in out ::
      |out| == limit && forall x | x in out :: bundle.messages[x].ts >= bundle.messages[id].ts
  {
    hide IsPage;
    var messages := bundle.messages;
    var rows: Rows := map id | id in messages && messages[id].chat == chat && messages[id].deletedAt.None? ::
      Some(messages[id].ts);
    out := Select(rows, before, limit);
    assert rows == ChatMessages(bundle.View(), chat);
    ChatPage(bundle.View(), chat, before, limit, out);
  }

  /** The chats' List: archived ones only if asked for; under a cursor, those with an older last message. */
  method ListChats(bundle: Bundle, limit: nat, before: Option<int>, includeArchived: bool) returns (out: seq<string>)
    ensures |out| <= limit
    ensures forall jid | jid in out ::
      && jid in bundle.chats && (includeArchived || !bundle.chats[jid].archived)
      && (before.Some? ==> bundle.chats[jid].lastMsgAt.Some? && bundle.chats[jid].lastMsgAt.value < before.value)
    ensures forall jid | jid in bundle.chats && (includeArchived || !bundle.chats[jid].archived) && |out| < limit
                         && (before.Some? ==>
                               bundle.chats[jid].lastMsgAt.Some? && bundle.chats[jid].lastMsgAt.value < before.value) ::
      jid in out
    ensures IsPage(ListedChats(bundle.View(), includeArchived), before, limit, out)
    ensures TiesByJid(ListedChats(bundle.View(), includeArchived), before, out)
  {
    var chats := bundle.chats;
    var rows: Rows := map jid | jid in chats && (includeArchived || !chats[jid].archived) :: chats[jid].lastMsgAt;
    out := Select(rows, before, limit);
    assert forall jid | jid in out :: Eligible(rows, before, jid);
    assert forall jid | Eligible(rows, before, jid) && |out| < limit :: jid in out;
    hide IsPage, TiesByJid;
    forall jid | jid in rows && (before.Some? ==> rows[jid].Some? && rows[jid].value < before.value) && |out| < limit
      ensures jid in out
    {
      assert Eligible(rows, before, jid);
    }
  }
}
