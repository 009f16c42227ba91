/** The messages table with the full-text index that its triggers maintain, and search through
    that index. The tokenizer is a parameter. */
module MessageIndex {
  import opened Wrappers
  import opened Store
  import Paging

  type Tokenizer = string -> seq<string>

  /** One posting for each occurrence of a token in a row's body. */
  type Index = multiset<(string, nat)>

  datatype Row = Row(id: string, m: Message)

  /** Rows by rowid, the primary key's index, the next rowid, and the external-content index. */
  datatype Table = Table(rows: map<nat, Row>, ids: map<string, nat>, next: nat, index: Index)

  const NEW: Table := Table(map[], map[], 1, multiset{})

  function Postings(tokens: seq<string>, rowid: nat): Index {
    if tokens == [] then multiset{}
    else Postings(tokens[..|tokens| - 1], rowid) + multiset{(tokens[|tokens| - 1], rowid)}
  }

  lemma {:induction false} PostingsSnoc(tokens: seq<string>, i: nat, rowid: nat)
    requires i < |tokens|
    ensures Postings(tokens[..i + 1], rowid) == Postings(tokens[..i], rowid) + multiset{(tokens[i], rowid)}
  {
    assert tokens[..i + 1][..i] == tokens[..i];
  }

  lemma {:induction false} PostingCount(tokens: seq<string>, rowid: nat, token: string, r: nat)
    ensures Postings(tokens, rowid)[(token, r)] == if r == rowid then multiset(tokens)[token] else 0
  {
    if tokens != [] {
      var n := |tokens| - 1;
      PostingCount(tokens[..n], rowid, token, r);
      assert tokens == tokens[..n] + [tokens[n]];
    }
  }

  // ---------------------------------------------------------------- writes and their triggers

  /** messages_ai. */
  function AfterInsert(tok: Tokenizer, index: Index, rowid: nat, body: string): Index {
    index + Postings(tok(body), rowid)
  }

  /** messages_au: the delete command with the old body, then the new one. */
  function AfterUpdate(tok: Tokenizer, index: Index, rowid: nat, was: string, body: string): Index {
    index - Postings(tok(was), rowid) + Postings(tok(body), rowid)
  }

  function Insert(tok: Tokenizer, t: Table, id: string, m: Message): Table {
    Table(t.rows[t.next := Row(id, m)], t.ids[id := t.next], t.next + 1, AfterInsert(tok, t.index, t.next, m.body))
  }

  function Update(tok: Tokenizer, t: Table, rowid: nat, m: Message): Table
    requires rowid in t.rows
  {
    var row := t.rows[rowid];
    t.(rows := t.rows[rowid := row.(m := m)], index := AfterUpdate(tok, t.index, rowid, row.m.body, m.body))
  }

  /** INSERT ... ON CONFLICT(id) DO UPDATE, when the row is accepted. */
  function Put(tok: Tokenizer, t: Table, id: string, m: Message): Table
    requires id in t.ids ==> t.ids[id] in t.rows
  {
    if id in t.ids then Update(tok, t, t.ids[id], m) else Insert(tok, t, id, m)
  }

  function MarkDeleted(tok: Tokenizer, t: Table, id: string, when: int): Table
    requires id in t.ids ==> t.ids[id] in t.rows
  {
    if id in t.ids then Update(tok, t, t.ids[id], t.rows[t.ids[id]].m.(deletedAt := Some(when))) else t
  }

  // ---------------------------------------------------------------- invariant

  ghost predicate Keyed(t: Table) {
    && (forall id | id in t.ids :: t.ids[id] in t.rows && t.rows[t.ids[id]].id == id)
    && (forall r | r in t.rows :: r < t.next && t.rows[r].id in t.ids && t.ids[t.rows[r].id] == r)
  }

  /** The index holds exactly the tokens of every row's current body, with multiplicity. */
  ghost predicate Indexed(tok: Tokenizer, rows: map<nat, Row>, index: Index) {
    forall token, r ::
      index[(token, r)] == if r in rows then multiset(tok(rows[r].m.body))[token] else 0
  }

  ghost predicate Inv(tok: Tokenizer, t: Table) {
    Keyed(t) && Indexed(tok, t.rows, t.index)
  }

  lemma {:induction false} InsertIndexed(tok: Tokenizer, t: Table, id: string, m: Message)
    requires Inv(tok, t) && id !in t.ids
    ensures Inv(tok, Insert(tok, t, id, m))
  {
    var t' := Insert(tok, t, id, m);
    assert t.next !in t.rows;
    assert Keyed(t') by { hide Indexed, AfterInsert; }
    hide Keyed, Postings;
    forall token, r: nat
      ensures t'.index[(token, r)] == if r in t'.rows then multiset(tok(t'.rows[r].m.body))[token] else 0
    {
      PostingCount(tok(m.body), t.next, token, r);
      assert t.index[(token, r)] == if r in t.rows then multiset(tok(t.rows[r].m.body))[token] else 0;
    }
  }

  lemma {:induction false} UpdateIndexed(tok: Tokenizer, t: Table, rowid: nat, m: Message)
    requires Inv(tok, t) && rowid in t.rows
    ensures Inv(tok, Update(tok, t, rowid, m))
  {
    var t' := Update(tok, t, rowid, m);
    forall token, r: nat
      ensures t'.index[(token, r)] == if r in t'.rows then multiset(tok(t'.rows[r].m.body))[token] else 0
    {
      PostingCount(tok(m.body), rowid, token, r);
      PostingCount(tok(t.rows[rowid].m.body), rowid, token, r);
      assert t.index[(token, r)] == if r in t.rows then multiset(tok(t.rows[r].m.body))[token] else 0;
    }
  }

  // ---------------------------------------------------------------- runs

  datatype Op = PutOp(id: string, m: Message) | DeleteOp(id: string, when: int)

  ghost function Next(tok: Tokenizer, t: Table, op: Op): Table {
    if !Keyed(t) then t
    else
      match op
      case PutOp(id, m) => Put(tok, t, id, m)
      case DeleteOp(id, when) => MarkDeleted(tok, t, id, when)
  }

  ghost function Run(tok: Tokenizer, ops: seq<Op>): Table {
    if ops == [] then NEW else Next(tok, Run(tok, ops[..|ops| - 1]), ops[|ops| - 1])
  }

  lemma {:induction false} NextKeepsInv(tok: Tokenizer, t: Table, op: Op)
    requires Inv(tok, t)
    ensures Inv(tok, Next(tok, t, op))
  {
    hide Indexed;
    match op
    case PutOp(id, m) => if id in t.ids { UpdateIndexed(tok, t, t.ids[id], m); } else { InsertIndexed(tok, t, id, m); }
    case DeleteOp(id, when) =>
      if id in t.ids { UpdateIndexed(tok, t, t.ids[id], t.rows[t.ids[id]].m.(deletedAt := Some(when))); }
  }

  /** Over any run of inserts, upserts and soft deletes the index is exact. */
  lemma {:induction false} IndexStaysExact(tok: Tokenizer, ops: seq<Op>)
    ensures Inv(tok, Run(tok, ops))
  {
    if ops == [] {
      assert forall token, r: nat :: NEW.index[(token, r)] == 0;
    } else {
      IndexStaysExact(tok, ops[..|ops| - 1]);
      NextKeepsInv(tok, Run(tok, ops[..|ops| - 1]), ops[|ops| - 1]);
    }
  }

  // ---------------------------------------------------------------- search

  /** The boolean part of the MATCH language. */
  datatype Query = Term(token: string) | And(left: Query, right: Query) | Or(left: Query, right: Query)
                 | Not(left: Query, right: Query)

  /** What a query means for a body. */
  predicate Matches(tok: Tokenizer, q: Query, body: string) {
    match q
    case Term(token) => token in tok(body)
    case And(l, r) => Matches(tok, l, body) && Matches(tok, r, body)
    case Or(l, r) => Matches(tok, l, body) || Matches(tok, r, body)
    case Not(l, r) => Matches(tok, l, body) && !Matches(tok, r, body)
  }

  /** The rowids it selects from the index alone. */
  function Lookup(q: Query, index: Index): set<nat> {
    match q
    case Term(token) => set p | p in index && p.0 == token :: p.1
    case And(l, r) => Lookup(l, index) * Lookup(r, index)
    case Or(l, r) => Lookup(l, index) + Lookup(r, index)
    case Not(l, r) => Lookup(l, index) - Lookup(r, index)
  }

  /** A query looked up in the index selects exactly the rows whose current body matches it. */
  lemma {:induction false} LookupIsMatch(tok: Tokenizer, t: Table, q: Query, r: nat)
    requires Inv(tok, t)
    ensures r in Lookup(q, t.index) <==> r in t.rows && Matches(tok, q, t.rows[r].m.body)
  {
    match q
    case Term(token) =>
      assert t.index[(token, r)] == if r in t.rows then multiset(tok(t.rows[r].m.body))[token] else 0;
      assert r in Lookup(q, t.index) <==> (token, r) in t.index;
    case And(left, right) => LookupIsMatch(tok, t, left, r); LookupIsMatch(tok, t, right, r);
    case Or(left, right) => LookupIsMatch(tok, t, left, r); LookupIsMatch(tok, t, right, r);
    case Not(left, right) => LookupIsMatch(tok, t, left, r); LookupIsMatch(tok, t, right, r);
  }

  /** The index joined with the live rows, by message id. */
  function Join(t: Table, q: Query): Paging.Rows
    requires forall r | r in Lookup(q, t.index) :: r in t.rows && t.rows[r].id in t.ids && t.ids[t.rows[r].id] == r
  {
    map r | r in Lookup(q, t.index) && t.rows[r].m.deletedAt.None? :: t.rows[r].id := Some(t.rows[r].m.ts)
  }

  function Messages(t: Table): map<string, Message>
    requires forall id | id in t.ids :: t.ids[id] in t.rows
  {
    map id | id in t.ids :: t.rows[t.ids[id]].m
  }

  /** A scan of all messages for the live ones that match. */
  function Scan(tok: Tokenizer, messages: map<string, Message>, q: Query): Paging.Rows {
    map id | id in messages && messages[id].deletedAt.None? && Matches(tok, q, messages[id].body) ::
      Some(messages[id].ts)
  }

  /** The lookup, reduced to what the join needs. */
  ghost predicate Selects(tok: Tokenizer, t: Table, q: Query, found: set<nat>) {
    forall r :: r in found <==> r in t.rows && Matches(tok, q, t.rows[r].m.body)
  }

  lemma {:induction false} LookupSelects(tok: Tokenizer, t: Table, q: Query)
    requires Inv(tok, t)
    ensures Selects(tok, t, q, Lookup(q, t.index))
  {
    forall r: nat
      ensures r in Lookup(q, t.index) <==> r in t.rows && Matches(tok, q, t.rows[r].m.body)
    {
      LookupIsMatch(tok, t, q, r);
    }
  }

  /** What is looked up are rows, so the join is defined. */
  lemma {:induction false} LooksUpRows(tok: Tokenizer, t: Table, q: Query)
    requires Inv(tok, t)
    ensures forall r | r in Lookup(q, t.index) :: r in t.rows && t.rows[r].id in t.ids && t.ids[t.rows[r].id] == r
  {
    LookupSelects(tok, t, q);
    hide Lookup, Matches, Indexed;
  }

  /** The join, id by id. */
  lemma {:induction false} JoinAt(t: Table, q: Query, id: string)
    requires Keyed(t)
    requires forall r | r in Lookup(q, t.index) :: r in t.rows && t.rows[r].id in t.ids && t.ids[t.rows[r].id] == r
    ensures id in Join(t, q) <==>
      id in t.ids && t.ids[id] in Lookup(q, t.index) && t.rows[t.ids[id]].m.deletedAt.None?
    ensures id in Join(t, q) ==> Join(t, q)[id] == Some(t.rows[t.ids[id]].m.ts)
  {
    hide Lookup;
  }

  lemma {:induction false} ScanAt(tok: Tokenizer, t: Table, q: Query, id: string)
    requires Keyed(t)
    ensures id in Scan(tok, Messages(t), q) <==>
      id in t.ids && t.rows[t.ids[id]].m.deletedAt.None? && Matches(tok, q, t.rows[t.ids[id]].m.body)
    ensures id in Scan(tok, Messages(t), q) ==> Scan(tok, Messages(t), q)[id] == Some(t.rows[t.ids[id]].m.ts)
  {
    hide Matches;
  }

  lemma {:induction false} JoinScanAt(tok: Tokenizer, t: Table, q: Query, id: string)
    requires Keyed(t) && Selects(tok, t, q, Lookup(q, t.index))
    requires forall r | r in Lookup(q, t.index) :: r in t.rows && t.rows[r].id in t.ids && t.ids[t.rows[r].id] == r
    ensures id in Join(t, q) <==> id in Scan(tok, Messages(t), q)
    ensures id in Join(t, q) ==> Join(t, q)[id] == Scan(tok, Messages(t), q)[id]
  {
    JoinAt(t, q, id);
    ScanAt(tok, t, q, id);
    hide Lookup, Matches, Join, Scan, Messages;
  }

  lemma {:induction false} SameRows(a: Paging.Rows, b: Paging.Rows)
    requires forall id :: id in a <==> id in b
    requires forall id | id in a && id in b :: a[id] == b[id]
    ensures a == b
  {
  }

  /** Search through the index and the join returns what a filter scan would. */
  lemma {:induction false} JoinIsScan(tok: Tokenizer, t: Table, q: Query)
    requires Inv(tok, t)
    ensures forall r | r in Lookup(q, t.index) :: r in t.rows && t.rows[r].id in t.ids && t.ids[t.rows[r].id] == r
    ensures Join(t, q) == Scan(tok, Messages(t), q)
  {
    assert Keyed(t);
    LookupSelects(tok, t, q);
    LooksUpRows(tok, t, q);
    forall id
      ensures id in Join(t, q) <==> id in Scan(tok, Messages(t), q)
      ensures id in Join(t, q) ==> Join(t, q)[id] == Scan(tok, Messages(t), q)[id]
    {
      JoinScanAt(tok, t, q, id);
      hide *;
    }
    hide Lookup, Matches, Indexed, Join, Scan, Messages, Selects;
    SameRows(Join(t, q), Scan(tok, Messages(t), q));
  }

  // ---------------------------------------------------------------- the store

  class MessageStore {
    const tok: Tokenizer
    var rows: map<nat, Row>
    var ids: map<string, nat>
    var next: nat
    var index: Index

    constructor (tok: Tokenizer)
      ensures Valid() && View() == NEW && this.tok == tok
    {
      this.tok, rows, ids, next, index := tok, map[], map[], 1, multiset{};
      new;
      assert forall token, r: nat :: index[(token, r)] == 0;
    }

    ghost function View(): Table
      reads this
    {
      Table(rows, ids, next, index)
    }

    ghost predicate Valid()
      reads this
    {
      Inv(tok, View())
    }

    /** Put; `accepted` says whether the foreign key and the database let the row in. */
    method Put(id: string, m: Message, accepted: bool)
      requires Valid()
      modifies this
      ensures Valid()
      ensures Messages(View()) == if accepted then old(Messages(View()))[id := m] else old(Messages(View()))
    {
      if !accepted {
        return;
      }
      NextKeepsInv(tok, View(), PutOp(id, m));
      PutMessages(tok, View(), id, m);
      if id in ids {
        Rewrite(ids[id], m);
      } else {
        rows := rows[next := Row(id, m)];
        ids := ids[id := next];
        AddPostings(m.body, next);
        next := next + 1;
      }
    }

    method SoftDelete(id: string, when: int)
      requires Valid()
      modifies this
      ensures Valid()
      ensures Messages(View()) ==
        if id in old(Messages(View()))
        then old(Messages(View()))[id := old(Messages(View()))[id].(deletedAt := Some(when))]
        else old(Messages(View()))
    {
      NextKeepsInv(tok, View(), DeleteOp(id, when));
      if id in ids {
        PutMessages(tok, View(), id, rows[ids[id]].m.(deletedAt := Some(when)));
        Rewrite(ids[id], rows[ids[id]].m.(deletedAt := Some(when)));
      }
    }

    /** An UPDATE of one row, with its trigger. */
    method Rewrite(rowid: nat, m: Message)
      requires rowid in rows
      modifies this`rows, this`index
      ensures View() == Update(tok, old(View()), rowid, m)
    {
      RemovePostings(rows[rowid].m.body, rowid);
      rows := rows[rowid := rows[rowid].(m := m)];
      AddPostings(m.body, rowid);
    }

    method AddPostings(body: string, rowid: nat)
      modifies this`index
      ensures index == old(index) + Postings(tok(body), rowid)
    {
      var tokens, i := tok(body), 0;
      while i < |tokens|
        invariant 0 <= i <= |tokens|
        invariant index == old(index) + Postings(tokens[..i], rowid)
      {
        PostingsSnoc(tokens, i, rowid);
        hide Postings;
        index := index + multiset{(tokens[i], rowid)};
        i := i + 1;
      }
      assert tokens[..i] == tokens;
    }

    method RemovePostings(body: string, rowid: nat)
      modifies this`index
      ensures index == old(index) - Postings(tok(body), rowid)
    {
      var tokens, i := tok(body), 0;
      while i < |tokens|
        invariant 0 <= i <= |tokens|
        invariant index == old(index) - Postings(tokens[..i], rowid)
      {
        PostingsSnoc(tokens, i, rowid);
        hide Postings;
        index := index - multiset{(tokens[i], rowid)};
        i := i + 1;
      }
      assert tokens[..i] == tokens;
    }

    /** Search: newest first among the live messages whose current body matches. */
    method Search(q: Query, limit: nat) returns (out: seq<string>)
      requires Valid()
      ensures Paging.IsPage(Scan(tok, Messages(View()), q), None, limit, out)
      ensures forall id | id in out ::
        && id in Messages(View()) && Messages(View())[id].deletedAt == None
        && Matches(tok, q, Messages(View())[id].body)
      ensures |out| < limit ==> forall id | id in Messages(View()) && Messages(View())[id].deletedAt == None
                                            && Matches(tok, q, Messages(View())[id].body) :: id in out
    {
      PageOfScan(tok, Messages(View()), q, limit);
      JoinIsScan(tok, View(), q);
      hide Join, Scan, Messages, Lookup;
      var joined := JoinLive(q);
      out := Paging.Select(joined, None, limit);
    }

    /** The MATCH and the join on rowid. */
    method JoinLive(q: Query) returns (joined: Paging.Rows)
      requires forall r | r in Lookup(q, index) :: r in rows && rows[r].id in ids && ids[rows[r].id] == r
      ensures joined == Join(View(), q)
    {
      hide Lookup;
      var found := Lookup(q, index);
      joined := map r | r in found && rows[r].m.deletedAt.None? :: rows[r].id := Some(rows[r].m.ts);
    }

    /** Count: SELECT COUNT(*) ... WHERE deleted_at IS NULL. */
    method Count() returns (n: nat)
      requires Valid()
      ensures n == |set id | id in Messages(View()) && Messages(View())[id].deletedAt.None?|
    {
      var live := set id | id in ids && rows[ids[id]].m.deletedAt.None?;
      assert live == set id | id in Messages(View()) && Messages(View())[id].deletedAt.None?;
      n := |live|;
    }
  }

  lemma {:induction false} PageOfScan(tok: Tokenizer, messages: map<string, Message>, q: Query, limit: nat)
    ensures forall out | Paging.IsPage(Scan(tok, messages, q), None, limit, out) ::
      && (forall id | id in out ::
            id in messages && messages[id].deletedAt == None && Matches(tok, q, messages[id].body))
      && (|out| < limit ==> forall id | id in messages && messages[id].deletedAt == None
                                        && Matches(tok, q, messages[id].body) :: id in out)
  {
    hide Matches;
    var rows := Scan(tok, messages, q);
    forall out, id | Paging.IsPage(rows, None, limit, out) && id in rows && |out| < limit
      ensures id in out
    {
      assert Paging.Eligible(rows, None, id);
    }
  }

  lemma {:induction false} PutMessages(tok: Tokenizer, t: Table, id: string, m: Message)
    requires Keyed(t) && Keyed(Put(tok, t, id, m))
    ensures Messages(Put(tok, t, id, m)) == Messages(t)[id := m]
  {
  }
}
