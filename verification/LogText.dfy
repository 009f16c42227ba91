/** The log as its readers see it, rows of text: events by name, payloads by their fields. */
module LogText {
  import opened Wrappers
  import opened EventLog
  import opened Store
  import opened ServiceSteps
  import opened LogFold
  import MediaStore
  import Service

  /** The fields of a payload that a reader looks at; an event leaves out those it does not have. */
  datatype Payload = Payload(id: string, chat: string, sender: string, kind: string, body: string, emoji: string,
                             ids: seq<string>, reader: string, receipt: string, status: string, ts: int)

  /** The payload shows what the entry says; a connection's reason it shows only while disconnected. */
  predicate Shows(p: Payload, e: Entry) {
    match e
    case MessageReceived(id, chat, sender, kind, body, ts) =>
      p.id == id && p.chat == chat && p.sender == sender && p.kind == kind && p.body == body && p.ts == ts
    case MessageEdited(id, chat, body) => p.id == id && p.chat == chat && p.body == body
    case MessageDeleted(id, chat) => p.id == id && p.chat == chat
    case ReactionReceived(target, sender, emoji, ts) =>
      p.id == target && p.sender == sender && p.emoji == emoji && p.ts == ts
    case ReceiptReceived(ids, reader, kind, ts) =>
      p.ids == ids && p.reader == reader && p.receipt == kind && p.ts == ts
    case ConnectionChanged(status, _) => p.status == status
  }

  // ---------------------------------------------------------------- following the rows

  /** What a client does with one row, told apart by its name. */
  function FollowText(r: Replica, name: string, p: Payload): Replica {
    if name == "message.received" then
      r.(messages := r.messages[p.id := Row(p.chat, p.sender, p.kind, p.body, false)])
    else if name == "message.edited" then
      if p.id in r.messages then r.(messages := r.messages[p.id := r.messages[p.id].(body := p.body)]) else r
    else if name == "message.deleted" then
      if p.id in r.messages then r.(messages := r.messages[p.id := r.messages[p.id].(deleted := true)]) else r
    else if name == "reaction.received" then
      if p.emoji == "" then r.(reactions := r.reactions - {(p.id, p.sender)})
      else r.(reactions := r.reactions[(p.id, p.sender) := p.emoji])
    else r
  }

  function FoldRows(rows: seq<Event>, fields: string -> Payload): Replica {
    if rows == [] then Replica(map[], map[])
    else
      var row := rows[|rows| - 1];
      FollowText(FoldRows(rows[..|rows| - 1], fields), row.kind, fields(row.payload))
  }

  /** A row's name and payload say the entry. */
  predicate Says(name: string, p: Payload, e: Entry) {
    && Shows(p, e)
    && name ==
      match e
      case MessageReceived(_, _, _, _, _, _) => "message.received"
      case MessageEdited(_, _, _) => "message.edited"
      case MessageDeleted(_, _) => "message.deleted"
      case ReactionReceived(_, _, _, _) => "reaction.received"
      case ReceiptReceived(_, _, _, _) => "receipt.received"
      case ConnectionChanged(_, _) => "connection.state"
  }

  /** The rows say these entries. Two rows may say the same in different text, as the clock fields of
      edits and revokes do. */
  ghost predicate Carries(rows: seq<Event>, fields: string -> Payload, entries: seq<Entry>) {
    && |rows| == |entries|
    && (forall i | 0 <= i < |rows| :: Says(rows[i].kind, fields(rows[i].payload), entries[i]))
  }

  lemma {:induction false} SaidIsFollowed(r: Replica, name: string, p: Payload, e: Entry)
    requires Says(name, p, e)
    ensures FollowText(r, name, p) == Follow(r, e)
  {
    match e
    case MessageReceived(_, _, _, _, _, _) =>
    case MessageEdited(_, _, _) =>
    case MessageDeleted(_, _) =>
    case ReactionReceived(_, _, _, _) =>
    case ReceiptReceived(_, _, _, _) =>
    case ConnectionChanged(_, _) =>
  }

  /** Following the rows by name is following their entries. */
  lemma {:induction false} RowsFold(log: seq<Event>, rows: seq<Event>, fields: string -> Payload, entries: seq<Entry>)
    requires Carries(log, fields, entries) && rows <= log
    ensures |rows| <= |entries| && FoldRows(rows, fields) == Fold(entries[..|rows|])
  {
    if rows != [] {
      hide Says, Follow, FollowText;
      var n := |rows| - 1;
      RowsFold(log, rows[..n], fields, entries);
      assert rows[n] == log[n];
      SaidIsFollowed(FoldRows(rows[..n], fields), rows[n].kind, fields(rows[n].payload), entries[n]);
      assert entries[..n + 1][..n] == entries[..n];
    }
  }

  /** A reader of the payloads that this encoding makes, whatever the clock. */
  ghost predicate Reads(encode: (Entry, int) -> string, fields: string -> Payload) {
    forall e, clock :: Shows(fields(encode(e, clock)), e)
  }

  /** A service's rows are carried. */
  lemma {:induction false} EncodedLogCarries(encode: (Entry, int) -> string, fields: string -> Payload,
                                             rows: seq<Event>, entries: seq<Entry>)
    requires Service.Encodes(encode, rows, entries) && Reads(encode, fields)
    ensures Carries(rows, fields, entries)
  {
    forall i | 0 <= i < |rows|
      ensures Says(rows[i].kind, fields(rows[i].payload), entries[i])
    {
      var clock :| rows[i].payload == encode(entries[i], clock);
      assert Shows(fields(encode(entries[i], clock)), entries[i]);
      hide Shows;
    }
  }

  // ---------------------------------------------------------------- whose rows they are

  /** The row tells of this call, whose append succeeded: its name by what the event was, its fields by
      those of the event. */
  predicate TellsOf(op: Op, name: string, p: Payload) {
    match op
    case Receive(m, f) =>
      if f.append then false
      else if m.reactionTarget != "" then
        && name == "reaction.received"
        && p.id == m.reactionTarget && p.sender == m.sender && p.emoji == m.reactionEmoji && p.ts == m.ts
      else if m.revokeOf != "" then name == "message.deleted" && p.id == m.revokeOf && p.chat == m.chat
      else if m.editOf != "" then name == "message.edited" && p.id == m.editOf && p.chat == m.chat && p.body == m.body
      else
        && name == "message.received"
        && p.id == m.id && p.chat == m.chat && p.sender == m.sender && p.kind == m.kind && p.body == m.body
        && p.ts == m.ts
    case ReceiveReceipt(ids, reader, kind, ts, _, f) =>
      !f.append && name == "receipt.received" && p.ids == ids && p.reader == reader && p.receipt == kind && p.ts == ts
    case Connection(status, _, f) => !f.append && name == "connection.state" && p.status == status
    case _ => false
  }

  /** What this call announces, from the call and the tables before it: a reaction or message the store
      took, an edit of a known message, any revoke, a receipt some row of which was stored, a change of the
      connection; each only if its append succeeds. */
  predicate Announces(t: Tables, op: Op) {
    match op
    case Receive(m, f) =>
      && !f.append
      && if m.reactionTarget != "" then !f.reaction && (m.reactionEmoji == "" || m.reactionTarget in t.messages)
         else if m.revokeOf != "" then !f.softDelete
         else if m.editOf != "" then
           && m.editOf in t.messages && !f.messageGet && !f.messagePut && t.messages[m.editOf].chat in t.chats
         else !f.messagePut && (m.chat in t.chats || !f.chatPut)
    case ReceiveReceipt(ids, _, _, _, rejects, f) =>
      !f.append && exists i | 0 <= i < |ids| :: i !in rejects && ids[i] in t.messages
    case Connection(_, _, f) => !f.append
    case _ => false
  }

  /** A step logs one entry that tells of its call if the call is announced, and else nothing. */
  lemma {:induction false} StepLogs(h: MediaStore.Digest, root: string, s: State, op: Op)
    returns (e: Option<Entry>)
    ensures Next(h, root, s, op).log == if e.None? then s.log else s.log + [e.value]
    ensures e.Some? ==> forall name, p | Says(name, p, e.value) :: TellsOf(op, name, p)
    ensures e.Some? <==> Announces(s.t, op)
  {
    e := None;
    if IsOwnCall(op) {
      OwnCallsLogNothing(h, root, s, op);
    } else {
      LogsIff(h, root, s, op);
      hide AnyReceipt, ReceiptRows, NormalChat, Announces;
      hide PutChat, PutMessage, PutReaction, DeleteReaction, SoftDelete, MessageAccepted, ChildAccepted;
      var s' := Next(h, root, s, op);
      if s'.log != s.log {
        assert |s'.log| == |s.log| + 1;
        e := Some(s'.log[|s.log|]);
      }
    }
  }

  lemma {:induction false} LogsIff(h: MediaStore.Digest, root: string, s: State, op: Op)
    requires !IsOwnCall(op)
    ensures Next(h, root, s, op).log != s.log <==> Announces(s.t, op)
  {
    assert forall e: Entry :: |s.log + [e]| != |s.log|;
    hide Sound, ReceiptRows, NormalChat;
  }

  /** Row by row these are the calls told of, in their order and one row a call. */
  ghost predicate TellOf(ops: seq<Op>, rows: seq<Event>, fields: string -> Payload, calls: seq<nat>) {
    && |calls| == |rows|
    && (forall i | 0 <= i < |rows| ::
          calls[i] < |ops| && TellsOf(ops[calls[i]], rows[i].kind, fields(rows[i].payload)))
    && (forall i, j | 0 <= i < j < |rows| :: calls[i] < calls[j])
  }

  /** These are the calls of the run that are announced, and no other. */
  ghost predicate AreAnnounced(h: MediaStore.Digest, root: string, ops: seq<Op>, calls: seq<nat>) {
    forall k | 0 <= k < |ops| :: k in calls <==> Announces(Run(h, root, INIT, ops[..k]).t, ops[k])
  }

  lemma {:induction false} OneMoreCall(ops: seq<Op>, op: Op, rows: seq<Event>, fields: string -> Payload,
                                       calls: seq<nat>)
    requires TellOf(ops, rows, fields, calls)
    ensures TellOf(ops + [op], rows, fields, calls)
    ensures forall row: Event | TellsOf(op, row.kind, fields(row.payload)) ::
      TellOf(ops + [op], rows + [row], fields, calls + [|ops|])
    ensures forall k | k in calls :: k < |ops|
  {
    hide TellsOf;
  }

  lemma {:induction false} OneMoreAnnounced(h: MediaStore.Digest, root: string, ops: seq<Op>, op: Op, calls: seq<nat>)
    requires AreAnnounced(h, root, ops, calls) && forall k | k in calls :: k < |ops|
    ensures AreAnnounced(h, root, ops + [op],
                         if Announces(Run(h, root, INIT, ops).t, op) then calls + [|ops|] else calls)
  {
    var all := ops + [op];
    assert all[..|ops|] == ops;
    forall k | 0 <= k < |ops| ensures Run(h, root, INIT, all[..k]) == Run(h, root, INIT, ops[..k]) {
      assert all[..k] == ops[..k];
    }
    hide Announces, Run;
  }

  lemma {:induction false} CarriesSnoc(rows: seq<Event>, fields: string -> Payload, entries: seq<Entry>, e: Entry)
    requires Carries(rows, fields, entries + [e])
    ensures |rows| == |entries| + 1 && Carries(rows[..|entries|], fields, entries)
    ensures Says(rows[|entries|].kind, fields(rows[|entries|].payload), e)
    ensures rows == rows[..|entries|] + [rows[|entries|]]
  {
    hide Says;
  }

  lemma {:induction false} NothingTold(h: MediaStore.Digest, root: string, rows: seq<Event>, fields: string -> Payload)
    requires Carries(rows, fields, [])
    ensures TellOf([], rows, fields, []) && AreAnnounced(h, root, [], [])
  {
  }

  /** A run's log has one row for each call that is announced, in the order of the calls, and no other:
      named for what the event was, with that event's own fields. */
  lemma {:induction false} RowsTellOfCalls(h: MediaStore.Digest, root: string, ops: seq<Op>, rows: seq<Event>,
                                           fields: string -> Payload) returns (calls: seq<nat>)
    requires Carries(rows, fields, Run(h, root, INIT, ops).log)
    ensures TellOf(ops, rows, fields, calls) && AreAnnounced(h, root, ops, calls)
  {
    hide Next, Says, TellsOf, Carries, TellOf, Announces, AreAnnounced;
    calls := [];
    if ops == [] {
      NothingTold(h, root, rows, fields);
    } else {
      var n := |ops| - 1;
      var s := Run(h, root, INIT, ops[..n]);
      var e := StepLogs(h, root, s, ops[n]);
      assert ops[..n] + [ops[n]] == ops;
      if e.Some? {
        CarriesSnoc(rows, fields, s.log, e.value);
        calls := RowsTellOfCalls(h, root, ops[..n], rows[..|s.log|], fields);
        OneMoreCall(ops[..n], ops[n], rows[..|s.log|], fields, calls);
        OneMoreAnnounced(h, root, ops[..n], ops[n], calls);
        calls := calls + [n];
      } else {
        calls := RowsTellOfCalls(h, root, ops[..n], rows, fields);
        OneMoreCall(ops[..n], ops[n], rows, fields, calls);
        OneMoreAnnounced(h, root, ops[..n], ops[n], calls);
      }
    }
  }
}
