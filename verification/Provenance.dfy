/** Where every stored value comes from: over any run of calls, with any faults, each column of each row
    is the field of the last call that wrote it. */
module Provenance {
  import opened Wrappers
  import opened Store
  import MediaStore
  import Paging
  import opened ServiceSteps

  /** What a call can do to one row. */
  datatype Deed =
    | Made(id: string)
    | Rewritten(id: string)
    | Marked(id: string)
    | Reacted(reaction: ReactionKey)
    | Read(receipt: ReceiptKey)
    | Filed(id: string)
    | Touched(jid: string)
    | Started(jid: string)

  // ---------------------------------------------------------------- which call does it

  /** A call stores a new message under `id`: the database takes it, and its chat is known by then. */
  predicate Makes(t: Tables, op: Op, id: string) {
    match op
    case Receive(m, f) =>
      && m.reactionTarget == "" && m.revokeOf == "" && m.editOf == ""
      && m.id == id && !f.messagePut && (m.chat in t.chats || !f.chatPut)
    case SendText(chat, _, _, sent, f) => sent.Some? && sent.value.id == id && !f.messagePut && chat in t.chats
    case SendMedia(chat, _, _, _, _, sent, _, f) =>
      sent.Some? && sent.value.id == id && !f.messagePut && chat in t.chats
    case _ => false
  }

  predicate Rewrites(t: Tables, op: Op, id: string) {
    match op
    case Receive(m, f) =>
      && m.reactionTarget == "" && m.revokeOf == "" && m.editOf != "" && m.editOf == id
      && id in t.messages && !f.messageGet && !f.messagePut && t.messages[id].chat in t.chats
    case Edit(target, _, own, sentAt, f) =>
      && target == id && id in t.messages && !f.messageGet && own == Some(t.messages[id].sender)
      && t.messages[id].deletedAt.None? && sentAt.Some? && !f.messagePut && t.messages[id].chat in t.chats
    case _ => false
  }

  predicate Marks(t: Tables, op: Op, id: string) {
    match op
    case Receive(m, f) =>
      m.reactionTarget == "" && m.revokeOf != "" && m.revokeOf == id && id in t.messages && !f.softDelete
    case Delete(target, own, revoked, _, f) =>
      && target == id && id in t.messages && !f.messageGet && own == Some(t.messages[id].sender)
      && t.messages[id].deletedAt.None? && revoked && !f.softDelete
    case _ => false
  }

  predicate Reacts(t: Tables, op: Op, key: ReactionKey) {
    match op
    case Receive(m, f) =>
      && m.reactionTarget != "" && key == (m.reactionTarget, m.sender) && !f.reaction
      && (m.reactionEmoji == "" || m.reactionTarget in t.messages)
    case React(id, _, own, reacted, _, f) =>
      && reacted && !f.messageGet && id in t.messages && !f.reaction
      && key == (id, if own.Some? then own.value else "")
    case _ => false
  }

  predicate Receipts(t: Tables, op: Op, key: ReceiptKey) {
    match op
    case ReceiveReceipt(ids, reader, kind, _, rejects, _) =>
      && key.1 == reader && key.2 == kind && key.0 in t.messages
      && exists i | 0 <= i < |ids| :: i !in rejects && ids[i] == key.0
    case _ => false
  }

  /** A media row needs its file, its message and the database. */
  predicate Files(h: MediaStore.Digest, root: string, s: State, op: Op, id: string) {
    match op
    case Download(message, fetched, outcome, f) =>
      && message == id && fetched.Some? && id in s.t.messages && !f.media
      && MediaStore.Succeeds(s.files, MediaStore.PathOf(h, root, fetched.value.0, fetched.value.1), fetched.value.0,
                             outcome)
    case SendMedia(chat, _, _, mime, body, sent, outcome, f) =>
      && sent.Some? && sent.value.id == id && !f.media
      && (id in s.t.messages || (!f.messagePut && chat in s.t.chats))
      && MediaStore.Succeeds(s.files, MediaStore.PathOf(h, root, body, mime), body, outcome)
    case _ => false
  }

  /** A message or a group moves its chat to the time of that message or group. */
  predicate Touches(op: Op, jid: string) {
    match op
    case Receive(m, f) =>
      m.reactionTarget == "" && m.revokeOf == "" && m.editOf == "" && m.chat == jid && !f.chatPut
    case SendText(chat, _, _, sent, f) => sent.Some? && chat == jid && !f.chatPut
    case SendMedia(chat, _, _, _, _, sent, _, f) => sent.Some? && chat == jid && !f.chatPut
    case CreateGroup(group, _, f) => group.Some? && group.value.0 == jid && !f.chatPut
    case _ => false
  }

  /** And writes the chat's row afresh when it did not find it, as a new group always does. */
  predicate Starts(t: Tables, op: Op, jid: string) {
    Touches(op, jid) && (op.CreateGroup? || op.f.chatGet || jid !in t.chats)
  }

  predicate Does(h: MediaStore.Digest, root: string, s: State, op: Op, deed: Deed) {
    match deed
    case Made(id) => Makes(s.t, op, id)
    case Rewritten(id) => Rewrites(s.t, op, id)
    case Marked(id) => Marks(s.t, op, id)
    case Reacted(key) => Reacts(s.t, op, key)
    case Read(key) => Receipts(s.t, op, key)
    case Filed(id) => Files(h, root, s, op, id)
    case Touched(jid) => Touches(op, jid)
    case Started(jid) => Starts(s.t, op, jid)
  }

  // ---------------------------------------------------------------- the last to do it

  ghost predicate DoneAt(h: MediaStore.Digest, root: string, ops: seq<Op>, deed: Deed, k: nat)
    requires k < |ops|
  {
    Does(h, root, Run(h, root, INIT, ops[..k]), ops[k], deed)
  }

  /** The last call of the run to do this, of those from position `from` on. */
  ghost predicate IsLast(h: MediaStore.Digest, root: string, ops: seq<Op>, deed: Deed, from: nat, at: Option<nat>) {
    && (at.Some? ==> from <= at.value < |ops| && DoneAt(h, root, ops, deed, at.value))
    && (forall k | (if at.Some? then at.value + 1 else from) <= k < |ops| :: !DoneAt(h, root, ops, deed, k))
  }

  /** One call more is the last to do it, or the last stays. */
  lemma {:induction false} LastSnoc(h: MediaStore.Digest, root: string, ops: seq<Op>, op: Op, deed: Deed, from: nat,
                                    at: Option<nat>)
    requires IsLast(h, root, ops, deed, from, at) && from <= |ops|
    ensures IsLast(h, root, ops + [op], deed, from,
                   if Does(h, root, Run(h, root, INIT, ops), op, deed) then Some(|ops|) else at)
  {
    var all := ops + [op];
    assert all[..|ops|] == ops;
    forall k | 0 <= k < |ops| ensures DoneAt(h, root, all, deed, k) <==> DoneAt(h, root, ops, deed, k) {
      assert all[..k] == ops[..k];
    }
    hide Does, Run;
  }

  lemma {:induction false} NoneSince(h: MediaStore.Digest, root: string, ops: seq<Op>, deed: Deed)
    ensures IsLast(h, root, ops, deed, |ops|, None)
  {
  }

  // ---------------------------------------------------------------- messages

  /** Chat, sender, time, kind and reply target of a row are those of this message. */
  predicate OriginOf(row: Message, op: Op) {
    match op
    case Receive(m, _) =>
      row.chat == m.chat && row.sender == m.sender && row.ts == m.ts && row.kind == m.kind && row.replyTo == ""
    case SendText(chat, _, replyTo, sent, _) =>
      && row.chat == chat && row.kind == "text" && row.replyTo == replyTo
      && sent.Some? && row.sender == sent.value.sender && row.ts == sent.value.ts
    case SendMedia(chat, kind, _, _, _, sent, _, _) =>
      && row.chat == chat && row.kind == kind && row.replyTo == ""
      && sent.Some? && row.sender == sent.value.sender && row.ts == sent.value.ts
    case _ => false
  }

  /** Its text is that of this message, never edited. */
  predicate AsWritten(row: Message, op: Op) {
    && row.editedAt == None
    && match op
       case Receive(m, _) => row.body == m.body
       case SendText(_, text, _, _, _) => row.body == text
       case SendMedia(_, _, text, _, _, _, _, _) => row.body == text
       case _ => false
  }

  predicate EditedBy(row: Message, op: Op) {
    match op
    case Receive(m, _) => row.body == m.body && row.editedAt == Some(m.ts)
    case Edit(_, text, _, sentAt, _) => row.body == text && row.editedAt == sentAt
    case _ => false
  }

  predicate DeletedBy(row: Message, op: Op) {
    match op
    case Receive(m, _) => row.deletedAt == Some(m.ts)
    case Delete(_, _, _, now, _) => row.deletedAt == Some(now)
    case _ => false
  }

  /** What one call does to one message row: stores it, replaces its text, marks it, or nothing. */
  ghost predicate MessageStep(t: Tables, op: Op, t': Tables, id: string) {
    if Makes(t, op, id) then
      && id in t'.messages && OriginOf(t'.messages[id], op) && AsWritten(t'.messages[id], op)
      && t'.messages[id].deletedAt == None
    else if Rewrites(t, op, id) then
      && id in t'.messages && EditedBy(t'.messages[id], op)
      && var row, row' := t.messages[id], t'.messages[id];
      row' == row.(body := row'.body, editedAt := row'.editedAt)
    else if Marks(t, op, id) then
      && id in t'.messages && DeletedBy(t'.messages[id], op)
      && t'.messages[id] == t.messages[id].(deletedAt := t'.messages[id].deletedAt)
    else
      (id in t'.messages <==> id in t.messages) && (id in t.messages ==> t'.messages[id] == t.messages[id])
  }

  lemma {:induction false} ReceiveMessageStep(s: State, m: Incoming, f: Faults, id: string)
    ensures MessageStep(s.t, Receive(m, f), ReceiveAny(s, m, f).t, id)
  {
    hide NormalChat, Sound;
  }

  lemma {:induction false} SendMessageStep(h: MediaStore.Digest, root: string, s: State, op: Op, id: string)
    requires op.SendText? || op.SendMedia?
    ensures MessageStep(s.t, op, Next(h, root, s, op).t, id)
  {
    SendsWriteOneRow(h, root, s, op);
    hide Next, Sound;
  }

  lemma {:induction false} OwnMessageStep(h: MediaStore.Digest, root: string, s: State, op: Op, id: string)
    requires op.Edit? || op.Delete? || op.React? || op.MarkRead? || op.CreateGroup?
    ensures MessageStep(s.t, op, Next(h, root, s, op).t, id)
  {
    hide Sound, MarkReadCounts;
  }

  lemma {:induction false} StepMessage(h: MediaStore.Digest, root: string, s: State, op: Op, id: string)
    ensures MessageStep(s.t, op, Next(h, root, s, op).t, id)
  {
    hide MessageStep, Sound;
    match op
    case Receive(m, f) => ReceiveMessageStep(s, m, f, id);
    case SendText(_, _, _, _, _) => SendMessageStep(h, root, s, op, id);
    case SendMedia(_, _, _, _, _, _, _, _) => SendMessageStep(h, root, s, op, id);
    case ReceiveReceipt(ids, reader, kind, ts, rejects, _) =>
      ReceiptRowsFrame(s.t, ids, reader, kind, ts, rejects);
      SameMessages(s.t, op, Next(h, root, s, op).t, id);
    case Download(_, _, _, _) =>
      hide MediaStore.PathOf, MediaStore.WriteFiles, MediaStore.Succeeds, RefFor;
      SameMessages(s.t, op, Next(h, root, s, op).t, id);
    case Connection(_, _, _) => SameMessages(s.t, op, s.t, id);
    case CrashInWrite(_, _, _) => SameMessages(s.t, op, s.t, id);
    case _ => OwnMessageStep(h, root, s, op, id);
  }

  lemma {:induction false} SameMessages(t: Tables, op: Op, t': Tables, id: string)
    requires t'.messages == t.messages
    requires op.ReceiveReceipt? || op.Download? || op.Connection? || op.CrashInWrite?
    ensures MessageStep(t, op, t', id)
  {
  }

  /** A row as these calls left it. */
  ghost predicate MessageShows(row: Message, ops: seq<Op>, made: nat, edited: Option<nat>, deleted: Option<nat>) {
    && made < |ops| && OriginOf(row, ops[made])
    && (if edited.None? then AsWritten(row, ops[made])
        else edited.value < |ops| && EditedBy(row, ops[edited.value]))
    && (if deleted.None? then row.deletedAt == None
        else deleted.value < |ops| && DeletedBy(row, ops[deleted.value]))
  }

  lemma {:induction false} RowShows(row: Message, row': Message, ops: seq<Op>, op: Op, made: nat, edited: Option<nat>,
                                    deleted: Option<nat>)
    requires MessageShows(row, ops, made, edited, deleted)
    ensures MessageShows(row, ops + [op], made, edited, deleted)
    ensures EditedBy(row', op) && row' == row.(body := row'.body, editedAt := row'.editedAt) ==>
      MessageShows(row', ops + [op], made, Some(|ops|), deleted)
    ensures DeletedBy(row', op) && row' == row.(deletedAt := row'.deletedAt) ==>
      MessageShows(row', ops + [op], made, edited, Some(|ops|))
  {
  }

  /** The calls behind a message row: the one that stored it, and the last edit and deletion since. */
  ghost predicate MessageHistory(h: MediaStore.Digest, root: string, ops: seq<Op>, id: string, made: Option<nat>,
                                 edited: Option<nat>, deleted: Option<nat>) {
    && IsLast(h, root, ops, Made(id), 0, made)
    && (made.Some? ==>
          && made.value < |ops|
          && IsLast(h, root, ops, Rewritten(id), made.value + 1, edited)
          && IsLast(h, root, ops, Marked(id), made.value + 1, deleted))
  }

  lemma {:induction false} HistorySnoc(h: MediaStore.Digest, root: string, ops: seq<Op>, op: Op, id: string,
                                       made: Option<nat>, edited: Option<nat>, deleted: Option<nat>)
    requires MessageHistory(h, root, ops, id, made, edited, deleted)
    ensures
      var s := Run(h, root, INIT, ops);
      if Makes(s.t, op, id) then MessageHistory(h, root, ops + [op], id, Some(|ops|), None, None)
      else if made.None? then MessageHistory(h, root, ops + [op], id, None, None, None)
      else MessageHistory(h, root, ops + [op], id, made, if Rewrites(s.t, op, id) then Some(|ops|) else edited,
                          if Marks(s.t, op, id) then Some(|ops|) else deleted)
  {
    LastSnoc(h, root, ops, op, Made(id), 0, made);
    NoneSince(h, root, ops + [op], Rewritten(id));
    NoneSince(h, root, ops + [op], Marked(id));
    if made.Some? {
      LastSnoc(h, root, ops, op, Rewritten(id), made.value + 1, edited);
      LastSnoc(h, root, ops, op, Marked(id), made.value + 1, deleted);
    }
    hide IsLast, Run, Makes, Rewrites, Marks;
  }

  lemma {:induction false} NoHistory(h: MediaStore.Digest, root: string, id: string)
    ensures MessageHistory(h, root, [], id, None, None, None)
  {
  }

  lemma {:induction false} StepShows(t: Tables, op: Op, t': Tables, ops: seq<Op>, id: string, made: Option<nat>,
                                     edited: Option<nat>, deleted: Option<nat>)
    requires MessageStep(t, op, t', id) && (id in t.messages <==> made.Some?)
    requires made.Some? ==> MessageShows(t.messages[id], ops, made.value, edited, deleted)
    ensures id in t'.messages <==> made.Some? || Makes(t, op, id)
    ensures Makes(t, op, id) ==> MessageShows(t'.messages[id], ops + [op], |ops|, None, None)
    ensures made.Some? && !Makes(t, op, id) ==>
      MessageShows(t'.messages[id], ops + [op], made.value, if Rewrites(t, op, id) then Some(|ops|) else edited,
                   if Marks(t, op, id) then Some(|ops|) else deleted)
  {
    OneDeed(t, op, id);
    if made.Some? { RowShows(t.messages[id], t'.messages[id], ops, op, made.value, edited, deleted); }
    hide Makes, Rewrites, Marks, OriginOf, AsWritten, EditedBy, DeletedBy;
  }

  lemma {:induction false} OneDeed(t: Tables, op: Op, id: string)
    ensures Rewrites(t, op, id) || Marks(t, op, id) ==> id in t.messages
    ensures !(Rewrites(t, op, id) && Marks(t, op, id))
  {
  }

  /** Every message row, over any run: it exists if and only if some call stored it. Its chat, sender,
      time, kind and reply target are those of the last such call; its text is that of the last edit
      since, if any, with that edit's time, and else that call's; and it is deleted, with that time, by the
      last revoke or delete since. */
  lemma {:induction false} MessageProvenance(h: MediaStore.Digest, root: string, ops: seq<Op>, id: string)
    returns (made: Option<nat>, edited: Option<nat>, deleted: Option<nat>)
    ensures MessageHistory(h, root, ops, id, made, edited, deleted)
    ensures id in Run(h, root, INIT, ops).t.messages <==> made.Some?
    ensures made.Some? ==> MessageShows(Run(h, root, INIT, ops).t.messages[id], ops, made.value, edited, deleted)
  {
    hide MessageHistory, MessageStep, Next, Makes, Rewrites, Marks;
    hide OriginOf, AsWritten, EditedBy, DeletedBy, MessageShows;
    made, edited, deleted := None, None, None;
    if ops == [] {
      NoHistory(h, root, id);
    } else {
      var n := |ops| - 1;
      var s, op := Run(h, root, INIT, ops[..n]), ops[n];
      var s' := Next(h, root, s, op);
      made, edited, deleted := MessageProvenance(h, root, ops[..n], id);
      assert ops[..n] + [op] == ops;
      StepMessage(h, root, s, op, id);
      HistorySnoc(h, root, ops[..n], op, id, made, edited, deleted);
      StepShows(s.t, op, s'.t, ops[..n], id, made, edited, deleted);
      if Makes(s.t, op, id) {
        made, edited, deleted := Some(n), None, None;
      } else if made.Some? {
        if Rewrites(s.t, op, id) { edited := Some(n); }
        if Marks(s.t, op, id) { deleted := Some(n); }
      } else {
        edited, deleted := None, None;
      }
    }
  }

  /** The time a message carries into the store. */
  predicate GaveTime(op: Op, ts: int) {
    match op
    case Receive(m, _) => ts == m.ts
    case SendText(_, _, _, sent, _) => sent.Some? && ts == sent.value.ts
    case SendMedia(_, _, _, _, _, sent, _, _) => sent.Some? && ts == sent.value.ts
    case _ => false
  }

  /** So a listing of a chat is in the order of the times its messages came with: of any two on one page,
      the one listed first was stored by a call that gave it no earlier a time. */
  lemma {:induction false} ListedByTimeGiven(h: MediaStore.Digest, root: string, ops: seq<Op>, chat: string,
                                             before: Option<int>, limit: nat, out: seq<string>, i: nat, j: nat)
    returns (a: nat, b: nat, first: int, second: int)
    requires Paging.IsPage(Paging.ChatMessages(Run(h, root, INIT, ops).t, chat), before, limit, out)
    requires i < j < |out|
    ensures IsLast(h, root, ops, Made(out[i]), 0, Some(a)) && IsLast(h, root, ops, Made(out[j]), 0, Some(b))
    ensures a < |ops| && GaveTime(ops[a], first) && b < |ops| && GaveTime(ops[b], second) && first >= second
  {
    var t := Run(h, root, INIT, ops).t;
    assert out[i] in out && out[j] in out;
    var madeA, editedA, deletedA := MessageProvenance(h, root, ops, out[i]);
    var madeB, editedB, deletedB := MessageProvenance(h, root, ops, out[j]);
    a, b, first, second := madeA.value, madeB.value, t.messages[out[i]].ts, t.messages[out[j]].ts;
    assert Paging.NotBefore(Some(first), Some(second));
    hide Run, IsLast;
  }

  // ---------------------------------------------------------------- reactions and receipts

  /** What this call left under the key: its emoji and time, or nothing when the emoji is empty. */
  predicate ReactionFrom(t: Tables, key: ReactionKey, op: Op) {
    match op
    case Receive(m, _) =>
      if m.reactionEmoji == "" then key !in t.reactions
      else key in t.reactions && t.reactions[key].emoji == m.reactionEmoji && t.reactions[key].ts == m.ts
    case React(_, emoji, _, _, now, _) =>
      if emoji == "" then key !in t.reactions
      else key in t.reactions && t.reactions[key].emoji == emoji && t.reactions[key].ts == now
    case _ => false
  }

  ghost predicate ReactionStep(t: Tables, op: Op, t': Tables, key: ReactionKey) {
    if Reacts(t, op, key) then ReactionFrom(t', key, op)
    else (key in t'.reactions <==> key in t.reactions) && (key in t.reactions ==> t'.reactions[key] == t.reactions[key])
  }

  lemma {:induction false} ReceiveReactionStep(s: State, m: Incoming, f: Faults, key: ReactionKey)
    ensures ReactionStep(s.t, Receive(m, f), ReceiveAny(s, m, f).t, key)
  {
    hide ReceiveNormal, ReceiveRevoke, ReceiveEdit, Sound;
    if m.reactionTarget == "" {
      OthersKeep(s, m, f);
      SameReactions(s.t, Receive(m, f), ReceiveAny(s, m, f).t, key);
    }
  }

  /** Reactions aside, messages leave reactions, receipts and media rows alone. */
  lemma {:induction false} OthersKeep(s: State, m: Incoming, f: Faults)
    ensures forall s' | s' in {ReceiveNormal(s, m, f), ReceiveRevoke(s, m, f), ReceiveEdit(s, m, f)} ::
      s'.t.reactions == s.t.reactions && s'.t.receipts == s.t.receipts && s'.t.media == s.t.media
    ensures ReceiveReaction(s, m, f).t.receipts == s.t.receipts && ReceiveReaction(s, m, f).t.media == s.t.media
  {
    hide Sound, NormalChat, MessageAccepted, ChildAccepted;
  }

  lemma {:induction false} OwnReactionStep(h: MediaStore.Digest, root: string, s: State, op: Op, key: ReactionKey)
    requires op.React?
    ensures ReactionStep(s.t, op, Next(h, root, s, op).t, key)
  {
    hide Sound;
  }

  lemma {:induction false} SameReactions(t: Tables, op: Op, t': Tables, key: ReactionKey)
    requires t'.reactions == t.reactions && !Reacts(t, op, key)
    ensures ReactionStep(t, op, t', key)
  {
  }

  lemma {:induction false} StepReaction(h: MediaStore.Digest, root: string, s: State, op: Op, key: ReactionKey)
    ensures ReactionStep(s.t, op, Next(h, root, s, op).t, key)
  {
    hide Sound, ReactionStep, ReceiveAny, ReactOwn, KindFromJID, RefFor;
    hide MediaStore.PathOf, MediaStore.WriteFiles, MediaStore.Succeeds, MarkReadCounts, EditReply, DeleteReply;
    match op
    case Receive(m, f) => ReceiveReactionStep(s, m, f, key);
    case React(_, _, _, _, _, _) => OwnReactionStep(h, root, s, op, key);
    case ReceiveReceipt(ids, reader, kind, ts, rejects, _) =>
      ReceiptRowsFrame(s.t, ids, reader, kind, ts, rejects);
      SameReactions(s.t, op, Next(h, root, s, op).t, key);
    case SendText(_, _, _, _, _) =>
      SendsWriteOneRow(h, root, s, op);
      SameReactions(s.t, op, Next(h, root, s, op).t, key);
    case SendMedia(_, _, _, _, _, _, _, _) =>
      SendsWriteOneRow(h, root, s, op);
      hide Next;
      SameReactions(s.t, op, Next(h, root, s, op).t, key);
    case _ => SameReactions(s.t, op, Next(h, root, s, op).t, key);
  }

  lemma {:induction false} ReactionStays(t: Tables, op: Op, t': Tables, key: ReactionKey)
    requires ReactionStep(t, op, t', key)
    ensures Reacts(t, op, key) ==> ReactionFrom(t', key, op)
    ensures !Reacts(t, op, key) ==> (key in t'.reactions <==> key in t.reactions)
    ensures !Reacts(t, op, key) ==> forall other | ReactionFrom(t, key, other) :: ReactionFrom(t', key, other)
  {
  }

  /** Every reaction, over any run: it is the emoji and time of the last call that set or cleared it, and
      absent if that call cleared it or there was none. */
  lemma {:induction false} ReactionProvenance(h: MediaStore.Digest, root: string, ops: seq<Op>, key: ReactionKey)
    returns (at: Option<nat>)
    ensures IsLast(h, root, ops, Reacted(key), 0, at)
    ensures
      var t := Run(h, root, INIT, ops).t;
      if at.Some? then at.value < |ops| && ReactionFrom(t, key, ops[at.value]) else key !in t.reactions
  {
    hide IsLast, Next, Reacts, ReactionFrom, ReactionStep;
    at := None;
    if ops == [] {
      NoneSince(h, root, ops, Reacted(key));
    } else {
      var n := |ops| - 1;
      var s, op := Run(h, root, INIT, ops[..n]), ops[n];
      at := ReactionProvenance(h, root, ops[..n], key);
      assert ops[..n] + [op] == ops;
      StepReaction(h, root, s, op, key);
      ReactionStays(s.t, op, Next(h, root, s, op).t, key);
      LastSnoc(h, root, ops[..n], op, Reacted(key), 0, at);
      if Reacts(s.t, op, key) { at := Some(n); }
    }
  }

  lemma {:induction false} SendsKeepReceipts(h: MediaStore.Digest, root: string, s: State, op: Op)
    requires op.SendText? || op.SendMedia?
    ensures Next(h, root, s, op).t.receipts == s.t.receipts
  {
    forall t: Tables, ts ensures TouchChat(t, op.chat, ts, op.f).receipts == t.receipts {
    }
    hide TouchChat, Sound, MessageAccepted, ChildAccepted, TextRow, MediaRow;
    hide MediaStore.PathOf, MediaStore.WriteFiles, MediaStore.Succeeds, RefFor;
  }

  lemma {:induction false} StepReceipt(h: MediaStore.Digest, root: string, s: State, op: Op, key: ReceiptKey)
    ensures
      var t' := Next(h, root, s, op).t;
      if Receipts(s.t, op, key) then key in t'.receipts && op.ReceiveReceipt? && t'.receipts[key] == op.ts
      else
        && (key in t'.receipts <==> key in s.t.receipts)
        && (key in s.t.receipts ==> t'.receipts[key] == s.t.receipts[key])
  {
    hide Sound, MediaStore.PathOf, MediaStore.WriteFiles, MediaStore.Succeeds, RefFor, KindFromJID;
    hide ReceiveNormal, ReceiveReaction, ReceiveRevoke, ReceiveEdit, ReceiptRows, AnyReceipt, SendsText, SendsMedia;
    match op
    case Receive(m, f) => OthersKeep(s, m, f);
    case ReceiveReceipt(ids, reader, kind, ts, rejects, _) =>
      ReceiptRowsExactly(s.t, ids, reader, kind, ts, rejects, key);
    case SendText(_, _, _, _, _) => SendsKeepReceipts(h, root, s, op);
    case SendMedia(_, _, _, _, _, _, _, _) => SendsKeepReceipts(h, root, s, op);
    case _ => hide MarkReadCounts, EditReply, DeleteReply;
  }

  /** Every receipt, over any run: it is there if and only if some event listed its message, reader and
      type and was not rejected, with the time of the last that did. */
  lemma {:induction false} ReceiptProvenance(h: MediaStore.Digest, root: string, ops: seq<Op>, key: ReceiptKey)
    returns (at: Option<nat>)
    ensures IsLast(h, root, ops, Read(key), 0, at)
    ensures
      var t := Run(h, root, INIT, ops).t;
      && (key in t.receipts <==> at.Some?)
      && (at.Some? ==> at.value < |ops| && ops[at.value].ReceiveReceipt? && t.receipts[key] == ops[at.value].ts)
  {
    hide IsLast, Next, Receipts;
    at := None;
    if ops == [] {
      NoneSince(h, root, ops, Read(key));
    } else {
      var n := |ops| - 1;
      var s, op := Run(h, root, INIT, ops[..n]), ops[n];
      at := ReceiptProvenance(h, root, ops[..n], key);
      assert ops[..n] + [op] == ops;
      StepReceipt(h, root, s, op, key);
      LastSnoc(h, root, ops[..n], op, Read(key), 0, at);
      if Receipts(s.t, op, key) { at := Some(n); }
    }
  }

  // ---------------------------------------------------------------- media rows

  /** Type, size and digest of these bytes, at the path their digest and type give. */
  predicate Describes(h: MediaStore.Digest, root: string, ref: MediaRef, body: MediaStore.Bytes, mime: string) {
    && ref.mime == mime && ref.size == |body| && ref.sha == h(body)
    && (|ref.sha| >= 2 ==>
          ref.path == root + "/" + ref.sha[..2] + "/" + ref.sha + MediaStore.ExtFromMIME(mime))
  }

  predicate RefFrom(h: MediaStore.Digest, root: string, ref: MediaRef, op: Op) {
    match op
    case Download(_, fetched, _, _) => fetched.Some? && Describes(h, root, ref, fetched.value.0, fetched.value.1)
    case SendMedia(_, _, _, mime, body, _, _, _) => Describes(h, root, ref, body, mime)
    case _ => false
  }

  lemma {:induction false} RefDescribes(h: MediaStore.Digest, root: string, body: MediaStore.Bytes, mime: string)
    ensures Describes(h, root, RefFor(h, root, body, mime), body, mime)
  {
    hide MediaStore.ExtFromMIME;
  }

  ghost predicate MediaStep(h: MediaStore.Digest, root: string, s: State, op: Op, t': Tables, id: string) {
    if Files(h, root, s, op, id) then id in t'.media && RefFrom(h, root, t'.media[id], op)
    else (id in t'.media <==> id in s.t.media) && (id in s.t.media ==> t'.media[id] == s.t.media[id])
  }

  lemma {:induction false} FileStep(h: MediaStore.Digest, root: string, s: State, op: Op, id: string)
    requires op.Download? || op.SendMedia?
    ensures MediaStep(h, root, s, op, Next(h, root, s, op).t, id)
  {
    if op.SendMedia? {
      RefDescribes(h, root, op.body, op.mime);
    } else if op.fetched.Some? {
      RefDescribes(h, root, op.fetched.value.0, op.fetched.value.1);
    }
    hide Sound, MediaStore.PathOf, MediaStore.WriteFiles, MediaStore.Succeeds, RefFor, KindFromJID, Describes;
  }

  lemma {:induction false} StepMedia(h: MediaStore.Digest, root: string, s: State, op: Op, id: string)
    ensures MediaStep(h, root, s, op, Next(h, root, s, op).t, id)
  {
    hide Sound, KindFromJID, MediaStep, MarkReadCounts, EditReply, DeleteReply, MessageAccepted;
    hide ReceiveNormal, ReceiveReaction, ReceiveRevoke, ReceiveEdit;
    match op
    case Receive(m, f) =>
      OthersKeep(s, m, f);
      SameMedia(h, root, s, op, Next(h, root, s, op).t, id);
    case ReceiveReceipt(ids, reader, kind, ts, rejects, _) =>
      ReceiptRowsFrame(s.t, ids, reader, kind, ts, rejects);
      SameMedia(h, root, s, op, Next(h, root, s, op).t, id);
    case Download(_, _, _, _) => hide Next; FileStep(h, root, s, op, id);
    case SendMedia(_, _, _, _, _, _, _, _) => hide Next; FileStep(h, root, s, op, id);
    case _ => SameMedia(h, root, s, op, Next(h, root, s, op).t, id);
  }

  lemma {:induction false} SameMedia(h: MediaStore.Digest, root: string, s: State, op: Op, t': Tables, id: string)
    requires t'.media == s.t.media && !op.Download? && !op.SendMedia?
    ensures MediaStep(h, root, s, op, t', id)
  {
  }

  /** Every media row, over any run: it is there if and only if some call wrote its file and then the row,
      and shows the type, size, digest and path of the bytes of the last that did. */
  lemma {:induction false} MediaProvenance(h: MediaStore.Digest, root: string, ops: seq<Op>, id: string)
    returns (at: Option<nat>)
    ensures IsLast(h, root, ops, Filed(id), 0, at)
    ensures
      var t := Run(h, root, INIT, ops).t;
      && (id in t.media <==> at.Some?)
      && (at.Some? ==> at.value < |ops| && RefFrom(h, root, t.media[id], ops[at.value]))
  {
    hide IsLast, Next, Files, RefFrom;
    at := None;
    if ops == [] {
      NoneSince(h, root, ops, Filed(id));
    } else {
      var n := |ops| - 1;
      var s, op := Run(h, root, INIT, ops[..n]), ops[n];
      at := MediaProvenance(h, root, ops[..n], id);
      assert ops[..n] + [op] == ops;
      StepMedia(h, root, s, op, id);
      LastSnoc(h, root, ops[..n], op, Filed(id), 0, at);
      if Files(h, root, s, op, id) { at := Some(n); }
    }
  }

  // ---------------------------------------------------------------- chat rows

  predicate TimedBy(chat: Chat, op: Op) {
    match op
    case Receive(m, _) => chat.lastMsgAt == Some(m.ts)
    case SendText(_, _, _, sent, _) => sent.Some? && chat.lastMsgAt == Some(sent.value.ts)
    case SendMedia(_, _, _, _, _, sent, _, _) => sent.Some? && chat.lastMsgAt == Some(sent.value.ts)
    case CreateGroup(_, now, _) => chat.lastMsgAt == Some(now)
    case _ => false
  }

  /** Only a group brings a name. */
  predicate NamedBy(chat: Chat, op: Op) {
    if op.CreateGroup? then op.group.Some? && chat.name == op.group.value.1 else chat.name == ""
  }

  /** The kind a call gives a chat that has none. */
  function KindOffered(op: Op, jid: string): string {
    match op
    case Receive(m, _) => m.chatKind
    case CreateGroup(_, _, _) => "group"
    case _ => KindFromJID(jid)
  }

  /** The first kind given since `from` that is not empty. */
  function KindSince(ops: seq<Op>, jid: string, from: nat): string {
    if |ops| <= from then ""
    else
      var n := |ops| - 1;
      var before := KindSince(ops[..n], jid, from);
      if before != "" || !Touches(ops[n], jid) then before else KindOffered(ops[n], jid)
  }

  ghost predicate ChatStep(t: Tables, op: Op, t': Tables, jid: string) {
    if !Touches(op, jid) then
      && (jid in t'.chats <==> jid in t.chats)
      && (jid in t.chats ==> t'.chats[jid] == t.chats[jid].(unread := t'.chats[jid].unread))
    else
      && jid in t'.chats && TimedBy(t'.chats[jid], op)
      && if Starts(t, op, jid) then
           NamedBy(t'.chats[jid], op) && !t'.chats[jid].archived && t'.chats[jid].kind == KindOffered(op, jid)
         else
           && t'.chats[jid].name == t.chats[jid].name && t'.chats[jid].archived == t.chats[jid].archived
           && t'.chats[jid].kind == if t.chats[jid].kind != "" then t.chats[jid].kind else KindOffered(op, jid)
  }

  lemma {:induction false} ReceiveChatStep(s: State, m: Incoming, f: Faults, jid: string)
    ensures ChatStep(s.t, Receive(m, f), ReceiveAny(s, m, f).t, jid)
  {
    hide Sound, PutMessage, MessageAccepted, NormalRow, PutReaction, DeleteReaction, SoftDelete, ReceiveReaction;
    hide ReceiveNormal, ReceiveRevoke, ReceiveEdit;
    if IsNormal(m) {
      NormalChatStep(s, m, f, jid);
    } else {
      OthersKeepChats(s, m, f);
      SameChats(s.t, Receive(m, f), ReceiveAny(s, m, f).t, jid);
    }
  }

  lemma {:induction false} OthersKeepChats(s: State, m: Incoming, f: Faults)
    ensures ReceiveReaction(s, m, f).t.chats == s.t.chats
    ensures ReceiveRevoke(s, m, f).t.chats == s.t.chats
    ensures ReceiveEdit(s, m, f).t.chats == s.t.chats
  {
    hide Sound;
  }

  lemma {:induction false} NormalChatStep(s: State, m: Incoming, f: Faults, jid: string)
    requires IsNormal(m)
    ensures ChatStep(s.t, Receive(m, f), ReceiveNormal(s, m, f).t, jid)
  {
    hide Sound, MessageAccepted;
  }

  /** Both sends write the chat last, and no other. */
  lemma {:induction false} SendsTouchChat(h: MediaStore.Digest, root: string, s: State, op: Op)
    requires op.SendText? || op.SendMedia?
    ensures Next(h, root, s, op).t.chats ==
      if op.sent.None? then s.t.chats else TouchChat(s.t, op.chat, op.sent.value.ts, op.f).chats
  {
    if op.sent.Some? {
      var ts := op.sent.value.ts;
      forall t: Tables | t.chats == s.t.chats
        ensures TouchChat(t, op.chat, ts, op.f).chats == TouchChat(s.t, op.chat, ts, op.f).chats
      {
      }
    }
    hide TouchChat, Sound, MediaStore.PathOf, MediaStore.WriteFiles, MediaStore.Succeeds, RefFor;
  }

  lemma {:induction false} SendChatStep(h: MediaStore.Digest, root: string, s: State, op: Op, jid: string)
    requires op.SendText? || op.SendMedia?
    ensures ChatStep(s.t, op, Next(h, root, s, op).t, jid)
  {
    SendsTouchChat(h, root, s, op);
    hide Next, Sound, KindFromJID;
    if op.sent.None? { SameChats(s.t, op, Next(h, root, s, op).t, jid); }
  }

  lemma {:induction false} SameChats(t: Tables, op: Op, t': Tables, jid: string)
    requires t'.chats == t.chats && !Touches(op, jid)
    ensures ChatStep(t, op, t', jid)
  {
  }

  lemma {:induction false} StepChat(h: MediaStore.Digest, root: string, s: State, op: Op, jid: string)
    ensures ChatStep(s.t, op, Next(h, root, s, op).t, jid)
  {
    hide Sound, KindFromJID, RefFor, MediaStore.PathOf, MediaStore.WriteFiles, MediaStore.Succeeds;
    match op
    case Receive(m, f) => ReceiveChatStep(s, m, f, jid);
    case SendText(_, _, _, _, _) => SendChatStep(h, root, s, op, jid); hide Next;
    case SendMedia(_, _, _, _, _, _, _, _) => SendChatStep(h, root, s, op, jid); hide Next;
    case ReceiveReceipt(ids, reader, kind, ts, rejects, _) =>
      ReceiptRowsFrame(s.t, ids, reader, kind, ts, rejects);
      SameChats(s.t, op, Next(h, root, s, op).t, jid);
    case MarkRead(_, _, _) =>
    case CreateGroup(_, _, _) =>
    case _ => SameChats(s.t, op, Next(h, root, s, op).t, jid);
  }

  ghost predicate ChatShows(chat: Chat, ops: seq<Op>, jid: string, touched: nat, started: nat) {
    && touched < |ops| && TimedBy(chat, ops[touched])
    && started < |ops| && NamedBy(chat, ops[started])
    && chat.kind == KindSince(ops, jid, started) && !chat.archived
  }

  lemma {:induction false} ChatRowShows(chat: Chat, t: Tables, t': Tables, ops: seq<Op>, op: Op, jid: string,
                                        touched: nat, started: nat)
    requires ChatStep(t, op, t', jid) && jid in t.chats && ChatShows(t.chats[jid], ops, jid, touched, started)
    ensures jid in t'.chats
    ensures !Starts(t, op, jid) ==>
      ChatShows(t'.chats[jid], ops + [op], jid, if Touches(op, jid) then |ops| else touched, started)
  {
    hide Starts, Touches, KindOffered;
    assert (ops + [op])[..|ops|] == ops;
  }

  lemma {:induction false} ChatStartShows(t: Tables, t': Tables, ops: seq<Op>, op: Op, jid: string)
    requires ChatStep(t, op, t', jid) && Starts(t, op, jid)
    ensures jid in t'.chats && ChatShows(t'.chats[jid], ops + [op], jid, |ops|, |ops|)
  {
    assert (ops + [op])[..|ops|] == ops;
    assert KindSince(ops, jid, |ops|) == "";
  }

  lemma {:induction false} StartsToExist(t: Tables, op: Op, t': Tables, jid: string)
    requires ChatStep(t, op, t', jid)
    ensures jid in t'.chats <==> jid in t.chats || Touches(op, jid)
    ensures Starts(t, op, jid) ==> Touches(op, jid)
    ensures Touches(op, jid) && jid !in t.chats ==> Starts(t, op, jid)
  {
  }

  /** Every chat row, over any run: it is there if and only if some message or group was written to it. Its
      last-message time is that of the last of these; its name is that of the last to start it afresh, a
      group's or none; and its kind is the first one given since. */
  lemma {:induction false} ChatProvenance(h: MediaStore.Digest, root: string, ops: seq<Op>, jid: string)
    returns (touched: Option<nat>, started: Option<nat>)
    ensures IsLast(h, root, ops, Touched(jid), 0, touched) && IsLast(h, root, ops, Started(jid), 0, started)
    ensures
      var t := Run(h, root, INIT, ops).t;
      && (jid in t.chats <==> touched.Some?) && (jid in t.chats <==> started.Some?)
      && (jid in t.chats ==> ChatShows(t.chats[jid], ops, jid, touched.value, started.value))
  {
    hide IsLast, Next, Touches, Starts, ChatShows, ChatStep;
    touched, started := None, None;
    if ops == [] {
      NoneSince(h, root, ops, Touched(jid));
      NoneSince(h, root, ops, Started(jid));
    } else {
      var n := |ops| - 1;
      var s, op := Run(h, root, INIT, ops[..n]), ops[n];
      var t' := Next(h, root, s, op).t;
      touched, started := ChatProvenance(h, root, ops[..n], jid);
      assert ops[..n] + [op] == ops;
      StepChat(h, root, s, op, jid);
      LastSnoc(h, root, ops[..n], op, Touched(jid), 0, touched);
      LastSnoc(h, root, ops[..n], op, Started(jid), 0, started);
      StartsToExist(s.t, op, t', jid);
      if jid in s.t.chats {
        ChatRowShows(s.t.chats[jid], s.t, t', ops[..n], op, jid, touched.value, started.value);
      }
      if Starts(s.t, op, jid) { ChatStartShows(s.t, t', ops[..n], op, jid); }
      if Touches(op, jid) { touched := Some(n); }
      if Starts(s.t, op, jid) { started := Some(n); }
    }
  }

  lemma {:induction false} Ends(user: string, suffix: string)
    requires |suffix| >= 2
    ensures EndsWith(user + suffix, suffix)
    ensures forall other: string | |other| >= 2 && EndsWith(user + suffix, other) ::
      other[|other| - 2] == suffix[|suffix| - 2] && other[|other| - 1] == suffix[|suffix| - 1]
  {
    var s := user + suffix;
    forall other: string | |other| >= 2 && EndsWith(s, other)
      ensures other[|other| - 2] == suffix[|suffix| - 2] && other[|other| - 1] == suffix[|suffix| - 1]
    {
      var tail := s[|s| - |other|..];
      assert tail[|other| - 2] == s[|s| - 2] && tail[|other| - 1] == s[|s| - 1];
    }
  }

  /** The kind of a chat by its address, for any user part. */
  lemma {:induction false} KindBySuffix(user: string)
    ensures KindFromJID(user + "@s.whatsapp.net") == "user"
    ensures KindFromJID(user + "@g.us") == "group"
    ensures KindFromJID(user + "@broadcast") == "broadcast"
    ensures KindFromJID(user + "@newsletter") == "newsletter"
  {
    hide EndsWith;
    Ends(user, "@s.whatsapp.net");
    Ends(user, "@g.us");
    BroadcastKinds(user);
  }

  lemma {:induction false} BroadcastKinds(user: string)
    ensures KindFromJID(user + "@broadcast") == "broadcast"
    ensures KindFromJID(user + "@newsletter") == "newsletter"
  {
    hide EndsWith;
    Ends(user, "@broadcast");
    Ends(user, "@newsletter");
  }

  /** And any other address is of unknown kind. */
  lemma {:induction false} KindUnknownIff(jid: string)
    ensures KindFromJID(jid) == "unknown" <==>
      && (forall user: string :: jid != user + "@s.whatsapp.net") && (forall user: string :: jid != user + "@g.us")
      && (forall user: string :: jid != user + "@broadcast") && (forall user: string :: jid != user + "@newsletter")
  {
    Cut(jid, "@s.whatsapp.net");
    Cut(jid, "@g.us");
    Cut(jid, "@broadcast");
    Cut(jid, "@newsletter");
    hide EndsWith;
  }

  lemma {:induction false} Cut(s: string, suffix: string)
    ensures EndsWith(s, suffix) <==> exists user: string :: s == user + suffix
  {
    if EndsWith(s, suffix) { assert s == s[..|s| - |suffix|] + suffix; }
  }
}
