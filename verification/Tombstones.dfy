/** What later calls and events can and cannot do to a stored message: clear its deletion, show it
    again, or change where it came from. */
module Tombstones {
  import opened Wrappers
  import opened Store
  import opened ServiceSteps
  import Paging
  import MediaStore

  predicate Deleted(s: State, id: string) {
    id in s.t.messages && s.t.messages[id].deletedAt.Some?
  }

  /** The step writes a new message, received or sent, under this id. */
  predicate Reuses(op: Op, id: string) {
    match op
    case Receive(m, _) => IsNormal(m) && m.id == id
    case SendText(_, _, _, sent, _) => sent.Some? && sent.value.id == id
    case SendMedia(_, _, _, _, _, sent, _, _) => sent.Some? && sent.value.id == id
    case _ => false
  }

  /** The new message's row gets past the foreign key and the database. */
  predicate NewRowAccepted(t: Tables, op: Op) {
    match op
    case Receive(m, f) => !f.messagePut && (m.chat in t.chats || !f.chatPut)
    case SendText(chat, _, _, _, f) => !f.messagePut && chat in t.chats
    case SendMedia(chat, _, _, _, _, _, _, f) => !f.messagePut && chat in t.chats
    case _ => false
  }

  lemma {:induction false} NormalClearsIff(s: State, m: Incoming, f: Faults, id: string)
    requires Deleted(s, id)
    ensures Deleted(ReceiveNormal(s, m, f), id) <==>
      !(m.id == id && !f.messagePut && (m.chat in s.t.chats || !f.chatPut))
  {
    hide NormalChat, Sound, Referenced, Emit;
  }

  lemma {:induction false} OthersKeepMark(s: State, m: Incoming, f: Faults, id: string)
    requires Deleted(s, id)
    ensures Deleted(ReceiveReaction(s, m, f), id)
    ensures Deleted(ReceiveRevoke(s, m, f), id)
    ensures Deleted(ReceiveEdit(s, m, f), id)
  {
    hide Sound, Referenced, Emit;
  }

  lemma {:induction false} ReceiveClearsIff(h: MediaStore.Digest, root: string, s: State, m: Incoming, f: Faults,
                                            id: string)
    requires Deleted(s, id)
    ensures Deleted(ReceiveAny(s, m, f), id) <==> !(Reuses(Receive(m, f), id) && NewRowAccepted(s.t, Receive(m, f)))
  {
    NormalClearsIff(s, m, f, id);
    OthersKeepMark(s, m, f, id);
    hide ReceiveNormal, ReceiveReaction, ReceiveRevoke, ReceiveEdit;
  }

  lemma {:induction false} SendClearsIff(h: MediaStore.Digest, root: string, s: State, op: Op, id: string)
    requires op.SendText? || op.SendMedia?
    requires Deleted(s, id)
    ensures Deleted(Next(h, root, s, op), id) <==> !(Reuses(op, id) && NewRowAccepted(s.t, op))
  {
    SendsWriteOneRow(h, root, s, op);
    hide Next, Sound;
  }

  /** One step clears a deletion exactly if it stores a new message under the same id. */
  lemma {:induction false} StepClearsIff(h: MediaStore.Digest, root: string, s: State, op: Op, id: string)
    requires Deleted(s, id)
    ensures Deleted(Next(h, root, s, op), id) <==> !(Reuses(op, id) && NewRowAccepted(s.t, op))
  {
    match op
    case Receive(m, f) => ReceiveClearsIff(h, root, s, m, f, id);
    case SendText(_, _, _, _, _) => SendClearsIff(h, root, s, op, id);
    case SendMedia(_, _, _, _, _, _, _, _) => SendClearsIff(h, root, s, op, id);
    case ReceiveReceipt(ids, reader, kind, ts, rejects, _) => ReceiptRowsFrame(s.t, ids, reader, kind, ts, rejects);
    case _ => hide Sound, Referenced, MediaStore.PathOf, MediaStore.WriteFiles, MediaStore.Succeeds;
  }

  lemma {:induction false} DeletionIsPermanent(h: MediaStore.Digest, root: string, s: State, ops: seq<Op>, id: string)
    requires Deleted(s, id)
    requires forall i | 0 <= i < |ops| :: !Reuses(ops[i], id)
    ensures Deleted(Run(h, root, s, ops), id)
  {
    if ops != [] {
      var init := ops[..|ops| - 1];
      DeletionIsPermanent(h, root, s, init, id);
      StepClearsIff(h, root, Run(h, root, s, init), ops[|ops| - 1], id);
    }
  }

  /** Once deleted, and while no new message takes its id, a message is never again counted or
      returned by any page of its chat or any search, whatever calls, events and faults follow. */
  lemma {:induction false} DeletedStaysHidden(h: MediaStore.Digest, root: string, s: State, ops: seq<Op>, id: string,
                                              chat: string, matches: string -> bool, before: Option<int>, limit: nat,
                                              out: seq<string>)
    requires Deleted(s, id)
    requires forall i | 0 <= i < |ops| :: !Reuses(ops[i], id)
    ensures
      var t := Run(h, root, s, ops).t;
      && id !in Paging.LiveIds(t)
      && (Paging.IsPage(Paging.ChatMessages(t, chat), before, limit, out) ==> id !in out)
      && (Paging.IsPage(Paging.Matching(t, matches), None, limit, out) ==> id !in out)
  {
    DeletionIsPermanent(h, root, s, ops, id);
  }

  /** The owner can neither edit nor delete it again: both calls are refused and change nothing. */
  lemma {:induction false} OwnerIsRefused(h: MediaStore.Digest, root: string, s: State, ops: seq<Op>, id: string,
                                          edit: Op, delete: Op)
    requires Deleted(s, id)
    requires forall i | 0 <= i < |ops| :: !Reuses(ops[i], id)
    requires edit.Edit? && edit.id == id && delete.Delete? && delete.id == id
    ensures
      var s' := Run(h, root, s, ops);
      && Next(h, root, s', edit) == s' && Next(h, root, s', delete) == s'
      && EditReply(s'.t, id, edit.text, edit.own, edit.sentAt, edit.f) ==
        Err(if edit.f.messageGet then Lookup else Forbidden)
      && DeleteReply(s'.t, id, delete.own, delete.revoked, delete.f) ==
        Err(if delete.f.messageGet then Lookup else Forbidden)
  {
    DeletionIsPermanent(h, root, s, ops, id);
  }

  // ---------------------------------------------------------------- what an edit may change

  /** The columns that say where a message came from. */
  predicate SameOrigin(a: Message, b: Message) {
    a.chat == b.chat && a.sender == b.sender && a.ts == b.ts && a.kind == b.kind && a.replyTo == b.replyTo
  }

  /** The new text and time of a step that edits this message. */
  function EditOf(op: Op, id: string): Option<(string, int)> {
    match op
    case Receive(m, _) =>
      if m.reactionTarget == "" && m.revokeOf == "" && m.editOf != "" && m.editOf == id
      then Some((m.body, m.ts)) else None
    case Edit(target, text, _, sentAt, _) => if target == id && sentAt.Some? then Some((text, sentAt.value)) else None
    case _ => None
  }

  /** The row kept its origin, and its text changed, if at all, to that of the edit. */
  predicate RowKept(m: Message, m': Message, edit: Option<(string, int)>) {
    && SameOrigin(m, m')
    && (|| (m'.body == m.body && m'.editedAt == m.editedAt)
        || (edit.Some? && m'.body == edit.value.0 && m'.editedAt == Some(edit.value.1)))
  }

  predicate KeepsOrigin(t: Tables, t': Tables, edit: Option<(string, int)>, id: string)
    requires id in t.messages
  {
    id in t'.messages && RowKept(t.messages[id], t'.messages[id], edit)
  }

  lemma {:induction false} NormalKeepsOrigin(s: State, m: Incoming, f: Faults, id: string, edit: Option<(string, int)>)
    requires id in s.t.messages && m.id != id
    ensures KeepsOrigin(s.t, ReceiveNormal(s, m, f).t, edit, id)
  {
    hide Sound, NormalChat, Emit;
  }

  lemma {:induction false} ReactionKeepsOrigin(s: State, m: Incoming, f: Faults, id: string,
                                               edit: Option<(string, int)>)
    requires id in s.t.messages
    ensures KeepsOrigin(s.t, ReceiveReaction(s, m, f).t, edit, id)
  {
    hide Sound, Emit;
  }

  lemma {:induction false} RevokeKeepsOrigin(s: State, m: Incoming, f: Faults, id: string, edit: Option<(string, int)>)
    requires id in s.t.messages
    ensures KeepsOrigin(s.t, ReceiveRevoke(s, m, f).t, edit, id)
  {
    hide Sound, Emit;
  }

  lemma {:induction false} EditKeepsOrigin(s: State, m: Incoming, f: Faults, id: string)
    requires id in s.t.messages
    ensures KeepsOrigin(s.t, ReceiveEdit(s, m, f).t, if m.editOf == id then Some((m.body, m.ts)) else None, id)
  {
    hide Sound, Emit;
  }

  lemma {:induction false} ReceiveKeepsOrigin(s: State, m: Incoming, f: Faults, id: string)
    requires id in s.t.messages && !Reuses(Receive(m, f), id)
    ensures KeepsOrigin(s.t, ReceiveAny(s, m, f).t, EditOf(Receive(m, f), id), id)
  {
    var edit := EditOf(Receive(m, f), id);
    if IsNormal(m) { NormalKeepsOrigin(s, m, f, id, edit); }
    ReactionKeepsOrigin(s, m, f, id, edit);
    RevokeKeepsOrigin(s, m, f, id, edit);
    EditKeepsOrigin(s, m, f, id);
    hide KeepsOrigin, ReceiveNormal, ReceiveReaction, ReceiveRevoke, ReceiveEdit;
  }

  lemma {:induction false} OwnCallKeepsOrigin(s: State, op: Op, id: string)
    requires id in s.t.messages
    ensures op.Edit? ==> KeepsOrigin(s.t, EditOwn(s, op.id, op.text, op.own, op.sentAt, op.f).t, EditOf(op, id), id)
    ensures op.Delete? ==> KeepsOrigin(s.t, DeleteOwn(s, op.id, op.own, op.revoked, op.now, op.f).t, None, id)
  {
    hide Sound;
  }

  lemma {:induction false} SendKeepsOrigin(h: MediaStore.Digest, root: string, s: State, op: Op, id: string)
    requires op.SendText? || op.SendMedia?
    requires id in s.t.messages && !Reuses(op, id)
    ensures KeepsOrigin(s.t, Next(h, root, s, op).t, EditOf(op, id), id)
  {
    SendsWriteOneRow(h, root, s, op);
    hide Next, Sound;
  }

  /** A step that does not reuse the id keeps the origin of a stored message, and changes its text
      only together with its edit time, to those of an edit that names it. */
  lemma {:induction false} StepKeepsOrigin(h: MediaStore.Digest, root: string, s: State, op: Op, id: string)
    requires id in s.t.messages && !Reuses(op, id)
    ensures KeepsOrigin(s.t, Next(h, root, s, op).t, EditOf(op, id), id)
  {
    match op
    case Receive(m, f) => ReceiveKeepsOrigin(s, m, f, id);
    case SendText(_, _, _, _, _) => SendKeepsOrigin(h, root, s, op, id);
    case SendMedia(_, _, _, _, _, _, _, _) => SendKeepsOrigin(h, root, s, op, id);
    case Edit(_, _, _, _, _) => OwnCallKeepsOrigin(s, op, id);
    case Delete(_, _, _, _, _) => OwnCallKeepsOrigin(s, op, id);
    case ReceiveReceipt(ids, reader, kind, ts, rejects, _) => ReceiptRowsFrame(s.t, ids, reader, kind, ts, rejects);
    case _ => hide Sound, MediaStore.PathOf, MediaStore.WriteFiles, MediaStore.Succeeds;
  }

  /** So a message never changes chat, sender, time, kind or the message it replies to, unless a
      new message takes its id. */
  lemma {:induction false} OriginIsPermanent(h: MediaStore.Digest, root: string, s: State, ops: seq<Op>, id: string)
    requires id in s.t.messages
    requires forall i | 0 <= i < |ops| :: !Reuses(ops[i], id)
    ensures
      var t := Run(h, root, s, ops).t;
      id in t.messages && SameOrigin(s.t.messages[id], t.messages[id])
  {
    if ops != [] {
      var init := ops[..|ops| - 1];
      OriginIsPermanent(h, root, s, init, id);
      StepKeepsOrigin(h, root, Run(h, root, s, init), ops[|ops| - 1], id);
    }
  }
}
