/** The service's use cases as steps on one state: the tables, the media files and the events
    log. Each call is one step; the calls into WhatsApp and every database failure are inputs. */
module ServiceSteps {
  import opened Wrappers
  import opened Store
  import opened MediaStore

  /** One row of the events log before its payload is encoded. */
  datatype Entry =
    | MessageReceived(id: string, chat: string, sender: string, kind: string, body: string, ts: int)
    | MessageEdited(id: string, chat: string, body: string)
    | MessageDeleted(id: string, chat: string)
    | ReactionReceived(target: string, sender: string, emoji: string, ts: int)
    | ReceiptReceived(ids: seq<string>, reader: string, kind: string, ts: int)
    | ConnectionChanged(status: string, reason: string)

  datatype State = State(t: Tables, files: map<string, Bytes>, log: seq<Entry>)

  const INIT: State := State(EMPTY, map[], [])

  /** Which of the database calls that one step makes fail. */
  datatype Faults = Faults(chatGet: bool, chatPut: bool, messageGet: bool, messagePut: bool, softDelete: bool,
                           reaction: bool, media: bool, append: bool)

  const NO_FAULTS: Faults := Faults(false, false, false, false, false, false, false, false)

  datatype Incoming = Incoming(id: string, chat: string, chatKind: string, sender: string, ts: int, kind: string,
                               body: string, reactionTarget: string, reactionEmoji: string, revokeOf: string,
                               editOf: string)

  datatype Sent = Sent(id: string, sender: string, ts: int)

  datatype Failure = Lookup | Forbidden | Network

  datatype Op =
    | Receive(m: Incoming, f: Faults)
    | ReceiveReceipt(ids: seq<string>, reader: string, kind: string, ts: int, rejects: set<nat>, f: Faults)
    | SendText(chat: string, text: string, replyTo: string, sent: Option<Sent>, f: Faults)
    | SendMedia(chat: string, kind: string, text: string, mime: string, body: Bytes, sent: Option<Sent>,
                outcome: Outcome, f: Faults)
    | Download(message: string, fetched: Option<(Bytes, string)>, outcome: Outcome, f: Faults)
    | Edit(id: string, text: string, own: Option<string>, sentAt: Option<int>, f: Faults)
    | Delete(id: string, own: Option<string>, revoked: bool, now: int, f: Faults)
    | React(id: string, emoji: string, own: Option<string>, reacted: bool, now: int, f: Faults)
    | MarkRead(id: string, marked: bool, f: Faults)
    | CreateGroup(group: Option<(string, string)>, now: int, f: Faults)
    | Connection(status: string, reason: string, f: Faults)
    | CrashInWrite(body: Bytes, mime: string, written: nat)

  // ---------------------------------------------------------------- inbound

  function Emit(log: seq<Entry>, e: Entry, fails: bool): seq<Entry> {
    if fails then log else log + [e]
  }

  /** A normal message: neither a reaction nor a revoke nor an edit, in that order of precedence. */
  predicate IsNormal(m: Incoming) {
    m.reactionTarget == "" && m.revokeOf == "" && m.editOf == ""
  }

  function FindChat(t: Tables, jid: string, kind: string, fails: bool): Chat {
    if fails || jid !in t.chats then Chat("", kind, None, 0, false) else t.chats[jid]
  }

  function OrKind(kind: string, other: string): string {
    if kind == "" then other else kind
  }

  function NormalChat(t: Tables, m: Incoming, f: Faults): Chat {
    var chat := FindChat(t, m.chat, m.chatKind, f.chatGet);
    chat.(lastMsgAt := Some(m.ts), unread := chat.unread + 1, kind := OrKind(chat.kind, m.chatKind))
  }

  function NormalRow(m: Incoming): Message {
    Message(m.chat, m.sender, m.ts, m.kind, m.body, "", None, None)
  }

  function ReceiveNormal(s: State, m: Incoming, f: Faults): State {
    var t := PutChat(s.t, m.chat, NormalChat(s.t, m, f), f.chatPut);
    var e := MessageReceived(m.id, m.chat, m.sender, m.kind, m.body, m.ts);
    s.(t := PutMessage(t, m.id, NormalRow(m), f.messagePut),
       log := if MessageAccepted(t, NormalRow(m), f.messagePut) then Emit(s.log, e, f.append) else s.log)
  }

  function ReceiveReaction(s: State, m: Incoming, f: Faults): State {
    var key := (m.reactionTarget, m.sender);
    var e := ReactionReceived(m.reactionTarget, m.sender, m.reactionEmoji, m.ts);
    if m.reactionEmoji == "" then
      s.(t := DeleteReaction(s.t, key, f.reaction),
         log := if f.reaction then s.log else Emit(s.log, e, f.append))
    else
      s.(t := PutReaction(s.t, key, Reaction(m.reactionEmoji, m.ts), f.reaction),
         log := if ChildAccepted(s.t, key.0, f.reaction) then Emit(s.log, e, f.append) else s.log)
  }

  function ReceiveRevoke(s: State, m: Incoming, f: Faults): State {
    s.(t := SoftDelete(s.t, m.revokeOf, m.ts, f.softDelete),
       log := if f.softDelete then s.log else Emit(s.log, MessageDeleted(m.revokeOf, m.chat), f.append))
  }

  function Edited(row: Message, body: string, at: int): Message {
    row.(body := body, editedAt := Some(at))
  }

  function ReceiveEdit(s: State, m: Incoming, f: Faults): State {
    if f.messageGet || m.editOf !in s.t.messages then s
    else
      var row := Edited(s.t.messages[m.editOf], m.body, m.ts);
      s.(t := PutMessage(s.t, m.editOf, row, f.messagePut),
         log := if MessageAccepted(s.t, row, f.messagePut)
                then Emit(s.log, MessageEdited(m.editOf, m.chat, m.body), f.append) else s.log)
  }

  function ReceiveAny(s: State, m: Incoming, f: Faults): State {
    if m.reactionTarget != "" then ReceiveReaction(s, m, f)
    else if m.revokeOf != "" then ReceiveRevoke(s, m, f)
    else if m.editOf != "" then ReceiveEdit(s, m, f)
    else ReceiveNormal(s, m, f)
  }

  function ReceiptRows(t: Tables, ids: seq<string>, reader: string, kind: string, ts: int, rejects: set<nat>): Tables {
    if ids == [] then t
    else
      var n := |ids| - 1;
      PutReceipt(ReceiptRows(t, ids[..n], reader, kind, ts, rejects), (ids[n], reader, kind), ts, n in rejects)
  }

  /** The receipt is announced when at least one of its rows was stored. */
  predicate AnyReceipt(t: Tables, ids: seq<string>, rejects: set<nat>) {
    exists i | 0 <= i < |ids| :: i !in rejects && ids[i] in t.messages
  }

  function HandleReceipt(s: State, ids: seq<string>, reader: string, kind: string, ts: int, rejects: set<nat>,
                         f: Faults): State {
    s.(t := ReceiptRows(s.t, ids, reader, kind, ts, rejects),
       log := if AnyReceipt(s.t, ids, rejects) then Emit(s.log, ReceiptReceived(ids, reader, kind, ts), f.append)
              else s.log)
  }

  function RefFor(h: Digest, root: string, body: Bytes, mime: string): MediaRef {
    MediaRef(mime, |body|, h(body), PathOf(h, root, body, mime))
  }

  function DownloadMedia(h: Digest, root: string, s: State, message: string, fetched: Option<(Bytes, string)>,
                         outcome: Outcome, f: Faults): State {
    if fetched.None? then s
    else
      var (body, mime) := fetched.value;
      var path := PathOf(h, root, body, mime);
      s.(files := WriteFiles(s.files, path, body, outcome),
         t := if Succeeds(s.files, path, body, outcome)
              then PutMedia(s.t, message, RefFor(h, root, body, mime), f.media) else s.t)
  }

  // ---------------------------------------------------------------- outbound

  function KindFromJID(jid: string): string {
    if EndsWith(jid, "@s.whatsapp.net") then "user"
    else if EndsWith(jid, "@g.us") then "group"
    else if EndsWith(jid, "@broadcast") then "broadcast"
    else if EndsWith(jid, "@newsletter") then "newsletter"
    else "unknown"
  }

  predicate EndsWith(s: string, suffix: string) {
    |s| >= |suffix| && s[|s| - |suffix|..] == suffix
  }

  /** The chat row both sends write last. */
  function TouchChat(t: Tables, jid: string, ts: int, f: Faults): Tables {
    var chat := FindChat(t, jid, KindFromJID(jid), f.chatGet);
    PutChat(t, jid, chat.(lastMsgAt := Some(ts), kind := OrKind(chat.kind, KindFromJID(jid))), f.chatPut)
  }

  function TextRow(chat: string, text: string, replyTo: string, sent: Sent): Message {
    Message(chat, sent.sender, sent.ts, "text", text, replyTo, None, None)
  }

  function SendsText(s: State, chat: string, text: string, replyTo: string, sent: Option<Sent>, f: Faults): State {
    if sent.None? then s
    else
      var t := PutMessage(s.t, sent.value.id, TextRow(chat, text, replyTo, sent.value), f.messagePut);
      s.(t := TouchChat(t, chat, sent.value.ts, f))
  }

  function MediaRow(chat: string, kind: string, text: string, sent: Sent): Message {
    Message(chat, sent.sender, sent.ts, kind, text, "", None, None)
  }

  function SendsMedia(h: Digest, root: string, s: State, chat: string, kind: string, text: string, mime: string,
                      body: Bytes, sent: Option<Sent>, outcome: Outcome, f: Faults): State {
    if sent.None? then s
    else
      var path := PathOf(h, root, body, mime);
      var t := PutMessage(s.t, sent.value.id, MediaRow(chat, kind, text, sent.value), f.messagePut);
      var t' := if Succeeds(s.files, path, body, outcome)
                then PutMedia(t, sent.value.id, RefFor(h, root, body, mime), f.media) else t;
      s.(files := WriteFiles(s.files, path, body, outcome), t := TouchChat(t', chat, sent.value.ts, f))
  }

  /** The checks EditMessage and DeleteMessage share: the row exists, is ours and is not deleted. */
  function OwnRow(t: Tables, id: string, own: Option<string>, f: Faults): Result<Message, Failure> {
    if f.messageGet || id !in t.messages then Err(Lookup)
    else if own != Some(t.messages[id].sender) || t.messages[id].deletedAt.Some? then Err(Forbidden)
    else Ok(t.messages[id])
  }

  function EditReply(t: Tables, id: string, text: string, own: Option<string>, sentAt: Option<int>, f: Faults)
    : Result<Message, Failure>
  {
    var row := OwnRow(t, id, own, f);
    if row.Err? then row
    else if sentAt.None? then Err(Network)
    else Ok(Edited(row.value, text, sentAt.value))
  }

  function EditOwn(s: State, id: string, text: string, own: Option<string>, sentAt: Option<int>, f: Faults): State {
    var reply := EditReply(s.t, id, text, own, sentAt, f);
    if reply.Err? then s else s.(t := PutMessage(s.t, id, reply.value, f.messagePut))
  }

  function DeleteReply(t: Tables, id: string, own: Option<string>, revoked: bool, f: Faults): Result<(), Failure> {
    var row := OwnRow(t, id, own, f);
    if row.Err? then Err(row.error) else if !revoked then Err(Network) else Ok(())
  }

  function DeleteOwn(s: State, id: string, own: Option<string>, revoked: bool, now: int, f: Faults): State {
    if DeleteReply(s.t, id, own, revoked, f).Err? then s else s.(t := SoftDelete(s.t, id, now, f.softDelete))
  }

  function OrEmpty(own: Option<string>): string {
    if own.None? then "" else own.value
  }

  function ReactOwn(s: State, id: string, emoji: string, own: Option<string>, reacted: bool, now: int,
                    f: Faults): State {
    if f.messageGet || id !in s.t.messages || !reacted then s
    else if emoji == "" then s.(t := DeleteReaction(s.t, (id, OrEmpty(own)), f.reaction))
    else s.(t := PutReaction(s.t, (id, OrEmpty(own)), Reaction(emoji, now), f.reaction))
  }

  /** A mark-read takes one off the chat's count, if there is one to take. */
  predicate MarkReadCounts(s: State, id: string, marked: bool, f: Faults) {
    && !f.messageGet && id in s.t.messages && marked
    && !f.chatGet && s.t.messages[id].chat in s.t.chats
    && s.t.chats[s.t.messages[id].chat].unread > 0
  }

  function MarksRead(s: State, id: string, marked: bool, f: Faults): State {
    if MarkReadCounts(s, id, marked, f) then
      var jid := s.t.messages[id].chat;
      var chat := s.t.chats[jid];
      s.(t := PutChat(s.t, jid, chat.(unread := chat.unread - 1), f.chatPut))
    else s
  }

  function CreatesGroup(s: State, group: Option<(string, string)>, now: int, f: Faults): State {
    if group.None? then s
    else s.(t := PutChat(s.t, group.value.0, Chat(group.value.1, "group", Some(now), 0, false), f.chatPut))
  }

  // ---------------------------------------------------------------- runs

  function Next(h: Digest, root: string, s: State, op: Op): State {
    match op
    case Receive(m, f) => ReceiveAny(s, m, f)
    case ReceiveReceipt(ids, reader, kind, ts, rejects, f) => HandleReceipt(s, ids, reader, kind, ts, rejects, f)
    case SendText(chat, text, replyTo, sent, f) => SendsText(s, chat, text, replyTo, sent, f)
    case SendMedia(chat, kind, text, mime, body, sent, outcome, f) =>
      SendsMedia(h, root, s, chat, kind, text, mime, body, sent, outcome, f)
    case Download(message, fetched, outcome, f) => DownloadMedia(h, root, s, message, fetched, outcome, f)
    case Edit(id, text, own, sentAt, f) => EditOwn(s, id, text, own, sentAt, f)
    case Delete(id, own, revoked, now, f) => DeleteOwn(s, id, own, revoked, now, f)
    case React(id, emoji, own, reacted, now, f) => ReactOwn(s, id, emoji, own, reacted, now, f)
    case MarkRead(id, marked, f) => MarksRead(s, id, marked, f)
    case CreateGroup(group, now, f) => CreatesGroup(s, group, now, f)
    case Connection(status, reason, f) => s.(log := Emit(s.log, ConnectionChanged(status, reason), f.append))
    case CrashInWrite(body, mime, written) =>
      s.(files := WriteFiles(s.files, PathOf(h, root, body, mime), body, WriteFailed(written)))
  }

  function Run(h: Digest, root: string, s: State, ops: seq<Op>): State {
    if ops == [] then s else Next(h, root, Run(h, root, s, ops[..|ops| - 1]), ops[|ops| - 1])
  }

  // ---------------------------------------------------------------- integrity over runs

  lemma {:induction false} ReceiptRowsFrame(t: Tables, ids: seq<string>, reader: string, kind: string, ts: int,
                                            rejects: set<nat>)
    ensures
      var t' := ReceiptRows(t, ids, reader, kind, ts, rejects);
      t'.chats == t.chats && t'.messages == t.messages && t'.reactions == t.reactions && t'.media == t.media
  {
    if ids != [] { ReceiptRowsFrame(t, ids[..|ids| - 1], reader, kind, ts, rejects); }
  }

  /** Every listed id of a known message that the database did not reject has its receipt
      afterwards, with this timestamp, and no other receipt changes. */
  lemma {:induction false} ReceiptRowsExactly(t: Tables, ids: seq<string>, reader: string, kind: string, ts: int,
                                              rejects: set<nat>, key: ReceiptKey)
    ensures
      var t' := ReceiptRows(t, ids, reader, kind, ts, rejects);
      var stored := key.1 == reader && key.2 == kind && key.0 in t.messages
        && exists i | 0 <= i < |ids| :: i !in rejects && ids[i] == key.0;
      && (key in t'.receipts <==> stored || key in t.receipts)
      && (key in t'.receipts ==> t'.receipts[key] == if stored then ts else t.receipts[key])
  {
    hide Sound;
    if ids != [] {
      var n := |ids| - 1;
      ReceiptRowsExactly(t, ids[..n], reader, kind, ts, rejects, key);
      ReceiptRowsFrame(t, ids[..n], reader, kind, ts, rejects);
      assert forall i | 0 <= i < n :: ids[..n][i] == ids[i];
    }
  }

  lemma {:induction false} ReceiptRowsSound(t: Tables, ids: seq<string>, reader: string, kind: string, ts: int,
                                            rejects: set<nat>)
    ensures Sound(t, ReceiptRows(t, ids, reader, kind, ts, rejects))
  {
    hide Referenced, PutReceipt;
    if ids != [] {
      var n := |ids| - 1;
      var t' := ReceiptRows(t, ids[..n], reader, kind, ts, rejects);
      ReceiptRowsSound(t, ids[..n], reader, kind, ts, rejects);
      SoundCompose(t, t', PutReceipt(t', (ids[n], reader, kind), ts, n in rejects));
    }
  }

  lemma {:induction false} ReceiveSound(s: State, m: Incoming, f: Faults)
    ensures Sound(s.t, ReceiveAny(s, m, f).t)
  {
    hide Sound, PutChat, PutMessage, SoftDelete, PutReaction, DeleteReaction;
    SoundSame(s.t);
    var t := PutChat(s.t, m.chat, NormalChat(s.t, m, f), f.chatPut);
    SoundCompose(s.t, t, PutMessage(t, m.id, NormalRow(m), f.messagePut));
  }

  lemma {:induction false} SendSound(h: Digest, root: string, s: State, op: Op)
    requires op.SendText? || op.SendMedia?
    ensures Sound(s.t, Next(h, root, s, op).t)
  {
    hide Sound, PutChat, PutMessage, PutMedia, PathOf, WriteFiles, Succeeds, KindFromJID;
    SoundSame(s.t);
    if op.sent.Some? {
      var sent := op.sent.value;
      var row := SentRow(op);
      var t := PutMessage(s.t, sent.id, row, op.f.messagePut);
      SoundCompose(s.t, t, TouchChat(t, op.chat, sent.ts, op.f));
      if op.SendMedia? {
        var t' := PutMedia(t, sent.id, RefFor(h, root, op.body, op.mime), op.f.media);
        SoundCompose(s.t, t, t');
        SoundCompose(s.t, t', TouchChat(t', op.chat, sent.ts, op.f));
      }
    }
  }

  function SentRow(op: Op): Message
    requires (op.SendText? || op.SendMedia?) && op.sent.Some?
  {
    if op.SendText? then TextRow(op.chat, op.text, op.replyTo, op.sent.value)
    else MediaRow(op.chat, op.kind, op.text, op.sent.value)
  }

  /** Both sends write one message row, and leave reactions and log alone. */
  lemma {:induction false} SendsWriteOneRow(h: Digest, root: string, s: State, op: Op)
    requires op.SendText? || op.SendMedia?
    ensures Next(h, root, s, op).t.messages ==
      if op.sent.None? then s.t.messages
      else PutMessage(s.t, op.sent.value.id, SentRow(op), op.f.messagePut).messages
    ensures Next(h, root, s, op).t.reactions == s.t.reactions && Next(h, root, s, op).log == s.log
  {
    hide KindFromJID, Sound, PathOf, WriteFiles, Succeeds, RefFor;
  }

  /** No sequence of calls and faults leaves a row without its parent, or loses a chat, message,
      receipt or media row. */
  lemma {:induction false} StepIsSound(h: Digest, root: string, s: State, op: Op)
    ensures Sound(s.t, Next(h, root, s, op).t)
  {
    SoundSame(s.t);
    match op
    case Receive(m, f) => ReceiveSound(s, m, f);
    case ReceiveReceipt(ids, reader, kind, ts, rejects, _) => ReceiptRowsSound(s.t, ids, reader, kind, ts, rejects);
    case SendText(_, _, _, _, _) => SendSound(h, root, s, op);
    case SendMedia(_, _, _, _, _, _, _, _) => SendSound(h, root, s, op);
    case _ =>
      hide Sound, PutChat, PutMessage, SoftDelete, PutReaction, DeleteReaction, PutMedia, PathOf, WriteFiles, Succeeds;
  }

  lemma {:induction false} RunKeepsReferences(h: Digest, root: string, ops: seq<Op>)
    ensures Referenced(Run(h, root, INIT, ops).t)
  {
    if ops != [] {
      RunKeepsReferences(h, root, ops[..|ops| - 1]);
      StepIsSound(h, root, Run(h, root, INIT, ops[..|ops| - 1]), ops[|ops| - 1]);
    }
  }

  // ---------------------------------------------------------------- the first send to a chat

  /** SendText writes the message before the chat, so the row of a message the network accepted
      is stored exactly when the chat was known beforehand; the chat row is there either way. */
  lemma {:induction false} FirstTextIsNotStored(h: Digest, root: string, s: State, chat: string, text: string,
                                                replyTo: string, sent: Sent)
    requires sent.id !in s.t.messages
    ensures
      var s' := Next(h, root, s, SendText(chat, text, replyTo, Some(sent), NO_FAULTS));
      && (sent.id in s'.t.messages <==> chat in s.t.chats)
      && chat in s'.t.chats && s'.t.chats[chat].lastMsgAt == Some(sent.ts)
      && s'.log == s.log
  {
    hide KindFromJID;
  }

  /** The same for SendMedia: without the chat the file is on disk but neither the message nor
      its media row exists. */
  lemma {:induction false} FirstMediaIsNotStored(h: Digest, root: string, s: State, chat: string, kind: string,
                                                 text: string, mime: string, body: Bytes, sent: Sent)
    requires sent.id !in s.t.messages && sent.id !in s.t.media
    ensures
      var s' := Next(h, root, s, SendMedia(chat, kind, text, mime, body, Some(sent), Stored, NO_FAULTS));
      && (sent.id in s'.t.messages <==> chat in s.t.chats)
      && (sent.id in s'.t.media <==> chat in s.t.chats)
      && chat in s'.t.chats && PathOf(h, root, body, mime) in s'.files
  {
    hide KindFromJID, PathOf;
  }
}
