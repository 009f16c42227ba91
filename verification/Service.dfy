/** The service itself: handlers and calls that read and write the stores, the media directory and
    the events log, each proved to make the step of `ServiceSteps` with the same inputs. */
module Service {
  import opened Wrappers
  import opened Store
  import opened ServiceSteps
  import opened EventLog
  import M = MediaStore
  import E = Emitter

  function KindOf(e: Entry): string {
    match e
    case MessageReceived(_, _, _, _, _, _) => "message.received"
    case MessageEdited(_, _, _) => "message.edited"
    case MessageDeleted(_, _) => "message.deleted"
    case ReactionReceived(_, _, _, _) => "reaction.received"
    case ReceiptReceived(_, _, _, _) => "receipt.received"
    case ConnectionChanged(_, _) => "connection.state"
  }

  /** What the moment of an append decides: the clock, which some payloads show, and the number of
      ids the database leaves out. */
  datatype Moment = Moment(clock: int, skipped: nat)

  /** The rows are these entries, each encoded at some time, in order. */
  ghost predicate Encodes(encode: (Entry, int) -> string, rows: seq<Event>, entries: seq<Entry>) {
    && |rows| == |entries|
    && (forall i | 0 <= i < |rows| ::
          rows[i].kind == KindOf(entries[i]) && exists clock :: rows[i].payload == encode(entries[i], clock))
  }

  /** The log gained one row of this name, or none. */
  ghost predicate Announced(before: seq<Event>, after: seq<Event>, name: string) {
    after == before || (|after| == |before| + 1 && before <= after && after[|before|].kind == name)
  }

  lemma {:induction false} AnyReceiptSnoc(t: Tables, ids: seq<string>, i: nat, rejects: set<nat>)
    requires i < |ids|
    ensures AnyReceipt(t, ids[..i + 1], rejects) <==>
      AnyReceipt(t, ids[..i], rejects) || (i !in rejects && ids[i] in t.messages)
  {
    var all, before := ids[..i + 1], ids[..i];
    if AnyReceipt(t, before, rejects) {
      var k :| 0 <= k < |before| && k !in rejects && before[k] in t.messages;
      assert all[k] == before[k];
    }
    if i !in rejects && ids[i] in t.messages { assert all[i] == ids[i]; }
    if AnyReceipt(t, all, rejects) {
      var k :| 0 <= k < |all| && k !in rejects && all[k] in t.messages;
      assert k < i ==> before[k] == all[k];
    }
  }

  class Service {
    const bundle: Bundle
    const mediaStore: M.MediaStore
    const emitter: E.Emitter
    const encode: (Entry, int) -> string
    ghost var entries: seq<Entry>

    constructor (bundle: Bundle, mediaStore: M.MediaStore, emitter: E.Emitter, encode: (Entry, int) -> string)
      requires bundle.View() == EMPTY && mediaStore.files == map[] && M.HexDigest(mediaStore.digest)
      requires emitter.Valid() && emitter.log.rows == []
      ensures this.bundle == bundle && this.mediaStore == mediaStore && this.emitter == emitter
      ensures this.encode == encode
      ensures Valid() && View() == INIT
    {
      this.bundle, this.mediaStore, this.emitter, this.encode := bundle, mediaStore, emitter, encode;
      entries := [];
    }

    ghost function View(): State
      reads this, bundle, mediaStore
    {
      State(bundle.View(), mediaStore.files, entries)
    }

    ghost predicate LogValid()
      reads this, emitter, emitter.Footprint()
    {
      emitter.Valid() && Encodes(encode, emitter.log.rows, entries)
    }

    ghost predicate Valid()
      reads this, mediaStore, emitter, emitter.Footprint()
    {
      && LogValid()
      && M.HexDigest(mediaStore.digest) && M.FilesNamed(mediaStore.digest, mediaStore.root, mediaStore.files)
    }

    /** Append the encoded entry and publish it, as the Emitter does. */
    method Emit(e: Entry, at: Moment, fails: bool)
      requires LogValid()
      modifies this`entries, emitter.Footprint()
      ensures LogValid() && emitter.Footprint() == old(emitter.Footprint())
      ensures entries == ServiceSteps.Emit(old(entries), e, fails)
      ensures Announced(old(emitter.log.rows), emitter.log.rows, KindOf(e))
    {
      emitter.Emit(KindOf(e), encode(e, at.clock), at.skipped, fails);
      if !fails {
        entries := entries + [e];
      }
    }

    // -------------------------------------------------------------- inbound

    method HandleIncoming(m: Incoming, f: Faults, at: Moment)
      requires Valid()
      modifies this`entries, bundle, emitter.Footprint()
      ensures Valid() && emitter.Footprint() == old(emitter.Footprint())
      ensures View() == ReceiveAny(old(View()), m, f)
    {
      if m.reactionTarget != "" {
        HandleReaction(m, f, at);
      } else if m.revokeOf != "" {
        HandleRevoke(m, f, at);
      } else if m.editOf != "" {
        HandleEdit(m, f, at);
      } else {
        HandleNormal(m, f, at);
      }
    }

    method HandleReaction(m: Incoming, f: Faults, at: Moment)
      requires LogValid()
      modifies this`entries, bundle, emitter.Footprint()
      ensures LogValid() && emitter.Footprint() == old(emitter.Footprint())
      ensures View() == ReceiveReaction(old(View()), m, f)
      ensures Announced(old(emitter.log.rows), emitter.log.rows, "reaction.received")
    {
      hide Sound, Encodes, PutReaction, DeleteReaction, ChildAccepted;
      var persisted;
      if m.reactionEmoji == "" {
        persisted := bundle.ReactionDelete((m.reactionTarget, m.sender), f.reaction);
      } else {
        persisted := bundle.ReactionPut((m.reactionTarget, m.sender), Reaction(m.reactionEmoji, m.ts), f.reaction);
      }
      if persisted {
        Emit(ReactionReceived(m.reactionTarget, m.sender, m.reactionEmoji, m.ts), at, f.append);
      }
    }

    method HandleRevoke(m: Incoming, f: Faults, at: Moment)
      requires LogValid()
      modifies this`entries, bundle, emitter.Footprint()
      ensures LogValid() && emitter.Footprint() == old(emitter.Footprint())
      ensures View() == ReceiveRevoke(old(View()), m, f)
      ensures Announced(old(emitter.log.rows), emitter.log.rows, "message.deleted")
    {
      hide Sound;
      var ok := bundle.MessageSoftDelete(m.revokeOf, m.ts, f.softDelete);
      if !ok {
        return;
      }
      Emit(MessageDeleted(m.revokeOf, m.chat), at, f.append);
    }

    method HandleEdit(m: Incoming, f: Faults, at: Moment)
      requires LogValid()
      modifies this`entries, bundle, emitter.Footprint()
      ensures LogValid() && emitter.Footprint() == old(emitter.Footprint())
      ensures View() == ReceiveEdit(old(View()), m, f)
      ensures Announced(old(emitter.log.rows), emitter.log.rows, "message.edited")
    {
      hide Sound, Encodes, PutMessage, MessageAccepted;
      var existing := bundle.MessageGet(m.editOf, f.messageGet);
      if existing.None? {
        return;
      }
      var row := existing.value.(body := m.body, editedAt := Some(m.ts));
      var ok := bundle.MessagePut(m.editOf, row, f.messagePut);
      if !ok {
        return;
      }
      Emit(MessageEdited(m.editOf, m.chat, m.body), at, f.append);
    }

    method HandleNormal(m: Incoming, f: Faults, at: Moment)
      requires LogValid()
      modifies this`entries, bundle, emitter.Footprint()
      ensures LogValid() && emitter.Footprint() == old(emitter.Footprint())
      ensures View() == ReceiveNormal(old(View()), m, f)
      ensures Announced(old(emitter.log.rows), emitter.log.rows, "message.received")
    {
      hide Sound, PutChat, PutMessage, NormalChat, Encodes, MessageAccepted;
      CountUnread(m, f);
      var ok := bundle.MessagePut(m.id, Message(m.chat, m.sender, m.ts, m.kind, m.body, "", None, None), f.messagePut);
      if !ok {
        return;
      }
      Emit(MessageReceived(m.id, m.chat, m.sender, m.kind, m.body, m.ts), at, f.append);
    }

    /** The chat row of a normal message: one more unread. */
    method CountUnread(m: Incoming, f: Faults)
      modifies bundle`chats
      ensures bundle.View() == PutChat(old(bundle.View()), m.chat, NormalChat(old(bundle.View()), m, f), f.chatPut)
    {
      hide Sound;
      var found := bundle.ChatGet(m.chat, f.chatGet);
      var chat := if found.None? then Chat("", m.chatKind, None, 0, false) else found.value;
      chat := chat.(lastMsgAt := Some(m.ts), unread := chat.unread + 1);
      if chat.kind == "" {
        chat := chat.(kind := m.chatKind);
      }
      bundle.ChatPut(m.chat, chat, f.chatPut);
    }

    method HandleReceiptEvent(ids: seq<string>, reader: string, kind: string, ts: int, rejects: set<nat>, f: Faults,
                              at: Moment)
      requires Valid()
      modifies this`entries, bundle, emitter.Footprint()
      ensures Valid() && emitter.Footprint() == old(emitter.Footprint())
      ensures View() == HandleReceipt(old(View()), ids, reader, kind, ts, rejects, f)
      ensures Announced(old(emitter.log.rows), emitter.log.rows, "receipt.received")
    {
      hide ReceiptRows, AnyReceipt, Encodes;
      var anyPersisted := PutReceipts(ids, reader, kind, ts, rejects);
      if anyPersisted {
        Emit(ReceiptReceived(ids, reader, kind, ts), at, f.append);
      }
    }

    /** The loop of handleReceipt: a rejected row does not stop the ones after it. */
    method PutReceipts(ids: seq<string>, reader: string, kind: string, ts: int,
                       rejects: set<nat>) returns (anyPersisted: bool)
      modifies bundle
      ensures bundle.View() == ReceiptRows(old(bundle.View()), ids, reader, kind, ts, rejects)
      ensures anyPersisted <==> AnyReceipt(old(bundle.View()), ids, rejects)
    {
      hide Sound;
      ghost var t := bundle.View();
      anyPersisted := false;
      var i := 0;
      while i < |ids|
        invariant 0 <= i <= |ids|
        invariant bundle.View() == ReceiptRows(t, ids[..i], reader, kind, ts, rejects)
        invariant anyPersisted <==> AnyReceipt(t, ids[..i], rejects)
      {
        ReceiptRowsFrame(t, ids[..i], reader, kind, ts, rejects);
        AnyReceiptSnoc(t, ids, i, rejects);
        assert ids[..i + 1][..i] == ids[..i];
        var ok := bundle.ReceiptPut((ids[i], reader, kind), ts, i in rejects);
        if ok {
          anyPersisted := true;
        }
        i := i + 1;
      }
      assert ids[..i] == ids;
    }

    /** The connection-state callback. */
    method OnConnectionState(status: string, reason: string, f: Faults, at: Moment)
      requires Valid()
      modifies this`entries, emitter.Footprint()
      ensures Valid() && emitter.Footprint() == old(emitter.Footprint())
      ensures View() ==
        old(View()).(log := ServiceSteps.Emit(old(View().log), ConnectionChanged(status, reason), f.append))
      ensures Announced(old(emitter.log.rows), emitter.log.rows, "connection.state")
      ensures if f.append then entries == old(entries)
              else |entries| > 0 && entries[|entries| - 1].ConnectionChanged?
                   && entries[|entries| - 1].status == status && entries[|entries| - 1].reason == reason
    {
      hide Encodes;
      Emit(ConnectionChanged(status, reason), at, f.append);
    }

    method DownloadAndPersistMedia(message: string, fetched: Option<(M.Bytes, string)>, outcome: M.Outcome, f: Faults)
      requires Valid()
      modifies bundle, mediaStore
      ensures Valid()
      ensures View() == DownloadMedia(mediaStore.digest, mediaStore.root, old(View()), message, fetched, outcome, f)
    {
      hide Sound, M.PathOf, M.WriteFiles, M.Succeeds;
      if fetched.None? {
        return;
      }
      var (body, mime) := fetched.value;
      var written := mediaStore.Write(body, mime, outcome);
      if written.Err? {
        return;
      }
      var (sha, path) := written.value;
      var _ := bundle.MediaPut(message, MediaRef(mime, |body|, sha, path), f.media);
    }

    // -------------------------------------------------------------- outbound

    method SendText(chat: string, text: string, replyTo: string, sent: Option<Sent>, f: Faults)
      returns (r: Result<Message, Failure>)
      modifies bundle
      ensures View() == SendsText(old(View()), chat, text, replyTo, sent, f)
      ensures r == if sent.None? then Err(Network) else Ok(TextRow(chat, text, replyTo, sent.value))
      ensures r.Ok? ==>
        && r.value.chat == chat && r.value.sender == sent.value.sender && r.value.ts == sent.value.ts
        && r.value.kind == "text" && r.value.body == text && r.value.replyTo == replyTo
    {
      hide Sound, KindFromJID;
      if sent.None? {
        return Err(Network);
      }
      var msg := Message(chat, sent.value.sender, sent.value.ts, "text", text, replyTo, None, None);
      var _ := bundle.MessagePut(sent.value.id, msg, f.messagePut);
      UpsertChat(chat, sent.value.ts, f);
      r := Ok(msg);
    }

    /** The last step of both sends: read the chat, or start a new one, and write it back. */
    method UpsertChat(jid: string, ts: int, f: Faults)
      modifies bundle`chats
      ensures bundle.View() == TouchChat(old(bundle.View()), jid, ts, f)
    {
      hide Sound, KindFromJID;
      var found := bundle.ChatGet(jid, f.chatGet);
      var chat := if found.None? then Chat("", KindFromJID(jid), None, 0, false) else found.value;
      chat := chat.(lastMsgAt := Some(ts));
      if chat.kind == "" {
        chat := chat.(kind := KindFromJID(jid));
      }
      bundle.ChatPut(jid, chat, f.chatPut);
    }

    method SendMedia(chat: string, kind: string, text: string, mime: string, body: M.Bytes, sent: Option<Sent>,
                     outcome: M.Outcome, f: Faults)
      returns (r: Result<Message, Failure>)
      requires Valid()
      modifies bundle, mediaStore
      ensures Valid()
      ensures View() ==
        SendsMedia(mediaStore.digest, mediaStore.root, old(View()), chat, kind, text, mime, body, sent, outcome, f)
      ensures r == if sent.None? then Err(Network) else Ok(MediaRow(chat, kind, text, sent.value))
      ensures r.Ok? ==>
        && r.value.chat == chat && r.value.sender == sent.value.sender && r.value.ts == sent.value.ts
        && r.value.kind == kind && r.value.body == text
    {
      hide Sound, KindFromJID, M.PathOf, M.WriteFiles, M.Succeeds, PutMessage, PutMedia, TouchChat;
      if sent.None? {
        return Err(Network);
      }
      var written := mediaStore.Write(body, mime, outcome);
      var msg := Message(chat, sent.value.sender, sent.value.ts, kind, text, "", None, None);
      var _ := bundle.MessagePut(sent.value.id, msg, f.messagePut);
      if written.Ok? {
        var (sha, path) := written.value;
        var _ := bundle.MediaPut(sent.value.id, MediaRef(mime, |body|, sha, path), f.media);
      }
      UpsertChat(chat, sent.value.ts, f);
      r := Ok(msg);
    }

    method EditMessage(id: string, text: string, own: Option<string>, sentAt: Option<int>, f: Faults)
      returns (r: Result<Message, Failure>)
      modifies bundle`messages
      ensures View() == EditOwn(old(View()), id, text, own, sentAt, f)
      ensures r == EditReply(old(View()).t, id, text, own, sentAt, f)
      ensures r == Err(Lookup) <==> f.messageGet || id !in old(bundle.messages)
      ensures r != Err(Lookup) ==>
        var row := old(bundle.messages)[id];
        && (r == Err(Forbidden) <==> own != Some(row.sender) || row.deletedAt != None)
        && (r.Ok? <==> own == Some(row.sender) && row.deletedAt == None && sentAt.Some?)
        && (r.Ok? ==> r.value == row.(body := text, editedAt := sentAt))
    {
      hide Sound;
      var existing := bundle.MessageGet(id, f.messageGet);
      if existing.None? {
        return Err(Lookup);
      }
      var row := existing.value;
      if own != Some(row.sender) {
        return Err(Forbidden);
      }
      if row.deletedAt.Some? {
        return Err(Forbidden);
      }
      if sentAt.None? {
        return Err(Network);
      }
      row := row.(body := text, editedAt := sentAt);
      var _ := bundle.MessagePut(id, row, f.messagePut);
      r := Ok(row);
    }

    method DeleteMessage(id: string, own: Option<string>, revoked: bool, now: int, f: Faults)
      returns (r: Result<(), Failure>)
      modifies bundle`messages
      ensures View() == DeleteOwn(old(View()), id, own, revoked, now, f)
      ensures r == DeleteReply(old(View()).t, id, own, revoked, f)
      ensures r == Err(Lookup) <==> f.messageGet || id !in old(bundle.messages)
      ensures r != Err(Lookup) ==>
        var row := old(bundle.messages)[id];
        && (r == Err(Forbidden) <==> own != Some(row.sender) || row.deletedAt != None)
        && (r.Ok? <==> own == Some(row.sender) && row.deletedAt == None && revoked)
    {
      hide Sound;
      var existing := bundle.MessageGet(id, f.messageGet);
      if existing.None? {
        return Err(Lookup);
      }
      if own != Some(existing.value.sender) {
        return Err(Forbidden);
      }
      if existing.value.deletedAt.Some? {
        return Err(Forbidden);
      }
      if !revoked {
        return Err(Network);
      }
      var _ := bundle.MessageSoftDelete(id, now, f.softDelete);
      r := Ok(());
    }

    method SendReaction(id: string, emoji: string, own: Option<string>, reacted: bool, now: int, f: Faults)
      returns (r: Result<(), Failure>)
      modifies bundle`reactions
      ensures View() == ReactOwn(old(View()), id, emoji, own, reacted, now, f)
      ensures r.Ok? <==> !f.messageGet && id in old(bundle.messages) && reacted
    {
      hide Sound;
      var existing := bundle.MessageGet(id, f.messageGet);
      if existing.None? {
        return Err(Lookup);
      }
      if !reacted {
        return Err(Network);
      }
      var ours := if own.None? then "" else own.value;
      if emoji == "" {
        var _ := bundle.ReactionDelete((id, ours), f.reaction);
        return Ok(());
      }
      var _ := bundle.ReactionPut((id, ours), Reaction(emoji, now), f.reaction);
      r := Ok(());
    }

    method MarkMessageRead(id: string, marked: bool, f: Faults) returns (r: Result<(), Failure>)
      modifies bundle`chats
      ensures View() == MarksRead(old(View()), id, marked, f)
      ensures r.Ok? <==> !f.messageGet && id in bundle.messages && marked
    {
      hide Sound;
      var existing := bundle.MessageGet(id, f.messageGet);
      if existing.None? {
        return Err(Lookup);
      }
      if !marked {
        return Err(Network);
      }
      var chat := bundle.ChatGet(existing.value.chat, f.chatGet);
      if chat.Some? && chat.value.unread > 0 {
        bundle.ChatPut(existing.value.chat, chat.value.(unread := chat.value.unread - 1), f.chatPut);
      }
      r := Ok(());
    }

    method CreateGroup(group: Option<(string, string)>, now: int,
                       f: Faults) returns (r: Result<(string, string), Failure>)
      modifies bundle`chats
      ensures View() == CreatesGroup(old(View()), group, now, f)
      ensures r == if group.None? then Err(Network) else Ok(group.value)
    {
      hide Sound;
      if group.None? {
        return Err(Network);
      }
      bundle.ChatPut(group.value.0, Chat(group.value.1, "group", Some(now), 0, false), f.chatPut);
      r := Ok(group.value);
    }

    // -------------------------------------------------------------- any sequence of them

    /** One call or event; a crash in the middle of a file leaves what a failed write leaves. */
    method Perform(op: Op, at: Moment)
      requires Valid()
      modifies this`entries, bundle, mediaStore, emitter.Footprint()
      ensures Valid() && emitter.Footprint() == old(emitter.Footprint())
      ensures View() == Next(mediaStore.digest, mediaStore.root, old(View()), op)
    {
      hide ReceiveAny, HandleReceipt, Sound, Encodes, M.FilesNamed;
      match op {
        case Receive(m, f) => HandleIncoming(m, f, at);
        case ReceiveReceipt(ids, reader, kind, ts, rejects, f) =>
          HandleReceiptEvent(ids, reader, kind, ts, rejects, f, at);
        case Connection(status, reason, f) => OnConnectionState(status, reason, f, at);
        case _ => hide Next; PerformOwn(op);
      }
    }

    /** A call of the local user, a download, or a crash while a file is written. */
    method PerformOwn(op: Op)
      requires Valid() && !op.Receive? && !op.ReceiveReceipt? && !op.Connection?
      modifies bundle, mediaStore
      ensures Valid() && View() == Next(mediaStore.digest, mediaStore.root, old(View()), op)
    {
      hide SendsText, SendsMedia, DownloadMedia, EditOwn, DeleteOwn, ReactOwn, MarksRead, CreatesGroup;
      hide M.WriteFiles, M.Succeeds, M.PathOf, Sound, Encodes, M.FilesNamed;
      match op {
        case SendText(chat, text, replyTo, sent, f) => var _ := SendText(chat, text, replyTo, sent, f);
        case SendMedia(chat, kind, text, mime, body, sent, outcome, f) =>
          var _ := SendMedia(chat, kind, text, mime, body, sent, outcome, f);
        case Download(message, fetched, outcome, f) => DownloadAndPersistMedia(message, fetched, outcome, f);
        case Edit(id, text, own, sentAt, f) => var _ := EditMessage(id, text, own, sentAt, f);
        case Delete(id, own, revoked, now, f) => var _ := DeleteMessage(id, own, revoked, now, f);
        case React(id, emoji, own, reacted, now, f) => var _ := SendReaction(id, emoji, own, reacted, now, f);
        case MarkRead(id, marked, f) => var _ := MarkMessageRead(id, marked, f);
        case CreateGroup(group, now, f) => var _ := CreateGroup(group, now, f);
        case CrashInWrite(body, mime, written) => var _ := mediaStore.Write(body, mime, M.WriteFailed(written));
      }
    }

    /** Any sequence of calls and events takes the service through the run of its steps. */
    method PerformAll(ops: seq<Op>, at: nat -> Moment)
      requires Valid()
      modifies this`entries, bundle, mediaStore, emitter.Footprint()
      ensures Valid() && emitter.Footprint() == old(emitter.Footprint())
      ensures View() == Run(mediaStore.digest, mediaStore.root, old(View()), ops)
    {
      hide Next;
      ghost var start := View();
      var i := 0;
      while i < |ops|
        invariant 0 <= i <= |ops|
        invariant Valid() && emitter.Footprint() == old(emitter.Footprint())
        invariant View() == Run(mediaStore.digest, mediaStore.root, start, ops[..i])
      {
        assert ops[..i + 1][..i] == ops[..i];
        Perform(ops[i], at(i));
        i := i + 1;
      }
      assert ops[..i] == ops;
    }
  }
}
