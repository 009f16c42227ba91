/** Folding the events log rebuilds the message and reaction tables, except where the service
    changes a row without announcing it. */
module LogFold {
  import opened Wrappers
  import opened Store
  import MediaStore
  import opened ServiceSteps

  /** What the log says about a message. */
  datatype Row = Row(chat: string, sender: string, kind: string, body: string, deleted: bool)

  datatype Replica = Replica(messages: map<string, Row>, reactions: map<ReactionKey, string>)

  /** What a client following the log does with one entry. */
  function Follow(r: Replica, e: Entry): Replica {
    match e
    case MessageReceived(id, chat, sender, kind, body, _) =>
      r.(messages := r.messages[id := Row(chat, sender, kind, body, false)])
    case MessageEdited(id, _, body) =>
      if id in r.messages then r.(messages := r.messages[id := r.messages[id].(body := body)]) else r
    case MessageDeleted(id, _) =>
      if id in r.messages then r.(messages := r.messages[id := r.messages[id].(deleted := true)]) else r
    case ReactionReceived(target, sender, emoji, _) =>
      if emoji == "" then r.(reactions := r.reactions - {(target, sender)})
      else r.(reactions := r.reactions[(target, sender) := emoji])
    case ReceiptReceived(_, _, _, _) => r
    case ConnectionChanged(_, _) => r
  }

  function Fold(log: seq<Entry>): Replica {
    if log == [] then Replica(map[], map[]) else Follow(Fold(log[..|log| - 1]), log[|log| - 1])
  }

  // ---------------------------------------------------------------- agreement, key by key

  function TableRow(t: Tables, id: string): Option<Row> {
    if id !in t.messages then None
    else
      var m := t.messages[id];
      Some(Row(m.chat, m.sender, m.kind, m.body, m.deletedAt.Some?))
  }

  function TableEmoji(t: Tables, key: ReactionKey): Option<string> {
    if key in t.reactions then Some(t.reactions[key].emoji) else None
  }

  function ReplicaRow(r: Replica, id: string): Option<Row> {
    if id in r.messages then Some(r.messages[id]) else None
  }

  function ReplicaEmoji(r: Replica, key: ReactionKey): Option<string> {
    if key in r.reactions then Some(r.reactions[key]) else None
  }

  predicate RowAgrees(s: State, id: string) {
    ReplicaRow(Fold(s.log), id) == TableRow(s.t, id)
  }

  predicate EmojiAgrees(s: State, key: ReactionKey) {
    ReplicaEmoji(Fold(s.log), key) == TableEmoji(s.t, key)
  }

  /** The tables changed at a key in a step that logged nothing. */
  predicate SilentRow(s: State, s': State, id: string) {
    s'.log == s.log && TableRow(s'.t, id) != TableRow(s.t, id)
  }

  predicate SilentEmoji(s: State, s': State, key: ReactionKey) {
    s'.log == s.log && TableEmoji(s'.t, key) != TableEmoji(s.t, key)
  }

  lemma {:induction false} FoldSnoc(log: seq<Entry>, e: Entry)
    ensures Fold(log + [e]) == Follow(Fold(log), e)
  {
    assert (log + [e])[..|log|] == log;
  }

  /** A step that logs an entry changes the tables at every key exactly as following that entry
      changes a replica which agreed there before. */
  ghost predicate Announces(s: State, s': State, id: string, key: ReactionKey) {
    s'.log != s.log ==>
      exists e ::
        && s'.log == s.log + [e]
        && (ReplicaRow(Fold(s.log), id) == TableRow(s.t, id) ==>
              ReplicaRow(Follow(Fold(s.log), e), id) == TableRow(s'.t, id))
        && (ReplicaEmoji(Fold(s.log), key) == TableEmoji(s.t, key) ==>
              ReplicaEmoji(Follow(Fold(s.log), e), key) == TableEmoji(s'.t, key))
  }

  lemma {:induction false} NormalAnnounces(s: State, m: Incoming, f: Faults, id: string, key: ReactionKey)
    ensures Announces(s, ReceiveNormal(s, m, f), id, key)
  {
    hide Fold, NormalChat, Sound, Referenced;
    var e := MessageReceived(m.id, m.chat, m.sender, m.kind, m.body, m.ts);
    assert ReceiveNormal(s, m, f).log != s.log ==> ReceiveNormal(s, m, f).log == s.log + [e];
  }

  lemma {:induction false} ReactionAnnounces(s: State, m: Incoming, f: Faults, id: string, key: ReactionKey)
    ensures Announces(s, ReceiveReaction(s, m, f), id, key)
  {
    hide Fold, Sound, Referenced;
    var e := ReactionReceived(m.reactionTarget, m.sender, m.reactionEmoji, m.ts);
    assert ReceiveReaction(s, m, f).log != s.log ==> ReceiveReaction(s, m, f).log == s.log + [e];
  }

  lemma {:induction false} RevokeAnnounces(s: State, m: Incoming, f: Faults, id: string, key: ReactionKey)
    ensures Announces(s, ReceiveRevoke(s, m, f), id, key)
  {
    hide Fold, Sound, Referenced;
    var e := MessageDeleted(m.revokeOf, m.chat);
    assert ReceiveRevoke(s, m, f).log != s.log ==> ReceiveRevoke(s, m, f).log == s.log + [e];
  }

  lemma {:induction false} EditAnnounces(s: State, m: Incoming, f: Faults, id: string, key: ReactionKey)
    ensures Announces(s, ReceiveEdit(s, m, f), id, key)
  {
    hide Fold, Sound, Referenced;
    var e := MessageEdited(m.editOf, m.chat, m.body);
    assert ReceiveEdit(s, m, f).log != s.log ==> ReceiveEdit(s, m, f).log == s.log + [e];
  }

  lemma {:induction false} ReceiptAnnounces(s: State, op: Op, id: string, key: ReactionKey)
    requires op.ReceiveReceipt?
    ensures
      var s' := HandleReceipt(s, op.ids, op.reader, op.kind, op.ts, op.rejects, op.f);
      && Announces(s, s', id, key)
      && TableRow(s'.t, id) == TableRow(s.t, id) && TableEmoji(s'.t, key) == TableEmoji(s.t, key)
  {
    ReceiptRowsFrame(s.t, op.ids, op.reader, op.kind, op.ts, op.rejects);
    hide Fold, ReceiptRows, AnyReceipt;
    var s' := HandleReceipt(s, op.ids, op.reader, op.kind, op.ts, op.rejects, op.f);
    var e := ReceiptReceived(op.ids, op.reader, op.kind, op.ts);
    assert s'.log != s.log ==> s'.log == s.log + [e];
  }

  /** Calls of the local user and downloads log nothing at all. */
  predicate IsOwnCall(op: Op) {
    !op.Receive? && !op.ReceiveReceipt? && !op.Connection?
  }

  lemma {:induction false} OwnCallsLogNothing(h: MediaStore.Digest, root: string, s: State, op: Op)
    requires IsOwnCall(op)
    ensures Next(h, root, s, op).log == s.log
  {
    hide PutChat, PutMessage, SoftDelete, PutReaction, DeleteReaction, PutMedia, TouchChat;
    hide MediaStore.PathOf, MediaStore.WriteFiles, MediaStore.Succeeds;
  }

  lemma {:induction false} StepAnnounces(h: MediaStore.Digest, root: string, s: State, op: Op, id: string,
                                         key: ReactionKey)
    ensures Announces(s, Next(h, root, s, op), id, key)
  {
    if IsOwnCall(op) {
      OwnCallsLogNothing(h, root, s, op);
    } else {
      match op
      case Receive(m, f) =>
        NormalAnnounces(s, m, f, id, key);
        ReactionAnnounces(s, m, f, id, key);
        RevokeAnnounces(s, m, f, id, key);
        EditAnnounces(s, m, f, id, key);
      case ReceiveReceipt(_, _, _, _, _, _) => ReceiptAnnounces(s, op, id, key);
      case Connection(status, reason, f) =>
        hide Fold;
        var s', e := Next(h, root, s, op), ConnectionChanged(status, reason);
        assert s'.log != s.log ==> s'.log == s.log + [e];
    }
  }

  // ---------------------------------------------------------------- which calls are silent

  /** The message row a call is about to write under `id`, if it gets past the checks, the foreign
      key and the database: read off the call and the tables before it. */
  function RowToWrite(t: Tables, op: Op, id: string): Option<Row> {
    match op
    case Receive(m, f) =>
      if m.reactionTarget != "" then None
      else if m.revokeOf != "" then
        if m.revokeOf == id && id in t.messages && !f.softDelete
        then Some(TableRow(t, id).value.(deleted := true)) else None
      else if m.editOf != "" then
        if m.editOf == id && id in t.messages && !f.messageGet && !f.messagePut && t.messages[id].chat in t.chats
        then Some(TableRow(t, id).value.(body := m.body)) else None
      else if m.id == id && !f.messagePut && (m.chat in t.chats || !f.chatPut)
      then Some(Row(m.chat, m.sender, m.kind, m.body, false)) else None
    case SendText(chat, text, _, sent, f) =>
      if sent.Some? && sent.value.id == id && !f.messagePut && chat in t.chats
      then Some(Row(chat, sent.value.sender, "text", text, false)) else None
    case SendMedia(chat, kind, text, _, _, sent, _, f) =>
      if sent.Some? && sent.value.id == id && !f.messagePut && chat in t.chats
      then Some(Row(chat, sent.value.sender, kind, text, false)) else None
    case Edit(target, text, own, sentAt, f) =>
      if target == id && id in t.messages && !f.messageGet && own == Some(t.messages[id].sender)
         && t.messages[id].deletedAt.None? && sentAt.Some? && !f.messagePut && t.messages[id].chat in t.chats
      then Some(TableRow(t, id).value.(body := text)) else None
    case Delete(target, own, revoked, _, f) =>
      if target == id && id in t.messages && !f.messageGet && own == Some(t.messages[id].sender)
         && t.messages[id].deletedAt.None? && revoked && !f.softDelete
      then Some(TableRow(t, id).value.(deleted := true)) else None
    case _ => None
  }

  /** The emoji it is about to store under `key`; an empty one removes the reaction. */
  function EmojiToWrite(t: Tables, op: Op, key: ReactionKey): Option<string> {
    match op
    case Receive(m, f) =>
      if m.reactionTarget != "" && key == (m.reactionTarget, m.sender) && !f.reaction
         && (m.reactionEmoji == "" || m.reactionTarget in t.messages)
      then Some(m.reactionEmoji) else None
    case React(id, emoji, own, reacted, _, f) =>
      if reacted && !f.messageGet && id in t.messages && key == (id, OrEmpty(own)) && !f.reaction
      then Some(emoji) else None
    case _ => None
  }

  /** Nothing will be logged: the call never logs, or its append fails. */
  predicate LogsNothing(op: Op) {
    IsOwnCall(op) || op.f.append
  }

  predicate WillBeSilentRow(s: State, op: Op, id: string) {
    && LogsNothing(op)
    && RowToWrite(s.t, op, id).Some? && TableRow(s.t, id) != RowToWrite(s.t, op, id)
  }

  predicate WillBeSilentEmoji(s: State, op: Op, key: ReactionKey) {
    && LogsNothing(op)
    && EmojiToWrite(s.t, op, key).Some?
    && (if EmojiToWrite(s.t, op, key).value == "" then key in s.t.reactions
        else TableEmoji(s.t, key) != EmojiToWrite(s.t, op, key))
  }

  /** What a step does to one message row and one reaction, in terms of the state before it, and
      that it logs whenever it changes either and can log. */
  ghost predicate Foretold(s: State, op: Op, s': State, id: string, key: ReactionKey) {
    && TableRow(s'.t, id) == (if RowToWrite(s.t, op, id).Some? then RowToWrite(s.t, op, id) else TableRow(s.t, id))
    && TableEmoji(s'.t, key) ==
      (if EmojiToWrite(s.t, op, key).None? then TableEmoji(s.t, key)
       else if EmojiToWrite(s.t, op, key).value == "" then None else EmojiToWrite(s.t, op, key))
    && (LogsNothing(op) ==> s'.log == s.log)
    && (!LogsNothing(op) && (RowToWrite(s.t, op, id).Some? || EmojiToWrite(s.t, op, key).Some?) ==> s'.log != s.log)
  }

  lemma {:induction false} NormalForetold(s: State, m: Incoming, f: Faults, id: string, key: ReactionKey)
    requires IsNormal(m)
    ensures Foretold(s, Receive(m, f), ReceiveNormal(s, m, f), id, key)
  {
    hide NormalChat, Sound;
    assert forall e: Entry :: |s.log + [e]| != |s.log|;
  }

  lemma {:induction false} ReactionForetold(s: State, m: Incoming, f: Faults, id: string, key: ReactionKey)
    requires m.reactionTarget != ""
    ensures Foretold(s, Receive(m, f), ReceiveReaction(s, m, f), id, key)
  {
    hide Sound;
    assert forall e: Entry :: |s.log + [e]| != |s.log|;
  }

  lemma {:induction false} RevokeForetold(s: State, m: Incoming, f: Faults, id: string, key: ReactionKey)
    requires m.reactionTarget == "" && m.revokeOf != ""
    ensures Foretold(s, Receive(m, f), ReceiveRevoke(s, m, f), id, key)
  {
    hide Sound;
    assert forall e: Entry :: |s.log + [e]| != |s.log|;
  }

  lemma {:induction false} EditForetold(s: State, m: Incoming, f: Faults, id: string, key: ReactionKey)
    requires m.reactionTarget == "" && m.revokeOf == "" && m.editOf != ""
    ensures Foretold(s, Receive(m, f), ReceiveEdit(s, m, f), id, key)
  {
    hide Sound;
    assert forall e: Entry :: |s.log + [e]| != |s.log|;
  }

  lemma {:induction false} SendForetold(h: MediaStore.Digest, root: string, s: State, op: Op, id: string,
                                        key: ReactionKey)
    requires op.SendText? || op.SendMedia?
    ensures Foretold(s, op, Next(h, root, s, op), id, key)
  {
    SendsWriteOneRow(h, root, s, op);
    hide Next, Sound;
  }

  lemma {:induction false} OwnEditForetold(h: MediaStore.Digest, root: string, s: State, op: Op, id: string,
                                           key: ReactionKey)
    requires op.Edit? || op.Delete?
    ensures Foretold(s, op, Next(h, root, s, op), id, key)
  {
    hide Sound;
  }

  lemma {:induction false} ReactForetold(h: MediaStore.Digest, root: string, s: State, op: Op, id: string,
                                         key: ReactionKey)
    requires op.React?
    ensures Foretold(s, op, Next(h, root, s, op), id, key)
  {
    hide Sound;
  }

  /** The other own calls write neither messages nor reactions. */
  lemma {:induction false} OwnCallForetold(h: MediaStore.Digest, root: string, s: State, op: Op, id: string,
                                           key: ReactionKey)
    requires op.Download? || op.MarkRead? || op.CreateGroup? || op.CrashInWrite?
    ensures Foretold(s, op, Next(h, root, s, op), id, key)
  {
    hide Sound, MediaStore.PathOf, MediaStore.WriteFiles, MediaStore.Succeeds, MarkReadCounts, RefFor;
  }

  lemma {:induction false} StepForetold(h: MediaStore.Digest, root: string, s: State, op: Op, id: string,
                                        key: ReactionKey)
    ensures Foretold(s, op, Next(h, root, s, op), id, key)
  {
    match op
    case Receive(m, f) =>
      if m.reactionTarget != "" { ReactionForetold(s, m, f, id, key); }
      else if m.revokeOf != "" { RevokeForetold(s, m, f, id, key); }
      else if m.editOf != "" { EditForetold(s, m, f, id, key); }
      else { NormalForetold(s, m, f, id, key); }
      hide Foretold;
    case ReceiveReceipt(_, _, _, _, _, _) => ReceiptAnnounces(s, op, id, key); hide ReceiptRows, AnyReceipt;
    case SendText(_, _, _, _, _) => SendForetold(h, root, s, op, id, key); hide Foretold;
    case SendMedia(_, _, _, _, _, _, _, _) => SendForetold(h, root, s, op, id, key); hide Foretold;
    case Edit(_, _, _, _, _) => OwnEditForetold(h, root, s, op, id, key); hide Foretold;
    case Delete(_, _, _, _, _) => OwnEditForetold(h, root, s, op, id, key); hide Foretold;
    case React(_, _, _, _, _, _) => ReactForetold(h, root, s, op, id, key); hide Foretold;
    case Connection(_, _, _) =>
    case _ => OwnCallForetold(h, root, s, op, id, key); hide Foretold;
  }

  /** A call changes a message or a reaction without logging it exactly when the call and the
      tables before it say so. */
  lemma {:induction false} SilentIff(h: MediaStore.Digest, root: string, s: State, op: Op, id: string,
                                     key: ReactionKey)
    ensures SilentRow(s, Next(h, root, s, op), id) <==> WillBeSilentRow(s, op, id)
    ensures SilentEmoji(s, Next(h, root, s, op), key) <==> WillBeSilentEmoji(s, op, key)
  {
    StepForetold(h, root, s, op, id, key);
    hide Next, RowToWrite, EmojiToWrite, LogsNothing;
  }

  // ---------------------------------------------------------------- one step

  /** A step that logs brings the fold along; one that does not leaves it. */
  lemma {:induction false} StepAgrees(h: MediaStore.Digest, root: string, s: State, op: Op, id: string,
                                      key: ReactionKey)
    ensures RowAgrees(s, id) ==>
      (RowAgrees(Next(h, root, s, op), id) <==> !SilentRow(s, Next(h, root, s, op), id))
    ensures EmojiAgrees(s, key) ==>
      (EmojiAgrees(Next(h, root, s, op), key) <==> !SilentEmoji(s, Next(h, root, s, op), key))
  {
    var s' := Next(h, root, s, op);
    StepAnnounces(h, root, s, op, id, key);
    hide Next, Fold, Follow, ReplicaRow, ReplicaEmoji, TableRow, TableEmoji;
    if s'.log != s.log {
      var e :| s'.log == s.log + [e]
        && (ReplicaRow(Fold(s.log), id) == TableRow(s.t, id) ==>
              ReplicaRow(Follow(Fold(s.log), e), id) == TableRow(s'.t, id))
        && (ReplicaEmoji(Fold(s.log), key) == TableEmoji(s.t, key) ==>
              ReplicaEmoji(Follow(Fold(s.log), e), key) == TableEmoji(s'.t, key));
      FoldSnoc(s.log, e);
    }
  }

  /** From agreement at a message or reaction, one step keeps fold and tables agreeing there if and
      only if the call does not silently change it, which is known before the step. */
  lemma {:induction false} StepAgreesIff(h: MediaStore.Digest, root: string, s: State, op: Op, id: string,
                                         key: ReactionKey)
    ensures RowAgrees(s, id) ==> (RowAgrees(Next(h, root, s, op), id) <==> !WillBeSilentRow(s, op, id))
    ensures EmojiAgrees(s, key) ==> (EmojiAgrees(Next(h, root, s, op), key) <==> !WillBeSilentEmoji(s, op, key))
  {
    StepAgrees(h, root, s, op, id, key);
    SilentIff(h, root, s, op, id, key);
    hide Next, SilentRow, SilentEmoji, WillBeSilentRow, WillBeSilentEmoji, RowAgrees, EmojiAgrees;
  }

  // ---------------------------------------------------------------- whole runs

  /** No call of the run is one that silently changes the message. */
  ghost predicate NeverSilentRow(h: MediaStore.Digest, root: string, ops: seq<Op>, id: string) {
    ops == [] ||
    var init := ops[..|ops| - 1];
    NeverSilentRow(h, root, init, id) && !WillBeSilentRow(Run(h, root, INIT, init), ops[|ops| - 1], id)
  }

  ghost predicate NeverSilentEmoji(h: MediaStore.Digest, root: string, ops: seq<Op>, key: ReactionKey) {
    ops == [] ||
    var init := ops[..|ops| - 1];
    NeverSilentEmoji(h, root, init, key) && !WillBeSilentEmoji(Run(h, root, INIT, init), ops[|ops| - 1], key)
  }

  /** Over any run of any calls with any faults, the fold of the log agrees with the tables at
      every message and every reaction that no call silently changes. */
  lemma {:induction false} FoldAgreesWhereAnnounced(h: MediaStore.Digest, root: string, ops: seq<Op>, id: string,
                                                    key: ReactionKey)
    ensures NeverSilentRow(h, root, ops, id) ==> RowAgrees(Run(h, root, INIT, ops), id)
    ensures NeverSilentEmoji(h, root, ops, key) ==> EmojiAgrees(Run(h, root, INIT, ops), key)
  {
    if ops != [] {
      var init := ops[..|ops| - 1];
      FoldAgreesWhereAnnounced(h, root, init, id, key);
      StepAgreesIff(h, root, Run(h, root, INIT, init), ops[|ops| - 1], id, key);
      hide Next, WillBeSilentRow, WillBeSilentEmoji, RowAgrees, EmojiAgrees;
    }
  }

  /** The first silent change always shows: a run that was not silent so far and then is leaves the
      fold and the tables apart. */
  lemma {:induction false} SilentCallShows(h: MediaStore.Digest, root: string, ops: seq<Op>, op: Op, id: string,
                                           key: ReactionKey)
    ensures
      var s := Run(h, root, INIT, ops);
      NeverSilentRow(h, root, ops, id) && WillBeSilentRow(s, op, id) ==> !RowAgrees(Next(h, root, s, op), id)
    ensures
      var s := Run(h, root, INIT, ops);
      NeverSilentEmoji(h, root, ops, key) && WillBeSilentEmoji(s, op, key) ==> !EmojiAgrees(Next(h, root, s, op), key)
  {
    FoldAgreesWhereAnnounced(h, root, ops, id, key);
    StepAgreesIff(h, root, Run(h, root, INIT, ops), op, id, key);
    hide Next, WillBeSilentRow, WillBeSilentEmoji, RowAgrees, EmojiAgrees;
  }

  /** And it is mended by the next message that is stored and logged under that id, whatever the
      fold and the tables held before. */
  lemma {:induction false} ReceivingMends(h: MediaStore.Digest, root: string, s: State, m: Incoming, f: Faults)
    requires IsNormal(m) && !f.append && RowToWrite(s.t, Receive(m, f), m.id).Some?
    ensures RowAgrees(Next(h, root, s, Receive(m, f)), m.id)
  {
    hide NormalChat, Sound;
    FoldSnoc(s.log, MessageReceived(m.id, m.chat, m.sender, m.kind, m.body, m.ts));
    hide Fold;
  }

  // ---------------------------------------------------------------- whole runs, exactly

  /** What a logged call tells a follower about a message: a new message everything, an edit its text,
      a revoke its deletion; the last two only about a message the follower knows. */
  function Tells(told: Option<Row>, t: Tables, op: Op, id: string): Option<Row> {
    var row := RowToWrite(t, op, id);
    if LogsNothing(op) || row.None? then told
    else if IsNormal(op.m) then row
    else if told.None? then None
    else if op.m.revokeOf != "" then Some(told.value.(deleted := true))
    else Some(told.value.(body := op.m.body))
  }

  /** The message as last told by the logged calls of a run, and as last stored by all of them. */
  ghost function LastTold(h: MediaStore.Digest, root: string, ops: seq<Op>, id: string): Option<Row> {
    if ops == [] then None
    else
      var init := ops[..|ops| - 1];
      Tells(LastTold(h, root, init, id), Run(h, root, INIT, init).t, ops[|ops| - 1], id)
  }

  ghost function LastStored(h: MediaStore.Digest, root: string, ops: seq<Op>, id: string): Option<Row> {
    if ops == [] then None
    else
      var init := ops[..|ops| - 1];
      var row := RowToWrite(Run(h, root, INIT, init).t, ops[|ops| - 1], id);
      if row.Some? then row else LastStored(h, root, init, id)
  }

  lemma {:induction false} NormalTells(s: State, m: Incoming, f: Faults, id: string)
    requires IsNormal(m)
    ensures ReplicaRow(Fold(ReceiveNormal(s, m, f).log), id)
      == Tells(ReplicaRow(Fold(s.log), id), s.t, Receive(m, f), id)
  {
    FoldSnoc(s.log, MessageReceived(m.id, m.chat, m.sender, m.kind, m.body, m.ts));
    hide NormalChat, Sound, Fold;
  }

  lemma {:induction false} RevokeTells(s: State, m: Incoming, f: Faults, id: string)
    requires m.reactionTarget == "" && m.revokeOf != ""
    requires ReplicaRow(Fold(s.log), id).Some? ==> id in s.t.messages
    ensures ReplicaRow(Fold(ReceiveRevoke(s, m, f).log), id)
      == Tells(ReplicaRow(Fold(s.log), id), s.t, Receive(m, f), id)
  {
    FoldSnoc(s.log, MessageDeleted(m.revokeOf, m.chat));
    hide Sound, Fold;
  }

  lemma {:induction false} EditTells(s: State, m: Incoming, f: Faults, id: string)
    requires m.reactionTarget == "" && m.revokeOf == "" && m.editOf != ""
    requires ReplicaRow(Fold(s.log), id).Some? ==> id in s.t.messages
    ensures ReplicaRow(Fold(ReceiveEdit(s, m, f).log), id)
      == Tells(ReplicaRow(Fold(s.log), id), s.t, Receive(m, f), id)
  {
    FoldSnoc(s.log, MessageEdited(m.editOf, m.chat, m.body));
    hide Sound, Fold;
  }

  lemma {:induction false} OthersTellNothing(h: MediaStore.Digest, root: string, s: State, op: Op, id: string)
    requires op.Receive? ==> op.m.reactionTarget != ""
    ensures ReplicaRow(Fold(Next(h, root, s, op).log), id) == ReplicaRow(Fold(s.log), id)
    ensures !LogsNothing(op) ==> RowToWrite(s.t, op, id).None?
  {
    if IsOwnCall(op) {
      OwnCallsLogNothing(h, root, s, op);
      hide Next, Fold;
    } else {
      var e := match op
        case Receive(m, _) => ReactionReceived(m.reactionTarget, m.sender, m.reactionEmoji, m.ts)
        case ReceiveReceipt(ids, reader, kind, ts, _, _) => ReceiptReceived(ids, reader, kind, ts)
        case Connection(status, reason, _) => ConnectionChanged(status, reason);
      FoldSnoc(s.log, e);
      hide Fold, Sound, ReceiptRows, AnyReceipt;
    }
  }

  lemma {:induction false} StepTells(h: MediaStore.Digest, root: string, s: State, op: Op, id: string)
    requires ReplicaRow(Fold(s.log), id).Some? ==> id in s.t.messages
    ensures ReplicaRow(Fold(Next(h, root, s, op).log), id) == Tells(ReplicaRow(Fold(s.log), id), s.t, op, id)
  {
    if op.Receive? && op.m.reactionTarget == "" {
      if op.m.revokeOf != "" { RevokeTells(s, op.m, op.f, id); }
      else if op.m.editOf != "" { EditTells(s, op.m, op.f, id); }
      else { NormalTells(s, op.m, op.f, id); }
      hide ReceiveNormal, ReceiveRevoke, ReceiveEdit, Fold, Tells;
    } else {
      OthersTellNothing(h, root, s, op, id);
      hide Next, Fold, RowToWrite;
    }
  }

  /** The fold of a run's log is what was last told, its tables are what was last stored, and a
      follower only knows messages that are stored. */
  lemma {:induction false} RunTells(h: MediaStore.Digest, root: string, ops: seq<Op>, id: string)
    ensures
      var s := Run(h, root, INIT, ops);
      && ReplicaRow(Fold(s.log), id) == LastTold(h, root, ops, id)
      && TableRow(s.t, id) == LastStored(h, root, ops, id)
      && (LastTold(h, root, ops, id).Some? ==> id in s.t.messages)
  {
    if ops != [] {
      var init, op := ops[..|ops| - 1], ops[|ops| - 1];
      var s := Run(h, root, INIT, init);
      RunTells(h, root, init, id);
      StepTells(h, root, s, op, id);
      StepForetold(h, root, s, op, id, ("", ""));
      StepIsSound(h, root, s, op);
      hide Next, Fold, RowToWrite, EmojiToWrite, ReplicaRow, LogsNothing, Referenced;
    }
  }

  /** Over whole runs, exactly: fold and tables agree on a message if and only if either it is neither
      told nor stored, or what was last told of its origin, its text and its deletion is what was last
      stored of each. A silent change can be undone by a later one or mended by a logged one. */
  lemma {:induction false} RunAgreesIff(h: MediaStore.Digest, root: string, ops: seq<Op>, id: string)
    ensures
      var told, stored := LastTold(h, root, ops, id), LastStored(h, root, ops, id);
      RowAgrees(Run(h, root, INIT, ops), id) <==>
        && (told.Some? <==> stored.Some?)
        && (told.Some? ==>
              && told.value.chat == stored.value.chat && told.value.sender == stored.value.sender
              && told.value.kind == stored.value.kind
              && told.value.body == stored.value.body && told.value.deleted == stored.value.deleted)
  {
    RunTells(h, root, ops, id);
    hide Run, Fold, LastTold, LastStored;
  }

  /** An event from the network whose log append succeeds; the stores may still reject its writes. */
  predicate IsLoggedEvent(op: Op) {
    (op.Receive? || op.ReceiveReceipt? || op.Connection?) && !op.f.append
  }

  lemma {:induction false} EventRunAgrees(h: MediaStore.Digest, root: string, ops: seq<Op>, id: string,
                                          key: ReactionKey)
    requires forall i | 0 <= i < |ops| :: IsLoggedEvent(ops[i])
    ensures RowAgrees(Run(h, root, INIT, ops), id) && EmojiAgrees(Run(h, root, INIT, ops), key)
  {
    if ops != [] {
      var n := |ops| - 1;
      var s := Run(h, root, INIT, ops[..n]);
      EventRunAgrees(h, root, ops[..n], id, key);
      StepAgreesIff(h, root, s, ops[n], id, key);
    }
  }

  function TableReplica(t: Tables): Replica {
    Replica(map id | id in t.messages :: TableRow(t, id).value, map key | key in t.reactions :: t.reactions[key].emoji)
  }

  /** Inbound messages, edits, revokes, reactions and receipts with arbitrary store rejections but
      successful appends: the log alone rebuilds the message and reaction tables exactly. */
  lemma {:induction false} LogRebuildsTables(h: MediaStore.Digest, root: string, ops: seq<Op>)
    requires forall i | 0 <= i < |ops| :: IsLoggedEvent(ops[i])
    ensures Fold(Run(h, root, INIT, ops).log) == TableReplica(Run(h, root, INIT, ops).t)
  {
    var s := Run(h, root, INIT, ops);
    var r, t := Fold(s.log), s.t;
    forall id
      ensures ReplicaRow(r, id) == TableRow(t, id)
    {
      EventRunAgrees(h, root, ops, id, ("", ""));
    }
    forall key
      ensures ReplicaEmoji(r, key) == TableEmoji(t, key)
    {
      EventRunAgrees(h, root, ops, "", key);
    }
    hide Run, Fold;
    SameReplica(r, t);
  }

  lemma {:induction false} SameReplica(r: Replica, t: Tables)
    requires forall id :: ReplicaRow(r, id) == TableRow(t, id)
    requires forall key :: ReplicaEmoji(r, key) == TableEmoji(t, key)
    ensures r == TableReplica(t)
  {
    var m := TableReplica(t);
    forall id
      ensures id in r.messages <==> id in m.messages
      ensures id in r.messages ==> r.messages[id] == m.messages[id]
    {
      assert ReplicaRow(r, id) == TableRow(t, id);
    }
    forall key
      ensures key in r.reactions <==> key in m.reactions
      ensures key in r.reactions ==> r.reactions[key] == m.reactions[key]
    {
      assert ReplicaEmoji(r, key) == TableEmoji(t, key);
    }
    assert r.messages == m.messages;
    assert r.reactions == m.reactions;
  }

  lemma {:induction false} StepLogsAtMostOne(h: MediaStore.Digest, root: string, s: State, op: Op)
    ensures var s' := Next(h, root, s, op); s.log <= s'.log && |s'.log| <= |s.log| + 1
  {
    StepAnnounces(h, root, s, op, "", ("", ""));
    hide Next, Fold, Follow;
  }

  /** Any prefix of such a log folds to the tables as they were at some point of the run. */
  lemma {:induction false} PrefixIsPastState(h: MediaStore.Digest, root: string, ops: seq<Op>, k: nat) returns (n: nat)
    requires forall i | 0 <= i < |ops| :: IsLoggedEvent(ops[i])
    requires k <= |Run(h, root, INIT, ops).log|
    ensures n <= |ops|
    ensures Fold(Run(h, root, INIT, ops).log[..k]) == TableReplica(Run(h, root, INIT, ops[..n]).t)
  {
    var s := Run(h, root, INIT, ops);
    if k == |s.log| {
      n := |ops|;
      assert s.log[..k] == s.log && ops[..n] == ops;
      LogRebuildsTables(h, root, ops);
    } else {
      var init := ops[..|ops| - 1];
      StepLogsAtMostOne(h, root, Run(h, root, INIT, init), ops[|ops| - 1]);
      n := PrefixIsPastState(h, root, init, k);
      assert s.log[..k] == Run(h, root, INIT, init).log[..k];
      assert init[..n] == ops[..n];
    }
  }

  /** The user's own messages are missing from the log: a stored SendText makes the fold disagree
      until the id is received. */
  lemma {:induction false} OwnTextIsMissingFromLog(h: MediaStore.Digest, root: string, s: State, chat: string,
                                                   text: string,
                                                   replyTo: string, sent: Sent, f: Faults)
    requires RowAgrees(s, sent.id) && sent.id !in s.t.messages
    ensures
      var s' := Next(h, root, s, SendText(chat, text, replyTo, Some(sent), f));
      RowAgrees(s', sent.id) <==> f.messagePut || chat !in s.t.chats
  {
    hide Fold, KindFromJID, Sound, Referenced;
  }
}
