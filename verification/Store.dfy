/** The relational tables the service writes: rows as values, the writes of each store as
    functions with their foreign-key rejections, and the bundle of stores that performs them. */
module Store {
  import opened Wrappers

  datatype Chat = Chat(name: string, kind: string, lastMsgAt: Option<int>, unread: int, archived: bool)

  datatype Message = Message(chat: string, sender: string, ts: int, kind: string, body: string, replyTo: string,
                             editedAt: Option<int>, deletedAt: Option<int>)

  datatype Reaction = Reaction(emoji: string, ts: int)

  datatype MediaRef = MediaRef(mime: string, size: int, sha: string, path: string)

  type ReactionKey = (string, string)
  type ReceiptKey = (string, string, string)

  datatype Tables = Tables(
    chats: map<string, Chat>,
    messages: map<string, Message>,
    reactions: map<ReactionKey, Reaction>,
    receipts: map<ReceiptKey, int>,
    media: map<string, MediaRef>)

  const EMPTY: Tables := Tables(map[], map[], map[], map[], map[])

  // ---------------------------------------------------------------- integrity

  /** The foreign keys. */
  ghost predicate Referenced(t: Tables) {
    && (forall id | id in t.messages :: t.messages[id].chat in t.chats)
    && (forall key | key in t.reactions :: key.0 in t.messages)
    && (forall key | key in t.receipts :: key.0 in t.messages)
    && (forall id | id in t.media :: id in t.messages)
  }

  /** What every write promises: it keeps the foreign keys, and removes no row except a reaction. */
  ghost predicate Sound(t: Tables, t': Tables) {
    && (Referenced(t) ==> Referenced(t'))
    && t.chats.Keys <= t'.chats.Keys
    && t.messages.Keys <= t'.messages.Keys
    && t.receipts.Keys <= t'.receipts.Keys
    && t.media.Keys <= t'.media.Keys
  }

  lemma {:induction false} SoundSame(t: Tables)
    ensures Sound(t, t)
  {
  }

  lemma {:induction false} SoundCompose(t: Tables, t': Tables, t'': Tables)
    requires Sound(t, t') && Sound(t', t'')
    ensures Sound(t, t'')
  {
    hide Referenced;
  }

  // ---------------------------------------------------------------- writes

  /** Every write also takes whether the database fails; a failed or rejected one changes nothing. */
  function PutChat(t: Tables, jid: string, chat: Chat, fails: bool): (t': Tables)
    ensures Sound(t, t')
  {
    if fails then t else t.(chats := t.chats[jid := chat])
  }

  predicate MessageAccepted(t: Tables, m: Message, fails: bool) {
    !fails && m.chat in t.chats
  }

  function PutMessage(t: Tables, id: string, m: Message, fails: bool): (t': Tables)
    ensures Sound(t, t')
  {
    if MessageAccepted(t, m, fails) then t.(messages := t.messages[id := m]) else t
  }

  /** An UPDATE: deleting an unknown id succeeds and does nothing. */
  function SoftDelete(t: Tables, id: string, when: int, fails: bool): (t': Tables)
    ensures Sound(t, t')
  {
    if fails || id !in t.messages then t
    else t.(messages := t.messages[id := t.messages[id].(deletedAt := Some(when))])
  }

  /** Reactions, receipts and media rows reference their message. */
  predicate ChildAccepted(t: Tables, message: string, fails: bool) {
    !fails && message in t.messages
  }

  function PutReaction(t: Tables, key: ReactionKey, r: Reaction, fails: bool): (t': Tables)
    ensures Sound(t, t')
  {
    if ChildAccepted(t, key.0, fails) then t.(reactions := t.reactions[key := r]) else t
  }

  function DeleteReaction(t: Tables, key: ReactionKey, fails: bool): (t': Tables)
    ensures Sound(t, t')
  {
    if fails then t else t.(reactions := t.reactions - {key})
  }

  function PutReceipt(t: Tables, key: ReceiptKey, ts: int, fails: bool): (t': Tables)
    ensures Sound(t, t')
  {
    if ChildAccepted(t, key.0, fails) then t.(receipts := t.receipts[key := ts]) else t
  }

  function PutMedia(t: Tables, message: string, ref: MediaRef, fails: bool): (t': Tables)
    ensures Sound(t, t')
  {
    if ChildAccepted(t, message, fails) then t.(media := t.media[message := ref]) else t
  }

  /** What SELECT ... WHERE deleted_at IS NULL can see. */
  predicate IsLive(t: Tables, id: string) {
    id in t.messages && t.messages[id].deletedAt.None?
  }

  // ---------------------------------------------------------------- the stores

  class Bundle {
    var chats: map<string, Chat>
    var messages: map<string, Message>
    var reactions: map<ReactionKey, Reaction>
    var receipts: map<ReceiptKey, int>
    var media: map<string, MediaRef>

    constructor ()
      ensures View() == EMPTY
    {
      chats, messages, reactions, receipts, media := map[], map[], map[], map[], map[];
    }

    ghost function View(): Tables
      reads this
    {
      Tables(chats, messages, reactions, receipts, media)
    }

    method ChatGet(jid: string, fails: bool) returns (r: Option<Chat>)
      ensures r == if fails || jid !in chats then None else Some(chats[jid])
    {
      r := if fails || jid !in chats then None else Some(chats[jid]);
    }

    method ChatPut(jid: string, chat: Chat, fails: bool)
      modifies this`chats
      ensures View() == PutChat(old(View()), jid, chat, fails)
    {
      if !fails {
        chats := chats[jid := chat];
      }
    }

    method MessageGet(id: string, fails: bool) returns (r: Option<Message>)
      ensures r == if fails || id !in messages then None else Some(messages[id])
    {
      r := if fails || id !in messages then None else Some(messages[id]);
    }

    /** INSERT ... ON CONFLICT(id) DO UPDATE of every column. */
    method MessagePut(id: string, m: Message, fails: bool) returns (ok: bool)
      modifies this`messages
      ensures ok <==> MessageAccepted(old(View()), m, fails)
      ensures View() == PutMessage(old(View()), id, m, fails)
    {
      ok := !fails && m.chat in chats;
      if ok {
        messages := messages[id := m];
      }
    }

    method MessageSoftDelete(id: string, when: int, fails: bool) returns (ok: bool)
      modifies this`messages
      ensures ok == !fails
      ensures View() == SoftDelete(old(View()), id, when, fails)
    {
      ok := !fails;
      if ok && id in messages {
        messages := messages[id := messages[id].(deletedAt := Some(when))];
      }
    }

    method ReactionPut(key: ReactionKey, r: Reaction, fails: bool) returns (ok: bool)
      modifies this`reactions
      ensures ok <==> ChildAccepted(old(View()), key.0, fails)
      ensures View() == PutReaction(old(View()), key, r, fails)
    {
      ok := !fails && key.0 in messages;
      if ok {
        reactions := reactions[key := r];
      }
    }

    method ReactionDelete(key: ReactionKey, fails: bool) returns (ok: bool)
      modifies this`reactions
      ensures ok == !fails
      ensures View() == DeleteReaction(old(View()), key, fails)
    {
      ok := !fails;
      if ok {
        reactions := reactions - {key};
      }
    }

    method ReceiptPut(key: ReceiptKey, ts: int, fails: bool) returns (ok: bool)
      modifies this`receipts
      ensures ok <==> ChildAccepted(old(View()), key.0, fails)
      ensures View() == PutReceipt(old(View()), key, ts, fails)
    {
      ok := !fails && key.0 in messages;
      if ok {
        receipts := receipts[key := ts];
      }
    }

    method MediaPut(message: string, ref: MediaRef, fails: bool) returns (ok: bool)
      modifies this`media
      ensures ok <==> ChildAccepted(old(View()), message, fails)
      ensures View() == PutMedia(old(View()), message, ref, fails)
    {
      ok := !fails && message in messages;
      if ok {
        media := media[message := ref];
      }
    }
  }
}
