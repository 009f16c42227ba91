/** Conservation of unread counts over runs of service calls. */
module Unread {
  import opened Wrappers
  import opened Store
  import opened ServiceSteps
  import MediaStore

  /** SELECT SUM(unread_count) FROM chats. */
  ghost function Total(chats: map<string, Chat>): int {
    if chats == map[] then 0
    else
      var jid :| jid in chats;
      chats[jid].unread + Total(chats - {jid})
  }

  ghost function UnreadAt(chats: map<string, Chat>, jid: string): int {
    if jid in chats then chats[jid].unread else 0
  }

  /** The sum does not depend on the order in which the rows are visited. */
  lemma {:induction false} TotalWithout(chats: map<string, Chat>, jid: string)
    requires jid in chats
    ensures Total(chats) == chats[jid].unread + Total(chats - {jid})
    decreases |chats|
  {
    var first :| first in chats && Total(chats) == chats[first].unread + Total(chats - {first});
    if first != jid {
      assert chats - {first} - {jid} == chats - {jid} - {first};
      TotalWithout(chats - {first}, jid);
      TotalWithout(chats - {jid}, first);
    }
  }

  lemma {:induction false} TotalPut(chats: map<string, Chat>, jid: string, chat: Chat)
    ensures Total(chats[jid := chat]) == Total(chats) - UnreadAt(chats, jid) + chat.unread
  {
    var after := chats[jid := chat];
    TotalWithout(after, jid);
    assert after - {jid} == chats - {jid};
    if jid in chats {
      TotalWithout(chats, jid);
    } else {
      assert chats - {jid} == chats;
    }
  }

  // ---------------------------------------------------------------- what a step adds and takes

  function FaultsOf(op: Op): Faults {
    if op.CrashInWrite? then NO_FAULTS else op.f
  }

  predicate IsInbound(op: Op) {
    op.Receive? && IsNormal(op.m)
  }

  predicate IsHit(s: State, op: Op) {
    op.MarkRead? && MarkReadCounts(s, op.id, op.marked, op.f)
  }

  /** The count of a chat row that CreateGroup replaces by a fresh one. */
  ghost function WipedBy(s: State, op: Op): int {
    if op.CreateGroup? && op.group.Some? then UnreadAt(s.t.chats, op.group.value.0) else 0
  }

  function Bit(b: bool): nat {
    if b then 1 else 0
  }

  /** The chat row, if any, that a step writes. */
  function ChatWritten(s: State, op: Op): Option<(string, Chat)> {
    match op
    case Receive(m, f) => if IsNormal(m) then Some((m.chat, NormalChat(s.t, m, f))) else None
    case SendText(chat, _, _, sent, f) =>
      if sent.None? then None else Some((chat, Touched(s.t, chat, sent.value.ts, f)))
    case SendMedia(chat, _, _, _, _, sent, _, f) =>
      if sent.None? then None else Some((chat, Touched(s.t, chat, sent.value.ts, f)))
    case MarkRead(id, marked, f) =>
      if MarkReadCounts(s, id, marked, f) then
        var chat := s.t.chats[s.t.messages[id].chat];
        Some((s.t.messages[id].chat, chat.(unread := chat.unread - 1)))
      else None
    case CreateGroup(group, now, _) =>
      if group.None? then None else Some((group.value.0, Chat(group.value.1, "group", Some(now), 0, false)))
    case _ => None
  }

  function Touched(t: Tables, jid: string, ts: int, f: Faults): Chat {
    var chat := FindChat(t, jid, KindFromJID(jid), f.chatGet);
    chat.(lastMsgAt := Some(ts), kind := OrKind(chat.kind, KindFromJID(jid)))
  }

  lemma {:induction false} StepWritesOneChat(h: MediaStore.Digest, root: string, s: State, op: Op)
    ensures Next(h, root, s, op).t.chats ==
      match ChatWritten(s, op)
      case Some(put) => if FaultsOf(op).chatPut then s.t.chats else s.t.chats[put.0 := put.1]
      case None => s.t.chats
  {
    hide Sound, KindFromJID, NormalChat, MarkReadCounts, MediaStore.PathOf, MediaStore.WriteFiles, MediaStore.Succeeds;
    if op.ReceiveReceipt? { ReceiptRowsFrame(s.t, op.ids, op.reader, op.kind, op.ts, op.rejects); }
    hide ReceiptRows, AnyReceipt;
  }

  /** The chat whose row a step writes after reading it, and so restarts when the read fails. */
  function ReadChat(op: Op): Option<string> {
    match op
    case Receive(m, _) => if IsNormal(m) then Some(m.chat) else None
    case SendText(chat, _, _, sent, _) => if sent.None? then None else Some(chat)
    case SendMedia(chat, _, _, _, _, sent, _, _) => if sent.None? then None else Some(chat)
    case _ => None
  }

  /** What a step loses to faults of the chat table: a failed write loses the change that was meant,
      a failed read loses the count that was there. */
  ghost function LostBy(s: State, op: Op): int {
    if FaultsOf(op).chatPut then Bit(IsInbound(op)) - Bit(IsHit(s, op)) - WipedBy(s, op)
    else if FaultsOf(op).chatGet && ReadChat(op).Some? then UnreadAt(s.t.chats, ReadChat(op).value)
    else 0
  }

  /** One step: the total moves only by a normal message, a mark-read that found a positive count,
      a group creation that replaced a chat row, and what chat faults lose. Edits, revokes,
      reactions, receipts, downloads and, without such faults, sends leave it alone. */
  lemma {:induction false} StepConserves(h: MediaStore.Digest, root: string, s: State, op: Op)
    ensures Total(Next(h, root, s, op).t.chats) ==
      Total(s.t.chats) + Bit(IsInbound(op)) - Bit(IsHit(s, op)) - WipedBy(s, op) - LostBy(s, op)
  {
    StepWritesOneChat(h, root, s, op);
    hide Next, KindFromJID;
    match ChatWritten(s, op)
    case Some(put) => TotalPut(s.t.chats, put.0, put.1);
    case None =>
  }

  /** What one step means to add to and take from one chat. */
  ghost function ChangeAt(s: State, op: Op, jid: string): int {
    Bit(IsInbound(op) && op.m.chat == jid)
    - Bit(IsHit(s, op) && s.t.messages[op.id].chat == jid)
    - if op.CreateGroup? && op.group.Some? && op.group.value.0 == jid then UnreadAt(s.t.chats, jid) else 0
  }

  ghost function LostAt(s: State, op: Op, jid: string): int {
    if FaultsOf(op).chatPut then ChangeAt(s, op, jid)
    else if FaultsOf(op).chatGet && ReadChat(op) == Some(jid) then UnreadAt(s.t.chats, jid)
    else 0
  }

  lemma {:induction false} StepConservesAt(h: MediaStore.Digest, root: string, s: State, op: Op, jid: string)
    ensures UnreadAt(Next(h, root, s, op).t.chats, jid) ==
      UnreadAt(s.t.chats, jid) + ChangeAt(s, op, jid) - LostAt(s, op, jid)
  {
    StepWritesOneChat(h, root, s, op);
    hide Next, KindFromJID;
  }

  // ---------------------------------------------------------------- runs

  function Inbound(ops: seq<Op>): nat {
    if ops == [] then 0 else Inbound(ops[..|ops| - 1]) + Bit(IsInbound(ops[|ops| - 1]))
  }

  function Hits(h: MediaStore.Digest, root: string, ops: seq<Op>): nat {
    if ops == [] then 0
    else
      var init := ops[..|ops| - 1];
      Hits(h, root, init) + Bit(IsHit(Run(h, root, INIT, init), ops[|ops| - 1]))
  }

  ghost function Wiped(h: MediaStore.Digest, root: string, ops: seq<Op>): int {
    if ops == [] then 0
    else
      var init := ops[..|ops| - 1];
      Wiped(h, root, init) + WipedBy(Run(h, root, INIT, init), ops[|ops| - 1])
  }

  ghost function Lost(h: MediaStore.Digest, root: string, ops: seq<Op>): int {
    if ops == [] then 0
    else
      var init := ops[..|ops| - 1];
      Lost(h, root, init) + LostBy(Run(h, root, INIT, init), ops[|ops| - 1])
  }

  /** Over any run with any faults: the total is the normal inbound messages, less the mark-reads
      that found a positive count, less what group creations overwrote, less what faults of the
      chat table lost. */
  lemma {:induction false} UnreadIsConserved(h: MediaStore.Digest, root: string, ops: seq<Op>)
    ensures Total(Run(h, root, INIT, ops).t.chats) ==
      Inbound(ops) - Hits(h, root, ops) - Wiped(h, root, ops) - Lost(h, root, ops)
    ensures (forall i | 0 <= i < |ops| :: !FaultsOf(ops[i]).chatGet && !FaultsOf(ops[i]).chatPut) ==>
      Lost(h, root, ops) == 0
  {
    if ops != [] {
      var init := ops[..|ops| - 1];
      UnreadIsConserved(h, root, init);
      StepConserves(h, root, Run(h, root, INIT, init), ops[|ops| - 1]);
      assert forall i | 0 <= i < |init| :: init[i] == ops[i];
    }
  }

  ghost function ChangesAt(h: MediaStore.Digest, root: string, ops: seq<Op>, jid: string): int {
    if ops == [] then 0
    else
      var init := ops[..|ops| - 1];
      ChangesAt(h, root, init, jid) + ChangeAt(Run(h, root, INIT, init), ops[|ops| - 1], jid)
  }

  ghost function LossesAt(h: MediaStore.Digest, root: string, ops: seq<Op>, jid: string): int {
    if ops == [] then 0
    else
      var init := ops[..|ops| - 1];
      LossesAt(h, root, init, jid) + LostAt(Run(h, root, INIT, init), ops[|ops| - 1], jid)
  }

  /** The same chat by chat: a message counts for its own chat, a mark-read for the chat of the
      message it names, a fault for the chat it hits, and nothing else moves any count. */
  lemma {:induction false} ChatUnreadIsConserved(h: MediaStore.Digest, root: string, ops: seq<Op>, jid: string)
    ensures UnreadAt(Run(h, root, INIT, ops).t.chats, jid) == ChangesAt(h, root, ops, jid) - LossesAt(h, root, ops, jid)
    ensures (forall i | 0 <= i < |ops| :: !FaultsOf(ops[i]).chatGet && !FaultsOf(ops[i]).chatPut) ==>
      LossesAt(h, root, ops, jid) == 0
  {
    if ops != [] {
      var init := ops[..|ops| - 1];
      ChatUnreadIsConserved(h, root, init, jid);
      StepConservesAt(h, root, Run(h, root, INIT, init), ops[|ops| - 1], jid);
      assert forall i | 0 <= i < |init| :: init[i] == ops[i];
    }
  }

  ghost predicate NonNegative(chats: map<string, Chat>) {
    forall jid | jid in chats :: chats[jid].unread >= 0
  }

  lemma {:induction false} StepBounded(h: MediaStore.Digest, root: string, s: State, op: Op)
    requires NonNegative(s.t.chats)
    ensures NonNegative(Next(h, root, s, op).t.chats)
    ensures Total(Next(h, root, s, op).t.chats) <= Total(s.t.chats) + Bit(IsInbound(op))
  {
    StepWritesOneChat(h, root, s, op);
    hide Next, KindFromJID;
    match ChatWritten(s, op)
    case Some(put) => TotalPut(s.t.chats, put.0, put.1);
    case None =>
  }

  /** Whatever fails: no chat's count is ever negative, and the total never exceeds the number of
      normal messages received. */
  lemma {:induction false} UnreadStaysBounded(h: MediaStore.Digest, root: string, ops: seq<Op>)
    ensures NonNegative(Run(h, root, INIT, ops).t.chats)
    ensures Total(Run(h, root, INIT, ops).t.chats) <= Inbound(ops)
  {
    if ops != [] {
      var init := ops[..|ops| - 1];
      UnreadStaysBounded(h, root, init);
      StepBounded(h, root, Run(h, root, INIT, init), ops[|ops| - 1]);
    }
  }

  /** CreateGroup overwrites the whole row: it keeps the total exactly if the new group's chat was
      unknown or had nothing unread. */
  lemma {:induction false} CreateGroupKeepsTotalIff(h: MediaStore.Digest, root: string, s: State, jid: string,
                                                    name: string, now: int)
    ensures
      var s' := Next(h, root, s, CreateGroup(Some((jid, name)), now, NO_FAULTS));
      Total(s'.t.chats) == Total(s.t.chats) <==> UnreadAt(s.t.chats, jid) == 0
  {
    StepConserves(h, root, s, CreateGroup(Some((jid, name)), now, NO_FAULTS));
  }

  // ---------------------------------------------------------------- the rest of a chat row

  predicate SameIdentity(a: Chat, b: Chat) {
    a.name == b.name && a.archived == b.archived && (a.kind != "" ==> b.kind == a.kind)
  }

  /** A chat keeps its name, its archived flag and its kind over any calls and events, unless a
      group is created under its id or a read of its row fails. */
  lemma {:induction false} ChatKeepsIdentity(h: MediaStore.Digest, root: string, s: State, ops: seq<Op>, jid: string)
    requires jid in s.t.chats
    requires forall i | 0 <= i < |ops| :: !FaultsOf(ops[i]).chatGet
    requires forall i | 0 <= i < |ops| ::
      ops[i].CreateGroup? && ops[i].group.Some? ==> ops[i].group.value.0 != jid
    ensures
      var t := Run(h, root, s, ops).t;
      jid in t.chats && SameIdentity(s.t.chats[jid], t.chats[jid])
  {
    if ops != [] {
      var init := ops[..|ops| - 1];
      ChatKeepsIdentity(h, root, s, init, jid);
      StepWritesOneChat(h, root, Run(h, root, s, init), ops[|ops| - 1]);
      hide Next, KindFromJID;
    }
  }
}
