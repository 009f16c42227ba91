/** QR and phone login: flows that share one lock-protected pair of fields, the goroutines behind
    their event streams, and pairing signals racing with all of them. */
module Login {
  import opened Wrappers

  /** A QREvent or PairEvent. */
  datatype Ev = Code(code: string) | Terminal(outcome: string)

  datatype Kind = QR | Phone

  /** Where a flow is. It owns the login from Calling to Resetting. */
  datatype PC =
    | Calling(left: nat)          // library calls still to return before the goroutine starts
    | Aborting                    // a call failed; the fields are about to be reset
    | Sending(code: string)       // about to send a code
    | Waiting                     // phone: in the select; QR: ranging over the library's events
    | Ending(outcome: string)     // about to send the terminal event
    | Resetting                   // the deferred reset
    | Closing                     // the deferred close
    | Done                        // stream closed
    | Failed                      // an error was returned instead of a stream

  datatype Flow = Flow(kind: Kind, pc: PC, cancelled: bool,
                       pair: seq<string>,       // the buffered pairing channel, capacity 1
                       signalled: seq<string>,  // every outcome taken for this flow's channel
                       out: seq<Ev>,            // the buffered event stream
                       sent: seq<Ev>)           // every event ever put on it

  /** The two fields guarded by the mutex; a pairing channel is named by its flow. */
  datatype Lock = Lock(inProgress: bool, pairCh: Option<nat>)

  datatype Signal = Signal(flow: nat, outcome: string)

  datatype State = State(lock: Lock, flows: seq<Flow>, inFlight: seq<Signal>, dropped: bool)

  const INIT: State := State(Lock(false, None), [], [], false)

  datatype Step =
    | Begin(kind: Kind)
    | CallReturns(id: nat, ok: bool, code: string)
    | SendCode(id: nat)
    | QREvent(id: nat, event: string, code: string)
    | QRChannelEnds(id: nat)
    | Cancel(id: nat)
    | SeesCancel(id: nat)
    | TimesOut(id: nat)
    | ReceivesOutcome(id: nat)
    | SendTerminal(id: nat)
    | Reset(id: nat)
    | Close(id: nat)
    | TakePair(outcome: string)
    | DeliverPair(k: nat)
    | Consume(id: nat)

  // ---------------------------------------------------------------- the critical sections

  /** Both logins: refuse while one is in progress; a phone login also installs its channel. */
  function Acquire(l: Lock, kind: Kind, id: nat): Lock {
    if l.inProgress then l else Lock(true, if kind.Phone? then Some(id) else l.pairCh)
  }

  function Release(l: Lock, kind: Kind): Lock {
    Lock(false, if kind.Phone? then None else l.pairCh)
  }

  // ---------------------------------------------------------------- steps

  const CAP_QR: nat := 4
  const CAP_PHONE: nat := 2

  function Capacity(kind: Kind): nat {
    if kind.QR? then CAP_QR else CAP_PHONE
  }

  function CanSend(f: Flow): bool {
    |f.out| < Capacity(f.kind)
  }

  function Put(f: Flow, e: Ev, pc: PC): Flow {
    f.(out := f.out + [e], sent := f.sent + [e], pc := pc)
  }

  function QROutcome(event: string): string {
    if event == "success" || event == "timeout" then event else "err-" + event
  }

  /** What a step does to its own flow, where it is enabled. */
  function Move(f: Flow, step: Step): Option<Flow> {
    match step
    case CallReturns(_, ok, code) =>
      if !f.pc.Calling? then None
      else if !ok then Some(f.(pc := Aborting))
      else if f.pc.left > 1 then Some(f.(pc := Calling(f.pc.left - 1)))
      else Some(f.(pc := if f.kind.Phone? then Sending(code) else Waiting))
    case SendCode(_) => if f.pc.Sending? && CanSend(f) then Some(Put(f, Code(f.pc.code), Waiting)) else None
    case QREvent(_, event, code) =>
      if !(f.kind.QR? && f.pc.Waiting?) then None
      else Some(f.(pc := if event == "code" then Sending(code) else Ending(QROutcome(event))))
    case QRChannelEnds(_) => if f.kind.QR? && f.pc.Waiting? then Some(f.(pc := Resetting)) else None
    case Cancel(_) => Some(f.(cancelled := true))
    case SeesCancel(_) =>
      if f.cancelled && (if f.kind.Phone? then f.pc.Waiting? else f.pc.Sending?)
      then Some(f.(pc := Ending("ctx-cancelled"))) else None
    case TimesOut(_) => if f.kind.Phone? && f.pc.Waiting? then Some(f.(pc := Ending("timeout"))) else None
    case ReceivesOutcome(_) =>
      if f.kind.Phone? && f.pc.Waiting? && f.pair != [] then Some(f.(pc := Ending(f.pair[0]), pair := f.pair[1..]))
      else None
    case SendTerminal(_) =>
      if f.pc.Ending? && CanSend(f) then Some(Put(f, Terminal(f.pc.outcome), Resetting)) else None
    case Close(_) => if f.pc.Closing? then Some(f.(pc := Done)) else None
    case Consume(_) => if f.out != [] then Some(f.(out := f.out[1..])) else None
    case _ => None
  }

  /** The steps that concern one flow and leave the lock alone. */
  predicate IsMove(step: Step) {
    !step.Begin? && !step.Reset? && !step.TakePair? && !step.DeliverPair?
  }

  function Fresh(kind: Kind): Flow {
    Flow(kind, Calling(2), false, [], [], [], [])
  }

  function Begins(s: State, kind: Kind): State {
    if s.lock.inProgress then s
    else s.(lock := Acquire(s.lock, kind, |s.flows|), flows := s.flows + [Fresh(kind)])
  }

  function Resets(s: State, id: nat): State {
    if id < |s.flows| && (s.flows[id].pc.Resetting? || s.flows[id].pc.Aborting?) then
      var f := s.flows[id];
      s.(lock := Release(s.lock, f.kind), flows := s.flows[id := f.(pc := if f.pc.Aborting? then Failed else Closing)])
    else s
  }

  /** The first half of signalPair: take the channel under the mutex. */
  function Takes(s: State, outcome: string): State {
    if s.lock.pairCh.Some? && s.lock.pairCh.value < |s.flows| then
      var id := s.lock.pairCh.value;
      s.(lock := s.lock.(pairCh := None), inFlight := s.inFlight + [Signal(id, outcome)],
         flows := s.flows[id := s.flows[id].(signalled := s.flows[id].signalled + [outcome])])
    else s
  }

  /** The second half: a non-blocking send to the channel that was taken. */
  function Delivers(s: State, k: nat): State {
    if k < |s.inFlight| && s.inFlight[k].flow < |s.flows| then
      var id := s.inFlight[k].flow;
      var f := s.flows[id];
      var rest := s.inFlight[..k] + s.inFlight[k + 1..];
      if |f.pair| < 1 then s.(inFlight := rest, flows := s.flows[id := f.(pair := f.pair + [s.inFlight[k].outcome])])
      else s.(inFlight := rest, dropped := true)
    else s
  }

  function Moves(s: State, id: nat, step: Step): State {
    if id < |s.flows| && Move(s.flows[id], step).Some? then s.(flows := s.flows[id := Move(s.flows[id], step).value])
    else s
  }

  function Next(s: State, step: Step): State {
    match step
    case Begin(kind) => Begins(s, kind)
    case Reset(id) => Resets(s, id)
    case TakePair(outcome) => Takes(s, outcome)
    case DeliverPair(k) => Delivers(s, k)
    case _ => Moves(s, step.id, step)
  }

  function Run(s: State, steps: seq<Step>): State {
    if steps == [] then s else Next(Run(s, steps[..|steps| - 1]), steps[|steps| - 1])
  }

  // ---------------------------------------------------------------- invariant of one flow

  predicate Owns(f: Flow) {
    !f.pc.Closing? && !f.pc.Done? && !f.pc.Failed?
  }

  /** What a phone stream holds at each point: nothing, its one code, or code and terminal. */
  ghost predicate PhoneShape(f: Flow) {
    match f.pc
    case Calling(_) => f.sent == []
    case Aborting => f.sent == []
    case Failed => f.sent == []
    case Sending(_) => f.sent == []
    case Waiting => |f.sent| == 1 && f.sent[0].Code?
    case Ending(o) => |f.sent| == 1 && f.sent[0].Code? && IsOutcome(f, o)
    case _ => |f.sent| == 2 && f.sent[0].Code? && f.sent[1].Terminal? && IsOutcome(f, f.sent[1].outcome)
  }

  /** A terminal outcome of a phone login is its own cancellation, its own timeout, or the one
      outcome signalled while it was current. */
  ghost predicate IsOutcome(f: Flow, outcome: string) {
    outcome == "timeout" || (outcome == "ctx-cancelled" && f.cancelled) || f.signalled == [outcome]
  }

  /** A QR stream: codes, and at most one terminal event, after which nothing follows. */
  ghost predicate QRShape(f: Flow) {
    var ended := f.pc.Resetting? || f.pc.Closing? || f.pc.Done?;
    forall i | 0 <= i < if ended then |f.sent| - 1 else |f.sent| :: f.sent[i].Code?
  }

  ghost predicate FlowInv(f: Flow) {
    && |f.signalled| <= 1
    && (f.pair != [] ==> f.pair == f.signalled)
    && (f.kind.Phone? ==> PhoneShape(f) && |f.out| <= |f.sent|)
    && (f.kind.QR? ==> QRShape(f) && f.signalled == [])
    && |f.out| <= Capacity(f.kind)
  }

  lemma {:induction false} PhoneMoveKeeps(f: Flow, step: Step)
    requires f.kind.Phone? && FlowInv(f) && Move(f, step).Some?
    ensures FlowInv(Move(f, step).value)
  {
  }

  lemma {:induction false} QRMoveKeeps(f: Flow, step: Step)
    requires f.kind.QR? && FlowInv(f) && Move(f, step).Some?
    ensures FlowInv(Move(f, step).value)
  {
  }

  lemma {:induction false} MoveKeepsFlow(f: Flow, step: Step)
    requires FlowInv(f) && Move(f, step).Some?
    ensures
      var f' := Move(f, step).value;
      && FlowInv(f') && f'.kind == f.kind && f'.signalled == f.signalled
      && (Owns(f') <==> Owns(f)) && (f.pair == [] ==> f'.pair == [])
  {
    if f.kind.Phone? { PhoneMoveKeeps(f, step); } else { QRMoveKeeps(f, step); }
    hide FlowInv;
  }

  // ---------------------------------------------------------------- invariant of the system

  /** The login is owned by the newest flow or by nobody, and the flag says which. */
  ghost predicate OneOwner(s: State) {
    && (forall id | 0 <= id < |s.flows| && Owns(s.flows[id]) :: s.lock.inProgress && id == |s.flows| - 1)
    && (s.lock.inProgress ==> s.flows != [] && Owns(s.flows[|s.flows| - 1]))
  }

  /** The installed channel is that of the current phone flow, and still unused. */
  ghost predicate CurrentChannel(s: State) {
    s.lock.pairCh.Some? ==>
      && s.lock.inProgress && s.flows != [] && s.lock.pairCh.value == |s.flows| - 1
      && s.flows[|s.flows| - 1].kind.Phone? && s.flows[|s.flows| - 1].signalled == []
  }

  /** A signal in flight is the only one its channel will ever get. */
  ghost predicate SignalsFit(s: State) {
    && (forall k | 0 <= k < |s.inFlight| ::
          && s.inFlight[k].flow < |s.flows|
          && s.flows[s.inFlight[k].flow].signalled == [s.inFlight[k].outcome]
          && s.flows[s.inFlight[k].flow].pair == [])
    && (forall j, k | 0 <= j < k < |s.inFlight| :: s.inFlight[j].flow != s.inFlight[k].flow)
  }

  ghost predicate Inv(s: State) {
    && (forall id | 0 <= id < |s.flows| :: FlowInv(s.flows[id]))
    && OneOwner(s) && CurrentChannel(s) && SignalsFit(s) && !s.dropped
  }

  lemma {:induction false} BeginKeeps(s: State, kind: Kind)
    requires Inv(s)
    ensures Inv(Begins(s, kind))
  {
    hide Capacity;
    assert !s.lock.inProgress ==> s.lock.pairCh.None?;
  }

  lemma {:induction false} ResetKeeps(s: State, id: nat)
    requires Inv(s)
    ensures Inv(Resets(s, id))
  {
    hide Capacity;
  }

  lemma {:induction false} TakeKeeps(s: State, outcome: string)
    requires Inv(s)
    ensures Inv(Takes(s, outcome))
  {
    hide Capacity;
  }

  lemma {:induction false} DeliverKeeps(s: State, k: nat)
    requires Inv(s)
    ensures Inv(Delivers(s, k))
  {
    hide Capacity;
  }

  lemma {:induction false} MoveKeeps(s: State, id: nat, step: Step)
    requires Inv(s)
    ensures Inv(Moves(s, id, step))
  {
    if id < |s.flows| && Move(s.flows[id], step).Some? {
      MoveKeepsFlow(s.flows[id], step);
      hide Move, FlowInv, Owns;
    }
  }

  lemma {:induction false} StepKeepsInv(s: State, step: Step)
    requires Inv(s)
    ensures Inv(Next(s, step))
  {
    hide Inv, Begins, Resets, Takes, Delivers, Moves;
    match step
    case Begin(kind) => BeginKeeps(s, kind);
    case Reset(id) => ResetKeeps(s, id);
    case TakePair(outcome) => TakeKeeps(s, outcome);
    case DeliverPair(k) => DeliverKeeps(s, k);
    case _ => MoveKeeps(s, step.id, step);
  }

  lemma {:induction false} RunKeepsInv(steps: seq<Step>)
    ensures Inv(Run(INIT, steps))
  {
    if steps != [] {
      RunKeepsInv(steps[..|steps| - 1]);
      StepKeepsInv(Run(INIT, steps[..|steps| - 1]), steps[|steps| - 1]);
    }
  }

  // ---------------------------------------------------------------- what follows

  ghost predicate IsOwner(s: State, id: nat) {
    id < |s.flows| && Owns(s.flows[id])
  }

  /** In every interleaving: a login is in progress exactly while some flow owns it, and never two
      flows own it. */
  lemma {:induction false} ExactlyOneOwner(steps: seq<Step>)
    ensures
      var s := Run(INIT, steps);
      && (s.lock.inProgress <==> exists id :: IsOwner(s, id))
      && (forall a, b | IsOwner(s, a) && IsOwner(s, b) :: a == b)
  {
    RunKeepsInv(steps);
    var s := Run(INIT, steps);
    assert s.lock.inProgress ==> IsOwner(s, |s.flows| - 1);
  }

  /** The installed channel is nil or belongs to the phone flow that owns the login; no channel
      ever gets a second outcome, so the drop branch of signalPair is never taken. */
  lemma {:induction false} AtMostOneSignal(steps: seq<Step>, id: nat)
    ensures
      var s := Run(INIT, steps);
      && (s.lock.pairCh.Some? ==> IsOwner(s, s.lock.pairCh.value) && s.flows[s.lock.pairCh.value].kind.Phone?)
      && (id < |s.flows| ==> |s.flows[id].signalled| <= 1)
      && !s.dropped
  {
    RunKeepsInv(steps);
  }

  /** Only taking a signal records an outcome, and it does so for the flow that is current then. */
  lemma {:induction false} SignalsGoToCurrentFlow(steps: seq<Step>, step: Step, id: nat)
    ensures
      var s := Run(INIT, steps);
      var s' := Next(s, step);
      id < |s.flows| && s'.flows[id].signalled != s.flows[id].signalled ==>
        step.TakePair? && IsOwner(s, id) && s.lock.pairCh == Some(id)
        && s'.flows[id].signalled == [step.outcome]
  {
    RunKeepsInv(steps);
    var s := Run(INIT, steps);
    hide Run;
    if IsMove(step) && step.id < |s.flows| && Move(s.flows[step.id], step).Some? {
      MoveKeepsFlow(s.flows[step.id], step);
      hide Move;
    }
    hide FlowInv;
  }

  /** A started phone stream, once closed, is one code and then one terminal event, whose outcome
      is its own cancellation or timeout or the outcome signalled while it was current. */
  lemma {:induction false} PhoneStreamShape(steps: seq<Step>, id: nat)
    requires id < |Run(INIT, steps).flows| && Run(INIT, steps).flows[id].kind.Phone?
    requires Run(INIT, steps).flows[id].pc.Done?
    ensures
      var f := Run(INIT, steps).flows[id];
      && |f.sent| == 2 && f.sent[0].Code? && f.sent[1].Terminal?
      && (|| f.sent[1].outcome == "timeout"
          || (f.sent[1].outcome == "ctx-cancelled" && f.cancelled)
          || f.signalled == [f.sent[1].outcome])
  {
    RunKeepsInv(steps);
  }

  /** A phone flow never blocks: whatever its consumer does, a pending send can be made at once. */
  lemma {:induction false} PhoneNeverBlocks(steps: seq<Step>, id: nat)
    requires id < |Run(INIT, steps).flows| && Run(INIT, steps).flows[id].kind.Phone?
    ensures
      var s := Run(INIT, steps);
      && (s.flows[id].pc.Sending? ==> Next(s, SendCode(id)).flows[id].pc.Waiting?)
      && (s.flows[id].pc.Ending? ==> Next(s, SendTerminal(id)).flows[id].pc.Resetting?)
  {
    RunKeepsInv(steps);
    hide Run;
  }

  ghost predicate UnreadIsEnd(f: Flow) {
    |f.out| <= |f.sent| && f.out == f.sent[|f.sent| - |f.out|..]
  }

  lemma {:induction false} StepKeepsUnread(s: State, step: Step)
    requires forall id | 0 <= id < |s.flows| :: UnreadIsEnd(s.flows[id])
    ensures forall id | 0 <= id < |Next(s, step).flows| :: UnreadIsEnd(Next(s, step).flows[id])
  {
    if IsMove(step) {
      hide Moves, UnreadIsEnd;
      MovesKeepUnread(s, step.id, step);
    } else {
      OthersKeepStreams(s, step);
      hide Next;
    }
  }

  /** The other steps put nothing on a stream and take nothing off one; a new flow's is empty. */
  lemma {:induction false} OthersKeepStreams(s: State, step: Step)
    requires !IsMove(step)
    ensures |Next(s, step).flows| >= |s.flows|
    ensures forall id | 0 <= id < |Next(s, step).flows| ::
      && Next(s, step).flows[id].out == (if id < |s.flows| then s.flows[id].out else [])
      && Next(s, step).flows[id].sent == (if id < |s.flows| then s.flows[id].sent else [])
  {
  }

  lemma {:induction false} MovesKeepUnread(s: State, id: nat, step: Step)
    requires forall other | 0 <= other < |s.flows| :: UnreadIsEnd(s.flows[other])
    ensures forall other | 0 <= other < |Moves(s, id, step).flows| :: UnreadIsEnd(Moves(s, id, step).flows[other])
  {
    hide UnreadIsEnd, Move;
    if id < |s.flows| && Move(s.flows[id], step).Some? { MoveKeepsUnread(s.flows[id], step); }
  }

  lemma {:induction false} MoveKeepsUnread(f: Flow, step: Step)
    requires UnreadIsEnd(f) && Move(f, step).Some?
    ensures UnreadIsEnd(Move(f, step).value)
  {
  }

  /** A consumer reads every event in the order it was sent: what is left unread is the end of the stream. */
  lemma {:induction false} ReadInOrder(steps: seq<Step>)
    ensures forall id | 0 <= id < |Run(INIT, steps).flows| ::
      var f := Run(INIT, steps).flows[id];
      |f.out| <= |f.sent| && f.out == f.sent[|f.sent| - |f.out|..]
  {
    if steps != [] {
      ReadInOrder(steps[..|steps| - 1]);
      var s := Run(INIT, steps[..|steps| - 1]);
      assert forall id | 0 <= id < |s.flows| :: UnreadIsEnd(s.flows[id]);
      StepKeepsUnread(s, steps[|steps| - 1]);
      assert forall id | 0 <= id < |Run(INIT, steps).flows| :: UnreadIsEnd(Run(INIT, steps).flows[id]);
      hide Next;
    }
  }

  /** A QR stream has at most one terminal event, and nothing after it. */
  lemma {:induction false} QRTerminalIsLast(steps: seq<Step>, id: nat, i: nat)
    requires id < |Run(INIT, steps).flows| && Run(INIT, steps).flows[id].kind.QR?
    requires i < |Run(INIT, steps).flows[id].sent| && Run(INIT, steps).flows[id].sent[i].Terminal?
    ensures
      var f := Run(INIT, steps).flows[id];
      i == |f.sent| - 1 && (f.pc.Resetting? || f.pc.Closing? || f.pc.Done?)
  {
    RunKeepsInv(steps);
    hide Run;
    assert QRShape(Run(INIT, steps).flows[id]);
  }

  // ---------------------------------------------------------------- where events come from

  /** This step is what flow `id` sends the event for. */
  predicate Explains(step: Step, kind: Kind, id: nat, e: Ev) {
    match e
    case Code(code) =>
      if kind.QR? then step == QREvent(id, "code", code) else step == CallReturns(id, true, code)
    case Terminal(outcome) =>
      || (outcome == "ctx-cancelled" && step == Cancel(id))
      || (kind.Phone? && (step == TakePair(outcome) || (outcome == "timeout" && step == TimesOut(id))))
      || (kind.QR? && step.QREvent? && step.id == id && step.event != "code"
          && outcome == if step.event == "success" then "success"
                        else if step.event == "timeout" then "timeout" else "err-" + step.event)
  }

  ghost predicate Explained(steps: seq<Step>, kind: Kind, id: nat, e: Ev) {
    exists k | 0 <= k < |steps| :: Explains(steps[k], kind, id, e)
  }

  ghost predicate FlowExplained(steps: seq<Step>, id: nat, f: Flow) {
    && (forall i | 0 <= i < |f.sent| :: Explained(steps, f.kind, id, f.sent[i]))
    && (f.pc.Sending? ==> Explained(steps, f.kind, id, Code(f.pc.code)))
    && (f.pc.Ending? ==> Explained(steps, f.kind, id, Terminal(f.pc.outcome)))
    && (f.cancelled ==> Cancel(id) in steps)
    && (forall i | 0 <= i < |f.pair| :: TakePair(f.pair[i]) in steps)
  }

  ghost predicate AllExplained(steps: seq<Step>, s: State) {
    && (forall id | 0 <= id < |s.flows| :: FlowExplained(steps, id, s.flows[id]))
    && (forall k | 0 <= k < |s.inFlight| :: TakePair(s.inFlight[k].outcome) in steps)
  }

  lemma {:induction false} StillExplained(steps: seq<Step>, step: Step, id: nat, f: Flow)
    requires FlowExplained(steps, id, f)
    ensures FlowExplained(steps + [step], id, f)
  {
    var all := steps + [step];
    forall e | Explained(steps, f.kind, id, e) ensures Explained(all, f.kind, id, e) {
      var k :| 0 <= k < |steps| && Explains(steps[k], f.kind, id, e);
      assert Explains(all[k], f.kind, id, e);
    }
    hide Explained;
  }

  lemma {:induction false} ExplainedBy(steps: seq<Step>, step: Step, kind: Kind, id: nat, e: Ev)
    requires step in steps && Explains(step, kind, id, e)
    ensures Explained(steps, kind, id, e)
  {
    var k :| 0 <= k < |steps| && steps[k] == step;
  }

  lemma {:induction false} MoveExplained(steps: seq<Step>, step: Step, id: nat, f: Flow)
    requires FlowExplained(steps, id, f) && step in steps && IsMove(step) && step.id == id && Move(f, step).Some?
    ensures FlowExplained(steps, id, Move(f, step).value)
  {
    var f' := Move(f, step).value;
    if f'.pc.Sending? && !f.pc.Sending? { ExplainedBy(steps, step, f.kind, id, Code(f'.pc.code)); }
    if f'.pc.Ending? && f'.pc != f.pc {
      var cause := match step
        case SeesCancel(_) => Cancel(id)
        case ReceivesOutcome(_) => TakePair(f.pair[0])
        case _ => step;
      ExplainedBy(steps, cause, f.kind, id, Terminal(f'.pc.outcome));
    }
    hide Explained, Explains;
  }

  lemma {:induction false} AllStillExplained(steps: seq<Step>, s: State, step: Step)
    requires AllExplained(steps, s)
    ensures AllExplained(steps + [step], s)
  {
    forall id | 0 <= id < |s.flows| ensures FlowExplained(steps + [step], id, s.flows[id]) {
      StillExplained(steps, step, id, s.flows[id]);
    }
    hide FlowExplained;
  }

  lemma {:induction false} StepExplained(steps: seq<Step>, s: State, step: Step)
    requires AllExplained(steps, s) && step in steps
    ensures AllExplained(steps, Next(s, step))
  {
    if IsMove(step) {
      if step.id < |s.flows| && Move(s.flows[step.id], step).Some? {
        MoveExplained(steps, step, step.id, s.flows[step.id]);
      }
      hide FlowExplained, Move;
    } else {
      hide Explained;
    }
  }

  /** Every event a login ever sends has its cause in the run: a QR code is one the library gave, a phone
      login's is the pair code its last call returned; an outcome is what the library said, what a pairing
      signal carried, a cancellation that was asked for, or a timeout that passed. */
  lemma {:induction false} EventsHaveCauses(steps: seq<Step>, id: nat, i: nat)
    requires id < |Run(INIT, steps).flows| && i < |Run(INIT, steps).flows[id].sent|
    ensures
      var f := Run(INIT, steps).flows[id];
      exists k | 0 <= k < |steps| :: Explains(steps[k], f.kind, id, f.sent[i])
  {
    RunExplained(steps);
    assert FlowExplained(steps, id, Run(INIT, steps).flows[id]);
    assert Explained(steps, Run(INIT, steps).flows[id].kind, id, Run(INIT, steps).flows[id].sent[i]);
  }

  lemma {:induction false} NothingToExplain()
    ensures AllExplained([], INIT)
  {
  }

  lemma {:induction false} RunExplained(steps: seq<Step>)
    ensures AllExplained(steps, Run(INIT, steps))
  {
    hide AllExplained, Next;
    if steps == [] {
      NothingToExplain();
    } else {
      var n := |steps| - 1;
      RunExplained(steps[..n]);
      assert steps[..n] + [steps[n]] == steps;
      AllStillExplained(steps[..n], Run(INIT, steps[..n]), steps[n]);
      StepExplained(steps, Run(INIT, steps[..n]), steps[n]);
    }
  }

  /** And a QR login passes on what the library gives it: with room in its stream, the two steps that
      handle an event put exactly that event on it. */
  lemma {:induction false} LibraryEventIsSent(s: State, id: nat, event: string, code: string)
    requires id < |s.flows| && s.flows[id].kind.QR? && s.flows[id].pc.Waiting? && |s.flows[id].out| < 4
    ensures
      var handled := Next(s, QREvent(id, event, code));
      var s' := Next(handled, if event == "code" then SendCode(id) else SendTerminal(id));
      && s'.flows[id].sent == s.flows[id].sent + [
           if event == "code" then Code(code)
           else if event == "success" then Terminal("success")
           else if event == "timeout" then Terminal("timeout")
           else Terminal("err-" + event)]
      && (if event == "code" then s'.flows[id].pc.Waiting? else s'.flows[id].pc.Resetting?)
  {
    var handled := Next(s, QREvent(id, event, code));
    assert handled.flows[id] == s.flows[id].(pc := if event == "code" then Sending(code) else Ending(QROutcome(event)));
  }

  // ---------------------------------------------------------------- a QR login can get stuck

  /** A QR flow with an event to send, a code or the terminal one, and no room for it. */
  ghost predicate Stuck(s: State, id: nat) {
    && id < |s.flows| && s.flows[id].kind.QR? && !CanSend(s.flows[id])
    && (s.flows[id].pc.Sending? || s.flows[id].pc.Ending?)
  }

  /** A run in which the consumer of flow `id` reads nothing. */
  predicate Unread(steps: seq<Step>, id: nat) {
    forall i | 0 <= i < |steps| :: steps[i] != Consume(id)
  }

  /** Such a run takes the login away from its owner. */
  ghost predicate EndsUnread(s: State, steps: seq<Step>, id: nat) {
    Unread(steps, id) && !IsOwner(Run(s, steps), id)
  }

  /** Only the consumer can free a stuck flow: a cancellation, for one, leaves it stuck. */
  lemma {:induction false} OnlyConsumerFrees(s: State, step: Step, id: nat)
    requires Inv(s) && Stuck(s, id)
    ensures Stuck(Next(s, step), id) <==> step != Consume(id)
  {
    assert |s.flows[id].out| == CAP_QR;
    hide Inv, FlowInv;
  }

  lemma {:induction false} StuckWhileUnread(s: State, steps: seq<Step>, id: nat)
    requires Inv(s) && Stuck(s, id) && Unread(steps, id)
    ensures Inv(Run(s, steps)) && Stuck(Run(s, steps), id)
  {
    if steps != [] {
      var n := |steps| - 1;
      StuckWhileUnread(s, steps[..n], id);
      StepKeepsInv(Run(s, steps[..n]), steps[n]);
      OnlyConsumerFrees(Run(s, steps[..n]), steps[n], id);
    }
  }

  /** The reset, for a flow that is about to make it. */
  lemma {:induction false} ResetEnds(s: State, id: nat)
    requires id < |s.flows| && (s.flows[id].pc.Resetting? || s.flows[id].pc.Aborting?)
    ensures EndsUnread(s, [Reset(id)], id)
  {
    RunSnoc(s, [], Reset(id));
    assert [] + [Reset(id)] == [Reset(id)] && Run(s, []) == s;
  }

  /** A run that begins with one more step. */
  lemma {:induction false} EndsAfter(s: State, step: Step, rest: seq<Step>, id: nat)
    requires step != Consume(id) && EndsUnread(Next(s, step), rest, id)
    ensures EndsUnread(s, [step] + rest, id)
  {
    RunFirst(s, step, rest);
  }

  lemma {:induction false} RunFirst(s: State, step: Step, rest: seq<Step>)
    ensures Run(s, [step] + rest) == Run(Next(s, step), rest)
    decreases |rest|
  {
    var all := [step] + rest;
    if rest == [] {
      assert all[..0] == [] && all[0] == step;
    } else {
      var n := |rest| - 1;
      RunFirst(s, step, rest[..n]);
      assert all[..|all| - 1] == [step] + rest[..n];
    }
  }

  /** A QR flow that is waiting for the library ends when the library closes its channel. */
  lemma {:induction false} WaitingEnds(s: State, id: nat) returns (steps: seq<Step>)
    requires id < |s.flows| && s.flows[id].kind.QR? && s.flows[id].pc.Waiting?
    ensures EndsUnread(s, steps, id)
  {
    var s' := Next(s, QRChannelEnds(id));
    ResetEnds(s', id);
    EndsAfter(s, QRChannelEnds(id), [Reset(id)], id);
    steps := [QRChannelEnds(id)] + [Reset(id)];
  }

  /** A QR flow that is not stuck can end without its consumer, wherever it is: a call fails, or
      its pending event is sent, the library's channel ends, and the reset follows. */
  lemma {:induction false} EndsUnlessStuck(s: State, id: nat) returns (steps: seq<Step>)
    requires IsOwner(s, id) && s.flows[id].kind.QR? && !Stuck(s, id)
    ensures EndsUnread(s, steps, id)
  {
    hide EndsUnread;
    match s.flows[id].pc
    case Calling(_) =>
      ResetEnds(Next(s, CallReturns(id, false, "")), id);
      EndsAfter(s, CallReturns(id, false, ""), [Reset(id)], id);
      steps := [CallReturns(id, false, "")] + [Reset(id)];
    case Sending(_) =>
      steps := WaitingEnds(Next(s, SendCode(id)), id);
      EndsAfter(s, SendCode(id), steps, id);
      steps := [SendCode(id)] + steps;
    case Waiting =>
      steps := WaitingEnds(s, id);
    case Ending(_) =>
      ResetEnds(Next(s, SendTerminal(id)), id);
      EndsAfter(s, SendTerminal(id), [Reset(id)], id);
      steps := [SendTerminal(id)] + [Reset(id)];
    case Aborting =>
      ResetEnds(s, id);
      steps := [Reset(id)];
    case Resetting =>
      ResetEnds(s, id);
      steps := [Reset(id)];
  }

  /** Exactly when a QR login depends on its consumer: without another read some run still ends it
      if and only if it is not stuck now. */
  lemma {:induction false} EndsUnreadIff(s: State, id: nat)
    requires Inv(s) && IsOwner(s, id) && s.flows[id].kind.QR?
    ensures (exists steps :: EndsUnread(s, steps, id)) <==> !Stuck(s, id)
  {
    if Stuck(s, id) {
      forall steps | Unread(steps, id)
        ensures !EndsUnread(s, steps, id)
      {
        StuckWhileUnread(s, steps, id);
      }
    } else {
      var steps := EndsUnlessStuck(s, id);
    }
  }

  /** A phone login never depends on its consumer: from anywhere some run ends it without a read. */
  lemma {:induction false} PhoneEndsUnread(s: State, id: nat) returns (steps: seq<Step>)
    requires Inv(s) && IsOwner(s, id) && s.flows[id].kind.Phone?
    ensures EndsUnread(s, steps, id)
    decreases match s.flows[id].pc case Sending(_) => 3 case Waiting => 2 case Ending(_) => 1 case _ => 0
  {
    hide EndsUnread;
    var pc := s.flows[id].pc;
    if pc.Calling? {
      ResetEnds(Next(s, CallReturns(id, false, "")), id);
      EndsAfter(s, CallReturns(id, false, ""), [Reset(id)], id);
      steps := [CallReturns(id, false, "")] + [Reset(id)];
    } else if pc.Aborting? || pc.Resetting? {
      ResetEnds(s, id);
      steps := [Reset(id)];
    } else {
      var step := if pc.Sending? then SendCode(id) else if pc.Waiting? then TimesOut(id) else SendTerminal(id);
      StepKeepsInv(s, step);
      assert FlowInv(s.flows[id]);
      hide Inv;
      steps := PhoneEndsUnread(Next(s, step), id);
      EndsAfter(s, step, steps, id);
      steps := [step] + steps;
    }
  }

  /** So from a stuck state, while the consumer is gone, the login stays in progress and no further
      flow ever starts. */
  lemma {:induction false} StuckForever(s: State, steps: seq<Step>, id: nat)
    requires Inv(s) && Stuck(s, id) && Unread(steps, id)
    ensures IsOwner(Run(s, steps), id) && Run(s, steps).lock.inProgress
    ensures |Run(s, steps).flows| == |s.flows|
  {
    EndsUnreadIff(s, id);
    assert !EndsUnread(s, steps, id);
    StuckWhileUnread(s, steps, id);
    var s' := Run(s, steps);
    assert OneOwner(s) && OneOwner(s');
    assert id == |s.flows| - 1 by { assert Owns(s.flows[id]); }
    assert id == |s'.flows| - 1 by { assert Owns(s'.flows[id]); }
  }

  /** Four unread codes and a fifth are enough to reach such a state, nothing being cancelled; a
      cancellation on top, or any outcome instead of the fifth code, is stuck as well. */
  lemma {:induction false} StuckIsReachable(code: string, event: string)
    ensures exists steps :: StuckAt(Run(INIT, steps), Sending(code), false)
    ensures exists steps :: StuckAt(Run(INIT, steps), Ending("ctx-cancelled"), true)
    ensures event != "code" ==> exists steps :: StuckAt(Run(INIT, steps), Ending(QROutcome(event)), false)
  {
    var filled := UnreadCodes(code, CAP_QR);
    var s := Run(INIT, filled);
    var fifth := filled + [QREvent(0, "code", code)];
    RunSnoc(INIT, filled, QREvent(0, "code", code));
    RunSnoc(INIT, fifth, Cancel(0));
    RunSnoc(INIT, fifth + [Cancel(0)], SeesCancel(0));
    RunSnoc(INIT, filled, QREvent(0, event, code));
    hide Run;
    var s1 := Next(s, QREvent(0, "code", code));
    assert s1.flows[0] == s.flows[0].(pc := Sending(code));
    var s2 := Next(s1, Cancel(0));
    assert s2.flows[0] == s1.flows[0].(cancelled := true);
    assert StuckAt(Run(INIT, fifth), Sending(code), false);
    assert StuckAt(Run(INIT, fifth + [Cancel(0)] + [SeesCancel(0)]), Ending("ctx-cancelled"), true);
    assert event != "code" ==>
      StuckAt(Run(INIT, filled + [QREvent(0, event, code)]), Ending(QROutcome(event)), false);
  }

  /** Flow 0 is stuck at this point, with four events unread. */
  ghost predicate StuckAt(s: State, pc: PC, cancelled: bool) {
    Stuck(s, 0) && |s.flows[0].out| == 4 && s.flows[0].pc == pc && s.flows[0].cancelled == cancelled
  }

  lemma {:induction false} RunSnoc(s: State, steps: seq<Step>, step: Step)
    ensures Run(s, steps + [step]) == Next(Run(s, steps), step)
  {
    assert (steps + [step])[..|steps|] == steps;
  }

  /** Any number of codes, up to the capacity, can sit unread in the buffer. */
  lemma {:induction false} UnreadCodes(code: string, n: nat) returns (steps: seq<Step>)
    requires n <= CAP_QR
    ensures
      var s := Run(INIT, steps);
      && |s.flows| == 1 && s.flows[0].kind.QR? && s.flows[0].pc.Waiting? && !s.flows[0].cancelled
      && |s.flows[0].out| == n
  {
    if n == 0 {
      steps := [Begin(QR)] + [CallReturns(0, true, "")] + [CallReturns(0, true, "")];
      RunSnoc(INIT, [], Begin(QR));
      assert [] + [Begin(QR)] == [Begin(QR)];
      RunSnoc(INIT, [Begin(QR)], CallReturns(0, true, ""));
      RunSnoc(INIT, [Begin(QR)] + [CallReturns(0, true, "")], CallReturns(0, true, ""));
      assert Run(INIT, []) == INIT;
      hide Run;
      assert Next(INIT, Begin(QR)).flows == [Fresh(QR)];
    } else {
      var fewer := UnreadCodes(code, n - 1);
      steps := fewer + [QREvent(0, "code", code)] + [SendCode(0)];
      var s := Run(INIT, fewer);
      RunSnoc(INIT, fewer, QREvent(0, "code", code));
      RunSnoc(INIT, fewer + [QREvent(0, "code", code)], SendCode(0));
      hide Run;
      var s1 := Next(s, QREvent(0, "code", code));
      assert s1.flows[0] == s.flows[0].(pc := Sending(code));
    }
  }

  // ---------------------------------------------------------------- the adapter's fields

  /** The adapter's critical sections, each holding the mutex throughout. */
  class Adapter {
    var loginInProgress: bool
    var pairCh: Option<nat>

    constructor ()
      ensures View() == INIT.lock
    {
      loginInProgress, pairCh := false, None;
    }

    ghost function View(): Lock
      reads this
    {
      Lock(loginInProgress, pairCh)
    }

    /** The start of both logins; `id` names the flow, and with it the channel a phone login makes. */
    method TryBegin(kind: Kind, id: nat) returns (ok: bool)
      modifies this
      ensures ok == !old(loginInProgress)
      ensures View() == Acquire(old(View()), kind, id)
      ensures loginInProgress && pairCh == if ok && kind.Phone? then Some(id) else old(pairCh)
    {
      if loginInProgress {
        return false;
      }
      loginInProgress := true;
      if kind.Phone? {
        pairCh := Some(id);
      }
      ok := true;
    }

    /** The reset on every exit. */
    method End(kind: Kind)
      modifies this
      ensures View() == Release(old(View()), kind)
      ensures !loginInProgress && pairCh == if kind.Phone? then None else old(pairCh)
    {
      loginInProgress := false;
      if kind.Phone? {
        pairCh := None;
      }
    }

    /** The first half of signalPair. */
    method Take() returns (ch: Option<nat>)
      modifies this`pairCh
      ensures ch == old(pairCh) && View() == old(View()).(pairCh := None)
    {
      ch := pairCh;
      pairCh := None;
    }
  }
}
