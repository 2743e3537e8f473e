/**
  The lifecycle engine as a state machine over one shared journal.

  Every claim starts a worker, named by its fencing token. A worker advances one program
  point at a time and touches the journal only through one store method per step, so any
  interleaving of any number of processes is a sequence of actions. A crashed or stalled
  worker is one that no later action schedules. The wallet's answers are part of the action:
  the wallet may answer anything.
 */
module Engine {
  import opened Prelude
  import opened J = Journal

  datatype RawExecution = Execution(
    phase: Phase, evidenceCode: Option<string>, event: string, amount: Option<nat>,
    material: Option<string>, handoff: Option<Handoff>)

  /** The constructors of an execution produce these four phases only. */
  type Execution = e: RawExecution | e.phase.Terminal() || e.phase == Ambiguous
    witness Execution(Ambiguous, None, "", None, None, None)

  datatype Pc =
    | ReadInput
    | ReadOperation
    | ClaimWallet
    | ReadMaterial
    | PutReconciling(fromPrepared: bool)
    | CallPrepare
    | PutRefused(refusal: Execution)
    | PutPrepared
    | PutSubmitted
    | CallExecute
    | AwaitWallet
    | AwaitReconcile
    | Finish(execution: Execution)
    | Releasing
    | Gone

  /** History: where and with what stored material the right to execute was persisted. */
  datatype Authority = Authority(generation: nat, stored: Option<string>)

  datatype Worker = Worker(
    owner: Owner, id: OperationId, recovery: bool, pc: Pc, input: Input, operation: Operation,
    material: Option<string>, authority: Option<Authority>)

  datatype Stage = NeedGeneration | HasGeneration(generation: nat) | MustRelease | Ended

  datatype Resetter = Resetter(owner: Owner, stage: Stage)

  /** History: one `execute_prepared` call on the wallet. */
  datatype WalletCall = WalletCall(id: OperationId, token: nat, material: Option<string>, authority: Option<Authority>)

  datatype State = State(
    db: Db, workers: map<nat, Worker>, resetters: map<nat, Resetter>, calls: seq<WalletCall>)

  const InitialState := State(EmptyDb, map[], map[], [])

  datatype Answer = PreparedWith(material: Option<string>) | Executed(execution: Execution)

  datatype Action =
    | Start(owner: Owner, input: Input, intentHash: string, now: nat)
    | Resume(owner: Owner, id: OperationId, now: nat)
    | Work(token: nat, answer: Answer, now: nat)
    | Renew(token: nat, now: nat)
    | StartReset(owner: Owner, now: nat)
    | WorkReset(token: nat, seed: string, walletReset: bool, now: nat)
    | RenewReset(token: nat, now: nat)
    | ClaimHandoff(consumer: string, now: nat)
    | AcknowledgeHandoff(id: OperationId, tokenHash: string, consumer: string, token: nat, now: nat)
    | ReleaseHandoff(id: OperationId, consumer: string, token: nat, now: nat)

  function CreatedOperation(input: Input, intentHash: string): Operation {
    Operation(input.operationId, input.kind, intentHash, Created, None, input.amount)
  }

  function NewWorker(owner: Owner, id: OperationId, recovery: bool): Worker {
    Worker(owner, id, recovery, ReadInput, Input(id, Mint, None, None, ""),
           Operation(id, Mint, "", Created, None, None), None, None)
  }

  /** A failure seen right after submission is only ambiguous. */
  function RequireReconcile(e: Execution): Execution {
    if e.phase == FailedDefinitive || e.phase == RecoveryBlocked then
      e.(phase := Ambiguous, evidenceCode := Some("submitted_failure_requires_reconcile"),
         event := "submitted_failure_requires_reconcile", amount := None, handoff := None)
    else e
  }

  function EvidenceSource(event: string): string {
    if event == "melt_settlement_verified" || event == "melt_settlement_verified_legacy" then "lightning" else "adapter"
  }

  function EvidenceHash(operation: Operation): EvidenceDigest {
    EvidenceDigest(
      operation.operationId, operation.kind, operation.phase,
      if operation.amount.Some? then operation.amount.value else 0,
      if operation.evidenceCode.Some? then operation.evidenceCode.value else "")
  }

  function Settled(operation: Operation, e: Execution): Execution {
    if operation.phase == Submitted then RequireReconcile(e) else e
  }

  function Outcome(operation: Operation, e: Execution): Operation {
    operation.(phase := e.phase, evidenceCode := e.evidenceCode, amount := Coalesce(e.amount, operation.amount))
  }

  /** `finish_execution`: the single commit that publishes a result. */
  function FinishExecution(db: Db, w: Worker, execution: Execution, token: nat, now: nat): Reply<()> {
    var e := Settled(w.operation, execution);
    var operation := Outcome(w.operation, e);
    var evidence := Evidence(operation.operationId, EvidenceSource(e.event), e.event, EvidenceHash(operation));
    Commit(db, w.owner, operation, e.material, EffectId(operation.operationId, e.event), evidence, e.handoff, token, now)
  }

  /** What a worker does once its material is read. */
  function Dispatch(w: Worker): Worker {
    if w.recovery || w.operation.phase == Ambiguous then
      if w.operation.phase != Reconciling then
        w.(pc := PutReconciling(w.operation.phase == Prepared),
           operation := w.operation.(phase := Reconciling, evidenceCode := None))
      else w.(pc := if w.input.kind == Reconcile then AwaitReconcile else AwaitWallet)
    else if w.operation.phase == Created then w.(pc := CallPrepare)
    else w.(pc := PutSubmitted, operation := w.operation.(phase := Submitted))
  }

  /** The worker is about to call `execute_prepared`; remember what the journal holds. */
  function Authorize(db: Db, w: Worker): Worker {
    w.(pc := CallExecute,
       authority := Some(Authority(db.generation, if w.id in db.operations then db.operations[w.id].material else None)))
  }

  /** One step of `run_claimed` (and of the release that follows it). */
  function WorkStep(s: State, t: nat, w: Worker, answer: Answer, now: nat): State {
    var db := s.db;
    match w.pc
    case ReadInput =>
      if w.id !in db.operations then Move(s, t, w.(pc := Releasing))
      else Move(s, t, w.(input := db.operations[w.id].input, pc := ReadOperation))
    case ReadOperation =>
      if w.id !in db.operations then Move(s, t, w.(pc := Releasing))
      else
        var operation := db.operations[w.id].operation;
        Move(s, t, w.(operation := operation,
                      pc := if operation.phase.Terminal() then Releasing
                            else if w.input.kind == Reconcile then ReadMaterial
                            else ClaimWallet))
    case ClaimWallet =>
      var r := TryClaimWalletMutation(db, w.owner, w.id, t, now);
      Move(s.(db := r.db), t, w.(pc := if r.result == Ok(true) then ReadMaterial else Releasing))
    case ReadMaterial =>
      if w.id !in db.operations then Move(s, t, w.(pc := Releasing))
      else Move(s, t, Dispatch(w.(material := db.operations[w.id].material)))
    case PutReconciling(fromPrepared) =>
      var r := Put(db, w.owner, w.operation, None, t, now);
      if r.result.Err? then Move(s, t, w.(pc := Releasing))
      else if w.input.kind == Reconcile then Move(s.(db := r.db), t, w.(pc := AwaitReconcile))
      else if fromPrepared && w.material.Some? then Move(s.(db := r.db), t, Authorize(r.db, w))
      else Move(s.(db := r.db), t, w.(pc := AwaitWallet))
    case CallPrepare =>
      (match answer
       case PreparedWith(material) =>
         Move(s, t, w.(pc := PutPrepared, operation := w.operation.(phase := Prepared), material := material))
       case Executed(execution) =>
         Move(s, t, w.(pc := PutRefused(execution), operation := w.operation.(phase := Submitted))))
    case PutRefused(refusal) =>
      var r := Put(db, w.owner, w.operation, None, t, now);
      Move(s.(db := r.db), t, w.(pc := if r.result.Ok? then Finish(refusal) else Releasing))
    case PutPrepared =>
      var r := Put(db, w.owner, w.operation, w.material, t, now);
      if r.result.Err? then Move(s, t, w.(pc := Releasing))
      else Move(s.(db := r.db), t, w.(pc := PutSubmitted, operation := w.operation.(phase := Submitted)))
    case PutSubmitted =>
      var r := Put(db, w.owner, w.operation, None, t, now);
      if r.result.Err? then Move(s, t, w.(pc := Releasing))
      else if w.input.kind == Reconcile then Move(s.(db := r.db), t, w.(pc := AwaitReconcile))
      else Move(s.(db := r.db), t, Authorize(r.db, w))
    case CallExecute =>
      Move(s.(calls := s.calls + [WalletCall(w.id, t, w.material, w.authority)]), t, w.(pc := AwaitWallet))
    case AwaitWallet =>
      if answer.Executed? then Move(s, t, w.(pc := Finish(answer.execution))) else s
    case AwaitReconcile =>
      // A reconcile result carries neither material nor hand-off.
      if answer.Executed? then
        Move(s, t, w.(pc := Finish(answer.execution.(material := None, handoff := None))))
      else s
    case Finish(execution) =>
      Move(s.(db := FinishExecution(db, w, execution, t, now).db), t, w.(pc := Releasing))
    case Releasing => Move(s.(db := Release(db, w.owner, w.id, t, now).db), t, w.(pc := Gone))
    case Gone => s
  }

  function Move(s: State, t: nat, w: Worker): State { s.(workers := s.workers[t := w]) }

  /** The renewal timer fires only while the worker waits for the wallet or a nested run. */
  predicate Waiting(w: Worker) { w.pc.CallPrepare? || w.pc.AwaitWallet? || w.pc.AwaitReconcile? }

  function ResetStep(s: State, t: nat, r: Resetter, seed: string, walletReset: bool, now: nat): State {
    match r.stage
    case NeedGeneration =>
      var g := NextGeneration(s.db, r.owner, t, now);
      s.(resetters := s.resetters[t := r.(stage := if g.Ok? then HasGeneration(g.value) else Ended)])
    case HasGeneration(g) =>
      var db := if walletReset then Reset(s.db, r.owner, seed, g, t, now).db else s.db;
      s.(db := db, resetters := s.resetters[t := r.(stage := MustRelease)])
    case MustRelease =>
      s.(db := ReleaseReset(s.db, r.owner, t, now).db, resetters := s.resetters[t := r.(stage := Ended)])
    case Ended => s
  }

  function Exec(s: State, a: Action): State {
    match a
    case Start(owner, input, intentHash, now) =>
      var r := CreateAndClaim(s.db, owner, input, CreatedOperation(input, intentHash), now);
      if r.result.Ok? && r.result.value.Some? then
        var (existing, token) := r.result.value.value;
        Move(s.(db := r.db), token, NewWorker(owner, input.operationId, existing.phase != Created))
      else s.(db := r.db)
    case Resume(owner, id, now) =>
      var r := TryClaim(s.db, owner, id, now);
      if r.result.Ok? && r.result.value.Some? then
        Move(s.(db := r.db), r.result.value.value, NewWorker(owner, id, true))
      else s.(db := r.db)
    case Work(token, answer, now) =>
      if token in s.workers then WorkStep(s, token, s.workers[token], answer, now) else s
    case Renew(token, now) =>
      if token in s.workers && Waiting(s.workers[token]) then
        var w := s.workers[token];
        var r := RenewClaim(s.db, w.owner, w.id, token, now);
        if r.result.Ok? then s.(db := r.db) else Move(s, token, w.(pc := Gone))
      else s
    case StartReset(owner, now) =>
      var r := TryClaimReset(s.db, owner, now);
      if r.result.Ok? && r.result.value.Some? then
        s.(db := r.db, resetters := s.resetters[r.result.value.value := Resetter(owner, NeedGeneration)])
      else s.(db := r.db)
    case WorkReset(token, seed, walletReset, now) =>
      if token in s.resetters then ResetStep(s, token, s.resetters[token], seed, walletReset, now) else s
    case RenewReset(token, now) =>
      if token in s.resetters && s.resetters[token].stage.HasGeneration? then
        var r := J.RenewReset(s.db, s.resetters[token].owner, token, now);
        if r.result.Ok? then s.(db := r.db)
        else s.(resetters := s.resetters[token := s.resetters[token].(stage := Ended)])
      else s
    case ClaimHandoff(consumer, now) => s.(db := J.ClaimHandoff(s.db, consumer, now).db)
    case AcknowledgeHandoff(id, tokenHash, consumer, token, now) =>
      s.(db := J.AcknowledgeHandoff(s.db, id, tokenHash, consumer, token, now).db)
    case ReleaseHandoff(id, consumer, token, now) => s.(db := J.ReleaseHandoff(s.db, id, consumer, token, now).db)
  }

  /** The state after a sequence of actions from `s`. */
  function RunFrom(s: State, actions: seq<Action>): State {
    if actions == [] then s else Exec(RunFrom(s, actions[..|actions| - 1]), actions[|actions| - 1])
  }

  function Run(actions: seq<Action>): State { RunFrom(InitialState, actions) }

  lemma RunLast(actions: seq<Action>)
    requires actions != []
    ensures var n := |actions| - 1; Run(actions) == Exec(Run(actions[..n]), actions[n])
  {
    hide Exec;
  }

  lemma RunConcat(s: State, xs: seq<Action>, a: Action)
    ensures RunFrom(s, xs + [a]) == Exec(RunFrom(s, xs), a)
  {
    hide Exec;
    assert (xs + [a])[..|xs|] == xs;
  }

  lemma RunTwo(s: State, xs: seq<Action>, a: Action, b: Action)
    ensures RunFrom(s, xs + [a, b]) == Exec(Exec(RunFrom(s, xs), a), b)
  {
    RunConcat(s, xs, a);
    RunConcat(s, xs + [a], b);
    hide Exec, RunFrom;
    assert xs + [a] + [b] == xs + [a, b];
  }
}
