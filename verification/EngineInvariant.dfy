/**
  The inductive invariant of the engine: what a worker knows while its fencing token is
  still the row's token, and who has been authorised to execute.
 */
module EngineInvariant {
  import opened Prelude
  import opened J = Journal
  import opened E = Engine
  import opened C = StoreRuns

  /** Token `t` is still the claim token of row `id`. */
  predicate Current(db: Db, id: OperationId, t: nat) { id in db.operations && db.operations[id].token == t }

  predicate InFlight(phase: Phase) { phase == Submitted || phase == Reconciling }

  /** The worker's local copy agrees with the row, as far as its program point relies on it. */
  predicate Aligned(w: Worker, row: Row) {
    var stored := row.operation;
    && (!w.pc.ReadInput? && !w.pc.Releasing? && !w.pc.Gone? ==> w.input == row.input)
    && match w.pc
       case ReadInput | ReadOperation => !w.recovery ==> stored.phase == Created
       case ClaimWallet | ReadMaterial =>
         w.operation == stored && !stored.phase.Terminal() && (!w.recovery ==> stored.phase == Created)
       case PutReconciling(fromPrepared) =>
         && w.operation == stored.(phase := Reconciling, evidenceCode := None)
         && !stored.phase.Terminal() && stored.phase != Reconciling
         && fromPrepared == (stored.phase == Prepared) && w.material == row.material
       case CallPrepare => w.operation == stored && stored.phase == Created
       case PutRefused(_) => w.operation == stored.(phase := Submitted) && stored.phase == Created
       case PutPrepared => w.operation == stored.(phase := Prepared) && stored.phase == Created
       case PutSubmitted =>
         w.operation == stored.(phase := Submitted) && stored.phase == Prepared && w.material == row.material
       case CallExecute => w.operation == stored && InFlight(stored.phase) && w.material == row.material
       case AwaitWallet | AwaitReconcile | Finish(_) => w.operation == stored && InFlight(stored.phase)
       case Releasing | Gone => true
  }

  predicate RowOk(id: OperationId, row: Row) {
    && row.operation.operationId == id && row.operation.kind == row.input.kind
    && row.operation.intentHash == row.intentHash
    && (row.operation.phase == Created ==> row.material.None?)
  }

  /** Past the wallet claim of a non-reconcile operation and before its result is committed. */
  predicate NeedsWallet(w: Worker) {
    w.input.kind != Reconcile && !w.pc.ReadInput? && !w.pc.ReadOperation? && !w.pc.ClaimWallet?
    && !w.pc.Releasing? && !w.pc.Gone?
  }

  predicate HasWallet(db: Db, t: nat, w: Worker) {
    db.barrier.Some? && db.barrier.value.operationId == w.id && db.barrier.value.owner == w.owner
    && db.barrier.value.token == t
  }

  predicate WorkerOk(db: Db, t: nat, w: Worker) {
    && t <= db.nextToken
    && w.operation.operationId == w.id
    && (Current(db, w.id, t) ==> Aligned(w, db.operations[w.id]) && (NeedsWallet(w) ==> HasWallet(db, t, w)))
  }

  predicate ResetterOk(db: Db, t: nat, r: Resetter) {
    && t <= db.nextToken
    && (r.stage.HasGeneration? && db.reset.Some? && db.reset.value.token == t ==>
          r.stage.generation == db.generation + 1)
  }

  predicate RowsOk(db: Db) { forall id :: id in db.operations ==> RowOk(id, db.operations[id]) }

  predicate WorkersOk(s: State) { forall t :: t in s.workers ==> WorkerOk(s.db, t, s.workers[t]) }

  predicate ResettersOk(s: State) { forall t :: t in s.resetters ==> ResetterOk(s.db, t, s.resetters[t]) }

  /** Operation `id` was authorised in generation `g`: if that is the present generation, it has left Prepared. */
  predicate Spent(db: Db, id: OperationId, g: nat) {
    && g <= db.generation
    && (g == db.generation ==>
          id in db.operations && db.operations[id].operation.phase != Created
          && db.operations[id].operation.phase != Prepared)
  }

  predicate Armed(w: Worker, id: OperationId, g: nat) {
    w.pc.CallExecute? && w.id == id && w.authority.Some? && w.authority.value.generation == g
  }

  predicate CallOk(s: State, c: WalletCall) {
    && c.authority.Some? && c.material == c.authority.value.stored
    && Spent(s.db, c.id, c.authority.value.generation)
    && forall t :: t in s.workers ==> !Armed(s.workers[t], c.id, c.authority.value.generation)
  }

  predicate ArmOk(s: State, t: nat)
    requires t in s.workers
  {
    var w := s.workers[t];
    w.pc.CallExecute? ==>
      && w.authority.Some? && w.material == w.authority.value.stored
      && Spent(s.db, w.id, w.authority.value.generation)
      && forall u :: u in s.workers && u != t ==> !Armed(s.workers[u], w.id, w.authority.value.generation)
  }

  predicate AuthorityOk(s: State) {
    && (forall t :: t in s.workers ==> ArmOk(s, t))
    && (forall i :: 0 <= i < |s.calls| ==> CallOk(s, s.calls[i]))
    && (forall i, j :: 0 <= i < j < |s.calls| && s.calls[i].id == s.calls[j].id ==>
          s.calls[i].authority.Some? && s.calls[j].authority.Some?
          && s.calls[i].authority.value.generation != s.calls[j].authority.value.generation)
  }

  predicate Inv(s: State) { RowsOk(s.db) && WorkersOk(s) && ResettersOk(s) && AuthorityOk(s) }

  // ---- the one store call behind each action ----

  function FinishCall(w: Worker, execution: Execution, token: nat, now: nat): Call {
    var e := Settled(w.operation, execution);
    var operation := Outcome(w.operation, e);
    Call.Commit(w.owner, operation, e.material, EffectId(operation.operationId, e.event),
                Evidence(operation.operationId, EvidenceSource(e.event), e.event, EvidenceHash(operation)),
                e.handoff, token, now)
  }

  function WorkCall(w: Worker, t: nat, now: nat): Option<Call> {
    match w.pc
    case ClaimWallet => Some(Call.TryClaimWalletMutation(w.owner, w.id, t, now))
    case PutReconciling(_) => Some(Call.Put(w.owner, w.operation, None, t, now))
    case PutRefused(_) => Some(Call.Put(w.owner, w.operation, None, t, now))
    case PutPrepared => Some(Call.Put(w.owner, w.operation, w.material, t, now))
    case PutSubmitted => Some(Call.Put(w.owner, w.operation, None, t, now))
    case Finish(e) => Some(FinishCall(w, e, t, now))
    case Releasing => Some(Call.Release(w.owner, w.id, t, now))
    case _ => None
  }

  function StoreCall(s: State, a: Action): Option<Call> {
    match a
    case Start(owner, input, intentHash, now) =>
      Some(Call.CreateAndClaim(owner, input, CreatedOperation(input, intentHash), now))
    case Resume(owner, id, now) => Some(Call.TryClaim(owner, id, now))
    case Work(token, _, now) => if token in s.workers then WorkCall(s.workers[token], token, now) else None
    case Renew(token, now) =>
      if token in s.workers && Waiting(s.workers[token]) then
        Some(Call.RenewClaim(s.workers[token].owner, s.workers[token].id, token, now))
      else None
    case StartReset(owner, now) => Some(Call.TryClaimReset(owner, now))
    case WorkReset(token, seed, walletReset, now) =>
      if token !in s.resetters then None
      else
        var r := s.resetters[token];
        if r.stage.HasGeneration? && walletReset then Some(Call.Reset(r.owner, seed, r.stage.generation, token, now))
        else if r.stage.MustRelease? then Some(Call.ReleaseReset(r.owner, token, now))
        else None
    case RenewReset(token, now) =>
      if token in s.resetters && s.resetters[token].stage.HasGeneration? then
        Some(Call.RenewReset(s.resetters[token].owner, token, now))
      else None
    case ClaimHandoff(consumer, now) => Some(Call.ClaimHandoff(consumer, now))
    case AcknowledgeHandoff(id, tokenHash, consumer, token, now) =>
      Some(Call.AcknowledgeHandoff(id, tokenHash, consumer, token, now))
    case ReleaseHandoff(id, consumer, token, now) => Some(Call.ReleaseHandoff(id, consumer, token, now))
  }

  function ApplyOption(db: Db, call: Option<Call>): Db { if call.None? then db else Apply(db, call.value) }

  lemma WorkIsStoreCall(s: State, t: nat, w: Worker, answer: Answer, now: nat)
    ensures WorkStep(s, t, w, answer, now).db == ApplyOption(s.db, WorkCall(w, t, now))
  {
    RefusedPut(s.db, w.owner, w.operation, None, t, now);
    RefusedPut(s.db, w.owner, w.operation, w.material, t, now);
    hide J.Put, J.Commit, J.Release, J.TryClaimWalletMutation, Dispatch, Authorize;
  }

  lemma RefusedPut(db: Db, owner: Owner, operation: Operation, material: Option<string>, t: nat, now: nat)
    ensures var r := J.Put(db, owner, operation, material, t, now); r.result.Err? ==> r.db == db
  {
  }

  /** Every action changes the journal exactly as one store call does, or not at all. */
  lemma StepIsStoreCall(s: State, a: Action)
    ensures Exec(s, a).db == ApplyOption(s.db, StoreCall(s, a))
    ensures StoreCall(s, a).Some? ==> StoreCall(s, a).value.now == a.now
  {
    if a.Work? && a.token in s.workers {
      hide WorkStep;
      WorkIsStoreCall(s, a.token, s.workers[a.token], a.answer, a.now);
    }
  }

  // ---- rows and workers ----

  /** From `db` to `db'` nothing happened that a worker still holding `t` on `id` could notice. */
  predicate Unnoticed(db: Db, db': Db, id: OperationId, t: nat) {
    && db.nextToken <= db'.nextToken
    && (Current(db', id, t) ==>
          && Current(db, id, t)
          && db'.operations[id].operation == db.operations[id].operation
          && db'.operations[id].material == db.operations[id].material
          && db'.operations[id].input == db.operations[id].input
          && (db.barrier.Some? && db.barrier.value.operationId == id && db.barrier.value.token == t ==>
                db'.barrier.Some? && db'.barrier.value.operationId == id && db'.barrier.value.token == t
                && db'.barrier.value.owner == db.barrier.value.owner))
  }

  lemma UnnoticedKeeps(db: Db, db': Db, t: nat, w: Worker)
    requires WorkerOk(db, t, w) && Unnoticed(db, db', w.id, t)
    ensures WorkerOk(db', t, w)
  {
  }

  lemma TokensGrow(db: Db, call: Call)
    ensures db.nextToken <= Apply(db, call).nextToken
  {
    if IsHandoffCall(call) {
      hide Apply;
      HandoffCallFrame(db, call);
    }
  }

  /** A store call under any other token is invisible to a worker that holds `u`. */
  lemma CallUnnoticed(db: Db, call: Call, id: OperationId, u: nat)
    requires u <= db.nextToken
    requires (call.Put? || call.Commit? || call.TryClaimWalletMutation?) ==> call.token != u
    ensures Unnoticed(db, Apply(db, call), id, u)
  {
    if call.Put? || call.Commit? || call.TryClaimWalletMutation? {
      hide Apply, Unnoticed;
      WriteUnnoticed(db, call, id, u);
    } else if call.CreateAndClaim? || call.TryClaim? || call.RenewClaim? {
      hide Apply, Unnoticed;
      ClaimUnnoticed(db, call, id, u);
    } else if IsHandoffCall(call) {
      hide Apply;
      HandoffCallFrame(db, call);
    }
  }

  lemma WriteUnnoticed(db: Db, call: Call, id: OperationId, u: nat)
    requires (call.Put? || call.Commit? || call.TryClaimWalletMutation?) && call.token != u
    ensures Unnoticed(db, Apply(db, call), id, u)
  {
    hide EvidenceAgrees, J.Record, HandoffAgrees, Hand;
  }

  lemma ClaimUnnoticed(db: Db, call: Call, id: OperationId, u: nat)
    requires u <= db.nextToken && (call.CreateAndClaim? || call.TryClaim? || call.RenewClaim?)
    ensures Unnoticed(db, Apply(db, call), id, u)
  {
  }

  /** What a worker finds in its own row after a write under its own token. */
  lemma PutOwnRow(db: Db, owner: Owner, operation: Operation, material: Option<string>, t: nat, now: nat)
    requires J.Put(db, owner, operation, material, t, now).result.Ok?
    ensures var id := operation.operationId;
            var db' := J.Put(db, owner, operation, material, t, now).db;
            && Current(db, id, t) && Current(db', id, t)
            && db'.operations[id].operation == operation
            && db'.operations[id].input == db.operations[id].input
            && db'.operations[id].material == Coalesce(material, db.operations[id].material)
            && db'.barrier == db.barrier && db'.nextToken == db.nextToken && db'.generation == db.generation
  {
  }

  lemma WorkKeepsWorker(s: State, t: nat, w: Worker, answer: Answer, now: nat)
    requires RowsOk(s.db) && WorkerOk(s.db, t, w)
    ensures var s' := WorkStep(s, t, w, answer, now);
            s' == s || (t in s'.workers && WorkerOk(s'.db, t, s'.workers[t]))
  {
    hide WorkStep;
    hide WorkerOk;
    match w.pc
    case ClaimWallet => ClaimWalletKeepsWorker(s, t, w, answer, now);
    case PutReconciling(_) => PutReconcilingKeepsWorker(s, t, w, answer, now);
    case PutRefused(_) => PutRefusedKeepsWorker(s, t, w, answer, now);
    case PutPrepared => PutPreparedKeepsWorker(s, t, w, answer, now);
    case PutSubmitted => PutSubmittedKeepsWorker(s, t, w, answer, now);
    case ReadInput | ReadOperation | ReadMaterial => ReadKeepsWorker(s, t, w, answer, now);
    case CallPrepare | CallExecute | AwaitWallet | AwaitReconcile => CallKeepsWorker(s, t, w, answer, now);
    case Finish(_) | Releasing | Gone => EndKeepsWorker(s, t, w, answer, now);
  }

  lemma EndKeepsWorker(s: State, t: nat, w: Worker, answer: Answer, now: nat)
    requires WorkerOk(s.db, t, w) && (w.pc.Finish? || w.pc.Releasing? || w.pc.Gone?)
    ensures var s' := WorkStep(s, t, w, answer, now);
            s' == s || (t in s'.workers && WorkerOk(s'.db, t, s'.workers[t]))
  {
    hide Apply, J.Put, J.Commit, J.Release, J.TryClaimWalletMutation;
    if WorkCall(w, t, now).Some? { TokensGrow(s.db, WorkCall(w, t, now).value); }
    WorkIsStoreCall(s, t, w, answer, now);
  }

  lemma ReadKeepsWorker(s: State, t: nat, w: Worker, answer: Answer, now: nat)
    requires RowsOk(s.db) && WorkerOk(s.db, t, w) && (w.pc.ReadInput? || w.pc.ReadOperation? || w.pc.ReadMaterial?)
    ensures var s' := WorkStep(s, t, w, answer, now); t in s'.workers && WorkerOk(s'.db, t, s'.workers[t])
  {
    if w.pc.ReadMaterial? {
      hide RowsOk;
      MaterialKeepsWorker(s, t, w, answer, now);
    }
  }

  lemma MaterialKeepsWorker(s: State, t: nat, w: Worker, answer: Answer, now: nat)
    requires WorkerOk(s.db, t, w) && w.pc.ReadMaterial?
    ensures var s' := WorkStep(s, t, w, answer, now); t in s'.workers && WorkerOk(s'.db, t, s'.workers[t])
  {
  }

  lemma CallKeepsWorker(s: State, t: nat, w: Worker, answer: Answer, now: nat)
    requires WorkerOk(s.db, t, w)
    requires w.pc.CallPrepare? || w.pc.CallExecute? || w.pc.AwaitWallet? || w.pc.AwaitReconcile?
    ensures var s' := WorkStep(s, t, w, answer, now);
            s' == s || (t in s'.workers && WorkerOk(s'.db, t, s'.workers[t]))
  {
  }

  lemma ClaimWalletKeepsWorker(s: State, t: nat, w: Worker, answer: Answer, now: nat)
    requires WorkerOk(s.db, t, w) && w.pc.ClaimWallet?
    ensures var s' := WorkStep(s, t, w, answer, now); t in s'.workers && WorkerOk(s'.db, t, s'.workers[t])
  {
  }

  lemma PutReconcilingKeepsWorker(s: State, t: nat, w: Worker, answer: Answer, now: nat)
    requires WorkerOk(s.db, t, w) && w.pc.PutReconciling?
    ensures var s' := WorkStep(s, t, w, answer, now); t in s'.workers && WorkerOk(s'.db, t, s'.workers[t])
  {
    if J.Put(s.db, w.owner, w.operation, None, t, now).result.Ok? {
      PutOwnRow(s.db, w.owner, w.operation, None, t, now);
    }
  }

  lemma PutRefusedKeepsWorker(s: State, t: nat, w: Worker, answer: Answer, now: nat)
    requires WorkerOk(s.db, t, w) && w.pc.PutRefused?
    ensures var s' := WorkStep(s, t, w, answer, now); t in s'.workers && WorkerOk(s'.db, t, s'.workers[t])
  {
    if J.Put(s.db, w.owner, w.operation, None, t, now).result.Ok? {
      PutOwnRow(s.db, w.owner, w.operation, None, t, now);
    }
  }

  lemma PutPreparedKeepsWorker(s: State, t: nat, w: Worker, answer: Answer, now: nat)
    requires RowsOk(s.db) && WorkerOk(s.db, t, w) && w.pc.PutPrepared?
    ensures var s' := WorkStep(s, t, w, answer, now); t in s'.workers && WorkerOk(s'.db, t, s'.workers[t])
  {
    if J.Put(s.db, w.owner, w.operation, w.material, t, now).result.Ok? {
      PutOwnRow(s.db, w.owner, w.operation, w.material, t, now);
    }
  }

  lemma PutSubmittedKeepsWorker(s: State, t: nat, w: Worker, answer: Answer, now: nat)
    requires WorkerOk(s.db, t, w) && w.pc.PutSubmitted?
    ensures var s' := WorkStep(s, t, w, answer, now); t in s'.workers && WorkerOk(s'.db, t, s'.workers[t])
  {
    if J.Put(s.db, w.owner, w.operation, None, t, now).result.Ok? {
      PutOwnRow(s.db, w.owner, w.operation, None, t, now);
    }
  }

  lemma ActionUnnoticed(s: State, a: Action, id: OperationId, u: nat)
    requires u <= s.db.nextToken && !(a.Work? && a.token == u)
    ensures Unnoticed(s.db, Exec(s, a).db, id, u)
  {
    hide Exec, Apply;
    StepIsStoreCall(s, a);
    if StoreCall(s, a).Some? { CallUnnoticed(s.db, StoreCall(s, a).value, id, u); }
  }

  lemma ClaimStartsWorker(s: State, a: Action)
    requires RowsOk(s.db) && (a.Start? || a.Resume?)
    ensures var s' := Exec(s, a);
            s'.workers == s.workers
            || (var t := s'.db.nextToken;
                t == s.db.nextToken + 1 && t in s'.workers && s'.workers == s.workers[t := s'.workers[t]]
                && s'.workers[t].pc.ReadInput? && WorkerOk(s'.db, t, s'.workers[t]))
  {
  }

  /** Only the worker that moves, or one that a claim starts, differs afterwards. */
  lemma WorkersMoved(s: State, a: Action, u: nat)
    requires u in s.workers && !(a.Work? && a.token == u) && u <= s.db.nextToken
    ensures u in Exec(s, a).workers
    ensures Exec(s, a).workers[u] == s.workers[u] || Exec(s, a).workers[u] == s.workers[u].(pc := Gone)
  {
    if a.Work? && a.token in s.workers {
      hide WorkStep;
      OnlyOneMoves(s, a.token, s.workers[a.token], a.answer, a.now, u);
    }
  }

  lemma WorkerStep(s: State, a: Action, u: nat)
    requires WorkersOk(s) && RowsOk(s.db) && u in Exec(s, a).workers
    ensures WorkerOk(Exec(s, a).db, u, Exec(s, a).workers[u])
  {
    hide Exec, WorkerOk;
    if u !in s.workers {
      StartedWorkerOk(s, a, u);
    } else if a.Work? && a.token == u {
      MovedWorkerOk(s, a, u);
    } else {
      OtherWorkerOk(s, a, u);
    }
  }

  lemma StartedWorkerOk(s: State, a: Action, u: nat)
    requires RowsOk(s.db) && u in Exec(s, a).workers && u !in s.workers
    ensures WorkerOk(Exec(s, a).db, u, Exec(s, a).workers[u])
  {
    if a.Start? || a.Resume? {
      hide Exec, WorkerOk;
      ClaimStartsWorker(s, a);
    } else if a.Work? && a.token in s.workers {
      hide WorkStep;
      OnlyOneMoves(s, a.token, s.workers[a.token], a.answer, a.now, u);
    }
  }

  lemma MovedWorkerOk(s: State, a: Action, u: nat)
    requires RowsOk(s.db) && u in s.workers && WorkerOk(s.db, u, s.workers[u]) && a.Work? && a.token == u
    ensures u in Exec(s, a).workers && WorkerOk(Exec(s, a).db, u, Exec(s, a).workers[u])
  {
    hide WorkStep, WorkerOk;
    WorkKeepsWorker(s, u, s.workers[u], a.answer, a.now);
  }

  lemma OtherWorkerOk(s: State, a: Action, u: nat)
    requires u in s.workers && WorkerOk(s.db, u, s.workers[u]) && !(a.Work? && a.token == u)
    ensures u in Exec(s, a).workers && WorkerOk(Exec(s, a).db, u, Exec(s, a).workers[u])
  {
    hide Exec;
    ActionUnnoticed(s, a, s.workers[u].id, u);
    WorkersMoved(s, a, u);
    UnnoticedKeeps(s.db, Exec(s, a).db, u, s.workers[u]);
  }

  lemma WorkersStep(s: State, a: Action)
    requires WorkersOk(s) && RowsOk(s.db)
    ensures WorkersOk(Exec(s, a))
  {
    hide Exec, WorkerOk;
    forall u | u in Exec(s, a).workers
      ensures WorkerOk(Exec(s, a).db, u, Exec(s, a).workers[u])
    {
      WorkerStep(s, a, u);
    }
  }

  // ---- what the engine writes: rows, phases and generations ----

  /** The persisted phase moves the engine can make. */
  predicate Edge(p: Phase, q: Phase) {
    match p
    case Created => q == Prepared || q == Submitted || q == Reconciling
    case Prepared => q == Submitted || q == Reconciling
    case Submitted => q == Succeeded || q == Ambiguous || q == Reconciling
    case Ambiguous => q == Reconciling
    case Reconciling => q.Terminal() || q == Ambiguous
    case _ => false
  }

  /** A write under the row's own token moves its phase along an edge; only a commit ends an operation. */
  predicate LegalWrite(db: Db, call: Call) {
    (call.Put? || call.Commit?) && Current(db, call.operation.operationId, call.token) ==>
      var stored := db.operations[call.operation.operationId].operation;
      && Edge(stored.phase, call.operation.phase) && call.operation.kind == stored.kind
      && (call.Put? ==> !call.operation.phase.Terminal())
  }

  /** The calls the engine makes: legal writes, new rows as Created, resets to the next generation. */
  predicate LegalCall(db: Db, call: Call) {
    && LegalWrite(db, call)
    && (call.CreateAndClaim? ==>
          call.operation.phase == Created && RowOk(call.operation.operationId, NewRow(call.input, call.operation)))
    && (CommitsReset(db, call) ==> call.generation == db.generation + 1)
  }

  lemma WritesAreLegal(db: Db, t: nat, w: Worker, now: nat)
    requires WorkerOk(db, t, w) && WorkCall(w, t, now).Some?
    ensures LegalWrite(db, WorkCall(w, t, now).value)
  {
  }

  lemma CallsAreLegal(s: State, a: Action)
    requires WorkersOk(s) && ResettersOk(s) && StoreCall(s, a).Some?
    ensures LegalCall(s.db, StoreCall(s, a).value)
  {
    if a.Work? {
      hide WorkerOk, LegalWrite;
      WritesAreLegal(s.db, a.token, s.workers[a.token], a.now);
    }
  }

  lemma WriteKeepsRows(db: Db, call: Call)
    requires RowsOk(db) && LegalWrite(db, call) && (call.Put? || call.Commit?)
    ensures RowsOk(Apply(db, call))
  {
  }

  lemma CallKeepsRows(db: Db, call: Call)
    requires RowsOk(db) && LegalCall(db, call)
    ensures RowsOk(Apply(db, call))
  {
    if call.Put? || call.Commit? {
      hide Apply, RowsOk;
      WriteKeepsRows(db, call);
    } else if IsHandoffCall(call) {
      hide Apply;
      HandoffCallFrame(db, call);
    }
  }

  lemma RowsStep(s: State, a: Action)
    requires RowsOk(s.db) && WorkersOk(s) && ResettersOk(s)
    ensures RowsOk(Exec(s, a).db)
  {
    hide Exec, Apply, RowsOk, LegalCall;
    StepIsStoreCall(s, a);
    if StoreCall(s, a).Some? {
      CallsAreLegal(s, a);
      CallKeepsRows(s.db, StoreCall(s, a).value);
    }
  }

  predicate PhaseMoves(db: Db, db': Db, id: OperationId) {
    && (db'.generation == db.generation || (db'.generation == db.generation + 1 && db'.operations == map[]))
    && (id in db.operations && id !in db'.operations ==> db'.generation == db.generation + 1)
    && (id !in db.operations && id in db'.operations ==> db'.operations[id].operation.phase == Created)
    && (id in db.operations && id in db'.operations ==>
          var (p, q) := (db.operations[id].operation.phase, db'.operations[id].operation.phase);
          p == q || Edge(p, q))
  }

  lemma WriteMovesPhases(db: Db, call: Call, id: OperationId)
    requires LegalWrite(db, call) && (call.Put? || call.Commit?)
    ensures PhaseMoves(db, Apply(db, call), id)
  {
  }

  lemma CallMovesPhases(db: Db, call: Call, id: OperationId)
    requires LegalCall(db, call)
    ensures PhaseMoves(db, Apply(db, call), id)
  {
    if call.Put? || call.Commit? {
      hide Apply, PhaseMoves;
      WriteMovesPhases(db, call, id);
    } else if IsHandoffCall(call) {
      hide Apply;
      HandoffCallFrame(db, call);
    }
  }

  lemma StepMovesPhases(s: State, a: Action, id: OperationId)
    requires WorkersOk(s) && ResettersOk(s)
    ensures PhaseMoves(s.db, Exec(s, a).db, id)
  {
    hide Exec, Apply, LegalCall;
    StepIsStoreCall(s, a);
    if StoreCall(s, a).Some? {
      hide PhaseMoves;
      CallsAreLegal(s, a);
      CallMovesPhases(s.db, StoreCall(s, a).value, id);
    }
  }

  lemma CallKeepsResetClaim(db: Db, call: Call, t: nat)
    requires t <= db.nextToken && (CommitsReset(db, call) ==> call.token != t)
    ensures var db' := Apply(db, call);
            && db.nextToken <= db'.nextToken
            && (db'.reset.Some? && db'.reset.value.token == t ==>
                  db.reset.Some? && db.reset.value.token == t && db'.generation == db.generation)
  {
    if !call.TryClaimReset? && !call.RenewReset? && !call.ReleaseReset? && !call.Reset? {
      hide Apply;
      TokensGrow(db, call);
      CallLeavesReset(db, call);
    }
  }

  lemma CallLeavesReset(db: Db, call: Call)
    requires !call.TryClaimReset? && !call.RenewReset? && !call.ReleaseReset? && !call.Reset?
    ensures Apply(db, call).reset == db.reset && Apply(db, call).generation == db.generation
  {
    if IsHandoffCall(call) {
      hide Apply;
      HandoffCallFrame(db, call);
    }
  }

  lemma OtherResetterOk(s: State, a: Action, t: nat)
    requires t in s.resetters && ResetterOk(s.db, t, s.resetters[t]) && !(a.WorkReset? && a.token == t)
    ensures t in Exec(s, a).resetters ==> ResetterOk(Exec(s, a).db, t, s.resetters[t])
  {
    hide Exec, Apply;
    StepIsStoreCall(s, a);
    if StoreCall(s, a).Some? { CallKeepsResetClaim(s.db, StoreCall(s, a).value, t); }
  }

  /** A reset process either stays as it was or ends, unless it is the one that moves. */
  lemma ResettersMoved(s: State, a: Action, t: nat)
    requires t in Exec(s, a).resetters && !(a.WorkReset? && a.token == t)
    ensures t in s.resetters && t <= s.db.nextToken ==>
              Exec(s, a).resetters[t] == s.resetters[t]
              || Exec(s, a).resetters[t] == s.resetters[t].(stage := Ended)
    ensures t !in s.resetters ==>
              t == Exec(s, a).db.nextToken && Exec(s, a).resetters[t].stage.NeedGeneration?
  {
    if a.Work? && a.token in s.workers {
      WorkLeavesResetters(s, a.token, s.workers[a.token], a.answer, a.now);
      hide WorkStep;
    }
  }

  lemma WorkLeavesResetters(s: State, t: nat, w: Worker, answer: Answer, now: nat)
    ensures WorkStep(s, t, w, answer, now).resetters == s.resetters
  {
  }

  lemma MovedResetterOk(s: State, a: Action, t: nat)
    requires t in s.resetters && ResetterOk(s.db, t, s.resetters[t]) && a.WorkReset? && a.token == t
    ensures t in Exec(s, a).resetters && ResetterOk(Exec(s, a).db, t, Exec(s, a).resetters[t])
  {
  }

  lemma ResettersStep(s: State, a: Action)
    requires ResettersOk(s)
    ensures ResettersOk(Exec(s, a))
  {
    hide Exec, ResetterOk;
    forall t | t in Exec(s, a).resetters
      ensures ResetterOk(Exec(s, a).db, t, Exec(s, a).resetters[t])
    {
      ResetterStep(s, a, t);
    }
  }

  lemma ResetterStep(s: State, a: Action, t: nat)
    requires ResettersOk(s) && t in Exec(s, a).resetters
    ensures ResetterOk(Exec(s, a).db, t, Exec(s, a).resetters[t])
  {
    hide Exec;
    if a.WorkReset? && a.token == t && t in s.resetters {
      MovedResetterOk(s, a, t);
    } else if t in s.resetters {
      OtherResetterOk(s, a, t);
      ResettersMoved(s, a, t);
    } else if a.WorkReset? && a.token == t {
      StrayReset(s, a);
    } else {
      ResettersMoved(s, a, t);
    }
  }

  lemma StrayReset(s: State, a: Action)
    requires a.WorkReset? && a.token !in s.resetters
    ensures Exec(s, a) == s
  {
  }

  // ---- the right to execute ----

  lemma SpentKept(db: Db, db': Db, id: OperationId, g: nat)
    requires PhaseMoves(db, db', id) && Spent(db, id, g)
    ensures Spent(db', id, g)
  {
  }

  /** The step by which worker `t` gains the right to execute, out of a persisted Prepared. */
  predicate Arms(s: State, a: Action, t: nat) {
    && a.Work? && a.token == t && t in s.workers && t in Exec(s, a).workers
    && var (w, w') := (s.workers[t], Exec(s, a).workers[t]);
    var (db, db') := (s.db, Exec(s, a).db);
    && !w.pc.CallExecute? && w'.pc.CallExecute? && w'.id == w.id && w.input.kind != Reconcile
    && Current(db, w.id, t) && db.operations[w.id].operation.phase == Prepared
    && Current(db', w.id, t) && InFlight(db'.operations[w.id].operation.phase)
    && db'.generation == db.generation
    && w'.authority == Some(Authority(db'.generation, db'.operations[w.id].material))
    && w'.material == db'.operations[w.id].material
  }

  lemma WriteArms(s: State, a: Action, t: nat)
    requires a.Work? && a.token == t && t in s.workers && WorkerOk(s.db, t, s.workers[t])
    requires s.workers[t].pc.PutReconciling? || s.workers[t].pc.PutSubmitted?
    requires t in Exec(s, a).workers && Exec(s, a).workers[t].pc.CallExecute?
    ensures Arms(s, a, t)
  {
    hide FinishExecution, J.Release, J.TryClaimWalletMutation, Dispatch, HasWallet;
    var w := s.workers[t];
    RefusedPut(s.db, w.owner, w.operation, None, t, a.now);
    if J.Put(s.db, w.owner, w.operation, None, t, a.now).result.Ok? {
      PutOwnRow(s.db, w.owner, w.operation, None, t, a.now);
    }
    hide J.Put;
  }

  lemma OnlyWritesArm(s: State, t: nat, answer: Answer, now: nat)
    requires t in s.workers && !s.workers[t].pc.PutReconciling? && !s.workers[t].pc.PutSubmitted?
    ensures var s' := WorkStep(s, t, s.workers[t], answer, now); t in s'.workers && !s'.workers[t].pc.CallExecute?
  {
    hide J.Put, J.Commit, J.Release, J.TryClaimWalletMutation, FinishExecution;
  }

  lemma WorkArms(s: State, a: Action, t: nat)
    requires a.Work? && a.token == t && t in s.workers && WorkerOk(s.db, t, s.workers[t])
    requires t in Exec(s, a).workers && Exec(s, a).workers[t].pc.CallExecute?
    ensures Arms(s, a, t)
  {
    hide WorkStep, WorkerOk;
    if s.workers[t].pc.PutReconciling? || s.workers[t].pc.PutSubmitted? {
      hide Arms;
      WriteArms(s, a, t);
    } else {
      OnlyWritesArm(s, t, a.answer, a.now);
    }
  }

  /** A worker with the right to execute had it before, or has just gained it. */
  lemma WhoIsArmed(s: State, a: Action, u: nat)
    requires WorkersOk(s) && u in Exec(s, a).workers && Exec(s, a).workers[u].pc.CallExecute?
    ensures (u in s.workers && Exec(s, a).workers[u] == s.workers[u] && !(a.Work? && a.token == u)) || Arms(s, a, u)
  {
    if u !in s.workers {
      NobodyStartsArmed(s, a, u);
    } else if a.Work? && a.token == u {
      hide Exec;
      WorkArms(s, a, u);
    } else {
      hide Exec;
      WorkersMoved(s, a, u);
    }
  }

  lemma NobodyStartsArmed(s: State, a: Action, u: nat)
    requires u in Exec(s, a).workers && u !in s.workers
    ensures Exec(s, a).workers[u].pc.ReadInput?
  {
    if a.Work? && a.token in s.workers {
      hide WorkStep;
      OnlyOneMoves(s, a.token, s.workers[a.token], a.answer, a.now, u);
    }
  }

  lemma OnlyOneMoves(s: State, t: nat, w: Worker, answer: Answer, now: nat, u: nat)
    requires u != t
    ensures u in WorkStep(s, t, w, answer, now).workers <==> u in s.workers
    ensures u in s.workers ==> WorkStep(s, t, w, answer, now).workers[u] == s.workers[u]
  {
    hide J.Put, J.Commit, J.Release, J.TryClaimWalletMutation, Dispatch, Authorize, FinishExecution;
  }

  /** The wallet is called exactly when an armed worker moves. */
  lemma WhatIsCalled(s: State, a: Action)
    ensures var s' := Exec(s, a);
            if a.Work? && a.token in s.workers && s.workers[a.token].pc.CallExecute? then
              var w := s.workers[a.token];
              && s'.calls == s.calls + [WalletCall(w.id, a.token, w.material, w.authority)]
              && s'.workers == s.workers[a.token := w.(pc := AwaitWallet)] && s'.db == s.db
            else s'.calls == s.calls
  {
  }

  lemma ArmStep(s: State, a: Action, u: nat)
    requires WorkersOk(s) && ResettersOk(s) && AuthorityOk(s) && u in Exec(s, a).workers
    ensures ArmOk(Exec(s, a), u)
  {
    hide Exec;
    var s' := Exec(s, a);
    if s'.workers[u].pc.CallExecute? {
      WhoIsArmed(s, a, u);
      var w := s'.workers[u];
      StepMovesPhases(s, a, w.id);
      if !Arms(s, a, u) { SpentKept(s.db, s'.db, w.id, w.authority.value.generation); }
      forall v | v in s'.workers && v != u
        ensures !Armed(s'.workers[v], w.id, w.authority.value.generation)
      {
        if s'.workers[v].pc.CallExecute? { WhoIsArmed(s, a, v); }
      }
    }
  }

  lemma CallStep(s: State, a: Action, c: WalletCall)
    requires WorkersOk(s) && ResettersOk(s) && CallOk(s, c)
    ensures CallOk(Exec(s, a), c)
  {
    hide Exec;
    var s' := Exec(s, a);
    StepMovesPhases(s, a, c.id);
    SpentKept(s.db, s'.db, c.id, c.authority.value.generation);
    forall u | u in s'.workers
      ensures !Armed(s'.workers[u], c.id, c.authority.value.generation)
    {
      if s'.workers[u].pc.CallExecute? { WhoIsArmed(s, a, u); }
    }
  }

  lemma AuthorityStep(s: State, a: Action)
    requires WorkersOk(s) && ResettersOk(s) && AuthorityOk(s)
    ensures AuthorityOk(Exec(s, a))
  {
    hide Exec;
    var s' := Exec(s, a);
    forall u | u in s'.workers ensures ArmOk(s', u) { ArmStep(s, a, u); }
    forall i | 0 <= i < |s.calls| ensures CallOk(s', s.calls[i]) { CallStep(s, a, s.calls[i]); }
    WhatIsCalled(s, a);
  }

  lemma InvStep(s: State, a: Action)
    requires Inv(s)
    ensures Inv(Exec(s, a))
  {
    hide Exec;
    RowsStep(s, a);
    WorkersStep(s, a);
    ResettersStep(s, a);
    AuthorityStep(s, a);
  }

  lemma {:induction false} InvFrom(s: State, actions: seq<Action>)
    requires Inv(s)
    ensures Inv(RunFrom(s, actions))
  {
    if actions != [] {
      InvFrom(s, actions[..|actions| - 1]);
      InvStep(RunFrom(s, actions[..|actions| - 1]), actions[|actions| - 1]);
    }
  }

  /** Every state the engine can reach satisfies the invariant. */
  lemma InvHolds(actions: seq<Action>)
    ensures Inv(Run(actions))
  {
    InvFrom(InitialState, actions);
  }
}
