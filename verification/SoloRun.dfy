/**
  What one worker does from its claim to its release when nobody interferes: which phases it
  persists, when it executes and when it recovers, and what it stores of the wallet's answer.
  Everything is said of rows, calls and answers.
 */
module SoloRun {
  import opened Prelude
  import opened J = Journal
  import opened E = Engine
  import opened StoreReplies

  // ---- what a finished execution leaves ----

  /** A failure reported right after submission is not believed yet. */
  predicate Doubted(from: Phase, e: Execution) {
    from == Submitted && (e.phase == FailedDefinitive || e.phase == RecoveryBlocked)
  }

  const DOUBT := "submitted_failure_requires_reconcile"

  /** Operation `op`, finished from phase `from` with answer `e`, is stored as `done`. */
  predicate StoredResult(op: Operation, from: Phase, e: Execution, done: Operation) {
    && done.phase == (if Doubted(from, e) then Ambiguous else e.phase)
    && done.evidenceCode == (if Doubted(from, e) then Some(DOUBT) else e.evidenceCode)
    && done.amount == (if !Doubted(from, e) && e.amount.Some? then e.amount else op.amount)
    && done.operationId == op.operationId && done.kind == op.kind && done.intentHash == op.intentHash
  }

  /** The evidence of a stored result names its operation, event, phase, amount and code. */
  predicate EvidenceOf(row: EvidenceRow, from: Phase, e: Execution, done: Operation) {
    var event := if Doubted(from, e) then DOUBT else e.event;
    && row.effect == EffectId(done.operationId, event)
    && row.value.operationId == done.operationId && row.value.event == event
    && row.value.source == (if event == "melt_settlement_verified" || event == "melt_settlement_verified_legacy"
                            then "lightning" else "adapter")
    && row.value.dataHash.operationId == done.operationId && row.value.dataHash.kind == done.kind
    && row.value.dataHash.phase == done.phase
    && row.value.dataHash.amount == (if done.amount.Some? then done.amount.value else 0)
    && row.value.dataHash.code == (if done.evidenceCode.Some? then done.evidenceCode.value else "")
  }

  /** Nothing recorded or handed off for `id` so far, so that a commit cannot conflict. */
  predicate Untold(db: Db, id: OperationId) {
    id !in db.outbox && forall i :: 0 <= i < |db.evidence| ==> db.evidence[i].effect.operationId != id
  }

  /** The journal after the result of `id` is stored: row, evidence and hand-off; barrier apart. */
  predicate Publishes(db: Db, db': Db, id: OperationId, from: Phase, e: Execution)
    requires id in db.operations
  {
    && id in db'.operations && db'.operations == db.operations[id := db'.operations[id]]
    && var (row, row') := (db.operations[id], db'.operations[id]);
    && StoredResult(row.operation, from, e, row'.operation)
    && row'.material == (if e.material.Some? then e.material else row.material)
    && row'.input == row.input && row'.intentHash == row.intentHash && row'.token == row.token
    && |db'.evidence| == |db.evidence| + 1 && db.evidence == db'.evidence[..|db.evidence|]
    && EvidenceOf(db'.evidence[|db.evidence|], from, e, row'.operation)
    && (if !Doubted(from, e) && e.handoff.Some? then
          db'.outbox.Keys == db.outbox.Keys + {id} && FreshHandoff(db'.outbox[id], e.handoff.value)
          && db.outbox == db'.outbox - {id}
        else db'.outbox == db.outbox)
    && db'.nextToken == db.nextToken && db'.reset == db.reset && db'.generation == db.generation && db'.seedHash == db.seedHash
  }

  /** What the engine hands to the commit is the result as described. */
  lemma OutcomeIsStoredResult(op: Operation, e: Execution)
    ensures var (settled, done) := (Settled(op, e), Outcome(op, Settled(op, e)));
            && StoredResult(op, op.phase, e, done) && settled.material == e.material
            && settled.handoff == (if Doubted(op.phase, e) then None else e.handoff)
            && EvidenceOf(EvidenceRow(EffectId(done.operationId, settled.event),
                                      Evidence(done.operationId, EvidenceSource(settled.event), settled.event, EvidenceHash(done))),
                          op.phase, e, done)
  {
  }

  lemma UntoldNeverConflicts(db: Db, id: OperationId, event: string, evidence: Evidence, handoff: Option<Handoff>)
    requires Untold(db, id)
    ensures NothingConflicts(db, id, EffectId(id, event), evidence, handoff)
    ensures !exists i :: 0 <= i < |db.evidence| && db.evidence[i].effect == EffectId(id, event)
  {
  }

  /** `w` holds its row of `db` under token `t`. */
  predicate HoldsRow(db: Db, t: nat, w: Worker, now: nat) {
    && HeldUnder(db, w.id, w.owner, t, now)
    && db.operations[w.id].operation.operationId == w.id
    && db.operations[w.id].operation.intentHash == db.operations[w.id].intentHash
  }

  lemma CommitPublishes(db: Db, w: Worker, execution: Execution, t: nat, now: nat)
    requires HoldsRow(db, t, w, now) && w.operation == db.operations[w.id].operation && Untold(db, w.id)
    ensures var db' := FinishExecution(db, w, execution, t, now).db;
            && Publishes(db, db', w.id, w.operation.phase, execution) && HoldsRow(db', t, w, now)
            && db'.operations[w.id].owner == db.operations[w.id].owner
            && db'.operations[w.id].until == db.operations[w.id].until
  {
    var (op, e) := (w.operation, Settled(w.operation, execution));
    var done := Outcome(op, e);
    var evidence := Evidence(done.operationId, EvidenceSource(e.event), e.event, EvidenceHash(done));
    OutcomeIsStoredResult(op, execution);
    UntoldNeverConflicts(db, w.id, e.event, evidence, e.handoff);
    CommitReply(db, w.owner, done, e.material, EffectId(w.id, e.event), evidence, e.handoff, t, now);
    PutReply(db, w.owner, done, e.material, t, now);
    hide J.Commit, J.Put, Settled, Outcome, EvidenceSource, EvidenceHash, EvidenceOf, NothingConflicts, FreshHandoff;
  }

  lemma FinishStep(s: State, t: nat, w: Worker, answer: Answer, now: nat)
    requires t in s.workers && s.workers[t] == w && w.pc.Finish?
    ensures Exec(s, Work(t, answer, now))
         == s.(db := FinishExecution(s.db, w, w.pc.execution, t, now).db, workers := s.workers[t := w.(pc := Releasing)])
  {
  }

  /** After the step that finishes, the result is published, and the lease still runs. */
  lemma FinishPublishes(s: State, t: nat, w: Worker, answer: Answer, now: nat)
    requires t in s.workers && s.workers[t] == w && HoldsRow(s.db, t, w, now)
    requires w.pc.Finish? && w.operation == s.db.operations[w.id].operation && Untold(s.db, w.id)
    ensures var s' := Exec(s, Work(t, answer, now));
            && Publishes(s.db, s'.db, w.id, w.operation.phase, w.pc.execution) && HoldsRow(s'.db, t, w, now)
            && s'.workers == s.workers[t := w.(pc := Releasing)] && s'.calls == s.calls
            && s'.db.operations[w.id].owner == s.db.operations[w.id].owner
            && s'.db.operations[w.id].until == s.db.operations[w.id].until
  {
    FinishStep(s, t, w, answer, now);
    hide Exec, FinishExecution, Publishes;
    CommitPublishes(s.db, w, w.pc.execution, t, now);
  }

  /** Whatever was recorded before: the step stores the result, or a conflict leaves the journal as it was. */
  lemma FinishStoresOrConflicts(s: State, t: nat, w: Worker, answer: Answer, now: nat)
    requires t in s.workers && s.workers[t] == w && HoldsRow(s.db, t, w, now)
    requires w.pc.Finish? && w.operation == s.db.operations[w.id].operation
    ensures var s' := Exec(s, Work(t, answer, now));
            || s'.db == s.db
            || (w.id in s'.db.operations
                && StoredResult(w.operation, w.operation.phase, w.pc.execution, s'.db.operations[w.id].operation))
  {
    FinishStep(s, t, w, answer, now);
    hide Exec, SendTokenHash, EvidenceAgrees, HandoffAgrees, Hand, J.Record;
  }

  /** With the wallet held by this very claim, the step gives it back exactly on a definitive result. */
  lemma FinishGivesWalletBack(s: State, t: nat, w: Worker, answer: Answer, now: nat)
    requires t in s.workers && s.workers[t] == w && HoldsRow(s.db, t, w, now)
    requires w.pc.Finish? && w.operation == s.db.operations[w.id].operation && Untold(s.db, w.id)
    ensures var s' := Exec(s, Work(t, answer, now));
            var phase := if Doubted(w.operation.phase, w.pc.execution) then Ambiguous else w.pc.execution.phase;
            if WalletIsFor(s.db, w.id) && s.db.barrier.value.owner == w.owner && s.db.barrier.value.token == t
               && now < s.db.barrier.value.until && (phase == Succeeded || phase == FailedDefinitive) then s'.db.barrier.None?
            else s'.db.barrier == s.db.barrier
  {
    FinishStep(s, t, w, answer, now);
    hide Exec;
    hide SendTokenHash;
  }

  // ---- the steps of one worker ----

  predicate ByWorker(actions: seq<Action>, t: nat, now: nat) {
    forall k :: 0 <= k < |actions| ==> actions[k].Work? && actions[k].token == t && actions[k].now == now
  }

  /** `s'` follows `s` by steps of worker `t` alone, at time `now`. */
  ghost predicate Steps(s: State, s': State, t: nat, now: nat) {
    exists actions :: ByWorker(actions, t, now) && RunFrom(s, actions) == s'
  }

  lemma StepsSelf(s: State, t: nat, now: nat)
    ensures Steps(s, s, t, now)
  {
    assert ByWorker([], t, now) && RunFrom(s, []) == s;
  }

  lemma StepsOn(s: State, s': State, t: nat, answer: Answer, now: nat)
    requires Steps(s, s', t, now)
    ensures Steps(s, Exec(s', Work(t, answer, now)), t, now)
  {
    hide Exec;
    var actions :| ByWorker(actions, t, now) && RunFrom(s, actions) == s';
    RunConcat(s, actions, Work(t, answer, now));
    assert ByWorker(actions + [Work(t, answer, now)], t, now);
  }

  /** Only worker `t`, its row and the barrier differ from the journal `db`. */
  predicate Alone(s: State, db: Db, t: nat, w: Worker, row: Row, barrier: Option<Barrier>) {
    && t in s.workers && s.workers[t] == w
    && s.db == db.(operations := db.operations[w.id := row], barrier := barrier)
    && row.owner == Some(w.owner) && row.token == t
    && row.operation.operationId == w.id && row.operation.intentHash == row.intentHash
  }

  const Nothing := PreparedWith(None)

  /** The claim's first two reads. */
  lemma Reads(s: State, db: Db, t: nat, w: Worker, row: Row, b: Option<Barrier>, now: nat)
    requires Alone(s, db, t, w, row, b) && w.pc.ReadInput?
    ensures var go := Work(t, Nothing, now);
            var pc := if row.operation.phase.Terminal() then Releasing
                      else if row.input.kind == Reconcile then ReadMaterial else ClaimWallet;
            && Alone(Exec(Exec(s, go), go), db, t, w.(input := row.input, operation := row.operation, pc := pc), row, b)
            && Exec(Exec(s, go), go).calls == s.calls
  {
  }

  /** The wallet this claim gets. */
  function Own(w: Worker, t: nat, now: nat): Option<Barrier> { Some(Barrier(w.id, w.owner, TwoMinutesFrom(now), t)) }

  lemma TakesWallet(s: State, db: Db, t: nat, w: Worker, row: Row, b: Option<Barrier>, now: nat)
    requires Alone(s, db, t, w, row, b) && w.pc.ClaimWallet? && now < row.until
    ensures var s' := Exec(s, Work(t, Nothing, now));
            && s'.calls == s.calls
            && if b.None? || (b.value.operationId == w.id && (b.value.owner == w.owner || b.value.until <= now)) then
                 Alone(s', db, t, w.(pc := ReadMaterial), row, Own(w, t, now))
               else Alone(s', db, t, w.(pc := Releasing), row, b)
  {
    TryClaimWalletMutationReply(s.db, w.owner, w.id, t, now);
    hide J.TryClaimWalletMutation;
  }

  /** Once the material is read: recover what was begun, prepare what is new, submit what is prepared. */
  lemma ReadsMaterial(s: State, db: Db, t: nat, w: Worker, row: Row, b: Option<Barrier>, now: nat)
    requires Alone(s, db, t, w, row, b) && w.pc.ReadMaterial? && w.operation == row.operation
    ensures var s' := Exec(s, Work(t, Nothing, now));
            var read := w.(material := row.material);
            && s'.calls == s.calls
            && if !w.recovery && row.operation.phase == Created then Alone(s', db, t, read.(pc := CallPrepare), row, b)
               else if (w.recovery || row.operation.phase == Ambiguous) && row.operation.phase != Reconciling then
                 Alone(s', db, t, read.(pc := PutReconciling(row.operation.phase == Prepared),
                                        operation := row.operation.(phase := Reconciling, evidenceCode := None)), row, b)
               else if w.recovery then
                 Alone(s', db, t, read.(pc := if w.input.kind == Reconcile then AwaitReconcile else AwaitWallet), row, b)
               else Alone(s', db, t, read.(pc := PutSubmitted, operation := row.operation.(phase := Submitted)), row, b)
  {
  }

  function Moved(row: Row, operation: Operation, material: Option<string>): Row {
    row.(operation := operation, material := if material.Some? then material else row.material)
  }

  /** A write under the live claim stores the worker's copy. */
  lemma WritesRow(s: State, db: Db, t: nat, w: Worker, row: Row, b: Option<Barrier>, material: Option<string>, now: nat)
    requires Alone(s, db, t, w, row, b) && now < row.until
    requires w.operation.operationId == w.id && w.operation.intentHash == row.intentHash
    ensures var r := J.Put(s.db, w.owner, w.operation, material, t, now);
            r.result.Ok? && r.db == db.(operations := db.operations[w.id := Moved(row, w.operation, material)], barrier := b)
  {
    PutReply(s.db, w.owner, w.operation, material, t, now);
    hide J.Put;
    assert db.operations[w.id := row][w.id := Moved(row, w.operation, material)]
        == db.operations[w.id := Moved(row, w.operation, material)];
  }

  lemma WritesReconciling(s: State, db: Db, t: nat, w: Worker, row: Row, b: Option<Barrier>, now: nat)
    requires Alone(s, db, t, w, row, b) && now < row.until && w.pc.PutReconciling?
    requires w.operation.operationId == w.id && w.operation.intentHash == row.intentHash && w.material == row.material
    ensures var s' := Exec(s, Work(t, Nothing, now));
            && s'.calls == s.calls && t in s'.workers
            && Alone(s', db, t, s'.workers[t], Moved(row, w.operation, None), b)
            && s'.workers[t] == w.(pc := s'.workers[t].pc, authority := s'.workers[t].authority)
            && s'.workers[t].pc == (if w.input.kind == Reconcile then AwaitReconcile
                                    else if w.pc.fromPrepared && row.material.Some? then CallExecute else AwaitWallet)
  {
    WritesRow(s, db, t, w, row, b, None, now);
    hide J.Put;
  }

  lemma WritesSubmitted(s: State, db: Db, t: nat, w: Worker, row: Row, b: Option<Barrier>, now: nat)
    requires Alone(s, db, t, w, row, b) && now < row.until && w.pc.PutSubmitted?
    requires w.operation.operationId == w.id && w.operation.intentHash == row.intentHash
    ensures var s' := Exec(s, Work(t, Nothing, now));
            && s'.calls == s.calls && t in s'.workers
            && Alone(s', db, t, s'.workers[t], Moved(row, w.operation, None), b)
            && s'.workers[t] == w.(pc := s'.workers[t].pc, authority := s'.workers[t].authority)
            && s'.workers[t].pc == (if w.input.kind == Reconcile then AwaitReconcile else CallExecute)
  {
    WritesRow(s, db, t, w, row, b, None, now);
    hide J.Put;
  }

  /** The wallet prepares: the row becomes Prepared with the material, and submission is next. */
  lemma Prepares(s: State, db: Db, t: nat, w: Worker, row: Row, b: Option<Barrier>, m: Option<string>, now: nat)
    requires Alone(s, db, t, w, row, b) && now < row.until && w.pc.CallPrepare? && w.operation == row.operation
    ensures var s' := Exec(Exec(s, Work(t, PreparedWith(m), now)), Work(t, Nothing, now));
            && s'.calls == s.calls
            && Alone(s', db, t, w.(pc := PutSubmitted, operation := row.operation.(phase := Submitted), material := m),
                     Moved(row, row.operation.(phase := Prepared), m), b)
  {
    var s1 := Exec(s, Work(t, PreparedWith(m), now));
    var w1 := w.(pc := PutPrepared, operation := row.operation.(phase := Prepared), material := m);
    assert Alone(s1, db, t, w1, row, b);
    WritesRow(s1, db, t, w1, row, b, m, now);
    hide J.Put;
  }

  /** The wallet refuses to prepare: the row becomes Submitted and the refusal is the result. */
  lemma Refuses(s: State, db: Db, t: nat, w: Worker, row: Row, b: Option<Barrier>, e: Execution, now: nat)
    requires Alone(s, db, t, w, row, b) && now < row.until && w.pc.CallPrepare? && w.operation == row.operation
    ensures var s' := Exec(Exec(s, Work(t, Executed(e), now)), Work(t, Nothing, now));
            && s'.calls == s.calls
            && Alone(s', db, t, w.(pc := Finish(e), operation := row.operation.(phase := Submitted)),
                     Moved(row, row.operation.(phase := Submitted), None), b)
  {
    var s1 := Exec(s, Work(t, Executed(e), now));
    var w1 := w.(pc := PutRefused(e), operation := row.operation.(phase := Submitted));
    assert Alone(s1, db, t, w1, row, b);
    WritesRow(s1, db, t, w1, row, b, None, now);
    hide J.Put;
  }

  /** The execution call and its answer. */
  lemma Executes(s: State, db: Db, t: nat, w: Worker, row: Row, b: Option<Barrier>, e: Execution, now: nat)
    requires Alone(s, db, t, w, row, b) && w.pc.CallExecute?
    ensures var s' := Exec(Exec(s, Work(t, Nothing, now)), Work(t, Executed(e), now));
            && s'.calls == s.calls + [WalletCall(w.id, t, w.material, w.authority)]
            && Alone(s', db, t, w.(pc := Finish(e)), row, b)
  {
  }

  /** The answer of a recovery, or of a nested run, which carries neither material nor hand-off. */
  lemma Answers(s: State, db: Db, t: nat, w: Worker, row: Row, b: Option<Barrier>, e: Execution, now: nat)
    requires Alone(s, db, t, w, row, b) && (w.pc.AwaitWallet? || w.pc.AwaitReconcile?)
    ensures var s' := Exec(s, Work(t, Executed(e), now));
            var kept := if w.pc.AwaitReconcile? then e.(material := None, handoff := None) else e;
            s'.calls == s.calls && Alone(s', db, t, w.(pc := Finish(kept)), row, b)
  {
  }

  lemma LetsGo(s: State, db: Db, t: nat, w: Worker, row: Row, b: Option<Barrier>, now: nat)
    requires Alone(s, db, t, w, row, b) && w.pc.Releasing? && now < row.until
    ensures var s' := Exec(s, Work(t, Nothing, now));
            && s'.calls == s.calls && t in s'.workers && s'.workers[t].pc.Gone?
            && s'.db == db.(operations := db.operations[w.id := row.(owner := None, until := 0)], barrier := b)
  {
    assert db.operations[w.id := row][w.id := row.(owner := None, until := 0)]
        == db.operations[w.id := row.(owner := None, until := 0)];
  }
}
