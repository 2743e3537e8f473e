/**
  Whole uninterrupted runs of one claim, case by case: what a worker that is left alone does
  with a fresh, a prepared, an unfinished and a finished operation.
 */
module SoloResults {
  import opened Prelude
  import opened J = Journal
  import opened E = Engine
  import opened StoreReplies
  import opened SoloRun

  /** Worker `t` has just claimed its row; nothing has been told about its operation. */
  predicate Claimed(s: State, t: nat, w: Worker, now: nat) {
    && t in s.workers && s.workers[t] == w && w.pc.ReadInput? && HoldsRow(s.db, t, w, now)
    && now < 0xFFFF_FFFF_FFFF_FFFF && Untold(s.db, w.id)
  }

  /** The wallet can be had by this claim. */
  predicate WalletAvailable(db: Db, w: Worker, now: nat) {
    WalletFree(db) || (WalletIsFor(db, w.id) && (db.barrier.value.owner == w.owner || db.barrier.value.until <= now))
  }

  /** The journal with `material` as the stored material of `id`. */
  function WithMaterial(db: Db, id: OperationId, material: Option<string>): Db
    requires id in db.operations
  {
    db.(operations := db.operations[id := db.operations[id].(material := material)])
  }

  /** The row is unowned again. */
  predicate LetGo(db: Db, id: OperationId) {
    id in db.operations && db.operations[id].owner.None? && db.operations[id].until == 0
  }

  /**
    The run ends with the answer `e` published, for an operation that was in phase `from` with
    stored `material` when the answer came; row released, and the wallet given back exactly on
    a definitive result.
   */
  predicate Concluded(db: Db, db': Db, w: Worker, t: nat, from: Phase, material: Option<string>, e: Execution, now: nat)
    requires w.id in db.operations
  {
    && Publishes(WithMaterial(db, w.id, material), db', w.id, from, e) && LetGo(db', w.id)
    && var phase := db'.operations[w.id].operation.phase;
    db'.barrier == if db.operations[w.id].input.kind == Reconcile then db.barrier
                   else if phase == Succeeded || phase == FailedDefinitive then None
                   else Own(w, t, now)
  }

  /** `row` is the row of `db`, moved to phase `from` and with `material`. */
  predicate Advanced(db: Db, id: OperationId, row: Row, from: Phase, material: Option<string>) {
    && id in db.operations
    && row == db.operations[id].(operation := db.operations[id].operation.(phase := from, evidenceCode := row.operation.evidenceCode),
                                 material := material)
  }

  lemma PublishesFromBase(db: Db, now': Db, db': Db, id: OperationId, row: Row, from: Phase, material: Option<string>, e: Execution)
    requires Advanced(db, id, row, from, material)
    requires now' == db.(operations := db.operations[id := row], barrier := now'.barrier) && Publishes(now', db', id, from, e)
    ensures Publishes(WithMaterial(db, id, material), db', id, from, e)
  {
    hide EvidenceOf, FreshHandoff;
    assert db.operations[id := row][id := db'.operations[id]] == db.operations[id := db'.operations[id]];
    assert WithMaterial(db, id, material).operations[id := db'.operations[id]] == db.operations[id := db'.operations[id]];
  }

  lemma PublishedThenLetGo(db: Db, db1: Db, db2: Db, id: OperationId, from: Phase, e: Execution)
    requires id in db.operations && Publishes(db, db1, id, from, e)
    requires db2 == db1.(operations := db1.operations[id := db1.operations[id].(owner := None, until := 0)])
    ensures Publishes(db, db2, id, from, e) && LetGo(db2, id) && db2.barrier == db1.barrier
    ensures db2.operations[id].operation == db1.operations[id].operation
  {
    hide EvidenceOf, FreshHandoff, StoredResult;
    assert db.operations[id := db1.operations[id]][id := db2.operations[id]] == db.operations[id := db2.operations[id]];
  }

  /** The last two steps: the result is stored, and the row released. */
  lemma Finishes(
    s0: State, s: State, db: Db, t: nat, w: Worker, row: Row, b: Option<Barrier>, from: Phase, material: Option<string>, now: nat)
    returns (s': State)
    requires Steps(s0, s, t, now) && Alone(s, db, t, w, row, b) && w.pc.Finish? && w.operation == row.operation
    requires Advanced(db, w.id, row, from, material) && now < row.until && now < 0xFFFF_FFFF_FFFF_FFFF && Untold(db, w.id)
    requires b == (if row.input.kind == Reconcile then db.barrier else Own(w, t, now))
    requires row.input.kind == Reconcile ==> !WalletIsFor(db, w.id)
    ensures Steps(s0, s', t, now) && s'.calls == s.calls
    ensures Concluded(db, s'.db, w, t, from, material, w.pc.execution, now)
  {
    var (go, e) := (Work(t, Nothing, now), w.pc.execution);
    StepsOn(s0, s, t, Nothing, now);
    var s1 := Exec(s, go);
    FinishPublishes(s, t, w, Nothing, now);
    FinishGivesWalletBack(s, t, w, Nothing, now);
    StepsOn(s0, s1, t, Nothing, now);
    s' := Exec(s1, go);
    ReleaseStep(s1, t, w.(pc := Releasing), now);
    hide Exec, Publishes, Steps;
    PublishedThenLetGo(s.db, s1.db, s'.db, w.id, from, e);
    PublishesFromBase(db, s.db, s'.db, w.id, row, from, material, e);
    StoredPhase(WithMaterial(db, w.id, material), s'.db, w.id, from, e);
  }

  lemma StoredPhase(db: Db, db': Db, id: OperationId, from: Phase, e: Execution)
    requires id in db.operations && Publishes(db, db', id, from, e)
    ensures id in db'.operations && db'.operations[id].operation.phase == if Doubted(from, e) then Ambiguous else e.phase
  {
  }

  lemma ReleaseStep(s: State, t: nat, w: Worker, now: nat)
    requires t in s.workers && s.workers[t] == w && w.pc.Releasing? && HeldUnder(s.db, w.id, w.owner, t, now)
    ensures var s' := Exec(s, Work(t, Nothing, now));
            && s'.db == s.db.(operations := s.db.operations[w.id := s.db.operations[w.id].(owner := None, until := 0)])
            && s'.calls == s.calls
  {
  }

  // ---- the beginning ----

  function Reading(w: Worker, row: Row): Worker { w.(input := row.input, operation := row.operation, pc := ReadMaterial) }

  lemma Begins(s: State, t: nat, w: Worker, now: nat) returns (s': State)
    requires Claimed(s, t, w, now)
    ensures var row := s.db.operations[w.id];
            var pc := if row.operation.phase.Terminal() then Releasing
                      else if row.input.kind == Reconcile then ReadMaterial else ClaimWallet;
            && Steps(s, s', t, now) && s'.calls == s.calls
            && Alone(s', s.db, t, Reading(w, row).(pc := pc), row, s.db.barrier)
  {
    var row := s.db.operations[w.id];
    var go := Work(t, Nothing, now);
    assert s.db.operations[w.id := row] == s.db.operations;
    Reads(s, s.db, t, w, row, s.db.barrier, now);
    hide Exec, Steps;
    StepsSelf(s, t, now);
    StepsOn(s, s, t, Nothing, now);
    StepsOn(s, Exec(s, go), t, Nothing, now);
    s' := Exec(Exec(s, go), go);
  }

  lemma TakesTheWallet(s: State, t: nat, w: Worker, now: nat) returns (s': State)
    requires Claimed(s, t, w, now) && WalletAvailable(s.db, w, now)
    requires !s.db.operations[w.id].operation.phase.Terminal() && s.db.operations[w.id].input.kind != Reconcile
    ensures Steps(s, s', t, now) && s'.calls == s.calls
    ensures Alone(s', s.db, t, Reading(w, s.db.operations[w.id]), s.db.operations[w.id], Own(w, t, now))
  {
    var row := s.db.operations[w.id];
    var s1 := Begins(s, t, w, now);
    hide Exec, Steps;
    TakesWallet(s1, s.db, t, Reading(w, row).(pc := ClaimWallet), row, s.db.barrier, now);
    StepsOn(s, s1, t, Nothing, now);
    s' := Exec(s1, Work(t, Nothing, now));
  }

  /** The one call a run adds: this operation, this claim, this material. */
  predicate CallsOnce(s: State, s': State, id: OperationId, t: nat, material: Option<string>) {
    && |s'.calls| == |s.calls| + 1 && s'.calls[..|s.calls|] == s.calls
    && s'.calls[|s.calls|].id == id && s'.calls[|s.calls|].token == t && s'.calls[|s.calls|].material == material
  }

  // ---- a fresh operation ----

  lemma Submits(s0: State, s: State, db: Db, t: nat, w: Worker, row: Row, b: Option<Barrier>, now: nat) returns (s': State)
    requires Steps(s0, s, t, now) && Alone(s, db, t, w, row, b) && w.pc.PutSubmitted? && now < row.until
    requires w.operation.operationId == w.id && w.operation.intentHash == row.intentHash
    ensures Steps(s0, s', t, now) && s'.calls == s.calls && t in s'.workers
    ensures Alone(s', db, t, s'.workers[t], Moved(row, w.operation, None), b)
    ensures s'.workers[t] == w.(pc := s'.workers[t].pc, authority := s'.workers[t].authority)
    ensures s'.workers[t].pc == if w.input.kind == Reconcile then AwaitReconcile else CallExecute
  {
    hide Exec, Steps, Alone;
    WritesSubmitted(s, db, t, w, row, b, now);
    StepsOn(s0, s, t, Nothing, now);
    s' := Exec(s, Work(t, Nothing, now));
  }

  /** From the read material of a new operation to its submission. */
  lemma PreparesAndSubmits(s0: State, s: State, db: Db, t: nat, w: Worker, row: Row, b: Option<Barrier>, m: Option<string>, now: nat)
    returns (s': State, w': Worker, row': Row)
    requires Steps(s0, s, t, now) && Alone(s, db, t, w, row, b) && w.pc.ReadMaterial? && now < row.until
    requires w.operation == row.operation && !w.recovery && row.operation.phase == Created && row.material.None?
    requires w.id in db.operations && row == db.operations[w.id] && w.input == row.input
    ensures Steps(s0, s', t, now) && s'.calls == s.calls && Alone(s', db, t, w', row', b)
    ensures w' == w.(pc := w'.pc, authority := w'.authority, material := m, operation := row'.operation)
    ensures w'.pc == if w.input.kind == Reconcile then AwaitReconcile else CallExecute
    ensures Advanced(db, w.id, row', Submitted, m)
  {
    hide Exec, Steps;
    ReadsMaterial(s, db, t, w, row, b, now);
    StepsOn(s0, s, t, Nothing, now);
    var s1 := Exec(s, Work(t, Nothing, now));
    var w1 := w.(material := row.material, pc := CallPrepare);
    Prepares(s1, db, t, w1, row, b, m, now);
    StepsOn(s0, s1, t, PreparedWith(m), now);
    var s2 := Exec(s1, Work(t, PreparedWith(m), now));
    StepsOn(s0, s2, t, Nothing, now);
    var s3 := Exec(s2, Work(t, Nothing, now));
    var w3 := w1.(pc := PutSubmitted, operation := row.operation.(phase := Submitted), material := m);
    var row3 := Moved(row, row.operation.(phase := Prepared), m);
    s' := Submits(s0, s3, db, t, w3, row3, b, now);
    w', row' := s'.workers[t], Moved(row3, w3.operation, None);
  }

  lemma ExecutesAndFinishes(
    s0: State, s: State, db: Db, t: nat, w: Worker, row: Row, from: Phase, material: Option<string>, e: Execution, now: nat)
    returns (s': State)
    requires Steps(s0, s, t, now) && Alone(s, db, t, w, row, Own(w, t, now)) && w.pc.CallExecute? && w.operation == row.operation
    requires Advanced(db, w.id, row, from, material) && now < row.until && now < 0xFFFF_FFFF_FFFF_FFFF && Untold(db, w.id)
    requires row.input.kind != Reconcile
    ensures Steps(s0, s', t, now) && CallsOnce(s, s', w.id, t, w.material)
    ensures Concluded(db, s'.db, w, t, from, material, e, now)
  {
    hide Exec, Steps, Publishes;
    Executes(s, db, t, w, row, Own(w, t, now), e, now);
    StepsOn(s0, s, t, Nothing, now);
    var s1 := Exec(s, Work(t, Nothing, now));
    StepsOn(s0, s1, t, Executed(e), now);
    var s2 := Exec(s1, Work(t, Executed(e), now));
    s' := Finishes(s0, s2, db, t, w.(pc := Finish(e)), row, Own(w, t, now), from, material, now);
  }

  /**
    A fresh operation: the wallet prepares material `m`, the row goes through Prepared and
    Submitted, `execute_prepared` is called once with `m`, and the answer is published as that
    of a submitted operation.
   */
  lemma FreshOperationExecutes(s: State, t: nat, w: Worker, m: Option<string>, e: Execution, now: nat) returns (s': State)
    requires Claimed(s, t, w, now) && WalletAvailable(s.db, w, now) && !w.recovery
    requires s.db.operations[w.id].operation.phase == Created && s.db.operations[w.id].material.None?
    requires s.db.operations[w.id].input.kind != Reconcile
    ensures Steps(s, s', t, now) && CallsOnce(s, s', w.id, t, m)
    ensures Concluded(s.db, s'.db, w, t, Submitted, m, e, now)
  {
    hide Exec, Steps, Publishes;
    var row := s.db.operations[w.id];
    var s1 := TakesTheWallet(s, t, w, now);
    var s2, w2, row2 := PreparesAndSubmits(s, s1, s.db, t, Reading(w, row), row, Own(w, t, now), m, now);
    s' := ExecutesAndFinishes(s, s2, s.db, t, w2, row2, Submitted, m, e, now);
  }

  /** If the wallet refuses to prepare, nothing is executed and the refusal is published as the answer to a submission. */
  lemma RefusedOperationExecutesNothing(s: State, t: nat, w: Worker, e: Execution, now: nat) returns (s': State)
    requires Claimed(s, t, w, now) && WalletAvailable(s.db, w, now) && !w.recovery
    requires s.db.operations[w.id].operation.phase == Created && s.db.operations[w.id].input.kind != Reconcile
    ensures Steps(s, s', t, now) && s'.calls == s.calls
    ensures Concluded(s.db, s'.db, w, t, Submitted, s.db.operations[w.id].material, e, now)
  {
    hide Exec, Steps, Publishes;
    var row := s.db.operations[w.id];
    var b := Own(w, t, now);
    var s1 := TakesTheWallet(s, t, w, now);
    ReadsMaterial(s1, s.db, t, Reading(w, row), row, b, now);
    StepsOn(s, s1, t, Nothing, now);
    var s2 := Exec(s1, Work(t, Nothing, now));
    var w2 := Reading(w, row).(material := row.material, pc := CallPrepare);
    Refuses(s2, s.db, t, w2, row, b, e, now);
    StepsOn(s, s2, t, Executed(e), now);
    var s3 := Exec(s2, Work(t, Executed(e), now));
    StepsOn(s, s3, t, Nothing, now);
    var s4 := Exec(s3, Work(t, Nothing, now));
    var submitted := row.operation.(phase := Submitted);
    s' := Finishes(s, s4, s.db, t, w2.(pc := Finish(e), operation := submitted), Moved(row, submitted, None), b,
                   Submitted, row.material, now);
  }

  // ---- recovery ----

  /** A recovery persists Reconciling, unless it is there already. */
  lemma Reconciles(s0: State, s: State, db: Db, t: nat, w: Worker, row: Row, b: Option<Barrier>, now: nat)
    returns (s': State, w': Worker, row': Row)
    requires Steps(s0, s, t, now) && Alone(s, db, t, w, row, b) && w.pc.ReadMaterial? && now < row.until
    requires w.operation == row.operation && w.recovery && w.input == row.input
    requires w.id in db.operations && row == db.operations[w.id]
    ensures Steps(s0, s', t, now) && s'.calls == s.calls && Alone(s', db, t, w', row', b)
    ensures w' == w.(pc := w'.pc, authority := w'.authority, material := row.material, operation := row'.operation)
    ensures w'.pc == if w.input.kind == Reconcile then AwaitReconcile
                     else if row.operation.phase == Prepared && row.material.Some? then CallExecute else AwaitWallet
    ensures Advanced(db, w.id, row', Reconciling, row.material)
  {
    hide Exec, Steps;
    ReadsMaterial(s, db, t, w, row, b, now);
    StepsOn(s0, s, t, Nothing, now);
    var s1 := Exec(s, Work(t, Nothing, now));
    var read := w.(material := row.material);
    if row.operation.phase == Reconciling {
      s', row' := s1, row;
      w' := read.(pc := if w.input.kind == Reconcile then AwaitReconcile else AwaitWallet);
    } else {
      var w1 := read.(pc := PutReconciling(row.operation.phase == Prepared),
                      operation := row.operation.(phase := Reconciling, evidenceCode := None));
      WritesReconciling(s1, db, t, w1, row, b, now);
      StepsOn(s0, s1, t, Nothing, now);
      s' := Exec(s1, Work(t, Nothing, now));
      w', row' := s'.workers[t], Moved(row, w1.operation, None);
    }
  }

  /** Recovering a prepared operation whose material is stored executes it once, with that material. */
  lemma RecoveryExecutesPrepared(s: State, t: nat, w: Worker, e: Execution, now: nat) returns (s': State)
    requires Claimed(s, t, w, now) && WalletAvailable(s.db, w, now) && w.recovery
    requires s.db.operations[w.id].operation.phase == Prepared && s.db.operations[w.id].material.Some?
    requires s.db.operations[w.id].input.kind != Reconcile
    ensures Steps(s, s', t, now) && CallsOnce(s, s', w.id, t, s.db.operations[w.id].material)
    ensures Concluded(s.db, s'.db, w, t, Reconciling, s.db.operations[w.id].material, e, now)
  {
    hide Exec, Steps, Publishes;
    var row := s.db.operations[w.id];
    var s1 := TakesTheWallet(s, t, w, now);
    var s2, w2, row2 := Reconciles(s, s1, s.db, t, Reading(w, row), row, Own(w, t, now), now);
    s' := ExecutesAndFinishes(s, s2, s.db, t, w2, row2, Reconciling, row.material, e, now);
  }

  /** Recovering anything else that is unfinished executes nothing; the wallet's recovery answer is published. */
  lemma RecoveryOnlyAsks(s: State, t: nat, w: Worker, e: Execution, now: nat) returns (s': State)
    requires Claimed(s, t, w, now) && WalletAvailable(s.db, w, now) && w.recovery
    requires !s.db.operations[w.id].operation.phase.Terminal() && s.db.operations[w.id].input.kind != Reconcile
    requires !(s.db.operations[w.id].operation.phase == Prepared && s.db.operations[w.id].material.Some?)
    ensures Steps(s, s', t, now) && s'.calls == s.calls
    ensures Concluded(s.db, s'.db, w, t, Reconciling, s.db.operations[w.id].material, e, now)
  {
    hide Exec, Steps, Publishes;
    var row := s.db.operations[w.id];
    var b := Own(w, t, now);
    var s1 := TakesTheWallet(s, t, w, now);
    var s2, w2, row2 := Reconciles(s, s1, s.db, t, Reading(w, row), row, b, now);
    Answers(s2, s.db, t, w2, row2, b, e, now);
    StepsOn(s, s2, t, Executed(e), now);
    var s3 := Exec(s2, Work(t, Executed(e), now));
    s' := Finishes(s, s3, s.db, t, w2.(pc := Finish(e)), row2, b, Reconciling, row.material, now);
  }

  // ---- reconcile operations ----

  /** A reconcile never takes the wallet nor calls it; what its nested run answers is published without material or hand-off. */
  lemma ReconcileLeavesWalletAlone(s: State, t: nat, w: Worker, m: Option<string>, e: Execution, now: nat) returns (s': State)
    requires Claimed(s, t, w, now) && s.db.operations[w.id].input.kind == Reconcile && !WalletIsFor(s.db, w.id)
    requires var row := s.db.operations[w.id];
             if w.recovery then !row.operation.phase.Terminal() else row.operation.phase == Created && row.material.None?
    ensures Steps(s, s', t, now) && s'.calls == s.calls
    ensures var material := if w.recovery then s.db.operations[w.id].material else m;
            Concluded(s.db, s'.db, w, t, if w.recovery then Reconciling else Submitted, material,
                      e.(material := None, handoff := None), now)
  {
    hide Exec, Steps, Publishes;
    var row := s.db.operations[w.id];
    var b := s.db.barrier;
    var s1 := Begins(s, t, w, now);
    var (s2, w2, row2, material) := (s1, w, row, m);
    if w.recovery {
      s2, w2, row2 := Reconciles(s, s1, s.db, t, Reading(w, row), row, b, now);
      material := row.material;
    } else {
      s2, w2, row2 := PreparesAndSubmits(s, s1, s.db, t, Reading(w, row), row, b, m, now);
    }
    Answers(s2, s.db, t, w2, row2, b, e, now);
    StepsOn(s, s2, t, Executed(e), now);
    var s3 := Exec(s2, Work(t, Executed(e), now));
    s' := Finishes(s, s3, s.db, t, w2.(pc := Finish(e.(material := None, handoff := None))), row2, b,
                   if w.recovery then Reconciling else Submitted, material, now);
  }

  // ---- nothing to do ----

  predicate OnlyLetGo(db: Db, db': Db, id: OperationId) {
    && LetGo(db', id) && id in db.operations
    && db' == db.(operations := db.operations[id := db.operations[id].(owner := None, until := 0)])
  }

  lemma Leaves(s0: State, s: State, db: Db, t: nat, w: Worker, row: Row, now: nat) returns (s': State)
    requires Steps(s0, s, t, now) && Alone(s, db, t, w, row, db.barrier) && w.pc.Releasing? && now < row.until
    requires w.id in db.operations && row == db.operations[w.id]
    ensures Steps(s0, s', t, now) && s'.calls == s.calls && OnlyLetGo(db, s'.db, w.id)
  {
    hide Exec, Steps;
    LetsGo(s, db, t, w, row, db.barrier, now);
    StepsOn(s0, s, t, Nothing, now);
    s' := Exec(s, Work(t, Nothing, now));
  }

  /** A finished operation is only let go of. */
  lemma FinishedOperationIsLeftAlone(s: State, t: nat, w: Worker, now: nat) returns (s': State)
    requires Claimed(s, t, w, now) && s.db.operations[w.id].operation.phase.Terminal()
    ensures Steps(s, s', t, now) && s'.calls == s.calls && OnlyLetGo(s.db, s'.db, w.id)
  {
    hide Exec, Steps;
    var row := s.db.operations[w.id];
    var s1 := Begins(s, t, w, now);
    s' := Leaves(s, s1, s.db, t, Reading(w, row).(pc := Releasing), row, now);
  }

  /** While another operation has the wallet, this one is only let go of. */
  lemma BusyWalletIsWaitedFor(s: State, t: nat, w: Worker, now: nat) returns (s': State)
    requires Claimed(s, t, w, now) && !WalletAvailable(s.db, w, now)
    requires !s.db.operations[w.id].operation.phase.Terminal() && s.db.operations[w.id].input.kind != Reconcile
    ensures Steps(s, s', t, now) && s'.calls == s.calls && OnlyLetGo(s.db, s'.db, w.id)
  {
    hide Exec, Steps;
    var row := s.db.operations[w.id];
    var w1 := Reading(w, row);
    var s1 := Begins(s, t, w, now);
    TakesWallet(s1, s.db, t, w1.(pc := ClaimWallet), row, s.db.barrier, now);
    StepsOn(s, s1, t, Nothing, now);
    var s2 := Exec(s1, Work(t, Nothing, now));
    s' := Leaves(s, s2, s.db, t, w1.(pc := Releasing), row, now);
  }
}
