/**
  The engine's use of the wallet barrier and of the send outbox, over every run.
 */
module EngineWallet {
  import opened Prelude
  import opened J = Journal
  import opened E = Engine
  import opened C = StoreRuns
  import opened EngineInvariant
  import opened EngineSafety

  predicate TimedActions(actions: seq<Action>) {
    forall i, j :: 0 <= i < j < |actions| ==> actions[i].now <= actions[j].now
  }

  function ActionClock(actions: seq<Action>): nat { if actions == [] then 0 else actions[|actions| - 1].now }

  /** The lease facts of arbitrary store runs hold of the engine's journal too. */
  lemma {:induction false} EngineLeases(actions: seq<Action>)
    requires TimedActions(actions)
    ensures LeasesBounded(Run(actions).db, ActionClock(actions))
    ensures BarrierCovers(Run(actions).db)
    ensures LeasesExclusive(Run(actions).db, ActionClock(actions))
  {
    if actions != [] {
      var n := |actions| - 1;
      var (s, a, clock) := (Run(actions[..n]), actions[n], ActionClock(actions[..n]));
      EngineLeases(actions[..n]);
      hide Exec, Apply, Run, LeasesBounded, BarrierCovers, LeasesExclusive;
      RunLast(actions);
      StepIsStoreCall(s, a);
      if StoreCall(s, a).Some? {
        LeasesStayBounded(s.db, StoreCall(s, a).value, clock);
        BarrierStaysCovering(s.db, StoreCall(s, a).value, clock);
        LeasesStayExclusive(s.db, StoreCall(s, a).value, clock);
      } else { NothingExpires(s.db, clock, a.now); }
    }
  }

  lemma NothingExpires(db: Db, clock: nat, later: nat)
    requires clock <= later && LeasesBounded(db, clock) && LeasesExclusive(db, clock)
    ensures LeasesBounded(db, later) && LeasesExclusive(db, later)
  {
  }

  // ---- the barrier ----

  /** Operation `id` reaches Succeeded or FailedDefinitive in this very step. */
  predicate BecomesDefinitive(db: Db, db': Db, id: OperationId) {
    && id in db.operations && id in db'.operations
    && !db.operations[id].operation.phase.Definitive() && db'.operations[id].operation.phase.Definitive()
  }

  lemma NotDefinitiveOtherwise(db: Db, call: Call, id: OperationId)
    requires LegalWrite(db, call) && !call.Commit?
    ensures !BecomesDefinitive(db, Apply(db, call), id)
  {
    if id in db.operations && id in Apply(db, call).operations && !call.Put? {
      hide Apply;
      CallKeepsContent(db, call, id);
    }
  }

  lemma DefinitiveByCommit(db: Db, call: Call, id: OperationId)
    requires call.Commit? && BecomesDefinitive(db, Apply(db, call), id)
    ensures call.operation.operationId == id && HoldsClaim(db.operations, id, call.owner, call.token, call.now)
    ensures CommitsDefinitively(db, call, id)
  {
  }

  lemma OnlyCommitsAreDefinitive(s: State, a: Action, id: OperationId)
    requires Inv(s) && BecomesDefinitive(s.db, Exec(s, a).db, id)
    ensures a.Work? && a.token in s.workers
    ensures var w := s.workers[a.token];
            && w.pc.Finish? && w.id == id && HoldsClaim(s.db.operations, id, w.owner, a.token, a.now)
            && CommitsDefinitively(s.db, FinishCall(w, w.pc.execution, a.token, a.now), id)
            && Exec(s, a).db == Apply(s.db, FinishCall(w, w.pc.execution, a.token, a.now))
  {
    hide Exec, Apply;
    StepIsStoreCall(s, a);
    var call := StoreCall(s, a).value;
    CallsAreLegal(s, a);
    if call.Commit? {
      DefinitiveByCommit(s.db, call, id);
    } else {
      NotDefinitiveOtherwise(s.db, call, id);
    }
  }

  /** With a nondecreasing clock an operation that reaches a definitive result gives the wallet back. */
  lemma DefinitiveResultFreesWallet(actions: seq<Action>, a: Action, id: OperationId)
    requires TimedActions(actions) && ActionClock(actions) <= a.now
    requires BecomesDefinitive(Run(actions).db, Exec(Run(actions), a).db, id)
    requires Run(actions).db.operations[id].input.kind != Reconcile
    ensures HeldBy(Run(actions).db, id) && Exec(Run(actions), a).db.barrier.None?
  {
    var s := Run(actions);
    InvHolds(actions);
    EngineLeases(actions);
    OnlyCommitsAreDefinitive(s, a, id);
    hide Exec;
  }

  lemma LegalCallKeepsHeld(db: Db, call: Call, id: OperationId)
    requires LegalCall(db, call) && id in db.operations && db.operations[id].operation.phase.Terminal()
    requires HeldBy(db, id) && Apply(db, call).generation == db.generation
    ensures HeldBy(Apply(db, call), id)
  {
    if CommitsReset(db, call) {
      assert false;
    } else {
      hide Apply;
      HeldStep(db, call, id);
    }
  }

  lemma ParkedStep(s: State, a: Action, id: OperationId)
    requires Inv(s) && id in s.db.operations && s.db.operations[id].operation.phase.Terminal()
    requires HeldBy(s.db, id) && Exec(s, a).db.generation == s.db.generation
    ensures HeldBy(Exec(s, a).db, id)
  {
    hide Exec, Apply, LegalCall;
    StepIsStoreCall(s, a);
    if StoreCall(s, a).Some? {
      var call := StoreCall(s, a).value;
      CallsAreLegal(s, a);
      LegalCallKeepsHeld(s.db, call, id);
    }
  }

  /** Operation `id` ends RecoveryBlocked in this very step. */
  predicate BecomesBlocked(db: Db, db': Db, id: OperationId) {
    && id in db.operations && id in db'.operations
    && db.operations[id].operation.phase != RecoveryBlocked && db'.operations[id].operation.phase == RecoveryBlocked
  }

  lemma BlockedByCommit(db: Db, call: Call, id: OperationId)
    requires LegalWrite(db, call) && BecomesBlocked(db, Apply(db, call), id)
    ensures call.Commit? && call.operation.operationId == id
    ensures HoldsClaim(db.operations, id, call.owner, call.token, call.now) && Apply(db, call).barrier == db.barrier
  {
    if !call.Put? && !call.Commit? {
      hide Apply;
      CallKeepsContent(db, call, id);
    }
  }

  /** A non-reconcile operation that ends RecoveryBlocked held the wallet and still holds it. */
  lemma BlockedStepKeepsWallet(s: State, a: Action, id: OperationId)
    requires Inv(s) && BecomesBlocked(s.db, Exec(s, a).db, id) && s.db.operations[id].input.kind != Reconcile
    ensures HeldBy(s.db, id) && HeldBy(Exec(s, a).db, id)
  {
    hide Exec, Apply;
    StepIsStoreCall(s, a);
    CallsAreLegal(s, a);
    BlockedByCommit(s.db, StoreCall(s, a).value, id);
    var w := s.workers[a.token];
    assert w.pc.Finish? && w.id == id && Current(s.db, id, a.token);
    assert WorkerOk(s.db, a.token, w);
  }

  predicate BecomesTerminal(db: Db, db': Db, id: OperationId) {
    && id in db.operations && id in db'.operations
    && !db.operations[id].operation.phase.Terminal() && db'.operations[id].operation.phase.Terminal()
  }

  /**
    When a finished operation gives the wallet back. In every run with a nondecreasing clock, the
    step that ends a non-reconcile operation finds the wallet held by it, and frees it if and
    only if the new phase is Succeeded or FailedDefinitive.
   */
  lemma FinishedFreesWalletIff(actions: seq<Action>, a: Action, id: OperationId)
    requires TimedActions(actions) && ActionClock(actions) <= a.now
    requires BecomesTerminal(Run(actions).db, Exec(Run(actions), a).db, id)
    requires Run(actions).db.operations[id].input.kind != Reconcile
    ensures HeldBy(Run(actions).db, id)
    ensures var db' := Exec(Run(actions), a).db;
            && (db'.barrier.None? <==> db'.operations[id].operation.phase.Definitive())
            && (HeldBy(db', id) <==> db'.operations[id].operation.phase == RecoveryBlocked)
  {
    InvHolds(actions);
    hide Exec, Run, Inv;
    if Exec(Run(actions), a).db.operations[id].operation.phase.Definitive() {
      DefinitiveResultFreesWallet(actions, a, id);
    } else {
      BlockedStepKeepsWallet(Run(actions), a, id);
    }
  }

  /** A blocked operation, other than a reconcile, holds the wallet. */
  predicate BlockedHolds(db: Db, id: OperationId) {
    (id in db.operations && db.operations[id].operation.phase == RecoveryBlocked
     && db.operations[id].operation.kind != Reconcile) ==> HeldBy(db, id)
  }

  lemma BlockedHoldsStep(s: State, a: Action, id: OperationId)
    requires Inv(s) && BlockedHolds(s.db, id)
    ensures BlockedHolds(Exec(s, a).db, id)
  {
    hide Exec;
    StepMovesPhases(s, a, id);
    InvStep(s, a);
    var db' := Exec(s, a).db;
    if id in db'.operations && id in s.db.operations && db'.operations[id].operation.phase == RecoveryBlocked {
      KindStays(s, a, id);
      if s.db.operations[id].operation.kind != Reconcile {
        if s.db.operations[id].operation.phase == RecoveryBlocked {
          ParkedStep(s, a, id);
        } else {
          BlockedStepKeepsWallet(s, a, id);
        }
      }
    }
  }

  lemma CallKeepsKind(db: Db, call: Call, id: OperationId)
    requires LegalWrite(db, call) && id in db.operations && id in Apply(db, call).operations
    ensures Apply(db, call).operations[id].operation.kind == db.operations[id].operation.kind
  {
    if !call.Put? && !call.Commit? {
      hide Apply;
      CallKeepsContent(db, call, id);
    }
  }

  lemma KindStays(s: State, a: Action, id: OperationId)
    requires Inv(s) && id in s.db.operations && id in Exec(s, a).db.operations
    ensures Exec(s, a).db.operations[id].operation.kind == s.db.operations[id].operation.kind
  {
    hide Exec, Apply;
    StepIsStoreCall(s, a);
    if StoreCall(s, a).Some? {
      CallsAreLegal(s, a);
      CallKeepsKind(s.db, StoreCall(s, a).value, id);
    }
  }

  /**
    The failing case. Once a non-reconcile operation is stored as RecoveryBlocked it holds the
    wallet, and until a reset no other operation is granted it.
   */
  lemma BlockedRecoveryParksWallet(actions: seq<Action>, i: nat, id: OperationId)
    requires i <= |actions| && id in Run(actions[..i]).db.operations
    requires Run(actions[..i]).db.operations[id].operation.phase == RecoveryBlocked
    requires Run(actions[..i]).db.operations[id].operation.kind != Reconcile
    requires Run(actions).db.generation == Run(actions[..i]).db.generation
    ensures HeldBy(Run(actions).db, id)
    ensures forall call: Call, other :: other != id ==> !GrantsWallet(Run(actions).db, call, other)
  {
    hide Run;
    TerminalIsFinal(actions, i, id);
    BlockedAlwaysHolds(actions, id);
  }

  lemma {:induction false} BlockedAlwaysHolds(actions: seq<Action>, id: OperationId)
    ensures BlockedHolds(Run(actions).db, id)
  {
    if actions != [] {
      var n := |actions| - 1;
      BlockedAlwaysHolds(actions[..n], id);
      InvHolds(actions[..n]);
      RunLast(actions);
      hide Exec, Run, Inv, BlockedHolds;
      BlockedHoldsStep(Run(actions[..n]), actions[n], id);
    }
  }

  // ---- the send outbox ----

  predicate HonestFor(answer: Answer, kind: Kind) {
    answer.Executed? ==> (answer.execution.handoff.Some? <==> answer.execution.phase == Succeeded && kind == Send)
  }

  /** A wallet that returns a hand-off exactly on successful sends. */
  predicate HonestAnswer(s: State, a: Action) {
    a.Work? && a.token in s.workers ==> HonestFor(a.answer, s.workers[a.token].input.kind)
  }

  predicate Honest(actions: seq<Action>) {
    forall i :: 0 <= i < |actions| ==> HonestAnswer(Run(actions[..i]), actions[i])
  }

  predicate HandoffOk(w: Worker) {
    && (w.pc.AwaitReconcile? ==> w.input.kind == Reconcile)
    && (w.pc.Finish? ==> (w.pc.execution.handoff.Some? <==>
                            w.pc.execution.phase == Succeeded && w.input.kind == Send))
    && (w.pc.PutRefused? ==> (w.pc.refusal.handoff.Some? <==>
                                w.pc.refusal.phase == Succeeded && w.input.kind == Send))
  }

  predicate HandoffsOk(s: State) { forall t :: t in s.workers ==> HandoffOk(s.workers[t]) }

  /** An outbox row exists exactly for the sends stored as Succeeded. */
  predicate OutboxMatches(db: Db, id: OperationId) {
    id in db.outbox <==>
      id in db.operations && db.operations[id].input.kind == Send && db.operations[id].operation.phase == Succeeded
  }

  lemma WorkKeepsHandoff(s: State, t: nat, w: Worker, answer: Answer, now: nat)
    requires HandoffOk(w) && HonestFor(answer, w.input.kind)
    ensures var s' := WorkStep(s, t, w, answer, now);
            s' == s || (t in s'.workers && HandoffOk(s'.workers[t]))
  {
    hide WorkStep, HandoffOk;
    if w.pc.CallPrepare? || w.pc.AwaitWallet? || w.pc.AwaitReconcile? {
      AnswerKeepsHandoff(s, t, w, answer, now);
    } else if w.pc.PutReconciling? || w.pc.PutRefused? || w.pc.PutSubmitted? || w.pc.ReadMaterial? {
      WriteKeepsHandoff(s, t, w, answer, now);
    } else {
      RestKeepsHandoff(s, t, w, answer, now);
    }
  }

  lemma AnswerKeepsHandoff(s: State, t: nat, w: Worker, answer: Answer, now: nat)
    requires HandoffOk(w) && HonestFor(answer, w.input.kind)
    requires w.pc.CallPrepare? || w.pc.AwaitWallet? || w.pc.AwaitReconcile?
    ensures var s' := WorkStep(s, t, w, answer, now);
            s' == s || (t in s'.workers && HandoffOk(s'.workers[t]))
  {
  }

  lemma WriteKeepsHandoff(s: State, t: nat, w: Worker, answer: Answer, now: nat)
    requires HandoffOk(w) && (w.pc.PutReconciling? || w.pc.PutRefused? || w.pc.PutSubmitted? || w.pc.ReadMaterial?)
    ensures var s' := WorkStep(s, t, w, answer, now); t in s'.workers && HandoffOk(s'.workers[t])
  {
    hide J.Put;
  }

  lemma RestKeepsHandoff(s: State, t: nat, w: Worker, answer: Answer, now: nat)
    requires w.pc.ReadInput? || w.pc.ReadOperation? || w.pc.ClaimWallet? || w.pc.PutPrepared? || w.pc.CallExecute?
             || w.pc.Finish? || w.pc.Releasing? || w.pc.Gone?
    ensures var s' := WorkStep(s, t, w, answer, now);
            s' == s || (t in s'.workers && HandoffOk(s'.workers[t]))
  {
    hide J.Put, J.Release, J.TryClaimWalletMutation, FinishExecution;
  }

  lemma HandoffsStep(s: State, a: Action)
    requires WorkersOk(s) && HandoffsOk(s) && HonestAnswer(s, a)
    ensures HandoffsOk(Exec(s, a))
  {
    forall u | u in Exec(s, a).workers
      ensures HandoffOk(Exec(s, a).workers[u])
    {
      if u !in s.workers {
        hide Exec, HandoffOk;
        NobodyStartsArmed(s, a, u);
        FirstPointHandsNothing(Exec(s, a).workers[u]);
      } else if a.Work? && a.token == u {
        hide WorkStep, HandoffOk;
        WorkKeepsHandoff(s, u, s.workers[u], a.answer, a.now);
      } else {
        hide Exec;
        WorkersMoved(s, a, u);
      }
    }
  }

  lemma FirstPointHandsNothing(w: Worker)
    requires w.pc.ReadInput?
    ensures HandoffOk(w)
  {
  }

  /** A commit of a send hands off exactly when it succeeds. */
  predicate HandsRightly(db: Db, call: Call) {
    call.Commit? && Current(db, call.operation.operationId, call.token) ==>
      (call.handoff.Some? <==>
         call.operation.phase == Succeeded && db.operations[call.operation.operationId].input.kind == Send)
  }

  lemma CommitsHandRightly(db: Db, t: nat, w: Worker, now: nat)
    requires WorkerOk(db, t, w) && HandoffOk(w) && WorkCall(w, t, now).Some?
    ensures HandsRightly(db, WorkCall(w, t, now).value)
  {
  }

  lemma WriteKeepsOutbox(db: Db, call: Call, id: OperationId)
    requires OutboxMatches(db, id) && LegalWrite(db, call) && HandsRightly(db, call) && (call.Put? || call.Commit?)
    ensures OutboxMatches(Apply(db, call), id)
  {
  }

  lemma CallKeepsOutbox(db: Db, call: Call, id: OperationId)
    requires OutboxMatches(db, id) && LegalCall(db, call) && HandsRightly(db, call)
    ensures OutboxMatches(Apply(db, call), id)
  {
    if call.Put? || call.Commit? {
      hide Apply, OutboxMatches, HandsRightly;
      WriteKeepsOutbox(db, call, id);
    } else if IsHandoffCall(call) {
      hide Apply;
      HandoffCallFrame(db, call);
    } else if !call.Reset? {
      OutboxUntouched(db, call);
    }
  }

  lemma OutboxStepFor(s: State, a: Action, id: OperationId)
    requires Inv(s) && HandoffsOk(s) && OutboxMatches(s.db, id)
    ensures OutboxMatches(Exec(s, a).db, id)
  {
    hide Exec, Apply, OutboxMatches, LegalCall, HandoffOk, WorkerOk;
    StepIsStoreCall(s, a);
    if StoreCall(s, a).Some? {
      CallsAreLegal(s, a);
      if a.Work? { CommitsHandRightly(s.db, a.token, s.workers[a.token], a.now); }
      CallKeepsOutbox(s.db, StoreCall(s, a).value, id);
    }
  }

  lemma HonestPrefix(actions: seq<Action>)
    requires actions != [] && Honest(actions)
    ensures var n := |actions| - 1; Honest(actions[..n]) && HonestAnswer(Run(actions[..n]), actions[n])
  {
    hide Run, HonestAnswer;
    var n := |actions| - 1;
    forall i | 0 <= i < n ensures HonestAnswer(Run(actions[..n][..i]), actions[..n][i]) {
      assert actions[..n][..i] == actions[..i];
    }
  }

  lemma InvGivesWorkers(s: State)
    requires Inv(s)
    ensures WorkersOk(s)
  {
  }

  lemma {:induction false} OutboxHoldsExactlySucceededSends(actions: seq<Action>, id: OperationId)
    requires Honest(actions)
    ensures HandoffsOk(Run(actions)) && OutboxMatches(Run(actions).db, id)
  {
    if actions != [] {
      var n := |actions| - 1;
      var s := Run(actions[..n]);
      HonestPrefix(actions);
      hide Exec, Run, Inv, HonestAnswer, HandoffsOk, OutboxMatches;
      OutboxHoldsExactlySucceededSends(actions[..n], id);
      InvHolds(actions[..n]);
      RunLast(actions);
      InvGivesWorkers(s);
      HandoffsStep(s, actions[n]);
      OutboxStepFor(s, actions[n], id);
    }
  }
}
