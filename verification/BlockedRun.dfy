/**
  A run in which an operation ends without giving the wallet back: a recovery of a stalled
  operation that the wallet answers with "recovery blocked".
 */
module BlockedRun {
  import opened Prelude
  import opened J = Journal
  import opened E = Engine
  import opened StoreRuns
  import opened EngineWallet
  import opened ResetStraddle

  const Blocked: Execution := Execution(RecoveryBlocked, Some("blocked"), "blocked", None, None, None)

  /** The recovering worker: owner 1, token 2. */
  function Recovering(id: OperationId, pc: Pc, phase: Phase): Worker {
    Worker(1, id, true, pc, Requested(id), Requesting(id, phase), None, None)
  }

  /** The journal holds the one row, claimed by the recovering worker at time 120. */
  predicate Here(s: State, id: OperationId, w: Worker, phase: Phase, held: bool) {
    && 2 in s.workers && s.workers[2] == w
    && s.db.operations == map[id := RowAt(1, id, phase, None, 120, 2)]
    && s.db.barrier == (if held then Some(Barrier(id, 1, LeaseEnd(120), 2)) else None)
    && s.db.evidence == [] && s.db.outbox == map[]
  }

  function Go(answer: Answer): Action { Work(2, answer, 120) }

  lemma Resumes(id: OperationId)
    ensures var s := Exec(Exec(InitialState, Start(0, Requested(id), "intent", 0)), Resume(1, id, 120));
            Here(s, id, NewWorker(1, id, true), Created, false)
  {
    var s1 := Exec(InitialState, Start(0, Requested(id), "intent", 0));
    assert s1.db == EmptyDb.(operations := map[id := RowAt(0, id, Created, None, 0, 1)], nextToken := 1);
  }

  lemma Reads(s: State, id: OperationId)
    requires Here(s, id, NewWorker(1, id, true), Created, false)
    ensures var go := Go(PreparedWith(None));
            Here(Exec(Exec(s, go), go), id, Recovering(id, ClaimWallet, Created), Created, false)
  {
  }

  lemma Claims(s: State, id: OperationId)
    requires Here(s, id, Recovering(id, ClaimWallet, Created), Created, false)
    ensures var go := Go(PreparedWith(None));
            Here(Exec(Exec(s, go), go), id, Recovering(id, PutReconciling(false), Reconciling), Created, true)
  {
  }

  lemma Asks(s: State, id: OperationId)
    requires Here(s, id, Recovering(id, PutReconciling(false), Reconciling), Created, true)
    ensures var go := Go(Executed(Blocked));
            Here(Exec(Exec(s, go), go), id, Recovering(id, Finish(Blocked), Reconciling), Reconciling, true)
  {
  }

  /** The row ends RecoveryBlocked and the barrier still names the operation. */
  predicate EndsBlocked(db: Db, db': Db, id: OperationId) {
    && BecomesTerminal(db, db', id) && db'.operations[id].operation.phase == RecoveryBlocked
    && db'.operations[id].input.kind != Reconcile && HeldBy(db', id)
  }

  lemma Ends(s: State, id: OperationId)
    requires Here(s, id, Recovering(id, Finish(Blocked), Reconciling), Reconciling, true)
    ensures EndsBlocked(s.db, Exec(s, Go(Executed(Blocked))).db, id)
  {
  }

  lemma TimedTwo(xs: seq<Action>, a: Action, b: Action)
    requires TimedActions(xs) && ActionClock(xs) <= a.now <= b.now
    ensures TimedActions(xs + [a, b]) && ActionClock(xs + [a, b]) == b.now
  {
    assert forall i :: 0 <= i < |xs| ==> xs[i].now <= ActionClock(xs);
  }

  /** Up to the granted wallet. */
  lemma BlockedPrefix(id: OperationId) returns (actions: seq<Action>)
    ensures TimedActions(actions) && ActionClock(actions) == 120
    ensures Here(Run(actions), id, Recovering(id, ClaimWallet, Created), Created, false)
  {
    var (start, resume) := (Start(0, Requested(id), "intent", 0), Resume(1, id, 120));
    var go := Go(PreparedWith(None));
    assert Run([]) == InitialState && TimedActions([]) && ActionClock([]) == 0 && go.now == 120;
    hide *;
    var resumed := [] + [start, resume];
    RunTwoMore([], start, resume);
    Resumes(id);
    TimedTwo([], start, resume);
    actions := resumed + [go, go];
    RunTwoMore(resumed, go, go);
    Reads(Run(resumed), id);
    TimedTwo(resumed, go, go);
  }

  lemma RunTwoMore(xs: seq<Action>, a: Action, b: Action)
    ensures Run(xs + [a, b]) == Exec(Exec(Run(xs), a), b)
  {
    RunTwo(InitialState, xs, a, b);
    hide Exec, RunFrom;
  }

  /** The failing case is real: a timed run whose last step ends an operation and keeps the wallet. */
  lemma BlockedIsReachable(id: OperationId) returns (actions: seq<Action>, a: Action)
    ensures TimedActions(actions) && ActionClock(actions) <= a.now
    ensures EndsBlocked(Run(actions).db, Exec(Run(actions), a).db, id)
  {
    var (go, answer) := (Go(PreparedWith(None)), Go(Executed(Blocked)));
    assert go.now == 120 && answer.now == 120;
    hide *;
    var read := BlockedPrefix(id);
    var claimed := read + [go, go];
    RunTwoMore(read, go, go);
    Claims(Run(read), id);
    TimedTwo(read, go, go);
    actions := claimed + [answer, answer];
    RunTwoMore(claimed, answer, answer);
    Asks(Run(claimed), id);
    TimedTwo(claimed, answer, answer);
    a := answer;
    Ends(Run(actions), id);
  }
}
