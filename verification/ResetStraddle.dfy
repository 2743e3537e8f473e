/**
  Execution counted by the clock rather than by generation.

  A worker that persisted its right to execute and then stalled may still call the wallet
  after a reset, next to the execution of the operation's new incarnation. This module shows
  exactly when that can happen.
 */
module ResetStraddle {
  import opened Prelude
  import opened J = Journal
  import opened E = Engine
  import opened StoreRuns
  import opened EngineInvariant

  /** The journal as a committed reset leaves it, with room for one more claim. */
  predicate JustReset(s: State) {
    && s.db.operations == map[] && s.db.barrier.None? && s.db.evidence == []
    && s.db.nextToken < U64_MAX
    && (s.db.reset.Some? ==> s.db.reset.value.until < U64_MAX)
  }

  /** No further reset commits along the run. */
  predicate NoReset(s: State, actions: seq<Action>) {
    RunFrom(s, actions).db.generation == s.db.generation
  }

  /** At most one of the calls made since `s` is on operation `id`. */
  predicate AtMostOneCall(s: State, s': State, id: OperationId) {
    forall i, j :: |s.calls| <= i < j < |s'.calls| ==> !(s'.calls[i].id == id && s'.calls[j].id == id)
  }

  predicate Straddles(s: State, id: OperationId) {
    exists t :: t in s.workers && s.workers[t].pc.CallExecute? && s.workers[t].id == id
  }

  // ---- nobody straddles: one call ----

  /** Since `s`, every call and every right to execute on `id` belongs to the generation of `s`. */
  predicate AllOfGeneration(s: State, s': State, id: OperationId) {
    && s.db.generation <= s'.db.generation
    && |s.calls| <= |s'.calls|
    && (s'.db.generation == s.db.generation ==>
          && (forall t :: t in s'.workers && s'.workers[t].pc.CallExecute? && s'.workers[t].id == id ==>
                s'.workers[t].authority.Some? && s'.workers[t].authority.value.generation == s.db.generation)
          && (forall i :: |s.calls| <= i < |s'.calls| && s'.calls[i].id == id ==>
                s'.calls[i].authority.Some? && s'.calls[i].authority.value.generation == s.db.generation))
  }

  lemma {:induction false} StaysOfGeneration(s: State, actions: seq<Action>, id: OperationId)
    requires Inv(s) && !Straddles(s, id)
    ensures AllOfGeneration(s, RunFrom(s, actions), id)
  {
    hide Exec;
    if actions != [] {
      var n := |actions| - 1;
      var (mid, a) := (RunFrom(s, actions[..n]), actions[n]);
      StaysOfGeneration(s, actions[..n], id);
      InvFrom(s, actions[..n]);
      assert RunFrom(s, actions) == Exec(mid, a);
      StepMovesPhases(mid, a, id);
      WhatIsCalled(mid, a);
      forall t | t in Exec(mid, a).workers && Exec(mid, a).workers[t].pc.CallExecute?
        ensures (t in mid.workers && Exec(mid, a).workers[t] == mid.workers[t]) || Arms(mid, a, t)
      {
        WhoIsArmed(mid, a, t);
      }
    }
  }

  lemma OneCallWhenNobodyStraddles(s: State, actions: seq<Action>, id: OperationId)
    requires Inv(s) && !Straddles(s, id) && NoReset(s, actions)
    ensures AtMostOneCall(s, RunFrom(s, actions), id)
  {
    StaysOfGeneration(s, actions, id);
    InvFrom(s, actions);
  }

  // ---- somebody straddles: a run with two calls ----

  function Requested(id: OperationId): Input { Input(id, Swap, Some(1), None, "") }

  function Requesting(id: OperationId, phase: Phase): Operation {
    Operation(id, Swap, "intent", phase, None, Some(1))
  }

  function At(owner: Owner, id: OperationId, pc: Pc, phase: Phase, material: Option<string>): Worker {
    Worker(owner, id, false, pc, Requested(id), Requesting(id, phase), material, None)
  }

  function RowAt(owner: Owner, id: OperationId, phase: Phase, material: Option<string>, now: nat, t: nat): Row {
    Row("intent", Requested(id), Requesting(id, phase), material, Some(owner), LeaseEnd(now), t)
  }

  /** Worker `t` is at `w` and its row is `row`; nothing else of interest differs from `s`. */
  predicate Reached(s: State, s': State, t: nat, w: Worker, row: Row) {
    && t in s'.workers && s'.workers[t] == w
    && s'.db.operations == s.db.operations[w.id := row]
    && s'.calls == s.calls && s'.db.generation == s.db.generation
    && s'.db.nextToken == s.db.nextToken + 1 && s'.db.reset == s.db.reset
  }

  lemma FreshStart(s: State, o: Owner, id: OperationId, now: nat)
    requires JustReset(s) && !ResetActive(s.db.reset, now)
    ensures var t := s.db.nextToken + 1;
            var s' := Exec(s, Start(o, Requested(id), "intent", now));
            Reached(s, s', t, NewWorker(o, id, false), RowAt(o, id, Created, None, now, t)) && s'.db.barrier.None?
  {
  }

  lemma FreshReads(s: State, s0: State, t: nat, o: Owner, id: OperationId, now: nat)
    requires Reached(s0, s, t, NewWorker(o, id, false), RowAt(o, id, Created, None, now, t)) && s.db.barrier.None?
    ensures var s1 := Exec(s, Work(t, PreparedWith(None), now));
            var s2 := Exec(s1, Work(t, PreparedWith(None), now));
            Reached(s0, s2, t, At(o, id, ClaimWallet, Created, None), RowAt(o, id, Created, None, now, t))
            && s2.db.barrier.None?
  {
  }

  lemma FreshClaims(s: State, s0: State, t: nat, o: Owner, id: OperationId, now: nat)
    requires Reached(s0, s, t, At(o, id, ClaimWallet, Created, None), RowAt(o, id, Created, None, now, t))
    requires s.db.barrier.None? && now < U64_MAX
    ensures var s1 := Exec(s, Work(t, PreparedWith(None), now));
            var s2 := Exec(s1, Work(t, PreparedWith(None), now));
            Reached(s0, s2, t, At(o, id, CallPrepare, Created, None), RowAt(o, id, Created, None, now, t))
  {
  }

  lemma FreshPrepares(s: State, s0: State, t: nat, o: Owner, id: OperationId, now: nat)
    requires Reached(s0, s, t, At(o, id, CallPrepare, Created, None), RowAt(o, id, Created, None, now, t)) && now < U64_MAX
    ensures var s1 := Exec(s, Work(t, PreparedWith(Some("m")), now));
            var s2 := Exec(s1, Work(t, PreparedWith(None), now));
            Reached(s0, s2, t, At(o, id, PutSubmitted, Submitted, Some("m")), RowAt(o, id, Prepared, Some("m"), now, t))
  {
  }

  lemma FreshArms(s: State, s0: State, t: nat, o: Owner, id: OperationId, now: nat)
    requires Reached(s0, s, t, At(o, id, PutSubmitted, Submitted, Some("m")), RowAt(o, id, Prepared, Some("m"), now, t))
    requires now < U64_MAX
    ensures var s1 := Exec(s, Work(t, PreparedWith(None), now));
            var armed := At(o, id, CallExecute, Submitted, Some("m")).(
              authority := Some(Authority(s0.db.generation, Some("m"))));
            Reached(s0, s1, t, armed, RowAt(o, id, Submitted, Some("m"), now, t))
  {
  }

  function FreeAt(s: State): nat { if s.db.reset.Some? then s.db.reset.value.until else 0 }

  /** Not the process that may still be inside `reset`, with its operation gate closed. */
  function FreshOwner(s: State): Owner { if s.db.reset.Some? then s.db.reset.value.owner + 1 else 0 }

  lemma FreeAtEnds(s: State)
    requires JustReset(s)
    ensures !ResetActive(s.db.reset, FreeAt(s)) && FreeAt(s) < U64_MAX
  {
  }

  /** From a freshly reset journal a new incarnation of `id` can start and take the wallet. */
  lemma FreshWallet(s: State, id: OperationId, xs: seq<Action>) returns (actions: seq<Action>)
    requires JustReset(RunFrom(s, xs))
    ensures var (from, to) := (RunFrom(s, xs), RunFrom(s, actions));
            var t := from.db.nextToken + 1;
            Reached(from, to, t, At(FreshOwner(from), id, CallPrepare, Created, None),
                    RowAt(FreshOwner(from), id, Created, None, FreeAt(from), t))
  {
    hide *;
    var mid := RunFrom(s, xs);
    var (o, now) := (FreshOwner(mid), FreeAt(mid));
    FreeAtEnds(mid);
    var t := mid.db.nextToken + 1;
    var go := Work(t, PreparedWith(None), now);
    var a1 := xs + [Start(o, Requested(id), "intent", now)];
    RunConcat(s, xs, Start(o, Requested(id), "intent", now));
    FreshStart(mid, o, id, now);
    var a2 := a1 + [go, go];
    RunTwo(s, a1, go, go);
    FreshReads(RunFrom(s, a1), mid, t, o, id, now);
    actions := a2 + [go, go];
    RunTwo(s, a2, go, go);
    FreshClaims(RunFrom(s, a2), mid, t, o, id, now);
  }

  /** It can then prepare and gain the right to execute. */
  lemma FreshArming(s: State, id: OperationId, xs: seq<Action>) returns (actions: seq<Action>)
    requires JustReset(RunFrom(s, xs))
    ensures var (from, to) := (RunFrom(s, xs), RunFrom(s, actions));
            var t := from.db.nextToken + 1;
            var armed := At(FreshOwner(from), id, CallExecute, Submitted, Some("m")).(
              authority := Some(Authority(from.db.generation, Some("m"))));
            Reached(from, to, t, armed, RowAt(FreshOwner(from), id, Submitted, Some("m"), FreeAt(from), t))
  {
    hide *;
    var mid := RunFrom(s, xs);
    var (o, now) := (FreshOwner(mid), FreeAt(mid));
    FreeAtEnds(mid);
    var t := mid.db.nextToken + 1;
    var go := Work(t, PreparedWith(None), now);
    var a3 := FreshWallet(s, id, xs);
    var a4 := a3 + [Work(t, PreparedWith(Some("m")), now), go];
    RunTwo(s, a3, Work(t, PreparedWith(Some("m")), now), go);
    FreshPrepares(RunFrom(s, a3), mid, t, o, id, now);
    actions := a4 + [go];
    RunConcat(s, a4, go);
    FreshArms(RunFrom(s, a4), mid, t, o, id, now);
  }

  /** The calling step itself. */
  lemma FreshExecution(s: State, id: OperationId, xs: seq<Action>) returns (actions: seq<Action>)
    requires JustReset(RunFrom(s, xs))
    ensures var (from, to) := (RunFrom(s, xs), RunFrom(s, actions));
            |to.calls| == |from.calls| + 1 && from.calls <= to.calls && to.calls[|from.calls|].id == id
            && to.db.generation == from.db.generation
  {
    hide Exec, RunFrom, RowAt;
    var ready := FreshArming(s, id, xs);
    var go := Work(RunFrom(s, xs).db.nextToken + 1, PreparedWith(None), 0);
    WhatIsCalled(RunFrom(s, ready), go);
    actions := ready + [go];
    RunConcat(s, ready, go);
  }

  lemma TwoCallsWhenSomebodyStraddles(s: State, id: OperationId) returns (actions: seq<Action>)
    requires Inv(s) && JustReset(s) && Straddles(s, id)
    ensures NoReset(s, actions) && !AtMostOneCall(s, RunFrom(s, actions), id)
  {
    var t :| t in s.workers && s.workers[t].pc.CallExecute? && s.workers[t].id == id;
    var late := Work(t, PreparedWith(None), 0);
    WhatIsCalled(s, late);
    assert RunFrom(s, []) == s;
    hide Exec, RunFrom;
    RunConcat(s, [], late);
    assert [] + [late] == [late];
    var one := RunFrom(s, [late]);
    assert one.calls[|s.calls|].id == id;
    actions := FreshExecution(s, id, [late]);
    var two := RunFrom(s, actions);
    assert two.calls[|s.calls|] == one.calls[|s.calls|];
    assert two.calls[|s.calls| + 1].id == id;
  }

  /**
    After a reset, and until the next one, every run calls `execute_prepared` at most once on
    `id` if and only if no worker still holds an unused right to execute `id` when the reset
    commits.
   */
  lemma AtMostOnceBetweenResets(s: State, id: OperationId)
    requires Inv(s) && JustReset(s)
    ensures (forall actions :: NoReset(s, actions) ==> AtMostOneCall(s, RunFrom(s, actions), id))
            <==> !Straddles(s, id)
  {
    if Straddles(s, id) {
      var actions := TwoCallsWhenSomebodyStraddles(s, id);
    } else {
      forall actions | NoReset(s, actions)
        ensures AtMostOneCall(s, RunFrom(s, actions), id)
      {
        OneCallWhenNobodyStraddles(s, actions, id);
      }
    }
  }

  /** Action `a` commits a reset in `s`, with room for one more claim afterwards. */
  predicate CommitsResetIn(s: State, a: Action) {
    && StoreCall(s, a).Some? && CommitsReset(s.db, StoreCall(s, a).value)
    && s.db.nextToken < U64_MAX && s.db.reset.Some? && s.db.reset.value.until < U64_MAX
  }

  lemma ResetLeavesNothing(s: State, a: Action)
    requires CommitsResetIn(s, a)
    ensures JustReset(Exec(s, a))
  {
    hide Exec;
    StepIsStoreCall(s, a);
  }

  /** The same over whole runs: from any run whose last step commits a reset, until the next reset. */
  lemma AtMostOnceAfterReset(actions: seq<Action>, a: Action, id: OperationId)
    requires CommitsResetIn(Run(actions), a)
    ensures var s := Exec(Run(actions), a);
            (forall more :: NoReset(s, more) ==> AtMostOneCall(s, RunFrom(s, more), id)) <==> !Straddles(s, id)
  {
    InvHolds(actions);
    InvStep(Run(actions), a);
    ResetLeavesNothing(Run(actions), a);
    AtMostOnceBetweenResets(Exec(Run(actions), a), id);
  }

  lemma ResetOverStalled(s: State, t: nat, id: OperationId)
    requires t in s.workers && s.workers[t].pc.CallExecute? && s.workers[t].id == id
    requires s.db.operations.Keys == {id} && s.db.operations[id].until <= 120
    requires s.db.reset.None? && s.db.nextToken == 1 && s.db.generation == 0
    ensures var generation := WorkReset(2, "seed", true, 120);
            var s' := Exec(Exec(Exec(s, StartReset(1, 120)), generation), generation);
            JustReset(s') && Straddles(s', id) && s'.db.generation == 1
  {
    var s1 := Exec(s, StartReset(1, 120));
    assert s1.workers == s.workers && 2 in s1.resetters && s1.db.operations == s.db.operations;
    var s2 := Exec(s1, WorkReset(2, "seed", true, 120));
    var s3 := Exec(s2, WorkReset(2, "seed", true, 120));
    assert s3.workers[t] == s.workers[t];
  }

  /** The straddling case is real: a stalled worker, an expired lease and a committed reset reach it. */
  lemma StraddlingIsReachable(id: OperationId) returns (actions: seq<Action>)
    ensures JustReset(Run(actions)) && Straddles(Run(actions), id) && Run(actions).db.generation == 1
  {
    assert RunFrom(InitialState, []) == InitialState;
    var stalled := FreshArming(InitialState, id, []);
    ResetOverStalled(Run(stalled), 1, id);
    hide Exec;
    var step := WorkReset(2, "seed", true, 120);
    var claimed := stalled + [StartReset(1, 120)];
    RunConcat(InitialState, stalled, StartReset(1, 120));
    actions := claimed + [step, step];
    RunTwo(InitialState, claimed, step, step);
  }
}
