/**
  The dependency walk of a reconcile operation: follow stored reconcile targets, stop at the
  first repeated id, at the end of the chain, or after ten thousand links.
 */
module ReconcileCycle {
  import opened Prelude
  import opened J = Journal
  import opened C = StoreRuns

  const WALK_BOUND: nat := 10_000

  /** The target of a stored reconcile operation, if `id` is one. */
  function Target(operations: map<OperationId, Row>, id: OperationId): Option<OperationId> {
    if id in operations && operations[id].input.kind == Reconcile then operations[id].input.target else None
  }

  /** The `k`-th id of the chain: the operation itself, its target, the target's target, ... */
  function Walk(operations: map<OperationId, Row>, input: Input, k: nat): Option<OperationId> {
    if k == 0 then Some(input.operationId)
    else if k == 1 then input.target
    else
      var before := Walk(operations, input, k - 1);
      if before.None? then None else Target(operations, before.value)
  }

  /** Some id occurs twice among the first `n + 1` of the chain. */
  predicate Revisits(operations: map<OperationId, Row>, input: Input, n: nat) {
    exists i, j :: 0 <= i < j <= n && Walk(operations, input, j).Some?
                   && Walk(operations, input, i) == Walk(operations, input, j)
  }

  predicate EndsWithin(operations: map<OperationId, Row>, input: Input, n: nat) {
    Walk(operations, input, n).None?
  }

  /** The ids seen before step `k`, as the walk collects them. */
  ghost predicate Seen(operations: map<OperationId, Row>, input: Input, k: nat, visited: set<OperationId>) {
    && (forall i :: 0 <= i < k ==> Walk(operations, input, i).Some? && Walk(operations, input, i).value in visited)
    && (forall id :: id in visited ==> exists i :: 0 <= i < k && Walk(operations, input, i) == Some(id))
  }

  lemma EndedStaysEnded(operations: map<OperationId, Row>, input: Input, m: nat, n: nat)
    requires 1 <= m <= n && Walk(operations, input, m).None?
    ensures Walk(operations, input, n).None?
    decreases n
  {
    if m < n { EndedStaysEnded(operations, input, m, n - 1); }
  }

  /**
    The walk answers true exactly when the chain repeats an id within its bound, false exactly
    when it ends there without a repeat, and gives up exactly otherwise.
   */
  method DependencyCycle(operations: map<OperationId, Row>, input: Input) returns (r: Result<bool>)
    ensures r == Ok(true) <==> Revisits(operations, input, WALK_BOUND)
    ensures r == Ok(false) <==>
              !Revisits(operations, input, WALK_BOUND) && EndsWithin(operations, input, WALK_BOUND + 1)
    ensures r == Err("reconcile_dependency_bound_exceeded") <==>
              !Revisits(operations, input, WALK_BOUND) && !EndsWithin(operations, input, WALK_BOUND + 1)
  {
    if input.target.None? {
      EndsEarly(operations, input, 1);
      return Ok(false);
    }
    var cursor := input.target.value;
    var visited := {input.operationId};
    assert Walk(operations, input, 0) == Some(input.operationId);
    for k := 0 to WALK_BOUND
      invariant Walk(operations, input, k + 1) == Some(cursor)
      invariant Seen(operations, input, k + 1, visited)
      invariant !Revisits(operations, input, k)
    {
      if cursor in visited {
        return Ok(true);
      }
      NewId(operations, input, k + 1, visited, cursor);
      visited := visited + {cursor};
      if cursor !in operations || operations[cursor].input.kind != Reconcile || operations[cursor].input.target.None? {
        EndsEarly(operations, input, k + 2);
        return Ok(false);
      }
      cursor := operations[cursor].input.target.value;
    }
    r := Err("reconcile_dependency_bound_exceeded");
  }

  lemma NewId(operations: map<OperationId, Row>, input: Input, k: nat, visited: set<OperationId>, cursor: OperationId)
    requires k >= 1 && Walk(operations, input, k) == Some(cursor) && cursor !in visited
    requires Seen(operations, input, k, visited) && !Revisits(operations, input, k - 1)
    ensures Seen(operations, input, k + 1, visited + {cursor}) && !Revisits(operations, input, k)
  {
  }

  /** A chain that ends without a repeat never repeats. */
  lemma EndsEarly(operations: map<OperationId, Row>, input: Input, n: nat)
    requires 1 <= n <= WALK_BOUND + 1 && Walk(operations, input, n).None? && !Revisits(operations, input, n - 1)
    ensures !Revisits(operations, input, WALK_BOUND) && EndsWithin(operations, input, WALK_BOUND + 1)
  {
    forall j | n <= j <= WALK_BOUND + 1
      ensures Walk(operations, input, j).None?
    {
      EndedStaysEnded(operations, input, n, j);
    }
  }

  /** The input that starts the walk is the one stored under its own id, as the engine reads it. */
  predicate StoredAs(operations: map<OperationId, Row>, input: Input) {
    input.operationId in operations && operations[input.operationId].input == input && input.kind == Reconcile
  }

  lemma {:induction false} RepeatsForever(operations: map<OperationId, Row>, input: Input, i: nat, j: nat, k: nat)
    requires StoredAs(operations, input) && i < j && Walk(operations, input, j).Some?
    requires Walk(operations, input, i) == Walk(operations, input, j)
    ensures Walk(operations, input, i + k) == Walk(operations, input, j + k)
  {
    if k > 0 { RepeatsForever(operations, input, i, j, k - 1); }
  }

  /** For a stored operation a chain that repeats never ends, so "ends" and "repeats" exclude each other. */
  lemma {:induction false} RepeatingNeverEnds(operations: map<OperationId, Row>, input: Input, i: nat, j: nat, n: nat)
    requires StoredAs(operations, input) && i < j && Walk(operations, input, j).Some?
    requires Walk(operations, input, i) == Walk(operations, input, j)
    ensures Walk(operations, input, n).Some?
    decreases n
  {
    if n <= j {
      if Walk(operations, input, n).None? && n >= 1 {
        EndedStaysEnded(operations, input, n, j);
        assert false;
      }
    } else {
      RepeatingNeverEnds(operations, input, i, j, n - (j - i));
      RepeatsForever(operations, input, i, j, n - j);
    }
  }

  /** Hence for a stored operation the answer false means exactly that the chain ends within the bound. */
  lemma FalseMeansEnds(operations: map<OperationId, Row>, input: Input)
    requires StoredAs(operations, input)
    ensures EndsWithin(operations, input, WALK_BOUND + 1) ==> !Revisits(operations, input, WALK_BOUND)
  {
    if EndsWithin(operations, input, WALK_BOUND + 1) && Revisits(operations, input, WALK_BOUND) {
      var i, j :| 0 <= i < j <= WALK_BOUND && Walk(operations, input, j).Some?
                  && Walk(operations, input, i) == Walk(operations, input, j);
      RepeatingNeverEnds(operations, input, i, j, WALK_BOUND + 1);
    }
  }

  // ---- the bound is never the answer on a small journal ----

  /** The ids at positions `1 .. n` of the chain. */
  ghost function Ids(operations: map<OperationId, Row>, input: Input, n: nat): set<OperationId> {
    set i | 1 <= i <= n && Walk(operations, input, i).Some? :: Walk(operations, input, i).value
  }

  lemma {:induction false} ChainIdsDiffer(operations: map<OperationId, Row>, input: Input, n: nat)
    requires !Revisits(operations, input, n) && Walk(operations, input, n + 1).Some?
    ensures |Ids(operations, input, n)| == n && Ids(operations, input, n) <= operations.Keys
  {
    if n > 0 {
      assert Walk(operations, input, n).Some?;
      assert !Revisits(operations, input, n - 1);
      ChainIdsDiffer(operations, input, n - 1);
      var id := Walk(operations, input, n).value;
      assert id !in Ids(operations, input, n - 1);
      assert Ids(operations, input, n) == Ids(operations, input, n - 1) + {id};
    }
  }

  /** With fewer than ten thousand stored operations the walk always decides. */
  lemma SmallJournalsDecide(operations: map<OperationId, Row>, input: Input)
    requires |operations| < WALK_BOUND
    ensures Revisits(operations, input, WALK_BOUND) || EndsWithin(operations, input, WALK_BOUND + 1)
  {
    if !Revisits(operations, input, WALK_BOUND) && !EndsWithin(operations, input, WALK_BOUND + 1) {
      ChainIdsDiffer(operations, input, WALK_BOUND);
      assert |operations.Keys| == |operations|;
      SubsetSize(Ids(operations, input, WALK_BOUND), operations.Keys);
    }
  }

  // ---- the recursion of reconcile ----

  /** Rows are added but none is dropped or given another request. */
  predicate Grows(before: map<OperationId, Row>, after: map<OperationId, Row>) {
    forall id :: id in before ==> id in after && after[id].input == before[id].input
  }

  lemma CallGrows(db: Db, call: Call)
    requires !CommitsReset(db, call)
    ensures Grows(db.operations, Apply(db, call).operations)
  {
    if call.Put? || call.Commit? {
      hide Apply, Grows;
      WriteGrows(db, call);
    } else if !TouchesLeases(call) {
      hide Apply;
      OperationsUntouched(db, call);
    }
  }

  lemma WriteGrows(db: Db, call: Call)
    requires call.Put? || call.Commit?
    ensures Grows(db.operations, Apply(db, call).operations)
  {
    hide EvidenceAgrees, Record, HandoffAgrees, Hand, HoldsBarrier;
  }

  /** Until a reset the journal only grows, whoever writes to it. */
  lemma {:induction false} JournalGrows(calls: seq<Call>, i: nat, j: nat)
    requires i <= j <= |calls| && !ResetBetween(calls, i, j)
    ensures Grows(After(calls[..i]).operations, After(calls[..j]).operations)
  {
    hide Apply, After, CommitsReset;
    if i < j {
      JournalGrows(calls, i, j - 1);
      AfterStep(calls, j - 1);
      CallGrows(After(calls[..j - 1]), calls[j - 1]);
    }
  }

  /** The chain as a walk sees it whose `k`-th read happens on `journals[k]`. */
  function Observed(journals: seq<map<OperationId, Row>>, input: Input, k: nat): Option<OperationId>
    requires k <= |journals|
  {
    if k == 0 then Some(input.operationId)
    else if k == 1 then input.target
    else
      var before := Observed(journals, input, k - 1);
      if before.None? then None else Target(journals[k - 1], before.value)
  }

  /** A walk that sees the chain end while rows are added has seen it end in the journal it began with. */
  lemma {:induction false} EndedAtTheStart(
    start: map<OperationId, Row>, journals: seq<map<OperationId, Row>>, input: Input, k: nat)
    requires k <= |journals| && forall n :: 0 <= n < |journals| ==> Grows(start, journals[n])
    ensures Walk(start, input, k).Some? ==> Observed(journals, input, k) == Walk(start, input, k)
  {
    if k > 1 { EndedAtTheStart(start, journals, input, k - 1); }
  }

  /** One reconcile in progress: its id and the journal its own dependency walk began with. */
  datatype Level = Level(operations: map<OperationId, Row>, id: OperationId)
  {
    /** The level is stored as a reconcile with a target, and its walk answered that the chain ends. */
    predicate Entered() {
      && id in operations && operations[id].input.operationId == id && StoredAs(operations, operations[id].input)
      && operations[id].input.target.Some? && EndsWithin(operations, operations[id].input, WALK_BOUND + 1)
    }
  }

  /** Reconciles nested in each other: each runs the target of the one before, on a journal that has only grown. */
  predicate Nested(levels: seq<Level>) {
    && (forall k :: 0 <= k < |levels| ==> levels[k].Entered())
    && (forall k :: 0 <= k < |levels| - 1 ==>
          && levels[k].operations[levels[k].id].input.target == Some(levels[k + 1].id)
          && Grows(levels[k].operations, levels[k + 1].operations))
  }

  lemma {:induction false} GrownSince(levels: seq<Level>, k: nat)
    requires Nested(levels) && k < |levels|
    ensures Grows(levels[k].operations, levels[|levels| - 1].operations)
    decreases |levels| - k
  {
    if k < |levels| - 1 { GrownSince(levels, k + 1); }
  }

  /** What the newest level's journal says about level `k`. */
  lemma SeenByLast(levels: seq<Level>, k: nat)
    requires Nested(levels) && k < |levels|
    ensures var (now, id) := (levels[|levels| - 1].operations, levels[k].id);
            && id in now && now[id].input == levels[k].operations[id].input && StoredAs(now, now[id].input)
  {
    GrownSince(levels, k);
  }

  /** The chain from the outermost level, in the newest level's journal, passes all the levels. */
  lemma {:induction false} ChainPassesLevels(levels: seq<Level>, k: nat)
    requires Nested(levels) && k < |levels|
    ensures var now := levels[|levels| - 1].operations;
            levels[0].id in now && Walk(now, now[levels[0].id].input, k) == Some(levels[k].id)
  {
    SeenByLast(levels, 0);
    if k > 0 {
      ChainPassesLevels(levels, k - 1);
      SeenByLast(levels, k - 1);
    }
  }

  lemma {:induction false} WalkFromLevel(levels: seq<Level>, m: nat, k: nat)
    requires Nested(levels) && m < |levels|
    ensures var now := levels[|levels| - 1].operations;
            && levels[0].id in now && levels[m].id in now
            && Walk(now, now[levels[0].id].input, m + k) == Walk(now, now[levels[m].id].input, k)
  {
    ChainPassesLevels(levels, m);
    SeenByLast(levels, m);
    if k > 0 { WalkFromLevel(levels, m, k - 1); }
  }

  /** In that journal the chain ends, because the newest level's own walk said so. */
  lemma ChainEnds(levels: seq<Level>)
    requires Nested(levels) && levels != []
    ensures var now := levels[|levels| - 1].operations;
            levels[0].id in now && Walk(now, now[levels[0].id].input, |levels| + WALK_BOUND).None?
  {
    WalkFromLevel(levels, |levels| - 1, WALK_BOUND + 1);
  }

  /**
    No operation is reconciled inside itself, although other processes add rows while the
    levels are entered: the ids are pairwise different, and the target that the newest level
    is about to run is none of them.
   */
  lemma NestedRunsAreDistinct(levels: seq<Level>)
    requires Nested(levels) && levels != []
    ensures forall i, j :: 0 <= i < j < |levels| ==> levels[i].id != levels[j].id
    ensures var last := levels[|levels| - 1];
            forall i :: 0 <= i < |levels| ==> last.operations[last.id].input.target != Some(levels[i].id)
  {
    var now := levels[|levels| - 1].operations;
    SeenByLast(levels, 0);
    ChainEnds(levels);
    var input := now[levels[0].id].input;
    ChainPassesLevels(levels, |levels| - 1);
    var next := now[levels[|levels| - 1].id].input.target;
    assert Walk(now, input, |levels|) == next;
    forall i, j | 0 <= i < j <= |levels|
      ensures Walk(now, input, i) != Walk(now, input, j)
    {
      ChainPassesLevels(levels, i);
      if j < |levels| { ChainPassesLevels(levels, j); }
      if Walk(now, input, i) == Walk(now, input, j) { RepeatingNeverEnds(now, input, i, j, |levels| + WALK_BOUND); }
    }
    forall i, j | 0 <= i < j < |levels| ensures levels[i].id != levels[j].id {
      ChainPassesLevels(levels, i);
      ChainPassesLevels(levels, j);
    }
    forall i | 0 <= i < |levels| ensures next != Some(levels[i].id) { ChainPassesLevels(levels, i); }
  }

  /**
    The recursion is bounded: there are never more levels than stored operations, and from the
    last change of the journal on at most ten thousand.
   */
  lemma NestedRunsAreBounded(levels: seq<Level>, quiet: nat)
    requires Nested(levels) && quiet < |levels| && levels[quiet].operations == levels[|levels| - 1].operations
    ensures |levels| <= |levels[|levels| - 1].operations|
    ensures |levels| - quiet <= WALK_BOUND
  {
    var now := levels[|levels| - 1].operations;
    NestedRunsAreDistinct(levels);
    DistinctLevels(levels, |levels|);
    assert |now.Keys| == |now|;
    SubsetSize(LevelIds(levels, |levels|), now.Keys);
    var start := now[levels[quiet].id].input;
    var left := |levels| - quiet;
    SeenByLast(levels, quiet);
    if left > WALK_BOUND {
      WalkFromLevel(levels, quiet, WALK_BOUND + 1);
      NextIsThere(levels, quiet + WALK_BOUND + 1);
    }
  }

  /** Every link up to the target of the newest level is there. */
  lemma NextIsThere(levels: seq<Level>, k: nat)
    requires Nested(levels) && 0 < k <= |levels|
    ensures var now := levels[|levels| - 1].operations;
            levels[0].id in now && Walk(now, now[levels[0].id].input, k).Some?
  {
    if k < |levels| {
      ChainPassesLevels(levels, k);
    } else {
      ChainPassesLevels(levels, k - 1);
      SeenByLast(levels, k - 1);
    }
  }

  ghost function LevelIds(levels: seq<Level>, n: nat): set<OperationId>
    requires n <= |levels|
  {
    set k | 0 <= k < n :: levels[k].id
  }

  lemma {:induction false} DistinctLevels(levels: seq<Level>, n: nat)
    requires Nested(levels) && levels != [] && n <= |levels|
    requires forall i, j :: 0 <= i < j < |levels| ==> levels[i].id != levels[j].id
    ensures |LevelIds(levels, n)| == n && LevelIds(levels, n) <= levels[|levels| - 1].operations.Keys
  {
    if n > 0 {
      DistinctLevels(levels, n - 1);
      SeenByLast(levels, n - 1);
      assert LevelIds(levels, n) == LevelIds(levels, n - 1) + {levels[n - 1].id};
    }
  }
}
