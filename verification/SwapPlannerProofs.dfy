/**
  The planner against the plain specification: does some sub-collection of the proofs satisfy
  the NUT-02 fee rule?
 */
module SwapPlannerProofs {
  import opened Prelude
  import opened SwapPlanner

  /** `chosen` uses every given proof at most once. */
  predicate Available(chosen: seq<FeeAwareProof>, proofs: seq<FeeAwareProof>) {
    multiset(chosen) <= multiset(proofs)
  }

  /** The NUT-02 input fee: one thousandth of the summed ppk, rounded up. */
  function Nut02Fee(ppk: nat): nat { (ppk + 999) / 1000 }

  /** The NUT-02 rule for a selection that returns `net`. */
  predicate Exact(chosen: seq<FeeAwareProof>, net: nat) { Gross(chosen) == net + Nut02Fee(Ppk(chosen)) }

  /** The same rule with the planner's own fee arithmetic. */
  predicate PlannedExact(chosen: seq<FeeAwareProof>, net: nat) { Gross(chosen) == net + PlannedFee(Ppk(chosen)) }

  /** The largest total fee for which the planner's arithmetic is NUT-02's. */
  const FEE_LIMIT: nat := 18_446_744_073_709_551_000

  /** The saturating addition makes the fee wrong exactly above the limit. */
  lemma FeeIsExactIff(ppk: U64)
    ensures PlannedFee(ppk) == Nut02Fee(ppk) <==> ppk <= FEE_LIMIT
  {
  }

  // ---- sums ----

  lemma SnocSums(chosen: seq<FeeAwareProof>, p: FeeAwareProof)
    ensures Gross(chosen + [p]) == Gross(chosen) + p.amount
    ensures Ppk(chosen + [p]) == Ppk(chosen) + p.feePpk
  {
    assert (chosen + [p])[..|chosen|] == chosen;
  }

  function Without(chosen: seq<FeeAwareProof>, k: nat): seq<FeeAwareProof>
    requires k < |chosen|
  {
    chosen[..k] + chosen[k + 1..]
  }

  lemma {:induction false} WithoutSums(chosen: seq<FeeAwareProof>, k: nat)
    requires k < |chosen|
    ensures Gross(chosen) == Gross(Without(chosen, k)) + chosen[k].amount
    ensures Ppk(chosen) == Ppk(Without(chosen, k)) + chosen[k].feePpk
  {
    var n := |chosen| - 1;
    if k == n {
      assert Without(chosen, k) == chosen[..n];
    } else {
      WithoutSums(chosen[..n], k);
      assert Without(chosen, k) == Without(chosen[..n], k) + [chosen[n]];
      SnocSums(Without(chosen[..n], k), chosen[n]);
    }
  }

  lemma WithoutCounts(chosen: seq<FeeAwareProof>, k: nat)
    requires k < |chosen|
    ensures multiset(chosen) == multiset(Without(chosen, k)) + multiset{chosen[k]}
  {
    assert chosen == chosen[..k] + [chosen[k]] + chosen[k + 1..];
  }

  /** Either `chosen` fits into the shorter list, or one copy of the last proof can be taken out of it. */
  lemma SplitLast(chosen: seq<FeeAwareProof>, rest: seq<FeeAwareProof>, p: FeeAwareProof) returns (k: nat)
    requires Available(chosen, rest + [p]) && !Available(chosen, rest)
    ensures k < |chosen| && chosen[k] == p && Available(Without(chosen, k), rest)
  {
    assert multiset(rest + [p]) == multiset(rest) + multiset{p};
    assert p in multiset(chosen);
    assert p in chosen;
    k :| 0 <= k < |chosen| && chosen[k] == p;
    WithoutCounts(chosen, k);
    forall x
      ensures multiset(Without(chosen, k))[x] <= multiset(rest)[x]
    {
      assert multiset(chosen)[x] <= multiset(rest + [p])[x];
    }
  }

  lemma {:induction false} PpkBounded(chosen: seq<FeeAwareProof>, proofs: seq<FeeAwareProof>)
    requires Available(chosen, proofs)
    ensures Ppk(chosen) <= Ppk(proofs)
    decreases |proofs|
  {
    if proofs == [] {
      assert |multiset(chosen)| == 0;
      assert chosen == [];
    } else {
      var rest := proofs[..|proofs| - 1];
      var p := proofs[|proofs| - 1];
      assert proofs == rest + [p];
      if Available(chosen, rest) {
        PpkBounded(chosen, rest);
      } else {
        var k := SplitLast(chosen, rest, p);
        PpkBounded(Without(chosen, k), rest);
        WithoutSums(chosen, k);
      }
    }
  }

  // ---- soundness ----

  predicate Increasing(path: seq<nat>, bound: nat) {
    && (forall k :: 0 <= k < |path| ==> path[k] < bound)
    && (forall j, k :: 0 <= j < k < |path| ==> path[j] < path[k])
  }

  lemma {:induction false} IncreasingIsAvailable(sorted: seq<FeeAwareProof>, path: seq<nat>)
    requires Increasing(path, |sorted|)
    ensures Available(Pick(sorted, path), sorted)
    decreases |sorted|
  {
    if path != [] {
      var m := |path| - 1;
      var last := path[m];
      var rest := sorted[..last];
      assert Increasing(path[..m], |rest|);
      IncreasingIsAvailable(rest, path[..m]);
      assert Pick(sorted, path) == Pick(rest, path[..m]) + [sorted[last]];
      assert sorted == rest + [sorted[last]] + sorted[last + 1..];
    }
  }

  lemma {:induction false} PathUnchanged(nodes: seq<Node>, more: seq<Node>, n: nat)
    requires n < |nodes|
    ensures Path(nodes + more, n) == Path(nodes, n)
    decreases n
  {
    var node := nodes[n];
    if node.previous.Some? && node.previous.value < n { PathUnchanged(nodes, more, node.previous.value); }
  }

  lemma {:induction false} PathIncreases(nodes: seq<Node>, n: nat, bound: nat)
    requires Linked(nodes, bound) && n < |nodes|
    ensures Increasing(Path(nodes, n), nodes[n].proofIndex + 1) && nodes[n].proofIndex < bound
    decreases n
  {
    if nodes[n].previous.Some? { PathIncreases(nodes, nodes[n].previous.value, bound); }
  }

  /** The state of an entry is the value of the selection its back-pointers describe. */
  predicate EntryOk(sorted: seq<FeeAwareProof>, nodes: seq<Node>, e: Entry) {
    match e.node
    case None => e.gross == 0 && e.feePpk == 0
    case Some(n) =>
      && n < |nodes| && Increasing(Path(nodes, n), |sorted|)
      && Gross(Pick(sorted, Path(nodes, n))) == e.gross && Ppk(Pick(sorted, Path(nodes, n))) == e.feePpk
  }

  predicate SearchOk(sorted: seq<FeeAwareProof>, bound: nat, s: Search) {
    && Linked(s.nodes, bound) && NodesInRange(s.plans, s.nodes, bound)
    && forall k :: 0 <= k < |s.plans| ==> EntryOk(sorted, s.nodes, s.plans[k])
  }

  /** The positions an entry stands for. */
  function PathOf(nodes: seq<Node>, e: Entry): seq<nat>
    requires e.node.Some? ==> e.node.value < |nodes|
  {
    if e.node.Some? then Path(nodes, e.node.value) else []
  }

  lemma PathSnoc(nodes: seq<Node>, e: Entry, i: nat)
    requires e.node.Some? ==> e.node.value < |nodes|
    ensures Path(nodes + [Node(e.node, i)], |nodes|) == PathOf(nodes, e) + [i]
  {
    if e.node.Some? { PathUnchanged(nodes, [Node(e.node, i)], e.node.value); }
  }

  lemma PickSnoc(sorted: seq<FeeAwareProof>, path: seq<nat>, i: nat)
    requires Increasing(path, i) && i < |sorted|
    ensures Increasing(path + [i], |sorted|)
    ensures Gross(Pick(sorted, path + [i])) == Gross(Pick(sorted, path)) + sorted[i].amount
    ensures Ppk(Pick(sorted, path + [i])) == Ppk(Pick(sorted, path)) + sorted[i].feePpk
  {
    assert Pick(sorted, path + [i]) == Pick(sorted, path) + [sorted[i]];
    SnocSums(Pick(sorted, path), sorted[i]);
  }

  /** Extending an entry by proof `i` gives the selection with `i` added at the end. */
  lemma ExtendedPath(sorted: seq<FeeAwareProof>, nodes: seq<Node>, e: Entry, i: nat)
    requires i < |sorted| && Linked(nodes, i + 1) && EntryOk(sorted, nodes, e)
    requires e.node.Some? ==> nodes[e.node.value].proofIndex < i
    ensures var nodes' := nodes + [Node(e.node, i)];
            EntryOk(sorted, nodes', Entry(e.gross + sorted[i].amount, e.feePpk + sorted[i].feePpk, Some(|nodes|)))
  {
    PathSnoc(nodes, e, i);
    if e.node.Some? { PathIncreases(nodes, e.node.value, i + 1); }
    PickSnoc(sorted, PathOf(nodes, e), i);
    hide Path;
  }

  lemma EntryUnchanged(sorted: seq<FeeAwareProof>, nodes: seq<Node>, more: seq<Node>, e: Entry)
    requires EntryOk(sorted, nodes, e)
    ensures EntryOk(sorted, nodes + more, e)
  {
    if e.node.Some? { PathUnchanged(nodes, more, e.node.value); }
  }

  /** What a returned plan promises, in terms of the sorted proofs. */
  ghost predicate PlanOk(sorted: seq<FeeAwareProof>, net: nat, plan: Plan) {
    exists path :: Increasing(path, |sorted|) && Follows(sorted, net, plan, path)
  }

  predicate Follows(sorted: seq<FeeAwareProof>, net: nat, plan: Plan, path: seq<nat>)
    requires Increasing(path, |sorted|)
  {
    var chosen := Pick(sorted, path);
    && plan.ids == IdsOf(chosen) && plan.net == net
    && plan.gross == Gross(chosen) && plan.fee == PlannedFee(Ppk(chosen)) && plan.gross == plan.net + plan.fee
  }

  lemma InsertSound(sorted: seq<FeeAwareProof>, i: nat, e: Entry, s: Search, work: nat)
    requires i < |sorted| && SearchOk(sorted, i + 1, s)
    requires EntryOk(sorted, s.nodes, e) && (e.node.Some? ==> s.nodes[e.node.value].proofIndex < i)
    ensures var next := Entry(e.gross + sorted[i].amount, e.feePpk + sorted[i].feePpk, Some(|s.nodes|));
            SearchOk(sorted, i + 1, Search(Insert(s.plans, next), s.nodes + [Node(e.node, i)], work))
  {
    var next := Entry(e.gross + sorted[i].amount, e.feePpk + sorted[i].feePpk, Some(|s.nodes|));
    var nodes := s.nodes + [Node(e.node, i)];
    var plans := Insert(s.plans, next);
    ExtendedPath(sorted, s.nodes, e, i);
    PushKeepsLinks(s.plans, s.nodes, [e], 0, i, next.gross, next.feePpk);
    hide Linked, NodesInRange, Path;
    forall k | 0 <= k < |plans|
      ensures EntryOk(sorted, nodes, plans[k])
    {
      hide EntryOk;
      assert plans[k] in plans;
      if plans[k] != next { EntryUnchanged(sorted, s.nodes, [Node(e.node, i)], plans[k]); }
    }
  }

  lemma FoundSound(sorted: seq<FeeAwareProof>, net: U64, i: nat, e: Entry, s: Search, plan: Plan)
    requires i < |sorted| && MaximumGross(sorted, net) <= U64_MAX && SearchOk(sorted, i + 1, s)
    requires EntryOk(sorted, s.nodes, e) && (e.node.Some? ==> s.nodes[e.node.value].proofIndex < i)
    requires var fee := PlannedFee(e.feePpk + sorted[i].feePpk);
             && plan == Plan(PathIds(sorted, Path(s.nodes + [Node(e.node, i)], |s.nodes|)), e.gross + sorted[i].amount, fee, net)
             && plan.gross == SaturatingAdd(net, fee)
    ensures PlanOk(sorted, net, plan)
  {
    ExtendedPath(sorted, s.nodes, e, i);
    var path := Path(s.nodes + [Node(e.node, i)], |s.nodes|);
    hide Path;
    PlannedFeeGrows(sorted, path);
    assert PathIds(sorted, path) == IdsOf(Pick(sorted, path));
    assert Follows(sorted, net, plan, path);
  }

  lemma ExtendSound(sorted: seq<FeeAwareProof>, net: U64, mg: nat, limits: Limits, i: nat, e: Entry, s: Search)
    requires i < |sorted| && mg == MaximumGross(sorted, net) <= U64_MAX && SearchOk(sorted, i + 1, s)
    requires EntryOk(sorted, s.nodes, e) && (e.node.Some? ==> s.nodes[e.node.value].proofIndex < i)
    ensures var step := Extend(sorted, net, mg, limits, i, e, s);
            if step.Going? then SearchOk(sorted, i + 1, step.search) && s.nodes <= step.search.nodes
            else step.result.Ok? ==> step.result.value.Some? && PlanOk(sorted, net, step.result.value.value)
  {
    hide Path, PathIds, EntryOk, Linked, NodesInRange, PlanOk;
    var step := Extend(sorted, net, mg, limits, i, e, s);
    if step.Going? {
      InsertSound(sorted, i, e, s, s.work + 1);
    } else if step.result.Ok? {
      FoundSound(sorted, net, i, e, s, step.result.value.value);
    }
  }

  lemma PlannedFeeGrows(sorted: seq<FeeAwareProof>, path: seq<nat>)
    requires Increasing(path, |sorted|)
    ensures PlannedFee(Ppk(Pick(sorted, path))) <= PlannedFee(Ppk(sorted))
  {
    IncreasingIsAvailable(sorted, path);
    PpkBounded(Pick(sorted, path), sorted);
  }

  lemma {:induction false} ExtendAllSound(
    sorted: seq<FeeAwareProof>, net: U64, mg: nat, limits: Limits, i: nat, prior: seq<Entry>, k: nat, s: Search)
    requires i < |sorted| && k <= |prior| && mg == MaximumGross(sorted, net) <= U64_MAX && SearchOk(sorted, i + 1, s)
    requires NodesInRange(prior, s.nodes, i) && forall j :: 0 <= j < |prior| ==> EntryOk(sorted, s.nodes, prior[j])
    ensures var step := ExtendAll(sorted, net, mg, limits, i, prior, k, s);
            if step.Going? then SearchOk(sorted, i + 1, step.search)
            else step.result.Ok? ==> step.result.value.Some? && PlanOk(sorted, net, step.result.value.value)
    decreases |prior| - k
  {
    if k < |prior| {
      ExtendSound(sorted, net, mg, limits, i, prior[k], s);
      var step := Extend(sorted, net, mg, limits, i, prior[k], s);
      if step.Going? {
        var more := step.search.nodes[|s.nodes|..];
        assert step.search.nodes == s.nodes + more;
        forall j | 0 <= j < |prior|
          ensures EntryOk(sorted, step.search.nodes, prior[j])
        {
          EntryUnchanged(sorted, s.nodes, more, prior[j]);
        }
        ExtendAllSound(sorted, net, mg, limits, i, prior, k + 1, step.search);
      }
    }
  }

  lemma {:induction false} SearchSound(sorted: seq<FeeAwareProof>, net: U64, mg: nat, limits: Limits, i: nat, s: Search)
    requires i <= |sorted| && mg == MaximumGross(sorted, net) <= U64_MAX && SearchOk(sorted, i, s)
    ensures var r := SearchFrom(sorted, net, mg, limits, i, s);
            r.Ok? && r.value.Some? ==> PlanOk(sorted, net, r.value.value)
    decreases |sorted| - i
  {
    if i < |sorted| {
      ExtendAllSound(sorted, net, mg, limits, i, s.plans, 0, s);
      var step := ExtendAll(sorted, net, mg, limits, i, s.plans, 0, s);
      if step.Going? { SearchSound(sorted, net, mg, limits, i + 1, step.search); }
    }
  }

  /**
    Soundness. A returned plan lists proofs taken from the input, each at most once; its gross
    value is their sum, and gross is exactly net plus fee. The fee is the NUT-02 fee of the
    selection exactly when the selection's ppk does not exceed the limit.
   */
  lemma PlanIsSound(proofs: seq<FeeAwareProof>, net: U64, limits: Limits) returns (chosen: seq<FeeAwareProof>)
    requires PlanOf(proofs, net, limits).Ok? && PlanOf(proofs, net, limits).value.Some?
    ensures var plan := PlanOf(proofs, net, limits).value.value;
            && Available(chosen, proofs) && plan.ids == IdsOf(chosen)
            && plan.gross == Gross(chosen) && plan.net == net && plan.gross == plan.net + plan.fee
            && PlannedExact(chosen, net)
            && (Exact(chosen, net) <==> Ppk(chosen) <= FEE_LIMIT)
  {
    var sorted := Sort(proofs);
    SearchSound(sorted, net, MaximumGross(sorted, net), limits, 0, EmptySearch);
    var plan := PlanOf(proofs, net, limits).value.value;
    var path :| Increasing(path, |sorted|) && Follows(sorted, net, plan, path);
    chosen := Pick(sorted, path);
    IncreasingIsAvailable(sorted, path);
    PpkBounded(chosen, sorted);
    FeeIsExactIff(Ppk(chosen));
  }

  // ---- completeness ----

  /** Every affordable selection from the first `i` proofs has its state in the map. */
  ghost predicate Covers(sorted: seq<FeeAwareProof>, i: nat, mg: nat, plans: seq<Entry>)
    requires i <= |sorted|
  {
    forall chosen :: Available(chosen, sorted[..i]) && Gross(chosen) <= mg ==> Has(plans, Gross(chosen), Ppk(chosen))
  }

  /** No state found so far is a solution, except possibly the empty selection. */
  predicate NoGoal(net: nat, plans: seq<Entry>) {
    forall k :: 0 <= k < |plans| && plans[k].gross == SaturatingAdd(net, PlannedFee(plans[k].feePpk)) ==>
      plans[k].gross == 0 && plans[k].feePpk == 0
  }

  predicate Keeps(plans: seq<Entry>, plans': seq<Entry>) {
    forall k :: 0 <= k < |plans| ==> Has(plans', plans[k].gross, plans[k].feePpk)
  }

  lemma InsertHas(plans: seq<Entry>, e: Entry)
    ensures Has(Insert(plans, e), e.gross, e.feePpk) && Keeps(plans, Insert(plans, e))
  {
    var r := Insert(plans, e);
    assert e in r;
    forall k | 0 <= k < |plans|
      ensures Has(r, plans[k].gross, plans[k].feePpk)
    {
      assert plans[k] in plans;
      assert plans[k] in r;
    }
  }

  /** The search goes on only with the extended state in the map, unless it is too expensive. */
  lemma ExtendCovers(sorted: seq<FeeAwareProof>, net: nat, mg: nat, limits: Limits, i: nat, e: Entry, s: Search)
    requires i < |sorted| && mg <= U64_MAX && NoGoal(net, s.plans)
    requires Extend(sorted, net, mg, limits, i, e, s).Going?
    ensures var s' := Extend(sorted, net, mg, limits, i, e, s).search;
            && NoGoal(net, s'.plans) && Keeps(s.plans, s'.plans)
            && (e.gross + sorted[i].amount <= mg && e.feePpk + sorted[i].feePpk <= U64_MAX ==>
                  Has(s'.plans, e.gross + sorted[i].amount, e.feePpk + sorted[i].feePpk))
  {
    var next := Entry(e.gross + sorted[i].amount, e.feePpk + sorted[i].feePpk, Some(|s.nodes|));
    InsertHas(s.plans, next);
    var s' := Extend(sorted, net, mg, limits, i, e, s).search;
    forall k | 0 <= k < |s'.plans| && s'.plans[k].gross == SaturatingAdd(net, PlannedFee(s'.plans[k].feePpk))
      ensures s'.plans[k].gross == 0 && s'.plans[k].feePpk == 0
    {
      assert s'.plans[k] in s'.plans;
    }
  }

  lemma KeepsTrans(a: seq<Entry>, b: seq<Entry>, c: seq<Entry>)
    requires Keeps(a, b) && Keeps(b, c)
    ensures Keeps(a, c)
  {
  }

  lemma {:induction false} ExtendAllCovers(
    sorted: seq<FeeAwareProof>, net: nat, mg: nat, limits: Limits, i: nat, prior: seq<Entry>, k: nat, s: Search)
    requires i < |sorted| && k <= |prior| && mg <= U64_MAX && NoGoal(net, s.plans)
    requires ExtendAll(sorted, net, mg, limits, i, prior, k, s).Going?
    ensures var s' := ExtendAll(sorted, net, mg, limits, i, prior, k, s).search;
            && NoGoal(net, s'.plans) && Keeps(s.plans, s'.plans)
            && forall j :: k <= j < |prior| && prior[j].gross + sorted[i].amount <= mg
                           && prior[j].feePpk + sorted[i].feePpk <= U64_MAX ==>
                 Has(s'.plans, prior[j].gross + sorted[i].amount, prior[j].feePpk + sorted[i].feePpk)
    decreases |prior| - k
  {
    if k < |prior| {
      var step := Extend(sorted, net, mg, limits, i, prior[k], s);
      ExtendCovers(sorted, net, mg, limits, i, prior[k], s);
      ExtendAllCovers(sorted, net, mg, limits, i, prior, k + 1, step.search);
      hide Extend, NoGoal;
      KeepsTrans(s.plans, step.search.plans, ExtendAll(sorted, net, mg, limits, i, prior, k, s).search.plans);
    }
  }

  lemma CoversNext(sorted: seq<FeeAwareProof>, i: nat, mg: nat, plans: seq<Entry>, plans': seq<Entry>)
    requires i < |sorted| && Ppk(sorted) <= U64_MAX && Covers(sorted, i, mg, plans) && Keeps(plans, plans')
    requires forall j :: 0 <= j < |plans| && plans[j].gross + sorted[i].amount <= mg
                         && plans[j].feePpk + sorted[i].feePpk <= U64_MAX ==>
               Has(plans', plans[j].gross + sorted[i].amount, plans[j].feePpk + sorted[i].feePpk)
    ensures Covers(sorted, i + 1, mg, plans')
  {
    forall chosen | Available(chosen, sorted[..i + 1]) && Gross(chosen) <= mg
      ensures Has(plans', Gross(chosen), Ppk(chosen))
    {
      if Available(chosen, sorted[..i]) {
        assert Has(plans, Gross(chosen), Ppk(chosen));
      } else {
        var less := OneLess(sorted, i, chosen);
        assert Has(plans, Gross(less), Ppk(less));
      }
      hide Gross, Ppk, Available;
    }
  }

  /** A selection that needs proof `i` is a selection without it, plus that proof. */
  lemma OneLess(sorted: seq<FeeAwareProof>, i: nat, chosen: seq<FeeAwareProof>) returns (less: seq<FeeAwareProof>)
    requires i < |sorted| && Available(chosen, sorted[..i + 1]) && !Available(chosen, sorted[..i])
    ensures Available(less, sorted[..i])
    ensures Gross(chosen) == Gross(less) + sorted[i].amount
    ensures Ppk(chosen) == Ppk(less) + sorted[i].feePpk <= Ppk(sorted)
  {
    PpkBounded(chosen, sorted[..i + 1]);
    PpkGrows(sorted, i + 1);
    assert sorted[..i + 1] == sorted[..i] + [sorted[i]];
    hide Gross, Ppk;
    var k := SplitLast(chosen, sorted[..i], sorted[i]);
    WithoutSums(chosen, k);
    less := Without(chosen, k);
  }

  lemma {:induction false} SearchComplete(sorted: seq<FeeAwareProof>, net: nat, mg: nat, limits: Limits, i: nat, s: Search)
    requires i <= |sorted| && mg <= U64_MAX && Ppk(sorted) <= U64_MAX
    requires NoGoal(net, s.plans) && Covers(sorted, i, mg, s.plans)
    requires SearchFrom(sorted, net, mg, limits, i, s) == Ok(None)
    ensures exists plans :: NoGoal(net, plans) && Covers(sorted, |sorted|, mg, plans)
    decreases |sorted| - i
  {
    if i < |sorted| {
      var step := ExtendAll(sorted, net, mg, limits, i, s.plans, 0, s);
      if step.Stopped? { StoppedWithPlan(sorted, net, mg, limits, i, s.plans, 0, s); }
      ExtendAllCovers(sorted, net, mg, limits, i, s.plans, 0, s);
      CoversNext(sorted, i, mg, s.plans, step.search.plans);
      SearchComplete(sorted, net, mg, limits, i + 1, step.search);
    }
  }

  /** The inner loop never stops with "no plan". */
  lemma {:induction false} StoppedWithPlan(
    sorted: seq<FeeAwareProof>, net: nat, mg: nat, limits: Limits, i: nat, prior: seq<Entry>, k: nat, s: Search)
    requires i < |sorted| && k <= |prior|
    ensures var step := ExtendAll(sorted, net, mg, limits, i, prior, k, s);
            step.Stopped? ==> step.result != Ok(None)
    decreases |prior| - k
  {
    if k < |prior| {
      var step := Extend(sorted, net, mg, limits, i, prior[k], s);
      if step.Going? { StoppedWithPlan(sorted, net, mg, limits, i, prior, k + 1, step.search); }
    }
  }

  lemma EmptyCovers(sorted: seq<FeeAwareProof>, mg: nat)
    ensures Covers(sorted, 0, mg, EmptySearch.plans)
  {
    forall chosen | Available(chosen, sorted[..0])
      ensures chosen == []
    {
      assert |multiset(chosen)| == 0;
    }
    assert EmptySearch.plans[0] == Entry(0, 0, None);
  }

  /**
    Completeness. If the search reports that there is no plan, then a selection of the proofs
    balances under the planner's fee if and only if nothing was asked for and it is worthless.
   */
  lemma NoPlanMeansNone(proofs: seq<FeeAwareProof>, net: U64, limits: Limits, chosen: seq<FeeAwareProof>)
    requires PlanOf(proofs, net, limits) == Ok(None) && Available(chosen, proofs)
    ensures PlannedExact(chosen, net) <==> net == 0 && Gross(chosen) == 0 && Ppk(chosen) == 0
  {
    if PlannedExact(chosen, net) {
      var sorted := Sort(proofs);
      var mg := MaximumGross(sorted, net);
      EmptyCovers(sorted, mg);
      SearchComplete(sorted, net, mg, limits, 0, EmptySearch);
      var plans :| NoGoal(net, plans) && Covers(sorted, |sorted|, mg, plans);
      assert sorted[..|sorted|] == sorted;
      PpkBounded(chosen, sorted);
      assert Has(plans, Gross(chosen), Ppk(chosen));
    }
  }

  /** Asking for nothing from an empty wallet: the empty selection is exact, yet there is no plan. */
  lemma EmptySelectionIsMissed(limits: Limits)
    ensures PlanOf([], 0, limits) == Ok(None) && Available([], []) && PlannedExact([], 0) && Exact([], 0)
  {
    assert Sort([]) == [];
  }

  /** "No plan" always means that no selection balances if and only if at least one unit is asked for. */
  lemma CompleteIffSomethingAsked(net: U64)
    ensures (forall proofs: seq<FeeAwareProof>, limits: Limits, chosen: seq<FeeAwareProof> |
               PlanOf(proofs, net, limits) == Ok(None) && Available(chosen, proofs) :: !PlannedExact(chosen, net))
            <==> net >= 1
  {
    if net >= 1 {
      forall proofs: seq<FeeAwareProof>, limits: Limits, chosen: seq<FeeAwareProof> |
        PlanOf(proofs, net, limits) == Ok(None) && Available(chosen, proofs)
        ensures !PlannedExact(chosen, net)
      {
        NoPlanMeansNone(proofs, net, limits, chosen);
      }
    } else {
      EmptySelectionIsMissed(Limits(0, 0));
    }
  }

  /** Without pruning mistakes: under the fee limit "no plan" is the truth about NUT-02. */
  lemma NoPlanUnderLimit(proofs: seq<FeeAwareProof>, net: U64, limits: Limits, chosen: seq<FeeAwareProof>)
    requires PlanOf(proofs, net, limits) == Ok(None) && Available(chosen, proofs)
    requires net >= 1 && Ppk(proofs) <= FEE_LIMIT
    ensures !Exact(chosen, net)
  {
    PpkBounded(chosen, proofs);
    FeeIsExactIff(Ppk(chosen));
    NoPlanMeansNone(proofs, net, limits, chosen);
  }

  /** Above the limit a single proof that pays exactly its own fee is missed. */
  lemma MissedAboveLimit(total: U64) returns (proofs: seq<FeeAwareProof>, limits: Limits)
    requires total > FEE_LIMIT
    ensures Ppk(proofs) == total && PlanOf(proofs, 1, limits) == Ok(None)
    ensures Available(proofs, proofs) && Exact(proofs, 1)
  {
    var p := FeeAwareProof(0, 1 + Nut02Fee(total), total);
    proofs, limits := [p], Limits(1, 1);
    SnocSums([], p);
    assert [] + [p] == [p];
    assert Sort(proofs) == [p];
    var mg := MaximumGross([p], 1);
    var tried := Extend([p], 1, mg, limits, 0, EmptySearch.plans[0], EmptySearch);
    assert tried.Going?;
    assert ExtendAll([p], 1, mg, limits, 0, EmptySearch.plans, 1, tried.search) == tried;
    assert ExtendAll([p], 1, mg, limits, 0, EmptySearch.plans, 0, EmptySearch) == tried;
    assert SearchFrom([p], 1, mg, limits, 1, tried.search) == Ok(None);
  }

  /**
    For a wallet whose proofs charge `total` ppk together, "no plan" always means that no
    selection satisfies NUT-02 if and only if `total` does not exceed the limit.
   */
  lemma CompleteIffUnderLimit(total: U64)
    ensures (forall proofs: seq<FeeAwareProof>, net: U64, limits: Limits, chosen: seq<FeeAwareProof> |
               Ppk(proofs) == total && net >= 1 && PlanOf(proofs, net, limits) == Ok(None) && Available(chosen, proofs)
               :: !Exact(chosen, net))
            <==> total <= FEE_LIMIT
  {
    if total <= FEE_LIMIT {
      forall proofs: seq<FeeAwareProof>, net: U64, limits: Limits, chosen: seq<FeeAwareProof> |
        Ppk(proofs) == total && net >= 1 && PlanOf(proofs, net, limits) == Ok(None) && Available(chosen, proofs)
        ensures !Exact(chosen, net)
      {
        NoPlanUnderLimit(proofs, net, limits, chosen);
      }
    } else {
      var proofs, limits := MissedAboveLimit(total);
    }
  }

  // ---- order independence ----

  predicate DistinctIds(proofs: seq<FeeAwareProof>) {
    forall i, j :: 0 <= i < j < |proofs| ==> proofs[i].id != proofs[j].id
  }

  predicate StrictlySorted(s: seq<FeeAwareProof>) {
    forall i, j :: 0 <= i < j < |s| ==> Before(s[i], s[j])
  }

  lemma {:induction false} PlaceSorted(p: FeeAwareProof, sorted: seq<FeeAwareProof>)
    requires StrictlySorted(sorted) && forall x :: x in sorted ==> x.id != p.id
    ensures StrictlySorted(Place(p, sorted))
    ensures forall x :: x in Place(p, sorted) <==> x == p || x in sorted
  {
    if sorted != [] && Before(sorted[0], p) {
      PlaceSorted(p, sorted[1..]);
      var r := Place(p, sorted[1..]);
      forall j | 0 <= j < |r| ensures Before(sorted[0], r[j]) {
        assert r[j] in r;
        if r[j] != p { assert r[j] in sorted[1..]; }
      }
    }
  }

  lemma {:induction false} SortSorted(proofs: seq<FeeAwareProof>)
    requires DistinctIds(proofs)
    ensures StrictlySorted(Sort(proofs)) && forall x :: x in Sort(proofs) <==> x in proofs
  {
    if proofs != [] {
      SortSorted(proofs[1..]);
      forall x | x in Sort(proofs[1..]) ensures x.id != proofs[0].id { assert x in proofs[1..]; }
      PlaceSorted(proofs[0], Sort(proofs[1..]));
    }
  }

  lemma {:induction false} SortedIsUnique(a: seq<FeeAwareProof>, b: seq<FeeAwareProof>)
    requires StrictlySorted(a) && StrictlySorted(b) && multiset(a) == multiset(b)
    ensures a == b
  {
    if a == [] {
      assert |multiset(b)| == 0;
    } else {
      assert |multiset(a)| == |a| && |multiset(b)| == |b|;
      assert a[0] in multiset(b) && b[0] in multiset(a);
      assert a[0] in b && b[0] in a;
      assert a[0] == b[0];
      TailCounts(a);
      TailCounts(b);
      SortedIsUnique(a[1..], b[1..]);
    }
  }

  lemma TailCounts(s: seq<FeeAwareProof>)
    requires s != []
    ensures multiset(s[1..]) == multiset(s) - multiset{s[0]} && s == [s[0]] + s[1..]
  {
    assert s == [s[0]] + s[1..];
  }

  lemma {:induction false} CountsAtMostOne(proofs: seq<FeeAwareProof>, x: FeeAwareProof)
    requires DistinctIds(proofs)
    ensures multiset(proofs)[x] <= 1
  {
    if proofs != [] {
      CountsAtMostOne(proofs[1..], x);
      assert proofs == [proofs[0]] + proofs[1..];
      if x == proofs[0] { assert x !in proofs[1..]; }
    }
  }

  lemma TwoCopies(s: seq<FeeAwareProof>, i: nat, j: nat)
    requires i < j < |s| && s[i] == s[j]
    ensures multiset(s)[s[i]] >= 2
  {
    assert s == s[..i] + [s[i]] + s[i + 1..j] + [s[j]] + s[j + 1..];
  }

  lemma DistinctIdsCarryOver(proofs: seq<FeeAwareProof>, shuffled: seq<FeeAwareProof>)
    requires DistinctIds(proofs) && multiset(proofs) == multiset(shuffled)
    ensures DistinctIds(shuffled)
  {
    forall i, j | 0 <= i < j < |shuffled|
      ensures shuffled[i].id != shuffled[j].id
    {
      var (x, y) := (shuffled[i], shuffled[j]);
      assert x in multiset(proofs) && y in multiset(proofs);
      assert x in proofs && y in proofs;
      if x == y {
        TwoCopies(shuffled, i, j);
        CountsAtMostOne(proofs, x);
      }
    }
  }

  /** For distinct ids the answer, plan or error, does not depend on the order of the proofs. */
  lemma OrderDoesNotMatter(proofs: seq<FeeAwareProof>, shuffled: seq<FeeAwareProof>, net: U64, limits: Limits)
    requires DistinctIds(proofs) && multiset(proofs) == multiset(shuffled)
    ensures PlanOf(proofs, net, limits) == PlanOf(shuffled, net, limits)
  {
    DistinctIdsCarryOver(proofs, shuffled);
    SortSorted(proofs);
    SortSorted(shuffled);
    SortedIsUnique(Sort(proofs), Sort(shuffled));
    assert |multiset(proofs)| == |proofs| && |multiset(shuffled)| == |shuffled|;
  }
}
