/**
  The fee-aware exact-amount planner: a dynamic program over (gross, fee) states with
  back-pointers, pruning and work limits, searching a set of proofs whose value is exactly
  the wanted net amount plus the NUT-02 input fee.
 */
module SwapPlanner {
  import opened Prelude

  type U64 = n: nat | n <= U64_MAX

  /** Proof ids are opaque and totally ordered. */
  datatype FeeAwareProof = FeeAwareProof(id: nat, amount: U64, feePpk: U64)

  datatype Plan = Plan(ids: seq<nat>, gross: nat, fee: nat, net: nat)

  datatype Node = Node(previous: Option<nat>, proofIndex: nat)

  /** One entry of the ordered map of reached states; `node` is absent for the empty selection. */
  datatype Entry = Entry(gross: nat, feePpk: nat, node: Option<nat>)

  datatype Search = Search(plans: seq<Entry>, nodes: seq<Node>, work: nat)

  datatype Limits = Limits(work: nat, states: nat)

  const MAX_PROOFS: nat := 10_000

  // ---- the canonical order ----

  /** Larger amounts first, then smaller ids. */
  predicate Before(a: FeeAwareProof, b: FeeAwareProof) {
    a.amount > b.amount || (a.amount == b.amount && a.id < b.id)
  }

  function Place(p: FeeAwareProof, sorted: seq<FeeAwareProof>): (r: seq<FeeAwareProof>)
    ensures multiset(r) == multiset{p} + multiset(sorted)
  {
    if sorted == [] then [p]
    else if Before(sorted[0], p) then
      assert sorted == [sorted[0]] + sorted[1..];
      [sorted[0]] + Place(p, sorted[1..])
    else [p] + sorted
  }

  /** A stable sort by `Before`. */
  function Sort(proofs: seq<FeeAwareProof>): (r: seq<FeeAwareProof>)
    ensures multiset(r) == multiset(proofs) && |r| == |proofs|
  {
    if proofs == [] then []
    else
      assert proofs == [proofs[0]] + proofs[1..];
      var r := Place(proofs[0], Sort(proofs[1..]));
      assert |multiset(r)| == |multiset(proofs)|;
      r
  }

  // ---- values ----

  function Gross(chosen: seq<FeeAwareProof>): nat {
    if chosen == [] then 0 else Gross(chosen[..|chosen| - 1]) + chosen[|chosen| - 1].amount
  }

  function Ppk(chosen: seq<FeeAwareProof>): nat {
    if chosen == [] then 0 else Ppk(chosen[..|chosen| - 1]) + chosen[|chosen| - 1].feePpk
  }

  /** The fee the planner computes, with the addition saturating at 64 bits. */
  function PlannedFee(ppk: nat): nat { SaturatingAdd(ppk, 999) / 1000 }

  function IdsOf(chosen: seq<FeeAwareProof>): seq<nat> { seq(|chosen|, i requires 0 <= i < |chosen| => chosen[i].id) }

  /** The selection a list of positions stands for. */
  function Pick(sorted: seq<FeeAwareProof>, path: seq<nat>): seq<FeeAwareProof>
    requires forall k :: 0 <= k < |path| ==> path[k] < |sorted|
  {
    seq(|path|, k requires 0 <= k < |path| => sorted[path[k]])
  }

  // ---- the ordered map of states ----

  predicate KeyLess(a: Entry, b: Entry) { a.gross < b.gross || (a.gross == b.gross && a.feePpk < b.feePpk) }

  predicate Has(plans: seq<Entry>, gross: nat, feePpk: nat) {
    exists k :: 0 <= k < |plans| && plans[k].gross == gross && plans[k].feePpk == feePpk
  }

  function Insert(plans: seq<Entry>, e: Entry): (r: seq<Entry>)
    ensures |r| == |plans| + 1
    ensures forall x :: x in r <==> x == e || x in plans
  {
    if plans == [] || KeyLess(e, plans[0]) then [e] + plans
    else [plans[0]] + Insert(plans[1..], e)
  }

  predicate KeysSorted(plans: seq<Entry>) {
    forall i, j :: 0 <= i < j < |plans| ==> KeyLess(plans[i], plans[j])
  }

  /** A new key keeps the state list strictly ordered, as iteration over the source's ordered map is. */
  lemma {:induction false} InsertKeepsOrder(plans: seq<Entry>, e: Entry)
    requires KeysSorted(plans) && !Has(plans, e.gross, e.feePpk)
    ensures KeysSorted(Insert(plans, e))
  {
    if plans != [] && !KeyLess(e, plans[0]) {
      assert !Has(plans[1..], e.gross, e.feePpk);
      InsertKeepsOrder(plans[1..], e);
      var r := Insert(plans[1..], e);
      forall j | 0 <= j < |r| ensures KeyLess(plans[0], r[j]) {
        assert r[j] in r;
        if r[j] != e { assert r[j] in plans[1..]; }
      }
    }
  }

  // ---- the search, as a function ----

  /** Positions on the way from the empty selection to `nodes[index]`, following back-pointers. */
  function Path(nodes: seq<Node>, index: nat): seq<nat>
    requires index < |nodes|
    decreases index
  {
    var n := nodes[index];
    (if n.previous.Some? && n.previous.value < index then Path(nodes, n.previous.value) else []) + [n.proofIndex]
  }

  /** The ids at those positions; positions are always in range during a search. */
  function PathIds(sorted: seq<FeeAwareProof>, path: seq<nat>): seq<nat> {
    seq(|path|, k requires 0 <= k < |path| => if path[k] < |sorted| then sorted[path[k]].id else 0)
  }

  datatype Step = Going(search: Search) | Stopped(result: Result<Option<Plan>>)

  /** Extend one earlier state by proof `i`. */
  function Extend(
    sorted: seq<FeeAwareProof>, net: nat, maximumGross: nat, limits: Limits, i: nat, e: Entry, s: Search): Step
    requires i < |sorted|
  {
    var (gross, feePpk) := (e.gross + sorted[i].amount, e.feePpk + sorted[i].feePpk);
    var worked := s.(work := s.work + 1);
    if worked.work > limits.work then Stopped(Err("swap_plan_work_bound_exceeded"))
    else if gross > U64_MAX || feePpk > U64_MAX || gross > maximumGross || Has(s.plans, gross, feePpk) then Going(worked)
    else AddState(sorted, net, limits, i, e.node, gross, feePpk, worked)
  }

  /** Record a new state reached by proof `i` from `previous`, and stop if it is a solution. */
  function AddState(
    sorted: seq<FeeAwareProof>, net: nat, limits: Limits, i: nat, previous: Option<nat>, gross: nat, feePpk: nat, s: Search)
    : Step
  {
    var nodes := s.nodes + [Node(previous, i)];
    var fee := PlannedFee(feePpk);
    if gross == SaturatingAdd(net, fee) then
      Stopped(Ok(Some(Plan(PathIds(sorted, Path(nodes, |s.nodes|)), gross, fee, net))))
    else
      var plans := Insert(s.plans, Entry(gross, feePpk, Some(|s.nodes|)));
      if |plans| > limits.states then Stopped(Err("swap_plan_search_bound_exceeded"))
      else Going(Search(plans, nodes, s.work))
  }

  /** Extend the states `prior[k..]` by proof `i`. */
  function ExtendAll(
    sorted: seq<FeeAwareProof>, net: nat, maximumGross: nat, limits: Limits, i: nat, prior: seq<Entry>, k: nat, s: Search)
    : Step
    requires i < |sorted| && k <= |prior|
    decreases |prior| - k
  {
    if k == |prior| then Going(s)
    else
      var step := Extend(sorted, net, maximumGross, limits, i, prior[k], s);
      if step.Stopped? then step else ExtendAll(sorted, net, maximumGross, limits, i, prior, k + 1, step.search)
  }

  /** Process the proofs from position `i` on. */
  function SearchFrom(sorted: seq<FeeAwareProof>, net: nat, maximumGross: nat, limits: Limits, i: nat, s: Search)
    : Result<Option<Plan>>
    requires i <= |sorted|
    decreases |sorted| - i
  {
    if i == |sorted| then Ok(None)
    else
      var step := ExtendAll(sorted, net, maximumGross, limits, i, s.plans, 0, s);
      if step.Stopped? then step.result else SearchFrom(sorted, net, maximumGross, limits, i + 1, step.search)
  }

  const EmptySearch := Search([Entry(0, 0, None)], [], 0)

  function MaximumGross(sorted: seq<FeeAwareProof>, net: nat): nat { net + PlannedFee(Ppk(sorted)) }

  /** The planner's answer. */
  function PlanOf(proofs: seq<FeeAwareProof>, net: U64, limits: Limits): Result<Option<Plan>> {
    var sorted := Sort(proofs);
    if |proofs| > MAX_PROOFS then Err("wallet_proof_limit_exceeded")
    else if Ppk(sorted) > U64_MAX || MaximumGross(sorted, net) > U64_MAX then Err("swap_plan_value_overflow")
    else SearchFrom(sorted, net, MaximumGross(sorted, net), limits, 0, EmptySearch)
  }

  // ---- the search, as the source runs it ----

  /** Back-pointers lead to earlier nodes of smaller proof index. */
  predicate Linked(nodes: seq<Node>, bound: nat) {
    forall n :: 0 <= n < |nodes| ==>
      && nodes[n].proofIndex < bound
      && (nodes[n].previous.Some? ==>
            nodes[n].previous.value < n && nodes[nodes[n].previous.value].proofIndex < nodes[n].proofIndex)
  }

  predicate NodesInRange(plans: seq<Entry>, nodes: seq<Node>, bound: nat) {
    forall k :: 0 <= k < |plans| && plans[k].node.Some? ==>
      plans[k].node.value < |nodes| && nodes[plans[k].node.value].proofIndex < bound
  }

  lemma PathIdsStep(sorted: seq<FeeAwareProof>, nodes: seq<Node>, index: nat)
    requires Linked(nodes, |sorted|) && index < |nodes|
    ensures PathIds(sorted, Path(nodes, index))
         == (if nodes[index].previous.Some? then PathIds(sorted, Path(nodes, nodes[index].previous.value)) else [])
            + [sorted[nodes[index].proofIndex].id]
  {
    PathStep(nodes, index);
    var n := nodes[index];
    var before := if n.previous.Some? then Path(nodes, n.previous.value) else [];
    hide Path, Linked;
    PathIdsSnoc(sorted, before, n.proofIndex);
    PathIdsOfNone(sorted);
    hide PathIds;
  }

  lemma PathStep(nodes: seq<Node>, index: nat)
    requires index < |nodes| && (nodes[index].previous.Some? ==> nodes[index].previous.value < index)
    ensures var n := nodes[index];
            Path(nodes, index) == (if n.previous.Some? then Path(nodes, n.previous.value) else []) + [n.proofIndex]
  {
  }

  lemma PathIdsSnoc(sorted: seq<FeeAwareProof>, path: seq<nat>, i: nat)
    requires i < |sorted|
    ensures PathIds(sorted, path + [i]) == PathIds(sorted, path) + [sorted[i].id]
  {
  }

  lemma PathIdsOfNone(sorted: seq<FeeAwareProof>)
    ensures PathIds(sorted, []) == []
  {
  }

  /** The ids that remain to be collected behind `cursor`. */
  function Behind(sorted: seq<FeeAwareProof>, nodes: seq<Node>, cursor: Option<nat>): seq<nat>
    requires Linked(nodes, |sorted|) && (cursor.Some? ==> cursor.value < |nodes|)
  {
    if cursor.Some? then PathIds(sorted, Path(nodes, cursor.value)) else []
  }

  lemma ReconstructStep(sorted: seq<FeeAwareProof>, nodes: seq<Node>, index: nat, collected: seq<nat>)
    requires Linked(nodes, |sorted|) && index < |nodes|
    ensures Behind(sorted, nodes, Some(index)) + Reversed(collected)
         == Behind(sorted, nodes, nodes[index].previous) + Reversed(collected + [sorted[nodes[index].proofIndex].id])
  {
    var id := sorted[nodes[index].proofIndex].id;
    PathIdsStep(sorted, nodes, index);
    ReversedSnoc(collected, id);
    hide PathIds, Path, Reversed, Linked;
    var rest := Behind(sorted, nodes, nodes[index].previous);
    assert (rest + [id]) + Reversed(collected) == rest + ([id] + Reversed(collected));
  }

  /** Walk the back-pointers from `start` and reverse, as the source reconstructs a plan. */
  method Reconstruct(sorted: seq<FeeAwareProof>, nodes: seq<Node>, start: nat) returns (ids: seq<nat>)
    requires Linked(nodes, |sorted|) && start < |nodes|
    ensures ids == PathIds(sorted, Path(nodes, start))
  {
    var collected: seq<nat> := [];
    var cursor: Option<nat> := Some(start);
    assert Behind(sorted, nodes, cursor) + Reversed(collected) == Behind(sorted, nodes, cursor);
    hide PathIds, Path, Reversed;
    while cursor.Some?
      invariant cursor.Some? ==> cursor.value < |nodes|
      invariant PathIds(sorted, Path(nodes, start)) == Behind(sorted, nodes, cursor) + Reversed(collected)
      decreases if cursor.Some? then cursor.value + 1 else 0
    {
      var selected := nodes[cursor.value];
      var id := sorted[selected.proofIndex].id;
      ReconstructStep(sorted, nodes, cursor.value, collected);
      collected := collected + [id];
      cursor := selected.previous;
    }
    ids := Reversed(collected);
    assert [] + ids == ids;
  }

  /** The checked sum of all input fees. */
  method TotalPpk(sorted: seq<FeeAwareProof>) returns (total: Option<nat>)
    ensures total == if Ppk(sorted) > U64_MAX then None else Some(Ppk(sorted))
  {
    var sum := 0;
    for i := 0 to |sorted|
      invariant sum == Ppk(sorted[..i]) <= U64_MAX
    {
      PpkPrefix(sorted, i);
      sum := sum + sorted[i].feePpk;
      if sum > U64_MAX {
        PpkGrows(sorted, i + 1);
        return None;
      }
    }
    assert sorted[..|sorted|] == sorted;
    total := Some(sum);
  }

  lemma PushKeepsLinks(plans: seq<Entry>, nodes: seq<Node>, prior: seq<Entry>, k: nat, i: nat, gross: nat, feePpk: nat)
    requires k < |prior| && Linked(nodes, i + 1) && NodesInRange(plans, nodes, i + 1) && NodesInRange(prior, nodes, i)
    ensures var nodes' := nodes + [Node(prior[k].node, i)];
            Linked(nodes', i + 1) && NodesInRange(prior, nodes', i)
            && NodesInRange(Insert(plans, Entry(gross, feePpk, Some(|nodes|))), nodes', i + 1)
            && NodesInRange(plans, nodes', i + 1) && forall bound :: bound > i ==> Linked(nodes', bound)
  {
    var nodes' := nodes + [Node(prior[k].node, i)];
    var plans' := Insert(plans, Entry(gross, feePpk, Some(|nodes|)));
    forall j | 0 <= j < |plans'| && plans'[j].node.Some?
      ensures plans'[j].node.value < |nodes'| && nodes'[plans'[j].node.value].proofIndex < i + 1
    {
      assert plans'[j] in plans';
    }
  }

  /** One iteration of the inner loop, with the step it takes spelled out. */
  lemma ExtendAllStep(
    sorted: seq<FeeAwareProof>, net: nat, maximumGross: nat, limits: Limits, i: nat, prior: seq<Entry>, k: nat, s: Search,
    step: Step)
    requires i < |sorted| && k < |prior| && step == Extend(sorted, net, maximumGross, limits, i, prior[k], s)
    ensures ExtendAll(sorted, net, maximumGross, limits, i, prior, k, s) ==
            if step.Stopped? then step else ExtendAll(sorted, net, maximumGross, limits, i, prior, k + 1, step.search)
  {
  }

  /** What holds of the search at every loop head while proof `bound - 1` is processed. */
  predicate Intact(s: Search, bound: nat) {
    Linked(s.nodes, bound) && NodesInRange(s.plans, s.nodes, bound) && |s.nodes| + 1 == |s.plans| && KeysSorted(s.plans)
  }

  /** The inner loop: extend every state reached before proof `i`, until a step stops the search. */
  method ExtendStates(sorted: seq<FeeAwareProof>, net: U64, maximumGross: nat, limits: Limits, i: nat, s0: Search)
    returns (step: Step)
    requires i < |sorted| && Intact(s0, i)
    ensures step == ExtendAll(sorted, net, maximumGross, limits, i, s0.plans, 0, s0)
    ensures step.Going? ==> Intact(step.search, i + 1)
  {
    var s, prior := s0, s0.plans;
    LinksWiden(s, i);
    hide *;
    for k := 0 to |prior|
      invariant ExtendAll(sorted, net, maximumGross, limits, i, prior, 0, s0)
             == ExtendAll(sorted, net, maximumGross, limits, i, prior, k, s)
      invariant Intact(s, i + 1) && NodesInRange(prior, s.nodes, i)
    {
      step := ExtendState(sorted, net, maximumGross, limits, i, prior, k, s);
      ExtendAllStep(sorted, net, maximumGross, limits, i, prior, k, s, step);
      if step.Stopped? { return; }
      s := step.search;
    }
    ExtendAllEnds(sorted, net, maximumGross, limits, i, prior, s);
    step := Going(s);
  }

  lemma LinksWiden(s: Search, i: nat)
    requires Intact(s, i)
    ensures Intact(s, i + 1) && NodesInRange(s.plans, s.nodes, i)
  {
  }

  lemma ExtendAllEnds(
    sorted: seq<FeeAwareProof>, net: nat, maximumGross: nat, limits: Limits, i: nat, prior: seq<Entry>, s: Search)
    requires i < |sorted|
    ensures ExtendAll(sorted, net, maximumGross, limits, i, prior, |prior|, s) == Going(s)
  {
  }

  /**
    The body of the inner loop: count the work, skip a state that overflows, is too expensive or
    is known, else push a back-pointer, test for the goal and store the state.
   */
  method ExtendState(
    sorted: seq<FeeAwareProof>, net: U64, maximumGross: nat, limits: Limits, i: nat, prior: seq<Entry>, k: nat, s: Search)
    returns (step: Step)
    requires i < |sorted| && k < |prior| && Intact(s, i + 1) && NodesInRange(prior, s.nodes, i)
    ensures step == Extend(sorted, net, maximumGross, limits, i, prior[k], s)
    ensures step.Going? ==> Intact(step.search, i + 1) && NodesInRange(prior, step.search.nodes, i)
  {
    var work := s.work + 1;
    if work > limits.work { return Stopped(Err("swap_plan_work_bound_exceeded")); }
    var gross := prior[k].gross + sorted[i].amount;
    if gross > U64_MAX { return Going(s.(work := work)); }
    var feePpk := prior[k].feePpk + sorted[i].feePpk;
    if feePpk > U64_MAX { return Going(s.(work := work)); }
    if gross > maximumGross || Has(s.plans, gross, feePpk) { return Going(s.(work := work)); }
    PushKeepsLinks(s.plans, s.nodes, prior, k, i, gross, feePpk);
    InsertKeepsOrder(s.plans, Entry(gross, feePpk, Some(|s.nodes|)));
    hide KeysSorted, Path, PathIds, Linked, NodesInRange;
    var nodes := s.nodes + [Node(prior[k].node, i)];
    var fee := PlannedFee(feePpk);
    if gross == SaturatingAdd(net, fee) {
      var ids := Reconstruct(sorted, nodes, |s.nodes|);
      return Stopped(Ok(Some(Plan(ids, gross, fee, net))));
    }
    var plans := Insert(s.plans, Entry(gross, feePpk, Some(|s.nodes|)));
    if |plans| > limits.states { return Stopped(Err("swap_plan_search_bound_exceeded")); }
    step := Going(Search(plans, nodes, work));
  }

  /** The planner with its loops, back-pointer vector and early returns. */
  method FeeAwareExactAmountPlan(proofs: seq<FeeAwareProof>, net: U64, limits: Limits) returns (r: Result<Option<Plan>>)
    ensures r == PlanOf(proofs, net, limits)
  {
    if |proofs| > MAX_PROOFS { return Err("wallet_proof_limit_exceeded"); }
    var sorted := Sort(proofs);
    var total := TotalPpk(sorted);
    if total.None? { return Err("swap_plan_value_overflow"); }
    var maximumGross := net + PlannedFee(total.value);
    if maximumGross > U64_MAX { return Err("swap_plan_value_overflow"); }
    r := SearchAll(sorted, net, maximumGross, limits);
  }

  /** The outer loop over the sorted proofs. */
  method SearchAll(sorted: seq<FeeAwareProof>, net: U64, maximumGross: nat, limits: Limits) returns (r: Result<Option<Plan>>)
    ensures r == SearchFrom(sorted, net, maximumGross, limits, 0, EmptySearch)
  {
    var s := EmptySearch;
    assert Intact(s, 0);
    hide SearchFrom, ExtendAll, Intact;
    for i := 0 to |sorted|
      invariant SearchFrom(sorted, net, maximumGross, limits, 0, EmptySearch)
             == SearchFrom(sorted, net, maximumGross, limits, i, s)
      invariant Intact(s, i)
    {
      var step := ExtendStates(sorted, net, maximumGross, limits, i, s);
      SearchStep(sorted, net, maximumGross, limits, i, s, step);
      if step.Stopped? { return step.result; }
      s := step.search;
    }
    SearchEnds(sorted, net, maximumGross, limits, s);
    r := Ok(None);
  }

  lemma SearchStep(sorted: seq<FeeAwareProof>, net: nat, maximumGross: nat, limits: Limits, i: nat, s: Search, step: Step)
    requires i < |sorted| && step == ExtendAll(sorted, net, maximumGross, limits, i, s.plans, 0, s)
    ensures SearchFrom(sorted, net, maximumGross, limits, i, s) ==
            if step.Stopped? then step.result else SearchFrom(sorted, net, maximumGross, limits, i + 1, step.search)
  {
  }

  lemma SearchEnds(sorted: seq<FeeAwareProof>, net: nat, maximumGross: nat, limits: Limits, s: Search)
    ensures SearchFrom(sorted, net, maximumGross, limits, |sorted|, s) == Ok(None)
  {
  }

  lemma PpkPrefix(s: seq<FeeAwareProof>, i: nat)
    requires i < |s|
    ensures Ppk(s[..i + 1]) == Ppk(s[..i]) + s[i].feePpk
  {
    assert s[..i + 1][..i] == s[..i];
  }

  lemma {:induction false} PpkGrows(s: seq<FeeAwareProof>, i: nat)
    requires i <= |s|
    ensures Ppk(s[..i]) <= Ppk(s)
    decreases |s| - i
  {
    if i == |s| {
      assert s[..i] == s;
    } else {
      PpkPrefix(s, i);
      PpkGrows(s, i + 1);
    }
  }
}
