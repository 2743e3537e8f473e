/**
  When the planner gives up. The states it keeps are exactly the values of the affordable
  selections from the proofs processed so far, and its work is one unit for each of them and
  each proof; so its errors are facts about the proofs and the limits alone.
 */
module SwapPlannerLimits {
  import opened Prelude
  import opened SwapPlanner
  import opened SwapPlannerProofs

  /** The value of a selection: its gross amount and its fee in ppk. */
  datatype Value = Value(gross: nat, ppk: nat)

  const Nothing := Value(0, 0)

  function ValueOf(chosen: seq<FeeAwareProof>): Value { Value(Gross(chosen), Ppk(chosen)) }

  function Add(v: Value, p: FeeAwareProof): Value { Value(v.gross + p.amount, v.ppk + p.feePpk) }

  /** The values reached from `values` by adding proof `p`, at most `most` gross. */
  ghost function Plus(values: set<Value>, p: FeeAwareProof, most: nat): set<Value> {
    set v | v in values && v.gross + p.amount <= most :: Add(v, p)
  }

  /** The distinct values, at most `most` gross, of the selections from a list of proofs. */
  ghost function Values(proofs: seq<FeeAwareProof>, most: nat): set<Value> {
    if proofs == [] then {Nothing}
    else
      var before := Values(proofs[..|proofs| - 1], most);
      before + Plus(before, proofs[|proofs| - 1], most)
  }

  /** One unit of work for every proof and every value of the proofs before it. */
  ghost function Work(proofs: seq<FeeAwareProof>, most: nat): nat {
    if proofs == [] then 0 else Work(proofs[..|proofs| - 1], most) + |Values(proofs[..|proofs| - 1], most)|
  }

  // ---- values are values of selections ----

  lemma ValuesSplit(proofs: seq<FeeAwareProof>, most: nat)
    requires proofs != []
    ensures var (front, last) := (proofs[..|proofs| - 1], proofs[|proofs| - 1]);
            Values(proofs, most) == Values(front, most) + Plus(Values(front, most), last, most)
  {
  }

  lemma EmptyValues(most: nat)
    ensures Values([], most) == {Nothing} && ValueOf([]) == Nothing && Available([], [])
  {
  }

  lemma NothingFromNothing(chosen: seq<FeeAwareProof>)
    requires Available(chosen, [])
    ensures chosen == []
  {
    assert |multiset(chosen)| == 0;
  }

  lemma AvailableSnoc(less: seq<FeeAwareProof>, proofs: seq<FeeAwareProof>)
    requires proofs != []
    ensures var (front, last) := (proofs[..|proofs| - 1], proofs[|proofs| - 1]);
            Available(less, front) ==> Available(less, proofs) && Available(less + [last], proofs)
  {
    assert proofs == proofs[..|proofs| - 1] + [proofs[|proofs| - 1]];
  }

  lemma {:induction false} SelectionHasValue(chosen: seq<FeeAwareProof>, proofs: seq<FeeAwareProof>, most: nat)
    requires Available(chosen, proofs) && Gross(chosen) <= most
    ensures ValueOf(chosen) in Values(proofs, most)
    decreases |proofs|
  {
    if proofs == [] {
      NothingFromNothing(chosen);
    } else {
      hide Values, Available, Gross, Ppk;
      var n := |proofs| - 1;
      ValuesSplit(proofs, most);
      if Available(chosen, proofs[..n]) {
        SelectionHasValue(chosen, proofs[..n], most);
      } else {
        assert proofs[..n + 1] == proofs;
        var less := OneLess(proofs, n, chosen);
        SelectionHasValue(less, proofs[..n], most);
        assert ValueOf(chosen) == Add(ValueOf(less), proofs[n]);
      }
    }
  }

  lemma {:induction false} ValueHasSelection(proofs: seq<FeeAwareProof>, most: nat, v: Value) returns (chosen: seq<FeeAwareProof>)
    requires v in Values(proofs, most)
    ensures Available(chosen, proofs) && ValueOf(chosen) == v && v.gross <= most
    decreases |proofs|
  {
    hide Values, Available, Gross, Ppk;
    if proofs == [] {
      chosen := [];
      EmptyValues(most);
    } else {
      var (n, last) := (|proofs| - 1, proofs[|proofs| - 1]);
      ValuesSplit(proofs, most);
      if v in Values(proofs[..n], most) {
        chosen := ValueHasSelection(proofs[..n], most, v);
        AvailableSnoc(chosen, proofs);
      } else {
        var u :| u in Values(proofs[..n], most) && u.gross + last.amount <= most && Add(u, last) == v;
        var less := ValueHasSelection(proofs[..n], most, u);
        chosen := less + [last];
        SnocSums(less, last);
        AvailableSnoc(less, proofs);
      }
    }
  }

  /** The recursion above says what it should: the values are those of the affordable selections. */
  lemma ValuesAreSelections(proofs: seq<FeeAwareProof>, most: nat, v: Value)
    ensures v in Values(proofs, most) <==>
              exists chosen :: Available(chosen, proofs) && Gross(chosen) <= most && ValueOf(chosen) == v
  {
    if v in Values(proofs, most) {
      var chosen := ValueHasSelection(proofs, most, v);
    }
    forall chosen | Available(chosen, proofs) && Gross(chosen) <= most && ValueOf(chosen) == v
      ensures v in Values(proofs, most)
    {
      SelectionHasValue(chosen, proofs, most);
    }
  }

  lemma {:induction false} ValuesGrow(proofs: seq<FeeAwareProof>, i: nat, most: nat)
    requires i <= |proofs|
    ensures Values(proofs[..i], most) <= Values(proofs, most)
    ensures |Values(proofs[..i], most)| <= |Values(proofs, most)| && Work(proofs[..i], most) <= Work(proofs, most)
    decreases |proofs|
  {
    if i == |proofs| {
      assert proofs[..i] == proofs;
    } else {
      var n := |proofs| - 1;
      ValuesGrow(proofs[..n], i, most);
      assert proofs[..n][..i] == proofs[..i];
      SubsetSize(Values(proofs[..n], most), Values(proofs, most));
    }
  }

  // ---- the states of the search ----

  ghost function Keys(plans: seq<Entry>): set<Value> { set k | 0 <= k < |plans| :: KeyOf(plans[k]) }

  function KeyOf(e: Entry): Value { Value(e.gross, e.feePpk) }

  lemma HasIsKey(plans: seq<Entry>, gross: nat, feePpk: nat)
    ensures Has(plans, gross, feePpk) <==> Value(gross, feePpk) in Keys(plans)
  {
  }

  lemma {:induction false} KeysCount(plans: seq<Entry>)
    requires KeysSorted(plans)
    ensures |Keys(plans)| == |plans|
  {
    if plans != [] {
      var n := |plans| - 1;
      KeysCount(plans[..n]);
      KeysSnoc(plans[..n], plans[n]);
      assert plans == plans[..n] + [plans[n]];
      assert KeyOf(plans[n]) !in Keys(plans[..n]);
    }
  }

  lemma KeysSnoc(plans: seq<Entry>, e: Entry)
    ensures Keys(plans + [e]) == Keys(plans) + {KeyOf(e)}
  {
    var all := plans + [e];
    assert all[|plans|] == e;
    forall v | v in Keys(plans) ensures v in Keys(all) {
      var k :| 0 <= k < |plans| && v == KeyOf(plans[k]);
      assert all[k] == plans[k];
    }
  }

  lemma KeysInsert(plans: seq<Entry>, e: Entry)
    ensures Keys(Insert(plans, e)) == Keys(plans) + {KeyOf(e)}
  {
    var all := Insert(plans, e);
    forall v | v in Keys(plans) + {KeyOf(e)} ensures v in Keys(all) {
      InsertHas(plans, e);
      if v in Keys(plans) {
        var k :| 0 <= k < |plans| && v == KeyOf(plans[k]);
      }
      HasIsKey(all, v.gross, v.ppk);
    }
    forall v | v in Keys(all) ensures v in Keys(plans) + {KeyOf(e)} {
      var k :| 0 <= k < |all| && v == KeyOf(all[k]);
      assert all[k] in all;
    }
  }

  /** A search whose states are `values`, each once, within the limits so far. */
  ghost predicate Stands(s: Search, values: set<Value>, limits: Limits) {
    && KeysSorted(s.plans) && Keys(s.plans) == values && Nothing in values
    && s.work <= limits.work && (|values| <= limits.states || |values| == 1)
  }

  /** The value that extending entry `e` by proof `p` would add. */
  ghost function Added(e: Entry, p: FeeAwareProof, most: nat): set<Value> {
    if e.gross + p.amount <= most then {Add(KeyOf(e), p)} else {}
  }

  lemma AddStateStands(
    sorted: seq<FeeAwareProof>, net: nat, limits: Limits, i: nat, previous: Option<nat>, gross: nat, feePpk: nat, s: Search,
    values: set<Value>)
    requires Stands(s, values, limits) && Value(gross, feePpk) !in values && feePpk <= U64_MAX
    ensures var step := AddState(sorted, net, limits, i, previous, gross, feePpk, s);
            var more := values + {Value(gross, feePpk)};
            match step
            case Going(s') => Stands(s', more, limits) && s'.work == s.work
            case Stopped(Err(error)) => error == "swap_plan_search_bound_exceeded" && |more| > limits.states && |more| > 1
            case Stopped(Ok(None)) => false
            case Stopped(Ok(Some(plan))) => plan.gross > 0
  {
    var e := Entry(gross, feePpk, Some(|s.nodes|));
    KeysInsert(s.plans, e);
    HasIsKey(s.plans, gross, feePpk);
    InsertKeepsOrder(s.plans, e);
    KeysCount(s.plans);
    KeysCount(Insert(s.plans, e));
    hide Keys, KeysSorted, Insert, Has, Path, PathIds;
  }

  lemma StandsOn(s: Search, values: set<Value>, limits: Limits)
    requires Stands(s, values, limits)
    ensures Keys(s.plans) == values && (s.work + 1 <= limits.work ==> Stands(s.(work := s.work + 1), values, limits))
  {
    hide Keys, KeysSorted;
  }

  lemma ExtendStands(
    sorted: seq<FeeAwareProof>, net: nat, most: nat, limits: Limits, i: nat, e: Entry, s: Search, values: set<Value>)
    requires i < |sorted| && most <= U64_MAX && e.feePpk + sorted[i].feePpk <= U64_MAX && Stands(s, values, limits)
    ensures var step := Extend(sorted, net, most, limits, i, e, s);
            var more := values + Added(e, sorted[i], most);
            match step
            case Going(s') => Stands(s', more, limits) && s'.work == s.work + 1
            case Stopped(Err(error)) =>
              || (error == "swap_plan_work_bound_exceeded" && s.work + 1 > limits.work)
              || (error == "swap_plan_search_bound_exceeded" && |more| > limits.states && |more| > 1)
            case Stopped(Ok(None)) => false
            case Stopped(Ok(Some(plan))) => plan.gross > 0
  {
    hide AddState, Keys, KeysSorted, Has;
    var (gross, feePpk) := (e.gross + sorted[i].amount, e.feePpk + sorted[i].feePpk);
    HasIsKey(s.plans, gross, feePpk);
    StandsOn(s, values, limits);
    if s.work + 1 <= limits.work {
      if gross <= most && Value(gross, feePpk) !in values {
        AddStateStands(sorted, net, limits, i, e.node, gross, feePpk, s.(work := s.work + 1), values);
      } else {
        assert values + Added(e, sorted[i], most) == values;
      }
    }
    hide Stands;
  }

  lemma PlusNext(values: set<Value>, e: Entry, p: FeeAwareProof, most: nat)
    ensures Plus(values + {KeyOf(e)}, p, most) == Plus(values, p, most) + Added(e, p, most)
  {
    forall v | v in Plus(values, p, most) + Added(e, p, most)
      ensures v in Plus(values + {KeyOf(e)}, p, most)
    {
      if v in Plus(values, p, most) {
        var u :| u in values && u.gross + p.amount <= most && Add(u, p) == v;
        assert u in values + {KeyOf(e)};
      } else {
        assert KeyOf(e) in values + {KeyOf(e)};
      }
    }
  }

  lemma PlusGrows(some: set<Value>, all: set<Value>, p: FeeAwareProof, most: nat)
    requires some <= all
    ensures Plus(some, p, most) <= Plus(all, p, most)
  {
  }

  /** The states once the first `k` earlier entries have been extended by proof `p`. */
  ghost function Extended(prior: seq<Entry>, k: nat, p: FeeAwareProof, most: nat): set<Value>
    requires k <= |prior|
  {
    Keys(prior) + Plus(Keys(prior[..k]), p, most)
  }

  lemma ExtendedNext(prior: seq<Entry>, k: nat, p: FeeAwareProof, most: nat)
    requires k < |prior|
    ensures Extended(prior, k + 1, p, most) == Extended(prior, k, p, most) + Added(prior[k], p, most)
    ensures |Extended(prior, k + 1, p, most)| <= |Extended(prior, |prior|, p, most)|
  {
    assert prior[..k + 1] == prior[..k] + [prior[k]];
    KeysSnoc(prior[..k], prior[k]);
    PlusNext(Keys(prior[..k]), prior[k], p, most);
    assert prior[..|prior|] == prior;
    assert Keys(prior[..k + 1]) <= Keys(prior) by {
      forall v | v in Keys(prior[..k + 1]) ensures v in Keys(prior) {
        var n :| 0 <= n < k + 1 && v == KeyOf(prior[..k + 1][n]);
        assert v == KeyOf(prior[n]);
      }
    }
    PlusGrows(Keys(prior[..k + 1]), Keys(prior), p, most);
    SubsetSize(Extended(prior, k + 1, p, most), Extended(prior, |prior|, p, most));
  }

  const WORK_ERROR := "swap_plan_work_bound_exceeded"
  const STATES_ERROR := "swap_plan_search_bound_exceeded"

  lemma {:induction false} ExtendAllStands(
    sorted: seq<FeeAwareProof>, net: nat, most: nat, limits: Limits, i: nat, prior: seq<Entry>, k: nat, s: Search)
    requires i < |sorted| && k <= |prior| && most <= U64_MAX
    requires forall j :: 0 <= j < |prior| ==> prior[j].feePpk + sorted[i].feePpk <= U64_MAX
    requires Stands(s, Extended(prior, k, sorted[i], most), limits)
    ensures var all := Extended(prior, |prior|, sorted[i], most);
            match ExtendAll(sorted, net, most, limits, i, prior, k, s)
            case Going(s') => Stands(s', all, limits) && s'.work == s.work + |prior| - k
            case Stopped(Err(error)) =>
              || (error == WORK_ERROR && s.work + |prior| - k > limits.work)
              || (error == STATES_ERROR && |all| > limits.states && |all| > 1)
            case Stopped(Ok(None)) => false
            case Stopped(Ok(Some(plan))) => plan.gross > 0
    decreases |prior| - k
  {
    if k < |prior| {
      hide Extended, Stands, Extend, Added;
      var step := Extend(sorted, net, most, limits, i, prior[k], s);
      ExtendAllStep(sorted, net, most, limits, i, prior, k, s, step);
      ExtendStands(sorted, net, most, limits, i, prior[k], s, Extended(prior, k, sorted[i], most));
      ExtendedNext(prior, k, sorted[i], most);
      if step.Going? { ExtendAllStands(sorted, net, most, limits, i, prior, k + 1, step.search); }
    }
  }

  /** The limits suffice for all the values of all the selections. */
  ghost predicate Fits(sorted: seq<FeeAwareProof>, most: nat, limits: Limits) {
    Work(sorted, most) <= limits.work && (|Values(sorted, most)| <= limits.states || |Values(sorted, most)| == 1)
  }

  /** `error` names a limit that they do not fit. */
  ghost predicate Exceeded(error: string, sorted: seq<FeeAwareProof>, most: nat, limits: Limits) {
    || (error == WORK_ERROR && Work(sorted, most) > limits.work)
    || (error == STATES_ERROR && |Values(sorted, most)| > limits.states && |Values(sorted, most)| > 1)
  }

  lemma EntriesAreCheap(sorted: seq<FeeAwareProof>, i: nat, most: nat, plans: seq<Entry>, j: nat)
    requires i < |sorted| && Ppk(sorted) <= U64_MAX && Keys(plans) == Values(sorted[..i], most) && j < |plans|
    ensures plans[j].feePpk + sorted[i].feePpk <= U64_MAX
  {
    assert KeyOf(plans[j]) in Keys(plans);
    var chosen := ValueHasSelection(sorted[..i], most, KeyOf(plans[j]));
    PpkBounded(chosen, sorted[..i]);
    PpkPrefix(sorted, i);
    PpkGrows(sorted, i + 1);
  }

  /** Processing proof `i` in full gives the values of one more proof, for as much work as there were values. */
  lemma NextProof(sorted: seq<FeeAwareProof>, i: nat, most: nat, plans: seq<Entry>)
    requires i < |sorted| && KeysSorted(plans) && Keys(plans) == Values(sorted[..i], most)
    ensures Extended(plans, |plans|, sorted[i], most) == Values(sorted[..i + 1], most)
    ensures Extended(plans, 0, sorted[i], most) == Values(sorted[..i], most)
    ensures Work(sorted[..i + 1], most) == Work(sorted[..i], most) + |plans|
  {
    KeysCount(plans);
    assert plans[..|plans|] == plans && plans[..0] == [];
    assert sorted[..i + 1][..i] == sorted[..i];
  }

  lemma {:induction false} SearchStands(sorted: seq<FeeAwareProof>, net: nat, most: nat, limits: Limits, i: nat, s: Search)
    requires i <= |sorted| && most <= U64_MAX && Ppk(sorted) <= U64_MAX
    requires Stands(s, Values(sorted[..i], most), limits) && s.work == Work(sorted[..i], most)
    ensures match SearchFrom(sorted, net, most, limits, i, s)
            case Err(error) => Exceeded(error, sorted, most, limits)
            case Ok(None) => Fits(sorted, most, limits)
            case Ok(Some(plan)) => plan.gross > 0
    decreases |sorted| - i
  {
    if i == |sorted| {
      assert sorted[..i] == sorted;
    } else {
      hide Stands, Values, Work, Ppk, ExtendAll, SearchFrom, Fits, Exceeded;
      var step := ExtendAll(sorted, net, most, limits, i, s.plans, 0, s);
      ProofStands(sorted, net, most, limits, i, s, step);
      SearchStep(sorted, net, most, limits, i, s, step);
      if step.Going? { SearchStands(sorted, net, most, limits, i + 1, step.search); }
    }
  }

  /** The step for one proof of the sorted list. */
  lemma ProofStands(sorted: seq<FeeAwareProof>, net: nat, most: nat, limits: Limits, i: nat, s: Search, step: Step)
    requires i < |sorted| && most <= U64_MAX && Ppk(sorted) <= U64_MAX
    requires Stands(s, Values(sorted[..i], most), limits) && s.work == Work(sorted[..i], most)
    requires step == ExtendAll(sorted, net, most, limits, i, s.plans, 0, s)
    ensures match step
            case Going(s') => Stands(s', Values(sorted[..i + 1], most), limits) && s'.work == Work(sorted[..i + 1], most)
            case Stopped(Err(error)) => Exceeded(error, sorted, most, limits)
            case Stopped(Ok(None)) => false
            case Stopped(Ok(Some(plan))) => plan.gross > 0
  {
    hide KeysSorted, Keys, Values, Work, Ppk, Extended, ExtendAll;
    NextProof(sorted, i, most, s.plans);
    forall j | 0 <= j < |s.plans| ensures s.plans[j].feePpk + sorted[i].feePpk <= U64_MAX {
      EntriesAreCheap(sorted, i, most, s.plans, j);
    }
    ValuesGrow(sorted, i + 1, most);
    ExtendAllStands(sorted, net, most, limits, i, s.plans, 0, s);
  }

  // ---- when each answer is given ----

  /** The input is too long for the planner. */
  predicate TooMany(proofs: seq<FeeAwareProof>) { |proofs| > 10_000 }

  /** The fees of all proofs, or what a selection could cost at most, leave the range of 64 bits. */
  predicate Overflows(proofs: seq<FeeAwareProof>, net: nat) {
    Ppk(proofs) > U64_MAX || net + PlannedFee(Ppk(proofs)) > U64_MAX
  }

  function Most(proofs: seq<FeeAwareProof>, net: nat): nat { net + PlannedFee(Ppk(proofs)) }

  lemma PpkOfSorted(proofs: seq<FeeAwareProof>)
    ensures Ppk(Sort(proofs)) == Ppk(proofs)
  {
    PpkBounded(proofs, Sort(proofs));
    PpkBounded(Sort(proofs), proofs);
  }

  /** Every error says what it means, and every answer that is no error means that the limits sufficed or a plan was found. */
  lemma AnswersExplained(proofs: seq<FeeAwareProof>, net: U64, limits: Limits)
    ensures var (sorted, most) := (Sort(proofs), Most(proofs, net));
            match PlanOf(proofs, net, limits)
            case Err(error) =>
              || (error == "wallet_proof_limit_exceeded" && TooMany(proofs))
              || (error == "swap_plan_value_overflow" && !TooMany(proofs) && Overflows(proofs, net))
              || (!TooMany(proofs) && !Overflows(proofs, net)
                  && Exceeded(error, sorted, most, limits))
            case Ok(None) => !TooMany(proofs) && !Overflows(proofs, net) && Fits(sorted, most, limits)
            case Ok(Some(plan)) => !TooMany(proofs) && !Overflows(proofs, net) && plan.gross > 0
  {
    GuardsFirst(proofs, net, limits);
    if !TooMany(proofs) && !Overflows(proofs, net) {
      hide PlanOf, Values, Work, Stands, Sort, SearchFrom, PlannedFee, Fits, Exceeded;
      var sorted := Sort(proofs);
      EmptyStands(sorted, Most(proofs, net), limits);
      PpkOfSorted(proofs);
      SearchStands(sorted, net, Most(proofs, net), limits, 0, EmptySearch);
    }
  }

  lemma GuardsFirst(proofs: seq<FeeAwareProof>, net: U64, limits: Limits)
    ensures PlanOf(proofs, net, limits) ==
            if TooMany(proofs) then Err("wallet_proof_limit_exceeded")
            else if Overflows(proofs, net) then Err("swap_plan_value_overflow")
            else SearchFrom(Sort(proofs), net, Most(proofs, net), limits, 0, EmptySearch)
  {
    PpkOfSorted(proofs);
    hide Ppk, Sort, SearchFrom, PlannedFee;
  }

  lemma EmptyStands(sorted: seq<FeeAwareProof>, most: nat, limits: Limits)
    ensures Stands(EmptySearch, Values(sorted[..0], most), limits) && EmptySearch.work == Work(sorted[..0], most)
  {
    KeysSnoc([], Entry(0, 0, None));
    assert EmptySearch.plans == [] + [Entry(0, 0, None)] && sorted[..0] == [];
  }

  /** A selection that balances and is worth something. */
  predicate Solves(chosen: seq<FeeAwareProof>, proofs: seq<FeeAwareProof>, net: nat) {
    Available(chosen, proofs) && PlannedExact(chosen, net) && Gross(chosen) > 0
  }

  lemma PlanSolves(proofs: seq<FeeAwareProof>, net: U64, limits: Limits)
    ensures PlanOf(proofs, net, limits).Ok? && PlanOf(proofs, net, limits).value.Some? ==>
              exists chosen :: Solves(chosen, proofs, net)
  {
    AnswersExplained(proofs, net, limits);
    hide Values, Work, PlanOf;
    if PlanOf(proofs, net, limits).Ok? && PlanOf(proofs, net, limits).value.Some? {
      var chosen := PlanIsSound(proofs, net, limits);
      assert Solves(chosen, proofs, net);
    }
  }

  /**
    Within the limits the planner decides: an input that is neither too long nor overflows, and
    whose values fit, gets an answer, and the answer is a plan if and only if some selection
    that is worth something balances.
   */
  lemma DecidesWithinLimits(proofs: seq<FeeAwareProof>, net: U64, limits: Limits)
    requires !TooMany(proofs) && !Overflows(proofs, net) && Fits(Sort(proofs), Most(proofs, net), limits)
    ensures PlanOf(proofs, net, limits).Ok?
    ensures PlanOf(proofs, net, limits).value.Some? <==> exists chosen :: Solves(chosen, proofs, net)
  {
    AnswersExplained(proofs, net, limits);
    PlanSolves(proofs, net, limits);
    hide Values, Work, PlanOf;
    if PlanOf(proofs, net, limits).value.None? {
      forall chosen ensures !Solves(chosen, proofs, net) {
        if Available(chosen, proofs) { NoPlanMeansNone(proofs, net, limits, chosen); }
      }
    }
  }

  /**
    The limits are not stricter than that either: where no selection solves the request, the
    planner answers "no plan" if and only if the values fit, and otherwise reports a limit.
   */
  lemma UnsolvableDecidedIffFits(proofs: seq<FeeAwareProof>, net: U64, limits: Limits)
    requires !TooMany(proofs) && !Overflows(proofs, net) && !exists chosen :: Solves(chosen, proofs, net)
    ensures PlanOf(proofs, net, limits) == Ok(None) <==> Fits(Sort(proofs), Most(proofs, net), limits)
    ensures PlanOf(proofs, net, limits) != Ok(None) ==>
              PlanOf(proofs, net, limits) == Err(WORK_ERROR) || PlanOf(proofs, net, limits) == Err(STATES_ERROR)
  {
    AnswersExplained(proofs, net, limits);
    hide Values, Work, PlanOf;
    PlanSolves(proofs, net, limits);
    if Fits(Sort(proofs), Most(proofs, net), limits) { DecidesWithinLimits(proofs, net, limits); }
  }

  // ---- the canonical order ----

  predicate LargestFirst(s: seq<FeeAwareProof>) {
    forall i, j :: 0 <= i < j < |s| ==> s[i].amount > s[j].amount || (s[i].amount == s[j].amount && s[i].id <= s[j].id)
  }

  lemma {:induction false} PlaceLargestFirst(p: FeeAwareProof, s: seq<FeeAwareProof>)
    requires LargestFirst(s)
    ensures LargestFirst(Place(p, s))
  {
    if s != [] && Before(s[0], p) {
      PlaceLargestFirst(p, s[1..]);
      var r := Place(p, s[1..]);
      forall j | 0 <= j < |r|
        ensures s[0].amount > r[j].amount || (s[0].amount == r[j].amount && s[0].id <= r[j].id)
      {
        hide Place;
        PlaceMembers(p, s[1..], j);
      }
    }
  }

  lemma PlaceMembers(p: FeeAwareProof, s: seq<FeeAwareProof>, j: nat)
    requires j < |Place(p, s)|
    ensures Place(p, s)[j] == p || Place(p, s)[j] in s
  {
    hide Place;
    assert Place(p, s)[j] in multiset(Place(p, s));
  }

  /** The proofs are processed by falling amount, and by id where amounts are equal. */
  lemma {:induction false} SortIsLargestFirst(proofs: seq<FeeAwareProof>)
    ensures LargestFirst(Sort(proofs)) && multiset(Sort(proofs)) == multiset(proofs)
  {
    if proofs != [] {
      SortIsLargestFirst(proofs[1..]);
      PlaceLargestFirst(proofs[0], Sort(proofs[1..]));
    }
  }
}
