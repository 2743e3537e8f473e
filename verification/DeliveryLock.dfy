/**
  The per-delivery lock of the in-memory sender state: a chain of promises kept in a map.

  Each caller of `withDeliveryLock` takes a ticket. It links its promise behind the tail
  found in the map, stores its own tail there, waits for the predecessor's tail, runs, and
  then resolves its promise and deletes the map entry if it is still the last tail. The
  event loop may run these pieces, and the promise reactions between them, in any order.
 */
module DeliveryLock {
  import opened Prelude

  datatype Stage = Waiting | Running | Finished

  datatype Ticket = Ticket(delivery: string, previous: Option<nat>, stage: Stage)

  /** `entries` maps a delivery to the ticket whose tail is stored; `settled` are the resolved tails. */
  datatype Lock = Lock(tickets: seq<Ticket>, entries: map<string, nat>, settled: set<nat>)

  const Idle := Lock([], map[], {})

  function Previous(l: Lock, delivery: string): Option<nat> {
    if delivery in l.entries then Some(l.entries[delivery]) else None
  }

  /** The synchronous prefix of a call; a nested call is refused and changes nothing. */
  function Arrive(l: Lock, delivery: string, nested: bool): Lock {
    if nested then l
    else l.(tickets := l.tickets + [Ticket(delivery, Previous(l, delivery), Waiting)],
            entries := l.entries[delivery := |l.tickets|])
  }

  predicate Resolved(l: Lock, previous: Option<nat>) { previous.None? || previous.value in l.settled }

  predicate CanBegin(l: Lock, k: nat) {
    k < |l.tickets| && l.tickets[k].stage == Waiting && Resolved(l, l.tickets[k].previous)
  }

  function WithStage(l: Lock, k: nat, stage: Stage): Lock
    requires k < |l.tickets|
  {
    l.(tickets := l.tickets[k := l.tickets[k].(stage := stage)])
  }

  /** The predecessor's tail has resolved: the callback starts. */
  function Begin(l: Lock, k: nat): Lock { if CanBegin(l, k) then WithStage(l, k, Running) else l }

  predicate CanEnd(l: Lock, k: nat) { k < |l.tickets| && l.tickets[k].stage == Running }

  /** The `finally` block, reached whether the callback returned or threw. */
  function End(l: Lock, k: nat): Lock {
    if !CanEnd(l, k) then l
    else
      var delivery := l.tickets[k].delivery;
      var released := WithStage(l, k, Finished);
      if delivery in l.entries && l.entries[delivery] == k then released.(entries := l.entries - {delivery}) else released
  }

  /** The reaction that resolves ticket `k`'s tail, once its own promise and its predecessor's tail are. */
  function Settle(l: Lock, k: nat): Lock {
    if k < |l.tickets| && l.tickets[k].stage == Finished && Resolved(l, l.tickets[k].previous) then
      l.(settled := l.settled + {k})
    else l
  }

  datatype Action = DoArrive(delivery: string, nested: bool) | DoBegin(k: nat) | DoEnd(k: nat) | DoSettle(k: nat)

  function Exec(l: Lock, a: Action): Lock {
    match a
    case DoArrive(delivery, nested) => Arrive(l, delivery, nested)
    case DoBegin(k) => Begin(l, k)
    case DoEnd(k) => End(l, k)
    case DoSettle(k) => Settle(l, k)
  }

  function Run(actions: seq<Action>): Lock {
    if actions == [] then Idle else Exec(Run(actions[..|actions| - 1]), actions[|actions| - 1])
  }

  /** The same steps on the mutable maps of the source. */
  class LockTable {
    var tickets: seq<Ticket>
    var entries: map<string, nat>
    var settled: set<nat>

    ghost function View(): Lock
      reads this
    {
      Lock(tickets, entries, settled)
    }

    constructor ()
      ensures View() == Idle
    {
      tickets, entries, settled := [], map[], {};
    }

    method Enter(delivery: string, nested: bool) returns (ticket: Option<nat>)
      modifies this
      ensures View() == Arrive(old(View()), delivery, nested)
      ensures ticket == if nested then None else Some(old(|tickets|))
    {
      if nested { return None; }
      var previous := if delivery in entries then Some(entries[delivery]) else None;
      ticket := Some(|tickets|);
      tickets := tickets + [Ticket(delivery, previous, Waiting)];
      entries := entries[delivery := ticket.value];
    }

    method Start(k: nat)
      requires CanBegin(View(), k)
      modifies this`tickets
      ensures View() == Begin(old(View()), k)
    {
      tickets := tickets[k := tickets[k].(stage := Running)];
    }

    method Leave(k: nat)
      requires CanEnd(View(), k)
      modifies this`tickets, this`entries
      ensures View() == End(old(View()), k)
    {
      var delivery := tickets[k].delivery;
      tickets := tickets[k := tickets[k].(stage := Finished)];
      if delivery in entries && entries[delivery] == k { entries := entries - {delivery}; }
    }
  }

  // ---- what every run keeps ----

  /** Arrival order is running order: nobody has begun before all earlier callers have finished. */
  ghost predicate InOrder(l: Lock) {
    forall i, j ::
      0 <= i < j < |l.tickets| && l.tickets[i].delivery == l.tickets[j].delivery && l.tickets[j].stage != Waiting ==>
        l.tickets[i].stage == Finished
  }

  /** A ticket waits for the caller directly before it, and for nobody only when all before it are done. */
  ghost predicate LinksOk(l: Lock) {
    && (forall i, j :: 0 <= i < j < |l.tickets| && l.tickets[i].delivery == l.tickets[j].delivery ==>
          if l.tickets[j].previous.None? then l.tickets[i].stage == Finished else i <= l.tickets[j].previous.value)
    && PreviousOk(l)
  }

  ghost predicate PreviousOk(l: Lock) {
    forall j :: 0 <= j < |l.tickets| && l.tickets[j].previous.Some? ==>
      l.tickets[j].previous.value < j && l.tickets[l.tickets[j].previous.value].delivery == l.tickets[j].delivery
  }

  /** A resolved tail means that it and everybody before it are done. */
  ghost predicate SettledOk(l: Lock) {
    forall p :: p in l.settled ==>
      p < |l.tickets| && l.tickets[p].stage == Finished
      && forall i :: 0 <= i < p && l.tickets[i].delivery == l.tickets[p].delivery ==> l.tickets[i].stage == Finished
  }

  /** The map has an entry exactly while some caller of the delivery is unfinished, and it is the last one. */
  ghost predicate EntriesOk(l: Lock) {
    && (forall d :: d in l.entries ==>
          && l.entries[d] < |l.tickets| && l.tickets[l.entries[d]].delivery == d
          && l.tickets[l.entries[d]].stage != Finished
          && forall i :: 0 <= i < |l.tickets| && l.tickets[i].delivery == d ==> i <= l.entries[d])
    && (forall i :: 0 <= i < |l.tickets| && l.tickets[i].stage != Finished ==> l.tickets[i].delivery in l.entries)
  }

  ghost predicate Inv(l: Lock) { InOrder(l) && LinksOk(l) && SettledOk(l) && EntriesOk(l) }

  lemma ArriveKeeps(l: Lock, delivery: string, nested: bool)
    requires Inv(l)
    ensures Inv(Arrive(l, delivery, nested))
  {
    if !nested {
      ArriveKeepsOrder(l, delivery);
      ArriveKeepsLinks(l, delivery);
      ArriveKeepsMap(l, delivery);
      hide InOrder, LinksOk, SettledOk, EntriesOk;
    }
  }

  lemma ArriveKeepsOrder(l: Lock, delivery: string)
    requires InOrder(l) && SettledOk(l)
    ensures InOrder(Arrive(l, delivery, false)) && SettledOk(Arrive(l, delivery, false))
  {
  }

  lemma ArriveKeepsLinks(l: Lock, delivery: string)
    requires LinksOk(l) && EntriesOk(l)
    ensures LinksOk(Arrive(l, delivery, false))
  {
  }

  lemma ArriveKeepsMap(l: Lock, delivery: string)
    requires EntriesOk(l)
    ensures EntriesOk(Arrive(l, delivery, false))
  {
  }

  /** Whoever may begin has nobody unfinished ahead. */
  lemma TurnHasCome(l: Lock, k: nat)
    requires Inv(l) && CanBegin(l, k)
    ensures forall i :: 0 <= i < k && l.tickets[i].delivery == l.tickets[k].delivery ==> l.tickets[i].stage == Finished
  {
  }

  /** A stage that moves on keeps everything but running order and the map. */
  lemma StageKeeps(l: Lock, k: nat, stage: Stage)
    requires LinksOk(l) && SettledOk(l) && k < |l.tickets| && l.tickets[k].stage != Finished
    ensures LinksOk(WithStage(l, k, stage)) && SettledOk(WithStage(l, k, stage))
  {
  }

  lemma BeginKeeps(l: Lock, k: nat)
    requires Inv(l)
    ensures Inv(Begin(l, k))
  {
    if CanBegin(l, k) {
      TurnHasCome(l, k);
      StageKeeps(l, k, Running);
      BeginKeepsMap(l, k);
      hide LinksOk, SettledOk, EntriesOk;
    }
  }

  lemma BeginKeepsMap(l: Lock, k: nat)
    requires EntriesOk(l) && CanBegin(l, k)
    ensures EntriesOk(Begin(l, k))
  {
  }

  lemma EndKeeps(l: Lock, k: nat)
    requires Inv(l)
    ensures Inv(End(l, k))
  {
    if CanEnd(l, k) {
      StageKeeps(l, k, Finished);
      EndKeepsMap(l, k);
      FrameMap(WithStage(l, k, Finished), End(l, k));
      hide LinksOk, SettledOk, EntriesOk;
    }
  }

  lemma EndKeepsMap(l: Lock, k: nat)
    requires InOrder(l) && EntriesOk(l) && CanEnd(l, k)
    ensures EntriesOk(End(l, k))
  {
  }

  lemma FrameMap(l: Lock, l': Lock)
    requires LinksOk(l) && SettledOk(l) && l'.tickets == l.tickets && l'.settled == l.settled
    ensures LinksOk(l') && SettledOk(l')
  {
  }

  lemma SettleKeeps(l: Lock, k: nat)
    requires Inv(l)
    ensures Inv(Settle(l, k))
  {
  }

  lemma {:induction false} InvHolds(actions: seq<Action>)
    ensures Inv(Run(actions))
  {
    if actions != [] {
      var n := |actions| - 1;
      var (l, a) := (Run(actions[..n]), actions[n]);
      InvHolds(actions[..n]);
      match a
      case DoArrive(delivery, nested) => ArriveKeeps(l, delivery, nested);
      case DoBegin(k) => BeginKeeps(l, k);
      case DoEnd(k) => EndKeeps(l, k);
      case DoSettle(k) => SettleKeeps(l, k);
    }
  }

  /**
    FIFO mutual exclusion. In every run, for every delivery, a caller has begun only if all
    callers that arrived earlier have finished; so at most one runs at a time and nobody
    jumps the queue, however the callbacks end.
   */
  lemma CallbacksRunInArrivalOrder(actions: seq<Action>, i: nat, j: nat)
    requires i < j < |Run(actions).tickets| && Run(actions).tickets[i].delivery == Run(actions).tickets[j].delivery
    ensures Run(actions).tickets[j].stage != Waiting ==> Run(actions).tickets[i].stage == Finished
    ensures !(Run(actions).tickets[i].stage == Running && Run(actions).tickets[j].stage == Running)
  {
    InvHolds(actions);
  }

  /** A call from inside a callback is refused and leaves no trace. */
  lemma NestedCallIsRefused(l: Lock, delivery: string)
    ensures Arrive(l, delivery, true) == l
  {
  }

  /** A caller that finds nobody unfinished on its delivery begins at once, whatever other deliveries do. */
  lemma LoneCallerBeginsAtOnce(actions: seq<Action>, delivery: string)
    requires forall k :: 0 <= k < |Run(actions).tickets| && Run(actions).tickets[k].delivery == delivery ==>
               Run(actions).tickets[k].stage == Finished
    ensures var l := Arrive(Run(actions), delivery, false);
            |l.tickets| == |Run(actions).tickets| + 1 && l.tickets[|l.tickets| - 1].delivery == delivery
            && CanBegin(l, |l.tickets| - 1)
  {
    EntryIffSomebodyUnfinished(actions, delivery);
    hide Run;
  }

  /** The map forgets a delivery exactly when nobody holds or awaits its lock. */
  lemma EntryIffSomebodyUnfinished(actions: seq<Action>, delivery: string)
    ensures delivery in Run(actions).entries <==>
              exists k :: 0 <= k < |Run(actions).tickets| && Run(actions).tickets[k].delivery == delivery
                          && Run(actions).tickets[k].stage != Finished
  {
    InvHolds(actions);
  }

  predicate AllSettle(actions: seq<Action>) { forall k :: 0 <= k < |actions| ==> actions[k].DoSettle? }

  lemma RunLast(actions: seq<Action>, a: Action)
    ensures Run(actions + [a]) == Exec(Run(actions), a)
  {
    hide Exec;
    assert (actions + [a])[..|actions|] == actions;
  }

  /** The tail of a finished caller resolves once the tails before it have, one promise reaction each. */
  lemma {:induction false} TailResolves(actions: seq<Action>, p: nat) returns (more: seq<Action>)
    requires var l := Run(actions);
             p < |l.tickets| && forall i :: 0 <= i <= p && l.tickets[i].delivery == l.tickets[p].delivery ==>
               l.tickets[i].stage == Finished
    ensures AllSettle(more) && p in Run(actions + more).settled && Run(actions + more).tickets == Run(actions).tickets
    decreases p
  {
    InvHolds(actions);
    var l := Run(actions);
    var before: seq<Action> := [];
    assert actions + before == actions;
    hide Run;
    if l.tickets[p].previous.Some? { before := TailResolves(actions, l.tickets[p].previous.value); }
    more := before + [DoSettle(p)];
    assert actions + more == (actions + before) + [DoSettle(p)];
    RunLast(actions + before, DoSettle(p));
  }

  /**
    Nothing is stuck: once all earlier callers of the delivery have finished, promise reactions
    alone bring the next one to where its callback can begin.
   */
  lemma FirstInLineIsReady(actions: seq<Action>, k: nat) returns (more: seq<Action>)
    requires k < |Run(actions).tickets| && Run(actions).tickets[k].stage == Waiting
    requires forall i :: 0 <= i < k && Run(actions).tickets[i].delivery == Run(actions).tickets[k].delivery ==>
               Run(actions).tickets[i].stage == Finished
    ensures AllSettle(more) && CanBegin(Run(actions + more), k)
  {
    InvHolds(actions);
    more := [];
    assert actions + more == actions;
    hide Run;
    if Run(actions).tickets[k].previous.Some? { more := TailResolves(actions, Run(actions).tickets[k].previous.value); }
  }
}
