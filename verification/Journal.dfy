/**
  The tables of the lifecycle journal and what each store method does to them.

  Every method of the store is one atomic step. It is given here as a function from the
  tables (and the arguments, including the clock reading `now`) to the new tables and the
  reply; an error reply leaves the tables as they were, because the transaction is rolled
  back. `LifecycleStore.dfy` proves that the imperative store computes these functions.
 */
module Journal {
  import opened Prelude

  /** Operation ids are opaque and totally ordered. */
  type OperationId = nat
  /** The random identity of one opened store handle. */
  type Owner = nat

  const CLAIM_LEASE_SECONDS: nat := 120

  datatype Kind = Mint | Swap | Send | Receive | Melt | Restore | Reconcile

  datatype Phase =
    Created | Prepared | Submitted | Ambiguous | Reconciling
  | Succeeded | FailedDefinitive | RecoveryBlocked
  {
    predicate Terminal() { Succeeded? || FailedDefinitive? || RecoveryBlocked? }

    /** The terminal phases whose commit frees the wallet barrier. */
    predicate Definitive() { Succeeded? || FailedDefinitive? }
  }

  /** `secret` stands for the request fields that no guard of the store or engine reads. */
  datatype Input = Input(
    operationId: OperationId, kind: Kind, amount: Option<nat>, target: Option<OperationId>, secret: string)

  datatype Operation = Operation(
    operationId: OperationId, kind: Kind, intentHash: string, phase: Phase,
    evidenceCode: Option<string>, amount: Option<nat>)

  datatype Row = Row(
    intentHash: string, input: Input, operation: Operation, material: Option<string>,
    owner: Option<Owner>, until: nat, token: nat)

  /** A digest is represented by the data that is hashed. */
  datatype EvidenceDigest = EvidenceDigest(
    operationId: OperationId, kind: Kind, phase: Phase, amount: nat, code: string)

  datatype Evidence = Evidence(operationId: OperationId, source: string, event: string, dataHash: EvidenceDigest)

  datatype EffectId = EffectId(operationId: OperationId, event: string)

  /** Evidence rows are listed in `sequence` order; row `i` has sequence number `i + 1`. */
  datatype EvidenceRow = EvidenceRow(effect: EffectId, value: Evidence)

  datatype Barrier = Barrier(operationId: OperationId, owner: Owner, until: nat, token: nat)

  datatype Handoff = Handoff(recipient: string, token: string)

  datatype OutboxRow = OutboxRow(
    recipient: string, token: string, tokenHash: string,
    claimedBy: Option<string>, until: nat, claimToken: nat, acknowledged: bool)

  datatype ResetLease = ResetLease(owner: Owner, until: nat, token: nat)

  datatype Db = Db(
    operations: map<OperationId, Row>, evidence: seq<EvidenceRow>, barrier: Option<Barrier>,
    outbox: map<OperationId, OutboxRow>, nextToken: nat, reset: Option<ResetLease>,
    generation: nat, seedHash: Option<string>)

  const EmptyDb := Db(map[], [], None, map[], 0, None, 0, None)

  datatype Reply<+T> = Reply(db: Db, result: Result<T>)

  datatype ClaimedHandoff = ClaimedHandoff(
    operationId: OperationId, recipient: string, token: string, tokenHash: string, claimToken: nat)

  function LeaseEnd(now: nat): nat { SaturatingAdd(now, CLAIM_LEASE_SECONDS) }

  function SendTokenHash(token: string): string { "cashu-fault-lab/cdk-lifecycle-send-token/v1|" + token }

  function SeedHash(seed: string): string { "cashu-fault-lab/cdk-lifecycle-seed-hash-v1|" + seed }

  predicate ResetActive(reset: Option<ResetLease>, now: nat) { reset.Some? && reset.value.until > now }

  predicate HoldsReset(reset: Option<ResetLease>, owner: Owner, token: nat, now: nat) {
    ResetActive(reset, now) && reset.value.owner == owner && reset.value.token == token
  }

  /** The guard of every claiming UPDATE: nobody holds the row, or its lease has run out. */
  predicate Claimable(row: Row, now: nat) { row.owner.None? || row.until <= now }

  predicate LeaseActive(row: Row, now: nat) { row.owner.Some? && row.until > now }

  /** The WHERE clause shared by every write that carries an operation token. */
  predicate HoldsClaim(operations: map<OperationId, Row>, id: OperationId, owner: Owner, token: nat, now: nat) {
    id in operations && operations[id].owner == Some(owner) && operations[id].token == token
    && operations[id].until > now
  }

  predicate HoldsBarrier(barrier: Option<Barrier>, id: OperationId, owner: Owner, token: nat, now: nat) {
    barrier.Some? && barrier.value.operationId == id && barrier.value.owner == owner
    && barrier.value.token == token && barrier.value.until > now
  }

  function Coalesce<T>(first: Option<T>, second: Option<T>): Option<T> {
    if first.Some? then first else second
  }

  function NewRow(input: Input, operation: Operation): Row {
    Row(operation.intentHash, input, operation, None, None, 0, 0)
  }

  // ---- operations and their claims ----

  function CreateAndClaim(db: Db, owner: Owner, input: Input, operation: Operation, now: nat)
    : Reply<Option<(Operation, nat)>>
  {
    var id := operation.operationId;
    var row := if id in db.operations then db.operations[id] else NewRow(input, operation);
    if ResetActive(db.reset, now) then Reply(db, Ok(None))
    else if row.operation.intentHash != operation.intentHash then
      Reply(db, Err("lifecycle operation identity conflicts"))
    else if db.nextToken >= U64_MAX then Reply(db, Err("lifecycle fencing token exhausted"))
    else
      var token := db.nextToken + 1;
      if Claimable(row, now) then
        var claimed := row.(owner := Some(owner), until := LeaseEnd(now), token := token);
        Reply(db.(operations := db.operations[id := claimed], nextToken := token), Ok(Some((row.operation, token))))
      else Reply(db.(operations := db.operations[id := row], nextToken := token), Ok(None))
  }

  function TryClaim(db: Db, owner: Owner, id: OperationId, now: nat): Reply<Option<nat>> {
    if ResetActive(db.reset, now) then Reply(db, Ok(None))
    else if db.nextToken >= U64_MAX then Reply(db, Err("lifecycle fencing token exhausted"))
    else
      var token := db.nextToken + 1;
      if id in db.operations && Claimable(db.operations[id], now) then
        var claimed := db.operations[id].(owner := Some(owner), until := LeaseEnd(now), token := token);
        Reply(db.(operations := db.operations[id := claimed], nextToken := token), Ok(Some(token)))
      else Reply(db.(nextToken := token), Ok(None))
  }

  function Put(db: Db, owner: Owner, operation: Operation, material: Option<string>, token: nat, now: nat)
    : Reply<()>
  {
    var id := operation.operationId;
    if HoldsClaim(db.operations, id, owner, token, now) && db.operations[id].intentHash == operation.intentHash then
      var row := db.operations[id];
      Reply(db.(operations := db.operations[id :=
        row.(operation := operation, material := Coalesce(material, row.material))]), Ok(()))
    else Reply(db, Err("lifecycle operation claim was lost"))
  }

  function RenewClaim(db: Db, owner: Owner, id: OperationId, token: nat, now: nat): Reply<()> {
    if !HoldsClaim(db.operations, id, owner, token, now) then Reply(db, Err("lifecycle operation claim was lost"))
    else
      var renewed := db.operations[id := db.operations[id].(until := LeaseEnd(now))];
      if db.barrier.None? || db.barrier.value.operationId != id then Reply(db.(operations := renewed), Ok(()))
      else if HoldsBarrier(db.barrier, id, owner, token, now) then
        Reply(db.(operations := renewed, barrier := Some(db.barrier.value.(until := LeaseEnd(now)))), Ok(()))
      else Reply(db, Err("lifecycle wallet barrier was lost"))
  }

  function Release(db: Db, owner: Owner, id: OperationId, token: nat, now: nat): Reply<()> {
    if HoldsClaim(db.operations, id, owner, token, now) then
      Reply(db.(operations := db.operations[id := db.operations[id].(owner := None, until := 0)]), Ok(()))
    else Reply(db, Err("lifecycle operation claim was lost"))
  }

  function TryClaimWalletMutation(db: Db, owner: Owner, id: OperationId, token: nat, now: nat): Reply<bool> {
    var granted := Some(Barrier(id, owner, LeaseEnd(now), token));
    if !HoldsClaim(db.operations, id, owner, token, now) then Reply(db, Err("lifecycle operation claim was lost"))
    else if db.barrier.None?
            || (db.barrier.value.operationId == id
                && (db.barrier.value.owner == owner || db.barrier.value.until <= now)) then
      Reply(db.(barrier := granted), Ok(true))
    else Reply(db, Ok(false))
  }

  // ---- evidence, hand-off and the terminal commit ----

  predicate HasEffect(evidence: seq<EvidenceRow>, effect: EffectId) {
    exists i :: 0 <= i < |evidence| && evidence[i].effect == effect
  }

  /** A recorded effect must carry the same evidence again. */
  predicate EvidenceAgrees(evidence: seq<EvidenceRow>, effect: EffectId, value: Evidence) {
    forall i :: 0 <= i < |evidence| && evidence[i].effect == effect ==> evidence[i].value == value
  }

  function Record(evidence: seq<EvidenceRow>, effect: EffectId, value: Evidence): seq<EvidenceRow> {
    if HasEffect(evidence, effect) then evidence else evidence + [EvidenceRow(effect, value)]
  }

  predicate HandoffAgrees(outbox: map<OperationId, OutboxRow>, id: OperationId, handoff: Handoff) {
    id in outbox ==>
      outbox[id].recipient == handoff.recipient && outbox[id].tokenHash == SendTokenHash(handoff.token)
  }

  function Hand(outbox: map<OperationId, OutboxRow>, id: OperationId, handoff: Option<Handoff>)
    : map<OperationId, OutboxRow>
  {
    if handoff.None? || id in outbox then outbox
    else outbox[id := OutboxRow(
                  handoff.value.recipient, handoff.value.token, SendTokenHash(handoff.value.token), None, 0, 0, false)]
  }

  function Commit(
    db: Db, owner: Owner, operation: Operation, material: Option<string>, effect: EffectId, evidence: Evidence,
    handoff: Option<Handoff>, token: nat, now: nat): Reply<()>
  {
    var id := operation.operationId;
    var updated := Put(db, owner, operation, material, token, now);
    if updated.result.Err? then updated
    else if !EvidenceAgrees(db.evidence, effect, evidence) then
      Reply(db, Err("lifecycle evidence identity conflicts"))
    else if handoff.Some? && !HandoffAgrees(db.outbox, id, handoff.value) then
      Reply(db, Err("lifecycle send handoff identity conflicts"))
    else
      var frees := operation.phase.Definitive() && HoldsBarrier(db.barrier, id, owner, token, now);
      Reply(updated.db.(
        evidence := Record(db.evidence, effect, evidence),
        outbox := Hand(db.outbox, id, handoff),
        barrier := if frees then None else db.barrier), Ok(()))
  }

  // ---- reset ----

  function TryClaimReset(db: Db, owner: Owner, now: nat): Reply<Option<nat>> {
    if ResetActive(db.reset, now) || exists id :: id in db.operations && LeaseActive(db.operations[id], now) then
      Reply(db, Ok(None))
    else if db.nextToken >= U64_MAX then Reply(db, Err("lifecycle fencing token exhausted"))
    else
      var token := db.nextToken + 1;
      Reply(db.(nextToken := token, reset := Some(ResetLease(owner, LeaseEnd(now), token))), Ok(Some(token)))
  }

  function RenewReset(db: Db, owner: Owner, token: nat, now: nat): Reply<()> {
    if HoldsReset(db.reset, owner, token, now) then
      Reply(db.(reset := Some(db.reset.value.(until := LeaseEnd(now)))), Ok(()))
    else Reply(db, Err("lifecycle reset claim was lost"))
  }

  function ReleaseReset(db: Db, owner: Owner, token: nat, now: nat): Reply<()> {
    if HoldsReset(db.reset, owner, token, now) then Reply(db.(reset := None), Ok(()))
    else Reply(db, Err("lifecycle reset claim was lost"))
  }

  function NextGeneration(db: Db, owner: Owner, token: nat, now: nat): Result<nat> {
    if !HoldsReset(db.reset, owner, token, now) then Err("lifecycle reset claim was lost")
    else if db.generation >= U64_MAX then Err("lifecycle wallet generation exhausted")
    else Ok(db.generation + 1)
  }

  function Reset(db: Db, owner: Owner, seed: string, generation: nat, token: nat, now: nat): Reply<()> {
    if seed == "" || |seed| > 256 then Reply(db, Err("lifecycle seed is invalid"))
    else if !HoldsReset(db.reset, owner, token, now) then Reply(db, Err("lifecycle reset claim was lost"))
    else
      Reply(db.(operations := map[], evidence := [], barrier := None, outbox := map[],
                generation := generation, seedHash := Some(SeedHash(seed))), Ok(()))
  }

  // ---- send outbox ----

  predicate HandoffClaimable(row: OutboxRow, consumer: string, now: nat) {
    !row.acknowledged && (row.claimedBy.None? || row.until <= now || row.claimedBy == Some(consumer))
  }

  predicate HoldsHandoff(outbox: map<OperationId, OutboxRow>, id: OperationId, consumer: string, token: nat, now: nat) {
    id in outbox && !outbox[id].acknowledged && outbox[id].claimedBy == Some(consumer)
    && outbox[id].claimToken == token && outbox[id].until > now
  }

  /** `ORDER BY operation_id LIMIT 1` over the rows this consumer may claim. */
  predicate FirstClaimable(outbox: map<OperationId, OutboxRow>, id: OperationId, consumer: string, now: nat) {
    && id in outbox && HandoffClaimable(outbox[id], consumer, now)
    && forall other :: other in outbox && HandoffClaimable(outbox[other], consumer, now) ==> id <= other
  }

  lemma FirstClaimableExists(outbox: map<OperationId, OutboxRow>, some: OperationId, consumer: string, now: nat)
    requires some in outbox && HandoffClaimable(outbox[some], consumer, now)
    ensures exists id :: FirstClaimable(outbox, id, consumer, now)
    decreases some
  {
    if other :| other in outbox && HandoffClaimable(outbox[other], consumer, now) && other < some {
      FirstClaimableExists(outbox, other, consumer, now);
    } else {
      assert FirstClaimable(outbox, some, consumer, now);
    }
  }

  function PickHandoff(outbox: map<OperationId, OutboxRow>, consumer: string, now: nat): (r: Option<OperationId>)
    ensures r.Some? ==> FirstClaimable(outbox, r.value, consumer, now)
    ensures r.None? ==> forall id :: id in outbox ==> !HandoffClaimable(outbox[id], consumer, now)
  {
    if some :| some in outbox && HandoffClaimable(outbox[some], consumer, now) then
      FirstClaimableExists(outbox, some, consumer, now);
      var id :| id in outbox && FirstClaimable(outbox, id, consumer, now);
      Some(id)
    else None
  }

  function ClaimHandoff(db: Db, consumer: string, now: nat): Reply<Option<ClaimedHandoff>> {
    var pick := PickHandoff(db.outbox, consumer, now);
    if consumer == "" || |consumer| > 128 then Reply(db, Err("lifecycle send handoff consumer is invalid"))
    else if pick.None? then Reply(db, Ok(None))
    else if db.nextToken >= U64_MAX then Reply(db, Err("lifecycle fencing token exhausted"))
    else
      var token := db.nextToken + 1;
      var row := db.outbox[pick.value];
      var claimed := db.(nextToken := token, outbox := db.outbox[pick.value :=
        row.(claimedBy := Some(consumer), until := LeaseEnd(now), claimToken := token)]);
      // The hash is compared after the claim has been committed.
      if SendTokenHash(row.token) != row.tokenHash then Reply(claimed, Err("lifecycle send handoff hash conflicts"))
      else Reply(claimed, Ok(Some(ClaimedHandoff(pick.value, row.recipient, row.token, row.tokenHash, token))))
  }

  /** A hand-off claim changes at most one claimable row, and of it only the claim. */
  predicate ClaimsRow(db: Db, db': Db, id: OperationId, consumer: string, now: nat) {
    && id in db.outbox && HandoffClaimable(db.outbox[id], consumer, now)
    && db' == db.(nextToken := db.nextToken + 1, outbox := db.outbox[id :=
                    db.outbox[id].(claimedBy := Some(consumer), until := LeaseEnd(now), claimToken := db.nextToken + 1)])
  }

  lemma ClaimHandoffEffect(db: Db, consumer: string, now: nat)
    ensures var db' := ClaimHandoff(db, consumer, now).db;
            db' == db || exists id :: ClaimsRow(db, db', id, consumer, now)
  {
    var db' := ClaimHandoff(db, consumer, now).db;
    var pick := PickHandoff(db.outbox, consumer, now);
    hide SendTokenHash, LeaseEnd;
    if db' != db { assert ClaimsRow(db, db', pick.value, consumer, now); }
  }

  function AcknowledgeHandoff(
    db: Db, id: OperationId, tokenHash: string, consumer: string, token: nat, now: nat): Reply<()>
  {
    if HoldsHandoff(db.outbox, id, consumer, token, now) && db.outbox[id].tokenHash == tokenHash then
      Reply(db.(outbox := db.outbox[id := db.outbox[id].(acknowledged := true)]), Ok(()))
    else Reply(db, Err("lifecycle send handoff claim was lost"))
  }

  function ReleaseHandoff(db: Db, id: OperationId, consumer: string, token: nat, now: nat): Reply<()> {
    if HoldsHandoff(db.outbox, id, consumer, token, now) then
      Reply(db.(outbox := db.outbox[id := db.outbox[id].(claimedBy := None, until := 0)]), Ok(()))
    else Reply(db, Err("lifecycle send handoff claim was lost"))
  }
}
