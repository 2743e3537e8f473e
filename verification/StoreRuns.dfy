/**
  What the journal guarantees over whole runs, for arbitrary clients: any number of
  processes issue any calls with any arguments, in any order. Nothing is assumed about the
  clock except where a lemma asks for `Timed`.
 */
module StoreRuns {
  import opened Prelude
  import opened J = Journal

  datatype Call =
    | CreateAndClaim(owner: Owner, input: Input, operation: Operation, now: nat)
    | TryClaim(owner: Owner, id: OperationId, now: nat)
    | Put(owner: Owner, operation: Operation, material: Option<string>, token: nat, now: nat)
    | RenewClaim(owner: Owner, id: OperationId, token: nat, now: nat)
    | Release(owner: Owner, id: OperationId, token: nat, now: nat)
    | TryClaimWalletMutation(owner: Owner, id: OperationId, token: nat, now: nat)
    | Commit(owner: Owner, operation: Operation, material: Option<string>, effect: EffectId, evidence: Evidence,
             handoff: Option<Handoff>, token: nat, now: nat)
    | TryClaimReset(owner: Owner, now: nat)
    | RenewReset(owner: Owner, token: nat, now: nat)
    | ReleaseReset(owner: Owner, token: nat, now: nat)
    | Reset(owner: Owner, seed: string, generation: nat, token: nat, now: nat)
    | ClaimHandoff(consumer: string, now: nat)
    | AcknowledgeHandoff(id: OperationId, tokenHash: string, consumer: string, token: nat, now: nat)
    | ReleaseHandoff(id: OperationId, consumer: string, token: nat, now: nat)

  function Apply(db: Db, call: Call): Db {
    match call
    case CreateAndClaim(owner, input, operation, now) => J.CreateAndClaim(db, owner, input, operation, now).db
    case TryClaim(owner, id, now) => J.TryClaim(db, owner, id, now).db
    case Put(owner, operation, material, token, now) => J.Put(db, owner, operation, material, token, now).db
    case RenewClaim(owner, id, token, now) => J.RenewClaim(db, owner, id, token, now).db
    case Release(owner, id, token, now) => J.Release(db, owner, id, token, now).db
    case TryClaimWalletMutation(owner, id, token, now) => J.TryClaimWalletMutation(db, owner, id, token, now).db
    case Commit(owner, operation, material, effect, evidence, handoff, token, now) =>
      J.Commit(db, owner, operation, material, effect, evidence, handoff, token, now).db
    case TryClaimReset(owner, now) => J.TryClaimReset(db, owner, now).db
    case RenewReset(owner, token, now) => J.RenewReset(db, owner, token, now).db
    case ReleaseReset(owner, token, now) => J.ReleaseReset(db, owner, token, now).db
    case Reset(owner, seed, generation, token, now) => J.Reset(db, owner, seed, generation, token, now).db
    case ClaimHandoff(consumer, now) => J.ClaimHandoff(db, consumer, now).db
    case AcknowledgeHandoff(id, tokenHash, consumer, token, now) =>
      J.AcknowledgeHandoff(db, id, tokenHash, consumer, token, now).db
    case ReleaseHandoff(id, consumer, token, now) => J.ReleaseHandoff(db, id, consumer, token, now).db
  }

  /** The tables after a run that starts from the empty journal. */
  function After(calls: seq<Call>): Db {
    if calls == [] then EmptyDb else Apply(After(calls[..|calls| - 1]), calls[|calls| - 1])
  }

  lemma AfterStep(calls: seq<Call>, i: nat)
    requires i < |calls|
    ensures After(calls[..i + 1]) == Apply(After(calls[..i]), calls[i])
  {
    assert calls[..i + 1][..i] == calls[..i];
  }

  /** Clock readings never go back in step order. */
  predicate Timed(calls: seq<Call>) {
    forall i, j :: 0 <= i < j < |calls| ==> calls[i].now <= calls[j].now
  }

  function Clock(calls: seq<Call>): nat {
    if calls == [] then 0 else calls[|calls| - 1].now
  }

  // ---- calls on the outbox alone ----

  predicate IsHandoffCall(call: Call) { call.ClaimHandoff? || call.AcknowledgeHandoff? || call.ReleaseHandoff? }

  /** A hand-off call touches nothing but existing outbox rows and the token counter. */
  lemma HandoffCallFrame(db: Db, call: Call)
    requires IsHandoffCall(call)
    ensures var db' := Apply(db, call);
            && db' == db.(outbox := db'.outbox, nextToken := db'.nextToken)
            && db.nextToken <= db'.nextToken && db'.outbox.Keys == db.outbox.Keys
  {
    if call.ClaimHandoff? {
      ClaimHandoffEffect(db, call.consumer, call.now);
      hide J.ClaimHandoff;
    }
  }

  // ---- fencing ----

  /** `call` hands out claim token `t` on operation `id`. */
  predicate IssuesClaim(db: Db, call: Call, id: OperationId, t: nat) {
    match call
    case CreateAndClaim(owner, input, operation, now) =>
      var r := J.CreateAndClaim(db, owner, input, operation, now).result;
      operation.operationId == id && r.Ok? && r.value.Some? && r.value.value.1 == t
    case TryClaim(owner, id', now) => id' == id && J.TryClaim(db, owner, id, now).result == Ok(Some(t))
    case _ => false
  }

  /** `call` acts on operation `id` under claim token `u`. */
  predicate ActsUnder(call: Call, id: OperationId, u: nat) {
    match call
    case Put(_, operation, _, token, _) => operation.operationId == id && token == u
    case Commit(_, operation, _, _, _, _, token, _) => operation.operationId == id && token == u
    case RenewClaim(_, id', token, _) => id' == id && token == u
    case Release(_, id', token, _) => id' == id && token == u
    case TryClaimWalletMutation(_, id', token, _) => id' == id && token == u
    case _ => false
  }

  predicate Fenced(db: Db, id: OperationId, t: nat) {
    t <= db.nextToken && (id in db.operations ==> db.operations[id].token >= t)
  }

  lemma FencedStep(db: Db, call: Call, id: OperationId, t: nat)
    requires Fenced(db, id, t)
    ensures Fenced(Apply(db, call), id, t)
  {
    if IsHandoffCall(call) {
      hide Apply;
      HandoffCallFrame(db, call);
    }
  }

  lemma {:induction false} FencedThroughout(calls: seq<Call>, i: nat, j: nat, id: OperationId, t: nat)
    requires i <= j <= |calls| && Fenced(After(calls[..i]), id, t)
    ensures Fenced(After(calls[..j]), id, t)
  {
    hide *;
    if i < j {
      FencedThroughout(calls, i, j - 1, id, t);
      AfterStep(calls, j - 1);
      FencedStep(After(calls[..j - 1]), calls[j - 1], id, t);
    }
  }

  /**
    Fencing over whole runs. Once a claim with token `t` has been issued on `id`, a later
    call under a smaller token changes nothing at all, across any number of processes, lease
    expiries and resets, whatever the clocks say.
   */
  lemma StaleTokensChangeNothing(calls: seq<Call>, i: nat, j: nat, id: OperationId, t: nat, u: nat)
    requires i < j < |calls| && u < t
    requires IssuesClaim(After(calls[..i]), calls[i], id, t) && ActsUnder(calls[j], id, u)
    ensures After(calls[..j + 1]) == After(calls[..j])
  {
    AfterStep(calls, i);
    FencedThroughout(calls, i + 1, j, id, t);
    AfterStep(calls, j);
  }

  // ---- reset exclusion ----

  predicate TouchesLeases(call: Call) {
    call.CreateAndClaim? || call.TryClaim? || call.RenewClaim? || call.Release? || call.Reset?
  }

  /** Other calls may rewrite a row but leave its owner, lease and token. */
  lemma LeasesUntouched(db: Db, call: Call)
    requires !TouchesLeases(call)
    ensures var db' := Apply(db, call);
            && db'.operations.Keys == db.operations.Keys && db.nextToken <= db'.nextToken
            && (forall id :: id in db.operations ==>
                  db'.operations[id].owner == db.operations[id].owner
                  && db'.operations[id].until == db.operations[id].until
                  && db'.operations[id].token == db.operations[id].token)
  {
    if !call.Put? && !call.Commit? {
      hide Apply;
      OperationsUntouched(db, call);
    }
  }

  lemma OperationsUntouched(db: Db, call: Call)
    requires !TouchesLeases(call) && !call.Put? && !call.Commit?
    ensures Apply(db, call).operations == db.operations && db.nextToken <= Apply(db, call).nextToken
  {
    if IsHandoffCall(call) {
      hide Apply;
      HandoffCallFrame(db, call);
    }
  }

  predicate LeasesExclusive(db: Db, clock: nat) {
    ResetActive(db.reset, clock) ==> forall id :: id in db.operations ==> !LeaseActive(db.operations[id], clock)
  }

  lemma LeasesStayExclusive(db: Db, call: Call, clock: nat)
    requires LeasesExclusive(db, clock) && clock <= call.now
    ensures LeasesExclusive(Apply(db, call), call.now)
  {
    if !TouchesLeases(call) && !call.TryClaimReset? && !call.RenewReset? && !call.ReleaseReset? {
      ResetUntouched(db, call);
      LeasesUntouched(db, call);
      hide Apply;
    }
  }

  lemma ResetUntouched(db: Db, call: Call)
    requires !call.TryClaimReset? && !call.RenewReset? && !call.ReleaseReset?
    ensures Apply(db, call).reset == db.reset
  {
    if IsHandoffCall(call) {
      hide Apply;
      HandoffCallFrame(db, call);
    }
  }

  lemma {:induction false} LeasesExclusiveAfter(calls: seq<Call>)
    requires Timed(calls)
    ensures LeasesExclusive(After(calls), Clock(calls))
  {
    if calls != [] {
      var n := |calls| - 1;
      LeasesExclusiveAfter(calls[..n]);
      LeasesStayExclusive(After(calls[..n]), calls[n], Clock(calls[..n]));
    }
  }

  predicate CommitsReset(db: Db, call: Call) {
    call.Reset? && J.Reset(db, call.owner, call.seed, call.generation, call.token, call.now).result.Ok?
  }

  /**
    Reset exclusion. With a nondecreasing clock no reachable state has a live reset lease and
    a live operation lease together, now or at any later instant, and a reset that commits
    deletes no row whose lease is still running.
   */
  lemma ResetExcludesLiveLeases(calls: seq<Call>, clock: nat, id: OperationId)
    requires Timed(calls) && Clock(calls) <= clock && id in After(calls).operations
    ensures !(ResetActive(After(calls).reset, clock) && LeaseActive(After(calls).operations[id], clock))
    ensures forall call: Call :: Clock(calls) <= call.now && CommitsReset(After(calls), call) ==>
              !LeaseActive(After(calls).operations[id], call.now)
  {
    LeasesExclusiveAfter(calls);
  }

  // ---- the wallet barrier ----

  predicate HeldBy(db: Db, id: OperationId) { db.barrier.Some? && db.barrier.value.operationId == id }

  /** `call` is a definitive commit of `id` that succeeds. */
  predicate CommitsDefinitively(db: Db, call: Call, id: OperationId) {
    call.Commit? && call.operation.operationId == id && call.operation.phase.Definitive()
    && J.Commit(db, call.owner, call.operation, call.material, call.effect, call.evidence,
                call.handoff, call.token, call.now).result.Ok?
  }

  predicate GrantsWallet(db: Db, call: Call, id: OperationId) {
    call.TryClaimWalletMutation? && call.id == id
    && J.TryClaimWalletMutation(db, call.owner, id, call.token, call.now).result == Ok(true)
  }

  lemma HeldStep(db: Db, call: Call, id: OperationId)
    requires HeldBy(db, id) && !CommitsReset(db, call) && !CommitsDefinitively(db, call, id)
    ensures HeldBy(Apply(db, call), id)
  {
    if IsHandoffCall(call) {
      hide Apply;
      HandoffCallFrame(db, call);
    }
  }

  lemma {:induction false} HeldUntilFreed(calls: seq<Call>, i: nat, j: nat, id: OperationId)
    requires i <= j <= |calls| && HeldBy(After(calls[..i]), id)
    requires forall k :: i <= k < j ==>
               !CommitsReset(After(calls[..k]), calls[k]) && !CommitsDefinitively(After(calls[..k]), calls[k], id)
    ensures HeldBy(After(calls[..j]), id)
  {
    hide *;
    if i < j {
      HeldUntilFreed(calls, i, j - 1, id);
      AfterStep(calls, j - 1);
      HeldStep(After(calls[..j - 1]), calls[j - 1], id);
    }
  }

  /**
    Sticky barrier. If the wallet is granted to `x` and later to another operation `y`, then
    in between `x` committed Succeeded or FailedDefinitive or the journal was reset; lease
    expiry alone never moves the wallet.
   */
  lemma BarrierIsSticky(calls: seq<Call>, i: nat, j: nat, x: OperationId, y: OperationId)
    requires i < j < |calls| && x != y
    requires GrantsWallet(After(calls[..i]), calls[i], x) && GrantsWallet(After(calls[..j]), calls[j], y)
    ensures exists k :: i < k < j &&
              (CommitsReset(After(calls[..k]), calls[k]) || CommitsDefinitively(After(calls[..k]), calls[k], x))
  {
    AfterStep(calls, i);
    if forall k :: i < k < j ==>
        !CommitsReset(After(calls[..k]), calls[k]) && !CommitsDefinitively(After(calls[..k]), calls[k], x) {
      HeldUntilFreed(calls, i + 1, j, x);
      assert false;
    }
  }

  predicate LeasesBounded(db: Db, clock: nat) {
    forall id :: id in db.operations ==>
      db.operations[id].token <= db.nextToken && db.operations[id].until <= LeaseEnd(clock)
  }

  lemma LeasesStayBounded(db: Db, call: Call, clock: nat)
    requires LeasesBounded(db, clock) && clock <= call.now
    ensures LeasesBounded(Apply(db, call), call.now)
  {
    assert LeaseEnd(clock) <= LeaseEnd(call.now);
    hide LeaseEnd;
    assert LeasesBounded(db, call.now);
    if !TouchesLeases(call) {
      hide Apply;
      LeasesUntouched(db, call);
    } else if call.CreateAndClaim? || call.TryClaim? {
      hide Apply, LeasesBounded;
      NewClaimIsBounded(db, call);
    }
  }

  lemma NewClaimIsBounded(db: Db, call: Call)
    requires LeasesBounded(db, call.now) && (call.CreateAndClaim? || call.TryClaim?)
    ensures LeasesBounded(Apply(db, call), call.now)
  {
    hide LeaseEnd;
  }

  /** The barrier lease covers the operation lease taken under the same token. */
  predicate BarrierCovers(db: Db) {
    db.barrier.Some? ==>
      var held := db.barrier.value;
      && held.token <= db.nextToken
      && (held.operationId in db.operations && db.operations[held.operationId].token == held.token ==>
            db.operations[held.operationId].until <= held.until)
  }

  lemma BarrierStaysCovering(db: Db, call: Call, clock: nat)
    requires LeasesBounded(db, clock) && BarrierCovers(db) && clock <= call.now
    ensures BarrierCovers(Apply(db, call))
  {
    if call.TryClaimWalletMutation? || call.RenewClaim? {
      hide Apply, BarrierCovers;
      BarrierMovesCovering(db, call, clock);
    } else if IsHandoffCall(call) {
      hide Apply;
      HandoffCallFrame(db, call);
    }
  }

  lemma BarrierMovesCovering(db: Db, call: Call, clock: nat)
    requires LeasesBounded(db, clock) && BarrierCovers(db) && clock <= call.now
    requires call.TryClaimWalletMutation? || call.RenewClaim?
    ensures BarrierCovers(Apply(db, call))
  {
  }

  lemma {:induction false} BarrierCoversAfter(calls: seq<Call>)
    requires Timed(calls)
    ensures LeasesBounded(After(calls), Clock(calls)) && BarrierCovers(After(calls))
  {
    if calls != [] {
      var n := |calls| - 1;
      BarrierCoversAfter(calls[..n]);
      LeasesStayBounded(After(calls[..n]), calls[n], Clock(calls[..n]));
      BarrierStaysCovering(After(calls[..n]), calls[n], Clock(calls[..n]));
    }
  }

  /** With a nondecreasing clock a definitive commit by the barrier's holder always frees it. */
  lemma HolderCommitFreesBarrier(calls: seq<Call>, call: Call, id: OperationId)
    requires Timed(calls) && Clock(calls) <= call.now
    requires CommitsDefinitively(After(calls), call, id)
    requires After(calls).barrier.Some? && After(calls).barrier.value.operationId == id
             && After(calls).barrier.value.owner == call.owner && After(calls).barrier.value.token == call.token
    ensures Apply(After(calls), call).barrier.None?
  {
    BarrierCoversAfter(calls);
  }

  // ---- evidence ----

  predicate ResetBetween(calls: seq<Call>, i: nat, j: nat)
    requires i <= j <= |calls|
  {
    exists k :: i <= k < j && CommitsReset(After(calls[..k]), calls[k])
  }

  lemma EvidenceStep(db: Db, call: Call)
    requires !CommitsReset(db, call)
    ensures db.evidence <= Apply(db, call).evidence
  {
    if IsHandoffCall(call) {
      hide Apply;
      HandoffCallFrame(db, call);
    }
  }

  lemma {:induction false} EvidenceGrows(calls: seq<Call>, i: nat, j: nat)
    requires i <= j <= |calls| && !ResetBetween(calls, i, j)
    ensures After(calls[..i]).evidence <= After(calls[..j]).evidence
  {
    hide Apply, After, CommitsReset;
    if i < j {
      EvidenceGrows(calls, i, j - 1);
      AfterStep(calls, j - 1);
      EvidenceStep(After(calls[..j - 1]), calls[j - 1]);
    }
  }

  predicate RecordsEffect(db: Db, call: Call) {
    call.Commit? && J.Commit(db, call.owner, call.operation, call.material, call.effect, call.evidence,
                             call.handoff, call.token, call.now).result.Ok?
  }

  /**
    An effect id means one thing between resets: two commits under the same effect both
    succeed only if they carry the same evidence, so the same phase, amount and code.
   */
  lemma EffectsNameOneEvidence(calls: seq<Call>, i: nat, j: nat)
    requires i < j < |calls| && !ResetBetween(calls, i, j)
    requires RecordsEffect(After(calls[..i]), calls[i]) && RecordsEffect(After(calls[..j]), calls[j])
    requires calls[i].effect == calls[j].effect
    ensures calls[i].evidence == calls[j].evidence
  {
    hide Apply, After, ResetBetween;
    AfterStep(calls, i);
    var k := RecordedAt(After(calls[..i]), calls[i]);
    NoResetLater(calls, i, j);
    EvidenceGrows(calls, i + 1, j);
    assert After(calls[..j]).evidence[k] == EvidenceRow(calls[i].effect, calls[i].evidence);
    RecordedAgrees(After(calls[..j]), calls[j], k);
  }

  lemma NoResetLater(calls: seq<Call>, i: nat, j: nat)
    requires i < j <= |calls| && !ResetBetween(calls, i, j)
    ensures !ResetBetween(calls, i + 1, j)
  {
    hide After, CommitsReset;
  }

  /** After a successful commit its effect is in the log with its evidence. */
  lemma RecordedAt(db: Db, call: Call) returns (k: nat)
    requires RecordsEffect(db, call)
    ensures k < |Apply(db, call).evidence| && Apply(db, call).evidence[k] == EvidenceRow(call.effect, call.evidence)
  {
    if HasEffect(db.evidence, call.effect) {
      k :| 0 <= k < |db.evidence| && db.evidence[k].effect == call.effect;
    } else {
      k := |db.evidence|;
    }
  }

  lemma RecordedAgrees(db: Db, call: Call, k: nat)
    requires RecordsEffect(db, call) && k < |db.evidence| && db.evidence[k].effect == call.effect
    ensures db.evidence[k].value == call.evidence
  {
  }

  // ---- send outbox ----

  /** A later version of an outbox row: the payload is fixed and an acknowledged row is frozen. */
  predicate Follows(row: OutboxRow, next: OutboxRow) {
    && next.recipient == row.recipient && next.token == row.token && next.tokenHash == row.tokenHash
    && (row.acknowledged ==> next == row)
  }

  predicate TouchesOutbox(call: Call) {
    call.Commit? || call.Reset? || IsHandoffCall(call)
  }

  lemma OutboxUntouched(db: Db, call: Call)
    requires !TouchesOutbox(call)
    ensures Apply(db, call).outbox == db.outbox && db.nextToken <= Apply(db, call).nextToken
  {
  }

  lemma OutboxStep(db: Db, call: Call, id: OperationId)
    requires id in db.outbox && !CommitsReset(db, call)
    ensures id in Apply(db, call).outbox && Follows(db.outbox[id], Apply(db, call).outbox[id])
  {
    if !TouchesOutbox(call) {
      hide Apply;
      OutboxUntouched(db, call);
    } else if call.ClaimHandoff? {
      hide Apply;
      ClaimFollows(db, call, id);
    } else if call.Commit? {
      hide Apply;
      CommitFollows(db, call, id);
    }
  }

  lemma CommitFollows(db: Db, call: Call, id: OperationId)
    requires id in db.outbox && call.Commit?
    ensures id in Apply(db, call).outbox && Follows(db.outbox[id], Apply(db, call).outbox[id])
  {
    hide EvidenceAgrees, J.Record, HoldsBarrier;
  }

  lemma ClaimFollows(db: Db, call: Call, id: OperationId)
    requires id in db.outbox && call.ClaimHandoff?
    ensures id in Apply(db, call).outbox && Follows(db.outbox[id], Apply(db, call).outbox[id])
  {
    ClaimHandoffEffect(db, call.consumer, call.now);
    hide J.ClaimHandoff;
  }

  /** Until a reset an outbox row stays, keeps its recipient and token, and freezes once acknowledged. */
  lemma {:induction false} OutboxRowsPersist(calls: seq<Call>, i: nat, j: nat, id: OperationId)
    requires i <= j <= |calls| && !ResetBetween(calls, i, j) && id in After(calls[..i]).outbox
    ensures id in After(calls[..j]).outbox
    ensures Follows(After(calls[..i]).outbox[id], After(calls[..j]).outbox[id])
  {
    hide Apply, After, CommitsReset;
    if i < j {
      OutboxRowsPersist(calls, i, j - 1, id);
      AfterStep(calls, j - 1);
      OutboxStep(After(calls[..j - 1]), calls[j - 1], id);
    }
  }

  predicate Acknowledges(db: Db, call: Call, id: OperationId) {
    call.AcknowledgeHandoff? && call.id == id
    && J.AcknowledgeHandoff(db, id, call.tokenHash, call.consumer, call.token, call.now).result.Ok?
  }

  lemma AcknowledgedOnce(calls: seq<Call>, i: nat, j: nat, id: OperationId)
    requires i < j < |calls|
    requires Acknowledges(After(calls[..i]), calls[i], id) && Acknowledges(After(calls[..j]), calls[j], id)
    ensures ResetBetween(calls, i, j)
  {
    AfterStep(calls, i);
    if !ResetBetween(calls, i, j) {
      OutboxRowsPersist(calls, i + 1, j, id);
      assert false;
    }
  }

  predicate IssuesHandoff(db: Db, call: Call, id: OperationId, t: nat) {
    call.ClaimHandoff? &&
    var r := J.ClaimHandoff(db, call.consumer, call.now).result;
    r.Ok? && r.value.Some? && r.value.value.operationId == id && r.value.value.claimToken == t
  }

  predicate HandoffFenced(db: Db, id: OperationId, t: nat) {
    t <= db.nextToken && (id in db.outbox && db.outbox[id].claimedBy.Some? ==> db.outbox[id].claimToken >= t)
  }

  lemma HandoffFencedStep(db: Db, call: Call, id: OperationId, t: nat)
    requires HandoffFenced(db, id, t)
    ensures HandoffFenced(Apply(db, call), id, t)
  {
    if !TouchesOutbox(call) {
      hide Apply;
      OutboxUntouched(db, call);
    } else if call.ClaimHandoff? {
      ClaimHandoffEffect(db, call.consumer, call.now);
      hide J.ClaimHandoff;
    }
  }

  lemma {:induction false} HandoffFencedThroughout(calls: seq<Call>, i: nat, j: nat, id: OperationId, t: nat)
    requires i <= j <= |calls| && HandoffFenced(After(calls[..i]), id, t)
    ensures HandoffFenced(After(calls[..j]), id, t)
  {
    hide *;
    if i < j {
      HandoffFencedThroughout(calls, i, j - 1, id, t);
      AfterStep(calls, j - 1);
      HandoffFencedStep(After(calls[..j - 1]), calls[j - 1], id, t);
    }
  }

  lemma IssuedHandoffFences(db: Db, call: Call, id: OperationId, t: nat)
    requires IssuesHandoff(db, call, id, t)
    ensures HandoffFenced(Apply(db, call), id, t)
  {
  }

  lemma FencedHandoffRefused(db: Db, call: Call, id: OperationId, t: nat)
    requires HandoffFenced(db, id, t) && (call.AcknowledgeHandoff? || call.ReleaseHandoff?)
    requires call.id == id && call.token < t
    ensures Apply(db, call) == db
  {
  }

  /** Only the newest claimant of a hand-off can acknowledge or release it, across resets too. */
  lemma StaleHandoffsChangeNothing(calls: seq<Call>, i: nat, j: nat, id: OperationId, t: nat)
    requires i < j < |calls| && IssuesHandoff(After(calls[..i]), calls[i], id, t)
    requires (calls[j].AcknowledgeHandoff? || calls[j].ReleaseHandoff?) && calls[j].id == id && calls[j].token < t
    ensures After(calls[..j + 1]) == After(calls[..j])
  {
    AfterStep(calls, i);
    IssuedHandoffFences(After(calls[..i]), calls[i], id, t);
    HandoffFencedThroughout(calls, i + 1, j, id, t);
    AfterStep(calls, j);
    FencedHandoffRefused(After(calls[..j]), calls[j], id, t);
  }
}
