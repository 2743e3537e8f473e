/**
  When each store call succeeds and exactly what it then leaves, said of rows, leases and clock
  readings. A call that does not succeed leaves every table as it was, except that a refused
  claim may use up a token.
 */
module StoreReplies {
  import opened Prelude
  import opened J = Journal

  /** A lease lasts two minutes, unless the clock is at the end of its range. */
  function TwoMinutesFrom(now: nat): nat {
    if now + 120 <= 0xFFFF_FFFF_FFFF_FFFF then now + 120 else 0xFFFF_FFFF_FFFF_FFFF
  }

  predicate ResetRunning(db: Db, now: nat) { db.reset.Some? && now < db.reset.value.until }

  predicate TokensLeft(db: Db) { db.nextToken < 0xFFFF_FFFF_FFFF_FFFF }

  /** Somebody holds the row now. */
  predicate Held(db: Db, id: OperationId, now: nat) {
    id in db.operations && db.operations[id].owner.Some? && now < db.operations[id].until
  }

  /** `owner` holds the row now, under `token`. */
  predicate HeldUnder(db: Db, id: OperationId, owner: Owner, token: nat, now: nat) {
    Held(db, id, now) && db.operations[id].owner == Some(owner) && db.operations[id].token == token
  }

  function ClaimedBy(row: Row, owner: Owner, token: nat, now: nat): Row {
    row.(owner := Some(owner), until := TwoMinutesFrom(now), token := token)
  }

  lemma TryClaimReply(db: Db, owner: Owner, id: OperationId, now: nat)
    ensures var r := TryClaim(db, owner, id, now);
            var granted := !ResetRunning(db, now) && TokensLeft(db) && id in db.operations && !Held(db, id, now);
            && (granted <==> r.result.Ok? && r.result.value.Some?)
            && (granted ==>
                  && r.result.value.value == db.nextToken + 1
                  && r.db == db.(nextToken := db.nextToken + 1,
                                 operations := db.operations[id := ClaimedBy(db.operations[id], owner, db.nextToken + 1, now)]))
            && (!granted ==> r.db == db.(nextToken := r.db.nextToken) && db.nextToken <= r.db.nextToken <= db.nextToken + 1)
            && (r.result.Err? <==> !ResetRunning(db, now) && !TokensLeft(db))
  {
  }

  /** The row that a creation finds: the stored one, or the new one. */
  function Found(db: Db, input: Input, operation: Operation): Row {
    var id := operation.operationId;
    if id in db.operations then db.operations[id]
    else Row(operation.intentHash, input, operation, None, None, 0, 0)
  }

  lemma CreateAndClaimReply(db: Db, owner: Owner, input: Input, operation: Operation, now: nat)
    ensures var r := CreateAndClaim(db, owner, input, operation, now);
            var (id, row, t) := (operation.operationId, Found(db, input, operation), db.nextToken + 1);
            var same := row.operation.intentHash == operation.intentHash;
            var granted := !ResetRunning(db, now) && same && TokensLeft(db) && !Held(db, id, now);
            && (granted <==> r.result.Ok? && r.result.value.Some?)
            && (granted ==>
                  && r.result.value.value == (row.operation, t)
                  && r.db == db.(nextToken := t, operations := db.operations[id := ClaimedBy(row, owner, t, now)]))
            && (r.result.Err? <==> !ResetRunning(db, now) && (!same || !TokensLeft(db)))
            && (r.result.Err? || ResetRunning(db, now) ==> r.db == db)
            && (r.result == Ok(None) && !ResetRunning(db, now) ==> r.db == db.(nextToken := t))
  {
    if operation.operationId in db.operations {
      assert db.operations[operation.operationId := db.operations[operation.operationId]] == db.operations;
    }
  }

  /** Writing needs the live claim and the same intent; stored material is replaced only by new material. */
  lemma PutReply(db: Db, owner: Owner, operation: Operation, material: Option<string>, token: nat, now: nat)
    ensures var r := Put(db, owner, operation, material, token, now);
            var id := operation.operationId;
            && (r.result.Ok? <==> HeldUnder(db, id, owner, token, now) && db.operations[id].intentHash == operation.intentHash)
            && (r.result.Err? ==> r.db == db)
            && (r.result.Ok? ==>
                  && id in r.db.operations && r.db == db.(operations := db.operations[id := r.db.operations[id]])
                  && r.db.operations[id] == db.operations[id].(operation := operation, material := r.db.operations[id].material)
                  && r.db.operations[id].material == if material.Some? then material else db.operations[id].material)
  {
  }

  lemma ReleaseReply(db: Db, owner: Owner, id: OperationId, token: nat, now: nat)
    ensures var r := Release(db, owner, id, token, now);
            && (r.result.Ok? <==> HeldUnder(db, id, owner, token, now))
            && (r.result.Err? ==> r.db == db)
            && (r.result.Ok? ==>
                  && !Held(r.db, id, 0)
                  && id in r.db.operations && r.db == db.(operations := db.operations[id := r.db.operations[id]])
                  && db.operations[id] == r.db.operations[id].(owner := Some(owner), until := db.operations[id].until))
  {
  }

  predicate WalletFree(db: Db) { db.barrier.None? }

  predicate WalletIsFor(db: Db, id: OperationId) { db.barrier.Some? && db.barrier.value.operationId == id }

  /**
    The wallet is granted when it is free, again to the operation and owner that have it, and to
    another owner of the same operation once its lease has ended; never to another operation.
   */
  lemma TryClaimWalletMutationReply(db: Db, owner: Owner, id: OperationId, token: nat, now: nat)
    ensures var r := TryClaimWalletMutation(db, owner, id, token, now);
            && (r.result.Err? <==> !HeldUnder(db, id, owner, token, now))
            && (r.result == Ok(true) <==>
                  && HeldUnder(db, id, owner, token, now)
                  && (WalletFree(db)
                      || (WalletIsFor(db, id) && (db.barrier.value.owner == owner || db.barrier.value.until <= now))))
            && r.db == db.(barrier := r.db.barrier)
            && (r.result == Ok(true) ==> r.db.barrier == Some(Barrier(id, owner, TwoMinutesFrom(now), token)))
            && (r.result != Ok(true) ==> r.db.barrier == db.barrier)
  {
  }

  /** A renewal moves the operation's lease and, if it has the wallet, the wallet's with it. */
  lemma RenewClaimReply(db: Db, owner: Owner, id: OperationId, token: nat, now: nat)
    ensures var r := RenewClaim(db, owner, id, token, now);
            && (r.result.Ok? <==>
                  && HeldUnder(db, id, owner, token, now)
                  && (WalletIsFor(db, id) ==>
                        db.barrier.value.owner == owner && db.barrier.value.token == token && now < db.barrier.value.until))
            && (r.result.Err? ==> r.db == db)
            && (r.result.Ok? ==>
                  && r.db == db.(operations := db.operations[id := ClaimedBy(db.operations[id], owner, token, now)],
                                 barrier := r.db.barrier)
                  && (WalletIsFor(db, id) ==> r.db.barrier == Some(db.barrier.value.(until := TwoMinutesFrom(now))))
                  && (!WalletIsFor(db, id) ==> r.db.barrier == db.barrier))
  {
  }

  predicate ResetHeldUnder(db: Db, owner: Owner, token: nat, now: nat) {
    ResetRunning(db, now) && db.reset.value.owner == owner && db.reset.value.token == token
  }

  /** A reset is granted exactly when no reset and no operation is running. */
  lemma TryClaimResetReply(db: Db, owner: Owner, now: nat)
    ensures var r := TryClaimReset(db, owner, now);
            var busy := ResetRunning(db, now) || exists id :: id in db.operations && Held(db, id, now);
            && (r.result.Ok? && r.result.value.Some? <==> !busy && TokensLeft(db))
            && (r.result.Err? <==> !busy && !TokensLeft(db))
            && (busy || !TokensLeft(db) ==> r.db == db)
            && (!busy && TokensLeft(db) ==>
                  && r.result.value.value == db.nextToken + 1
                  && r.db == db.(nextToken := db.nextToken + 1,
                                 reset := Some(ResetLease(owner, TwoMinutesFrom(now), db.nextToken + 1))))
  {
    assert forall id :: id in db.operations ==> (LeaseActive(db.operations[id], now) <==> Held(db, id, now));
  }

  lemma ResetLeaseReplies(db: Db, owner: Owner, token: nat, now: nat)
    ensures var r := RenewReset(db, owner, token, now);
            && (r.result.Ok? <==> ResetHeldUnder(db, owner, token, now))
            && r.db == if r.result.Ok? then db.(reset := Some(ResetLease(owner, TwoMinutesFrom(now), token))) else db
    ensures var r := ReleaseReset(db, owner, token, now);
            && (r.result.Ok? <==> ResetHeldUnder(db, owner, token, now))
            && r.db == if r.result.Ok? then db.(reset := None) else db
    ensures var r := NextGeneration(db, owner, token, now);
            && (r.Ok? <==> ResetHeldUnder(db, owner, token, now) && db.generation < 0xFFFF_FFFF_FFFF_FFFF)
            && (r.Ok? ==> r.value == db.generation + 1)
  {
  }

  lemma ResetReply(db: Db, owner: Owner, seed: string, generation: nat, token: nat, now: nat)
    ensures var r := Reset(db, owner, seed, generation, token, now);
            && (r.result.Ok? <==> 1 <= |seed| <= 256 && ResetHeldUnder(db, owner, token, now))
            && (r.result.Err? ==> r.db == db)
            && (r.result.Ok? ==>
                  && r.db.operations == map[] && r.db.evidence == [] && r.db.outbox == map[] && WalletFree(r.db)
                  && r.db.generation == generation && r.db.reset == db.reset && r.db.nextToken == db.nextToken
                  && r.db.seedHash == Some(SeedHash(seed)))
  {
  }

  lemma PrefixCancels(prefix: string, a: string, b: string)
    requires prefix + a == prefix + b
    ensures a == b
  {
    assert (prefix + a)[|prefix|..] == a && (prefix + b)[|prefix|..] == b;
  }

  /** Seeds and tokens are told apart by their hashes. */
  lemma HashesTellApart(a: string, b: string)
    ensures SeedHash(a) == SeedHash(b) ==> a == b
    ensures SendTokenHash(a) == SendTokenHash(b) ==> a == b
  {
    if SeedHash(a) == SeedHash(b) { PrefixCancels("cashu-fault-lab/cdk-lifecycle-seed-hash-v1|", a, b); }
    if SendTokenHash(a) == SendTokenHash(b) { PrefixCancels("cashu-fault-lab/cdk-lifecycle-send-token/v1|", a, b); }
  }

  // ---- evidence, hand-off and the terminal commit ----

  /** No other evidence was recorded under the effect, and no other hand-off under the id. */
  predicate NothingConflicts(db: Db, id: OperationId, effect: EffectId, evidence: Evidence, handoff: Option<Handoff>) {
    && (forall i :: 0 <= i < |db.evidence| && db.evidence[i].effect == effect ==> db.evidence[i].value == evidence)
    && (handoff.Some? && id in db.outbox ==>
          db.outbox[id].recipient == handoff.value.recipient && db.outbox[id].tokenHash == SendTokenHash(handoff.value.token))
  }

  /** An outbox row as a commit creates it: the hand-off itself, with the hash of its token, unclaimed. */
  predicate FreshHandoff(row: OutboxRow, handoff: Handoff) {
    && row.recipient == handoff.recipient && row.token == handoff.token && row.tokenHash == SendTokenHash(handoff.token)
    && row.claimedBy.None? && row.until == 0 && row.claimToken == 0 && !row.acknowledged
  }

  /**
    A commit succeeds exactly when the write does and nothing conflicts. It then stores the
    operation, records the evidence unless it is recorded already, and files a first hand-off
    as given; all or nothing.
   */
  lemma CommitReply(
    db: Db, owner: Owner, operation: Operation, material: Option<string>, effect: EffectId, evidence: Evidence,
    handoff: Option<Handoff>, token: nat, now: nat)
    ensures var r := Commit(db, owner, operation, material, effect, evidence, handoff, token, now);
            var put := Put(db, owner, operation, material, token, now);
            var id := operation.operationId;
            && (r.result.Ok? <==> put.result.Ok? && NothingConflicts(db, id, effect, evidence, handoff))
            && (r.result.Err? ==> r.db == db)
            && (r.result.Ok? ==>
                  && r.db == put.db.(evidence := r.db.evidence, outbox := r.db.outbox, barrier := r.db.barrier)
                  && r.db.evidence ==
                     (if exists i :: 0 <= i < |db.evidence| && db.evidence[i].effect == effect then db.evidence
                      else db.evidence + [EvidenceRow(effect, evidence)])
                  && r.db.outbox.Keys == db.outbox.Keys + (if handoff.Some? then {id} else {})
                  && (forall other :: other in db.outbox ==> r.db.outbox[other] == db.outbox[other])
                  && (handoff.Some? && id !in db.outbox ==> FreshHandoff(r.db.outbox[id], handoff.value)))
  {
    assert HasEffect(db.evidence, effect) <==> exists i :: 0 <= i < |db.evidence| && db.evidence[i].effect == effect;
  }

  /** Committing another recipient or token for a filed hand-off is refused. */
  lemma HandoffIsFinal(
    db: Db, owner: Owner, operation: Operation, material: Option<string>, effect: EffectId, evidence: Evidence,
    handoff: Handoff, filed: Handoff, token: nat, now: nat)
    requires operation.operationId in db.outbox && db.outbox[operation.operationId].recipient == filed.recipient
    requires db.outbox[operation.operationId].tokenHash == SendTokenHash(filed.token)
    requires Commit(db, owner, operation, material, effect, evidence, Some(handoff), token, now).result.Ok?
    ensures handoff == filed
  {
    HashesTellApart(handoff.token, filed.token);
    CommitReply(db, owner, operation, material, effect, evidence, Some(handoff), token, now);
  }

  /** The wallet is given back exactly by a definitive commit of its live holder. */
  lemma CommitBarrier(
    db: Db, owner: Owner, operation: Operation, material: Option<string>, effect: EffectId, evidence: Evidence,
    handoff: Option<Handoff>, token: nat, now: nat)
    requires Commit(db, owner, operation, material, effect, evidence, handoff, token, now).result.Ok?
    ensures var after := Commit(db, owner, operation, material, effect, evidence, handoff, token, now).db.barrier;
            var gives := WalletIsFor(db, operation.operationId) && db.barrier.value.owner == owner
                         && db.barrier.value.token == token && now < db.barrier.value.until
                         && (operation.phase == Succeeded || operation.phase == FailedDefinitive);
            after == if gives then None else db.barrier
  {
  }

  // ---- the outbox ----

  /** What this consumer may claim: a row that nobody has acknowledged and nobody else holds. */
  predicate Open(db: Db, id: OperationId, consumer: string, now: nat) {
    && id in db.outbox && !db.outbox[id].acknowledged
    && !(db.outbox[id].claimedBy.Some? && db.outbox[id].claimedBy.value != consumer && now < db.outbox[id].until)
  }

  /** The hand-off of the smallest open id is returned as filed, under a new token and a two-minute lease. */
  lemma ClaimHandoffReply(db: Db, consumer: string, now: nat)
    requires 1 <= |consumer| <= 128 && TokensLeft(db)
    requires forall id :: id in db.outbox ==> db.outbox[id].tokenHash == SendTokenHash(db.outbox[id].token)
    ensures var r := ClaimHandoff(db, consumer, now);
            && r.result.Ok?
            && (r.result.value.None? <==> forall id :: id in db.outbox ==> !Open(db, id, consumer, now))
            && (r.result.value.None? ==> r.db == db)
            && (r.result.value.Some? ==>
                  var c := r.result.value.value;
                  && Open(db, c.operationId, consumer, now)
                  && (forall id :: id in db.outbox && Open(db, id, consumer, now) ==> c.operationId <= id)
                  && var row := db.outbox[c.operationId];
                  && c == ClaimedHandoff(c.operationId, row.recipient, row.token, row.tokenHash, db.nextToken + 1)
                  && r.db == db.(nextToken := db.nextToken + 1, outbox := db.outbox[c.operationId :=
                               row.(claimedBy := Some(consumer), until := TwoMinutesFrom(now), claimToken := db.nextToken + 1)]))
  {
    hide SendTokenHash;
    assert forall id :: id in db.outbox ==> (HandoffClaimable(db.outbox[id], consumer, now) <==> Open(db, id, consumer, now));
  }

  /** An unusable consumer name, or no token for a row that is open, is an error that changes nothing. */
  lemma ClaimHandoffRefusals(db: Db, consumer: string, now: nat)
    ensures var r := ClaimHandoff(db, consumer, now);
            var open := exists id :: id in db.outbox && Open(db, id, consumer, now);
            && (!(1 <= |consumer| <= 128) || (open && !TokensLeft(db)) ==> r.result.Err? && r.db == db)
            && (1 <= |consumer| <= 128 && !open ==> r.result == Ok(None) && r.db == db)
  {
    hide SendTokenHash;
    assert forall id :: id in db.outbox ==> (HandoffClaimable(db.outbox[id], consumer, now) <==> Open(db, id, consumer, now));
  }

  predicate HandoffHeldUnder(db: Db, id: OperationId, consumer: string, token: nat, now: nat) {
    && id in db.outbox && !db.outbox[id].acknowledged && db.outbox[id].claimedBy == Some(consumer)
    && db.outbox[id].claimToken == token && now < db.outbox[id].until
  }

  lemma HandoffReplies(db: Db, id: OperationId, tokenHash: string, consumer: string, token: nat, now: nat)
    ensures var r := AcknowledgeHandoff(db, id, tokenHash, consumer, token, now);
            && (r.result.Ok? <==> HandoffHeldUnder(db, id, consumer, token, now) && db.outbox[id].tokenHash == tokenHash)
            && r.db == if r.result.Ok? then db.(outbox := db.outbox[id := db.outbox[id].(acknowledged := true)]) else db
    ensures var r := ReleaseHandoff(db, id, consumer, token, now);
            && (r.result.Ok? <==> HandoffHeldUnder(db, id, consumer, token, now))
            && r.db == if r.result.Ok? then db.(outbox := db.outbox[id := db.outbox[id].(claimedBy := None, until := 0)]) else db
  {
  }
}
