/**
  The journal store as the source writes it: tables updated in place, statement by
  statement, with the transaction rolled back on every error return. Each method is proved
  to compute the table function of the same name in `Journal`.
 */
module LifecycleStore {
  import opened Prelude
  import opened J = Journal

  class Store {
    var operations: map<OperationId, Row>
    var evidence: seq<EvidenceRow>
    var barrier: Option<Barrier>
    var outbox: map<OperationId, OutboxRow>
    var nextToken: nat
    var reset: Option<ResetLease>
    var generation: nat
    var seedHash: Option<string>

    ghost function Tables(): Db
      reads this
    {
      Db(operations, evidence, barrier, outbox, nextToken, reset, generation, seedHash)
    }

    constructor ()
      ensures Tables() == EmptyDb
    {
      operations, evidence, barrier, outbox := map[], [], None, map[];
      nextToken, reset, generation, seedHash := 0, None, 0, None;
    }

    method NextFencingToken() returns (r: Result<nat>)
      modifies this`nextToken
      ensures old(nextToken) < U64_MAX ==> r == Ok(old(nextToken) + 1) && nextToken == old(nextToken) + 1
      ensures old(nextToken) >= U64_MAX ==> r == Err("lifecycle fencing token exhausted") && nextToken == old(nextToken)
    {
      if nextToken >= U64_MAX { return Err("lifecycle fencing token exhausted"); }
      nextToken := nextToken + 1;
      r := Ok(nextToken);
    }

    method CreateAndClaim(owner: Owner, input: Input, operation: Operation, now: nat)
      returns (r: Result<Option<(Operation, nat)>>)
      modifies this
      ensures Reply(Tables(), r) == J.CreateAndClaim(old(Tables()), owner, input, operation, now)
    {
      if ResetActive(reset, now) { return Ok(None); }
      var id := operation.operationId;
      var before := operations;
      var inserted := id !in operations;
      if inserted { operations := operations[id := NewRow(input, operation)]; }
      var existing := operations[id].operation;
      if !inserted && existing.intentHash != operation.intentHash {
        return Err("lifecycle operation identity conflicts");
      }
      var minted := NextFencingToken();
      if minted.Err? {
        operations := before;
        return Err(minted.error);
      }
      var row := operations[id];
      if Claimable(row, now) {
        operations := operations[id :=
          row.(owner := Some(owner), until := LeaseEnd(now), token := minted.value)];
        r := Ok(Some((existing, minted.value)));
      } else {
        r := Ok(None);
      }
    }

    method TryClaim(owner: Owner, id: OperationId, now: nat) returns (r: Result<Option<nat>>)
      modifies this
      ensures Reply(Tables(), r) == J.TryClaim(old(Tables()), owner, id, now)
    {
      if ResetActive(reset, now) { return Ok(None); }
      var minted := NextFencingToken();
      if minted.Err? { return Err(minted.error); }
      if id in operations && Claimable(operations[id], now) {
        operations := operations[id :=
          operations[id].(owner := Some(owner), until := LeaseEnd(now), token := minted.value)];
        r := Ok(Some(minted.value));
      } else {
        r := Ok(None);
      }
    }

    method Put(owner: Owner, operation: Operation, material: Option<string>, token: nat, now: nat)
      returns (r: Result<()>)
      modifies this
      ensures Reply(Tables(), r) == J.Put(old(Tables()), owner, operation, material, token, now)
    {
      var id := operation.operationId;
      if !HoldsClaim(operations, id, owner, token, now) || operations[id].intentHash != operation.intentHash {
        return Err("lifecycle operation claim was lost");
      }
      var row := operations[id].(operation := operation);
      if material.Some? { row := row.(material := material); }
      operations := operations[id := row];
      r := Ok(());
    }

    method RenewClaim(owner: Owner, id: OperationId, token: nat, now: nat) returns (r: Result<()>)
      modifies this
      ensures Reply(Tables(), r) == J.RenewClaim(old(Tables()), owner, id, token, now)
    {
      var before := operations;
      if !HoldsClaim(operations, id, owner, token, now) { return Err("lifecycle operation claim was lost"); }
      operations := operations[id := operations[id].(until := LeaseEnd(now))];
      if barrier.Some? && barrier.value.operationId == id {
        if !HoldsBarrier(barrier, id, owner, token, now) {
          operations := before;
          return Err("lifecycle wallet barrier was lost");
        }
        barrier := Some(barrier.value.(until := LeaseEnd(now)));
      }
      r := Ok(());
    }

    method Release(owner: Owner, id: OperationId, token: nat, now: nat) returns (r: Result<()>)
      modifies this
      ensures Reply(Tables(), r) == J.Release(old(Tables()), owner, id, token, now)
    {
      if !HoldsClaim(operations, id, owner, token, now) { return Err("lifecycle operation claim was lost"); }
      operations := operations[id := operations[id].(owner := None, until := 0)];
      r := Ok(());
    }

    method TryClaimWalletMutation(owner: Owner, id: OperationId, token: nat, now: nat) returns (r: Result<bool>)
      modifies this
      ensures Reply(Tables(), r) == J.TryClaimWalletMutation(old(Tables()), owner, id, token, now)
    {
      if !HoldsClaim(operations, id, owner, token, now) { return Err("lifecycle operation claim was lost"); }
      match barrier {
        case None =>
          barrier := Some(Barrier(id, owner, LeaseEnd(now), token));
          r := Ok(true);
        case Some(held) =>
          if held.operationId == id && (held.owner == owner || held.until <= now) {
            barrier := Some(held.(owner := owner, until := LeaseEnd(now), token := token));
            r := Ok(true);
          } else {
            r := Ok(false);
          }
      }
    }

    method Commit(
      owner: Owner, operation: Operation, material: Option<string>, effect: EffectId, value: Evidence,
      handoff: Option<Handoff>, token: nat, now: nat)
      returns (r: Result<()>)
      modifies this
      ensures Reply(Tables(), r)
           == J.Commit(old(Tables()), owner, operation, material, effect, value, handoff, token, now)
    {
      var id := operation.operationId;
      var operationsBefore, evidenceBefore := operations, evidence;
      r := Put(owner, operation, material, token, now);
      if r.Err? { return; }
      if HasEffect(evidence, effect) {
        if !EvidenceAgrees(evidence, effect, value) {
          operations := operationsBefore;
          return Err("lifecycle evidence identity conflicts");
        }
      } else {
        evidence := evidence + [EvidenceRow(effect, value)];
      }
      if handoff.Some? {
        if id !in outbox {
          var tokenHash := SendTokenHash(handoff.value.token);
          outbox := outbox[id :=
            OutboxRow(handoff.value.recipient, handoff.value.token, tokenHash, None, 0, 0, false)];
        } else if !HandoffAgrees(outbox, id, handoff.value) {
          operations, evidence := operationsBefore, evidenceBefore;
          return Err("lifecycle send handoff identity conflicts");
        }
      }
      if operation.phase.Definitive() && HoldsBarrier(barrier, id, owner, token, now) { barrier := None; }
    }

    method TryClaimReset(owner: Owner, now: nat) returns (r: Result<Option<nat>>)
      modifies this
      ensures Reply(Tables(), r) == J.TryClaimReset(old(Tables()), owner, now)
    {
      if ResetActive(reset, now) { return Ok(None); }
      if exists id :: id in operations && LeaseActive(operations[id], now) { return Ok(None); }
      var minted := NextFencingToken();
      if minted.Err? { return Err(minted.error); }
      reset := Some(ResetLease(owner, LeaseEnd(now), minted.value));
      r := Ok(Some(minted.value));
    }

    method RenewReset(owner: Owner, token: nat, now: nat) returns (r: Result<()>)
      modifies this
      ensures Reply(Tables(), r) == J.RenewReset(old(Tables()), owner, token, now)
    {
      if !HoldsReset(reset, owner, token, now) { return Err("lifecycle reset claim was lost"); }
      reset := Some(reset.value.(until := LeaseEnd(now)));
      r := Ok(());
    }

    method ReleaseReset(owner: Owner, token: nat, now: nat) returns (r: Result<()>)
      modifies this
      ensures Reply(Tables(), r) == J.ReleaseReset(old(Tables()), owner, token, now)
    {
      if !HoldsReset(reset, owner, token, now) { return Err("lifecycle reset claim was lost"); }
      reset := None;
      r := Ok(());
    }

    method NextGeneration(owner: Owner, token: nat, now: nat) returns (r: Result<nat>)
      ensures r == J.NextGeneration(Tables(), owner, token, now)
    {
      if !HoldsReset(reset, owner, token, now) { return Err("lifecycle reset claim was lost"); }
      if generation >= U64_MAX { return Err("lifecycle wallet generation exhausted"); }
      r := Ok(generation + 1);
    }

    method Reset(owner: Owner, seed: string, next: nat, token: nat, now: nat) returns (r: Result<()>)
      modifies this
      ensures Reply(Tables(), r) == J.Reset(old(Tables()), owner, seed, next, token, now)
    {
      if seed == "" || |seed| > 256 { return Err("lifecycle seed is invalid"); }
      if !HoldsReset(reset, owner, token, now) { return Err("lifecycle reset claim was lost"); }
      barrier := None;
      outbox := map[];
      evidence := [];
      operations := map[];
      seedHash := Some(SeedHash(seed));
      generation := next;
      r := Ok(());
    }

    method ClaimHandoff(consumer: string, now: nat) returns (r: Result<Option<ClaimedHandoff>>)
      modifies this
      ensures Reply(Tables(), r) == J.ClaimHandoff(old(Tables()), consumer, now)
    {
      if consumer == "" || |consumer| > 128 { return Err("lifecycle send handoff consumer is invalid"); }
      var pick := PickHandoff(outbox, consumer, now);
      if pick.None? { return Ok(None); }
      var row := outbox[pick.value];
      var minted := NextFencingToken();
      if minted.Err? { return Err(minted.error); }
      outbox := outbox[pick.value :=
        row.(claimedBy := Some(consumer), until := LeaseEnd(now), claimToken := minted.value)];
      if SendTokenHash(row.token) != row.tokenHash { return Err("lifecycle send handoff hash conflicts"); }
      r := Ok(Some(ClaimedHandoff(pick.value, row.recipient, row.token, row.tokenHash, minted.value)));
    }

    method AcknowledgeHandoff(id: OperationId, tokenHash: string, consumer: string, token: nat, now: nat)
      returns (r: Result<()>)
      modifies this
      ensures Reply(Tables(), r) == J.AcknowledgeHandoff(old(Tables()), id, tokenHash, consumer, token, now)
    {
      if !HoldsHandoff(outbox, id, consumer, token, now) || outbox[id].tokenHash != tokenHash {
        return Err("lifecycle send handoff claim was lost");
      }
      outbox := outbox[id := outbox[id].(acknowledged := true)];
      r := Ok(());
    }

    method ReleaseHandoff(id: OperationId, consumer: string, token: nat, now: nat) returns (r: Result<()>)
      modifies this
      ensures Reply(Tables(), r) == J.ReleaseHandoff(old(Tables()), id, consumer, token, now)
    {
      if !HoldsHandoff(outbox, id, consumer, token, now) { return Err("lifecycle send handoff claim was lost"); }
      outbox := outbox[id := outbox[id].(claimedBy := None, until := 0)];
      r := Ok(());
    }
  }
}
