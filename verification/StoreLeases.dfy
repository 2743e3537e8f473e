/**
  Leases over whole runs: a live lease excludes every second claim, a lease that has ended is
  there to be taken, and what consumers receive is what a commit filed.
 */
module StoreLeases {
  import opened Prelude
  import opened J = Journal
  import opened C = StoreRuns
  import opened StoreReplies

  // ---- exclusion ----

  /** The holder gives its lease back. */
  predicate Releases(db: Db, call: Call, id: OperationId, t: nat) {
    call.Release? && call.id == id && call.token == t && J.Release(db, call.owner, id, t, call.now).result.Ok?
  }

  /** Token `t` is on the row, and its lease runs at least until `u`. */
  predicate Leased(db: Db, id: OperationId, t: nat, u: nat) {
    && id in db.operations && db.operations[id].owner.Some? && db.operations[id].token == t
    && u <= db.operations[id].until && t <= db.nextToken
  }

  lemma LeasedStep(db: Db, call: Call, id: OperationId, t: nat, from: nat, u: nat)
    requires Leased(db, id, t, u) && from <= call.now < u && u == TwoMinutesFrom(from)
    requires !Releases(db, call, id, t) && !CommitsReset(db, call)
    ensures Leased(Apply(db, call), id, t, u)
  {
    if !TouchesLeases(call) {
      hide Apply;
      LeasesUntouched(db, call);
    }
  }

  lemma {:induction false} LeasedUntil(calls: seq<Call>, i: nat, j: nat, id: OperationId, t: nat, from: nat, u: nat)
    requires i <= j <= |calls| && Leased(After(calls[..i]), id, t, u) && u == TwoMinutesFrom(from)
    requires forall k :: i <= k < j ==>
               && from <= calls[k].now < u && !Releases(After(calls[..k]), calls[k], id, t)
               && !CommitsReset(After(calls[..k]), calls[k])
    ensures Leased(After(calls[..j]), id, t, u)
  {
    hide *;
    if i < j {
      LeasedUntil(calls, i, j - 1, id, t, from, u);
      AfterStep(calls, j - 1);
      LeasedStep(After(calls[..j - 1]), calls[j - 1], id, t, from, u);
    }
  }

  lemma IssuedIsLeased(db: Db, call: Call, id: OperationId, t: nat)
    requires IssuesClaim(db, call, id, t)
    ensures Leased(Apply(db, call), id, t, TwoMinutesFrom(call.now))
  {
    if call.TryClaim? {
      TryClaimReply(db, call.owner, id, call.now);
    } else {
      CreateAndClaimReply(db, call.owner, call.input, call.operation, call.now);
    }
  }

  lemma NobodyClaimsLeased(db: Db, call: Call, id: OperationId, t: nat, other: nat, u: nat)
    requires Leased(db, id, t, u) && call.now < u
    ensures !IssuesClaim(db, call, id, other)
  {
    if call.TryClaim? {
      TryClaimReply(db, call.owner, call.id, call.now);
    } else if call.CreateAndClaim? {
      CreateAndClaimReply(db, call.owner, call.input, call.operation, call.now);
    }
  }

  /**
    Mutual exclusion of leases. With a nondecreasing clock, after a claim on `id` has been issued
    no second claim on `id` is issued before the first one's two minutes are over, unless the
    holder released it or a reset committed in between.
   */
  lemma LeaseExcludesOthers(calls: seq<Call>, i: nat, j: nat, id: OperationId, t: nat, other: nat)
    requires Timed(calls) && i < j < |calls|
    requires IssuesClaim(After(calls[..i]), calls[i], id, t) && IssuesClaim(After(calls[..j]), calls[j], id, other)
    requires calls[j].now < TwoMinutesFrom(calls[i].now)
    ensures exists k :: i < k < j
              && (Releases(After(calls[..k]), calls[k], id, t) || CommitsReset(After(calls[..k]), calls[k]))
  {
    var u := TwoMinutesFrom(calls[i].now);
    hide Apply, After, IssuesClaim, Releases, CommitsReset, Leased, TwoMinutesFrom;
    AfterStep(calls, i);
    IssuedIsLeased(After(calls[..i]), calls[i], id, t);
    if forall k :: i < k < j ==>
        !Releases(After(calls[..k]), calls[k], id, t) && !CommitsReset(After(calls[..k]), calls[k]) {
      LeasedUntil(calls, i + 1, j, id, t, calls[i].now, u);
      NobodyClaimsLeased(After(calls[..j]), calls[j], id, t, other, u);
      assert false;
    }
  }

  /** At every moment a claim is issued only on a row that nobody holds. */
  lemma ClaimsNeedUnheldRow(db: Db, call: Call, id: OperationId, t: nat)
    requires IssuesClaim(db, call, id, t)
    ensures !Held(db, id, call.now) && !ResetRunning(db, call.now) && t == db.nextToken + 1
  {
    if call.TryClaim? {
      TryClaimReply(db, call.owner, id, call.now);
    } else {
      CreateAndClaimReply(db, call.owner, call.input, call.operation, call.now);
    }
  }

  /** The converse: with no reset running and a token left, a stored row that nobody holds is granted to whoever asks. */
  lemma UnheldRowIsGranted(db: Db, owner: Owner, id: OperationId, now: nat)
    requires id in db.operations && !Held(db, id, now) && !ResetRunning(db, now) && TokensLeft(db)
    ensures IssuesClaim(db, Call.TryClaim(owner, id, now), id, db.nextToken + 1)
    ensures Held(Apply(db, Call.TryClaim(owner, id, now)), id, now) <==> now < 0xFFFF_FFFF_FFFF_FFFF
  {
    TryClaimReply(db, owner, id, now);
  }

  // ---- renewal ----

  /**
    With a nondecreasing clock a renewal that succeeds never shortens the operation's lease, nor
    the wallet's, and both then run for the full two minutes.
   */
  lemma RenewalLengthens(calls: seq<Call>, call: Call)
    requires Timed(calls) && Clock(calls) <= call.now && call.RenewClaim?
    requires J.RenewClaim(After(calls), call.owner, call.id, call.token, call.now).result.Ok?
    ensures var (db, db') := (After(calls), Apply(After(calls), call));
            && call.id in db.operations && call.id in db'.operations
            && db.operations[call.id].until <= db'.operations[call.id].until == TwoMinutesFrom(call.now)
            && (WalletIsFor(db, call.id) ==>
                  WalletIsFor(db', call.id) && db.barrier.value.until <= db'.barrier.value.until == TwoMinutesFrom(call.now))
  {
    BarrierCoversAfter(calls);
    BarrierBoundedAfter(calls);
    RenewClaimReply(After(calls), call.owner, call.id, call.token, call.now);
  }

  predicate BarrierBounded(db: Db, clock: nat) { db.barrier.Some? ==> db.barrier.value.until <= TwoMinutesFrom(clock) }

  lemma BarrierBoundedStep(db: Db, call: Call, clock: nat)
    requires BarrierBounded(db, clock) && clock <= call.now
    ensures BarrierBounded(Apply(db, call), call.now)
  {
    if IsHandoffCall(call) {
      hide Apply;
      HandoffCallFrame(db, call);
    } else if call.RenewClaim? {
      RenewClaimReply(db, call.owner, call.id, call.token, call.now);
      hide J.RenewClaim;
    } else if call.TryClaimWalletMutation? {
      TryClaimWalletMutationReply(db, call.owner, call.id, call.token, call.now);
      hide J.TryClaimWalletMutation;
    }
  }

  lemma {:induction false} BarrierBoundedAfter(calls: seq<Call>)
    requires Timed(calls)
    ensures BarrierBounded(After(calls), Clock(calls))
  {
    if calls != [] {
      var n := |calls| - 1;
      BarrierBoundedAfter(calls[..n]);
      BarrierBoundedStep(After(calls[..n]), calls[n], Clock(calls[..n]));
    }
  }

  // ---- what consumers receive ----

  /** `call` is a successful commit that files hand-off `h` for `id`. */
  predicate Files(db: Db, call: Call, id: OperationId, h: Handoff) {
    RecordsEffect(db, call) && call.operation.operationId == id && call.handoff == Some(h) && id !in db.outbox
  }

  /** The outbox row of `id` carries hand-off `h`. */
  predicate Carries(db: Db, id: OperationId, h: Handoff) {
    id in db.outbox && db.outbox[id].recipient == h.recipient && db.outbox[id].token == h.token
    && db.outbox[id].tokenHash == SendTokenHash(h.token)
  }

  /** A row that appears was filed by this very call. */
  lemma NewRowIsFiled(db: Db, call: Call, id: OperationId) returns (h: Handoff)
    requires id !in db.outbox && id in Apply(db, call).outbox
    ensures Files(db, call, id, h) && Carries(Apply(db, call), id, h) && FreshHandoff(Apply(db, call).outbox[id], h)
  {
    if !TouchesOutbox(call) {
      OutboxUntouched(db, call);
      assert false;
    } else if IsHandoffCall(call) {
      HandoffCallFrame(db, call);
      assert false;
    } else if call.Commit? {
      CommitReply(db, call.owner, call.operation, call.material, call.effect, call.evidence, call.handoff, call.token, call.now);
      h := call.handoff.value;
    }
  }

  /** Every outbox row goes back to the commit that filed it, since the last reset, and still carries that hand-off. */
  lemma {:induction false} RowsAreFiled(calls: seq<Call>, j: nat, id: OperationId) returns (i: nat, h: Handoff)
    requires j <= |calls| && id in After(calls[..j]).outbox
    ensures i < j && Files(After(calls[..i]), calls[i], id, h) && !ResetBetween(calls, i, j)
    ensures Carries(After(calls[..j]), id, h)
  {
    FirstRowNeedsCall(calls, j, id);
    hide Apply, After, Files, Carries, CommitsReset, ResetBetween;
    AfterStep(calls, j - 1);
    var (db, call) := (After(calls[..j - 1]), calls[j - 1]);
    ResetLeavesNoRow(db, call, id);
    if id in db.outbox {
      i, h := RowsAreFiled(calls, j - 1, id);
      StillCarries(db, call, id, h);
    } else {
      h := NewRowIsFiled(db, call, id);
      i := j - 1;
      NoResetYet(calls, i);
    }
    NoResetExtends(calls, i, j - 1);
  }

  lemma FirstRowNeedsCall(calls: seq<Call>, j: nat, id: OperationId)
    requires j <= |calls| && id in After(calls[..j]).outbox
    ensures j > 0
  {
  }

  lemma ResetLeavesNoRow(db: Db, call: Call, id: OperationId)
    requires id in Apply(db, call).outbox
    ensures !CommitsReset(db, call)
  {
    if CommitsReset(db, call) { ResetReply(db, call.owner, call.seed, call.generation, call.token, call.now); }
  }

  lemma StillCarries(db: Db, call: Call, id: OperationId, h: Handoff)
    requires Carries(db, id, h) && !CommitsReset(db, call)
    ensures Carries(Apply(db, call), id, h)
  {
    hide Apply, CommitsReset;
    OutboxStep(db, call, id);
  }

  lemma NoResetYet(calls: seq<Call>, i: nat)
    requires i <= |calls|
    ensures !ResetBetween(calls, i, i)
  {
  }

  lemma NoResetExtends(calls: seq<Call>, i: nat, j: nat)
    requires i <= j < |calls| && !ResetBetween(calls, i, j) && !CommitsReset(After(calls[..j]), calls[j])
    ensures !ResetBetween(calls, i, j + 1)
  {
    hide After, CommitsReset;
  }

  /**
    End to end: a hand-off that a consumer receives carries exactly the recipient, the token and
    the hash of the token that a commit of that operation filed, with no reset in between.
   */
  lemma ReceivedAsFiled(calls: seq<Call>, j: nat) returns (i: nat, h: Handoff)
    requires j < |calls| && calls[j].ClaimHandoff?
    requires var r := J.ClaimHandoff(After(calls[..j]), calls[j].consumer, calls[j].now).result; r.Ok? && r.value.Some?
    ensures var c := J.ClaimHandoff(After(calls[..j]), calls[j].consumer, calls[j].now).result.value.value;
            && i < j && Files(After(calls[..i]), calls[i], c.operationId, h) && !ResetBetween(calls, i, j)
            && c.recipient == h.recipient && c.token == h.token && c.tokenHash == SendTokenHash(h.token)
  {
    var db := After(calls[..j]);
    var c := J.ClaimHandoff(db, calls[j].consumer, calls[j].now).result.value.value;
    hide After, SendTokenHash, LeaseEnd;
    assert c.operationId in db.outbox && c.recipient == db.outbox[c.operationId].recipient
           && c.token == db.outbox[c.operationId].token && c.tokenHash == db.outbox[c.operationId].tokenHash;
    hide J.ClaimHandoff, Files;
    i, h := RowsAreFiled(calls, j, c.operationId);
  }

  /** So the hash comparison of a hand-off claim never fails. */
  lemma {:induction false} HashesStayRight(calls: seq<Call>)
    ensures forall id :: id in After(calls).outbox ==>
              After(calls).outbox[id].tokenHash == SendTokenHash(After(calls).outbox[id].token)
  {
    hide After, SendTokenHash, Files;
    forall id | id in After(calls).outbox
      ensures After(calls).outbox[id].tokenHash == SendTokenHash(After(calls).outbox[id].token)
    {
      assert calls[..|calls|] == calls;
      var i, h := RowsAreFiled(calls, |calls|, id);
    }
  }
}
