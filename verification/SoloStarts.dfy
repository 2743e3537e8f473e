/**
  How workers come to be, how the renewal timer keeps or ends them, what a reset does when it
  is left alone, and a whole run that succeeds.
 */
module SoloStarts {
  import opened Prelude
  import opened J = Journal
  import opened E = Engine
  import opened StoreReplies
  import opened SoloRun
  import opened SoloResults
  import opened EngineWallet

  /** Worker `t` has just been made by `owner` for `id`. */
  predicate Fresh(s: State, t: nat, owner: Owner, id: OperationId, recovery: bool) {
    && t in s.workers && s.workers[t].pc.ReadInput? && s.workers[t].owner == owner && s.workers[t].id == id
    && s.workers[t].recovery == recovery && s.workers[t].authority.None?
  }

  /**
    Starting an operation makes a worker exactly if the claim is granted; the worker recovers
    exactly if the stored operation has left Created, and a new row holds the request as given.
   */
  lemma StartMakesWorker(s: State, owner: Owner, input: Input, intentHash: string, now: nat)
    ensures var s' := Exec(s, Start(owner, input, intentHash, now));
            var (id, t) := (input.operationId, s.db.nextToken + 1);
            var conflict := id in s.db.operations && s.db.operations[id].operation.intentHash != intentHash;
            if !ResetRunning(s.db, now) && !conflict && TokensLeft(s.db) && !Held(s.db, id, now) then
              && Fresh(s', t, owner, id, id in s.db.operations && s.db.operations[id].operation.phase != Created)
              && s'.workers == s.workers[t := s'.workers[t]] && HeldUnder(s'.db, id, owner, t, now) == (now < U64_MAX)
              && id in s'.db.operations && s'.db.operations[id].input == (if id in s.db.operations then s.db.operations[id].input else input)
              && (id !in s.db.operations ==>
                    && s'.db.operations[id].operation.phase == Created && s'.db.operations[id].material.None?
                    && s'.db.operations[id].operation.amount == input.amount && s'.db.operations[id].operation.kind == input.kind)
              && (id in s.db.operations ==> s'.db.operations[id].operation == s.db.operations[id].operation)
            else s'.workers == s.workers
  {
    CreateAndClaimReply(s.db, owner, input, CreatedOperation(input, intentHash), now);
    hide J.CreateAndClaim;
  }

  lemma ResumeMakesWorker(s: State, owner: Owner, id: OperationId, now: nat)
    ensures var s' := Exec(s, Resume(owner, id, now));
            var t := s.db.nextToken + 1;
            if !ResetRunning(s.db, now) && TokensLeft(s.db) && id in s.db.operations && !Held(s.db, id, now) then
              && Fresh(s', t, owner, id, true) && s'.workers == s.workers[t := s'.workers[t]]
              && HeldUnder(s'.db, id, owner, t, now) == (now < U64_MAX)
            else s'.workers == s.workers
  {
    TryClaimReply(s.db, owner, id, now);
    hide J.TryClaim;
  }

  /** The points at which a worker waits for somebody else, and its lease must be renewed. */
  predicate Waits(pc: Pc) { pc.CallPrepare? || pc.AwaitWallet? || pc.AwaitReconcile? }

  /**
    The renewal timer: a waiting worker that still holds its row, and the wallet if the wallet is
    for its operation, gets two more minutes and goes on waiting; a waiting worker that has lost
    either is gone, and the journal stays as it was.
   */
  lemma RenewalKeepsOrEndsWorker(s: State, t: nat, now: nat)
    requires t in s.workers && Waits(s.workers[t].pc)
    ensures var (w, s') := (s.workers[t], Exec(s, Renew(t, now)));
            var holds := HeldUnder(s.db, w.id, w.owner, t, now)
                         && (WalletIsFor(s.db, w.id) ==>
                               s.db.barrier.value.owner == w.owner && s.db.barrier.value.token == t
                               && now < s.db.barrier.value.until);
            if holds then
              && s'.workers == s.workers && w.id in s'.db.operations
              && s'.db.operations[w.id].until == TwoMinutesFrom(now)
            else s'.db == s.db && s'.workers == s.workers[t := w.(pc := Gone)]
  {
    RenewClaimReply(s.db, s.workers[t].owner, s.workers[t].id, t, now);
    hide J.RenewClaim;
  }

  lemma OnlyWaitingWorkersRenew(s: State, t: nat, now: nat)
    requires t !in s.workers || !Waits(s.workers[t].pc)
    ensures Exec(s, Renew(t, now)) == s
  {
  }

  // ---- a reset left alone ----

  predicate NobodyRuns(db: Db, now: nat) {
    !ResetRunning(db, now) && forall id :: id in db.operations ==> !Held(db, id, now)
  }

  /** Claim, generation, store and release, all by one process. */
  function ResetActions(owner: Owner, t: nat, seed: string, walletReset: bool, now: nat): seq<Action> {
    var step := WorkReset(t, seed, walletReset, now);
    [StartReset(owner, now), step, step, step]
  }

  lemma ResetClaims(s: State, owner: Owner, now: nat)
    requires NobodyRuns(s.db, now) && TokensLeft(s.db)
    ensures var (t, s') := (s.db.nextToken + 1, Exec(s, StartReset(owner, now)));
            && s'.resetters == s.resetters[t := Resetter(owner, NeedGeneration)]
            && s' == s.(resetters := s'.resetters,
                        db := s.db.(nextToken := t, reset := Some(ResetLease(owner, TwoMinutesFrom(now), t))))
  {
    TryClaimResetReply(s.db, owner, now);
    hide J.TryClaimReset;
  }

  lemma ResetGetsGeneration(s: State, t: nat, owner: Owner, seed: string, walletReset: bool, now: nat)
    requires t in s.resetters && s.resetters[t] == Resetter(owner, NeedGeneration)
    requires ResetHeldUnder(s.db, owner, t, now) && s.db.generation < 0xFFFF_FFFF_FFFF_FFFF
    ensures Exec(s, WorkReset(t, seed, walletReset, now))
         == s.(resetters := s.resetters[t := Resetter(owner, HasGeneration(s.db.generation + 1))])
  {
  }

  /** The tables after a reset to the next generation with this seed. */
  function Emptied(db: Db, seed: string): Db {
    db.(operations := map[], evidence := [], barrier := None, outbox := map[],
        generation := db.generation + 1, seedHash := Some(SeedHash(seed)))
  }

  lemma ResetStores(s: State, t: nat, owner: Owner, seed: string, walletReset: bool, now: nat)
    requires t in s.resetters && s.resetters[t] == Resetter(owner, HasGeneration(s.db.generation + 1))
    requires ResetHeldUnder(s.db, owner, t, now) && 1 <= |seed| <= 256
    ensures Exec(s, WorkReset(t, seed, walletReset, now))
         == s.(resetters := s.resetters[t := Resetter(owner, MustRelease)],
               db := if walletReset then Emptied(s.db, seed) else s.db)
  {
  }

  lemma ResetReleases(s: State, t: nat, owner: Owner, seed: string, walletReset: bool, now: nat)
    requires t in s.resetters && s.resetters[t] == Resetter(owner, MustRelease) && ResetHeldUnder(s.db, owner, t, now)
    ensures Exec(s, WorkReset(t, seed, walletReset, now))
         == s.(resetters := s.resetters[t := Resetter(owner, Ended)], db := s.db.(reset := None))
  {
  }

  /**
    A reset that finds nobody running and is left alone: if the wallet resets, every table is
    emptied and the generation is one higher, else nothing is lost; the reset lease is gone
    either way, and the workers are as they were.
   */
  lemma ResetRuns(s: State, owner: Owner, seed: string, walletReset: bool, now: nat)
    requires NobodyRuns(s.db, now) && TokensLeft(s.db) && s.db.generation < 0xFFFF_FFFF_FFFF_FFFF
    requires 1 <= |seed| <= 256 && now < 0xFFFF_FFFF_FFFF_FFFF
    ensures var t := s.db.nextToken + 1;
            var s' := RunFrom(s, ResetActions(owner, t, seed, walletReset, now));
            && s'.db == (if walletReset then Emptied(s.db, seed) else s.db).(nextToken := t, reset := None)
            && s'.workers == s.workers && s'.calls == s.calls
  {
    var (t, start) := (s.db.nextToken + 1, StartReset(owner, now));
    var step := WorkReset(t, seed, walletReset, now);
    var (s1, actions) := (Exec(s, start), ResetActions(owner, t, seed, walletReset, now));
    assert RunFrom(s, []) == s;
    hide Exec, RunFrom;
    RunTwo(s, [], start, step);
    assert [] + [start, step] == [start, step];
    RunTwo(s, [start, step], step, step);
    assert [start, step] + [step, step] == actions;
    ResetClaims(s, owner, now);
    ResetGetsGeneration(s1, t, owner, seed, walletReset, now);
    ResetStores(Exec(s1, step), t, owner, seed, walletReset, now);
    ResetReleases(Exec(Exec(s1, step), step), t, owner, seed, walletReset, now);
  }

  // ---- a run that succeeds ----

  lemma {:induction false} RunJoins(s: State, first: Action, more: seq<Action>)
    ensures RunFrom(s, [first] + more) == RunFrom(Exec(s, first), more)
  {
    hide Exec;
    if more == [] {
      assert [first] + more == [first] && [first][..0] == [];
      assert RunFrom(s, [first]) == Exec(RunFrom(s, []), first);
    } else {
      var n := |more| - 1;
      RunJoins(s, first, more[..n]);
      assert ([first] + more)[..n + 1] == [first] + more[..n];
    }
  }

  lemma FirstClaim(input: Input, intentHash: string)
    requires input.kind != Reconcile
    ensures var s := Exec(InitialState, Start(0, input, intentHash, 0));
            && 1 in s.workers && Claimed(s, 1, s.workers[1], 0) && !s.workers[1].recovery && WalletFree(s.db)
            && s.workers[1].id == input.operationId && s.calls == []
            && s.db.operations[input.operationId].operation.phase == Created
            && s.db.operations[input.operationId].material.None? && s.db.operations[input.operationId].input == input
  {
  }

  /**
    A success from the empty journal: a timed run that starts any operation but a reconcile,
    executes it once with the prepared material, and ends with the wallet's success stored and
    the wallet free.
   */
  lemma SuccessIsReachable(input: Input, intentHash: string, m: Option<string>, e: Execution) returns (actions: seq<Action>)
    requires input.kind != Reconcile && e.phase == Succeeded
    ensures TimedActions(actions) && WalletFree(Run(actions).db)
    ensures var (s, id) := (Run(actions), input.operationId);
            && id in s.db.operations && s.db.operations[id].operation.phase == Succeeded && LetGo(s.db, id)
            && |s.calls| == 1 && s.calls[0].id == id && s.calls[0].material == m
  {
    var start := Start(0, input, intentHash, 0);
    var s0 := Exec(InitialState, start);
    FirstClaim(input, intentHash);
    hide Exec, RunFrom, Publishes, Claimed, Steps, ByWorker, TimedActions;
    var s := FreshOperationExecutes(s0, 1, s0.workers[1], m, e, 0);
    StoredPhase(WithMaterial(s0.db, input.operationId, m), s.db, input.operationId, Submitted, e);
    var more := StepsTaken(s0, s, 1);
    actions := [start] + more;
    RunJoins(InitialState, start, more);
    StartThenStepsIsTimed(start, more, 1);
  }

  lemma StepsTaken(s: State, s': State, t: nat) returns (more: seq<Action>)
    requires Steps(s, s', t, 0)
    ensures ByWorker(more, t, 0) && RunFrom(s, more) == s'
  {
    hide RunFrom;
    more :| ByWorker(more, t, 0) && RunFrom(s, more) == s';
  }

  lemma StartThenStepsIsTimed(start: Action, more: seq<Action>, t: nat)
    requires start.now == 0 && ByWorker(more, t, 0)
    ensures TimedActions([start] + more)
  {
  }
}
