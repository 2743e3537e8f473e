/**
  What the engine guarantees over every run: any number of processes, any interleaving,
  crashes, stalls, lost leases and resets, and a wallet that answers anything.
 */
module EngineSafety {
  import opened Prelude
  import opened J = Journal
  import opened E = Engine
  import opened C = StoreRuns
  import opened EngineInvariant

  // ---- execution ----

  /** The right of worker `t` to execute, as held now, was gained at step `k` and has not changed since. */
  predicate GainedAt(actions: seq<Action>, k: nat, t: nat, w: Worker)
    requires k < |actions|
  {
    && Arms(Run(actions[..k]), actions[k], t)
    && Exec(Run(actions[..k]), actions[k]).workers[t] == w
  }

  lemma {:induction false} ArmedSince(actions: seq<Action>, t: nat) returns (k: nat)
    requires t in Run(actions).workers && Run(actions).workers[t].pc.CallExecute?
    ensures k < |actions| && GainedAt(actions, k, t, Run(actions).workers[t])
  {
    var n := |actions| - 1;
    var before := actions[..n];
    InvHolds(before);
    WhoIsArmed(Run(before), actions[n], t);
    if Arms(Run(before), actions[n], t) {
      k := n;
    } else {
      k := ArmedSince(before, t);
      assert before[..k] == actions[..k];
    }
  }

  /**
    Every `execute_prepared` call was authorised by a journal write: at an earlier step the
    caller's own write moved the row out of a persisted Prepared, and the material it
    executes with is the material the row held right after that write.
   */
  lemma {:induction false} CallsAreAuthorised(actions: seq<Action>, i: nat) returns (k: nat)
    requires i < |Run(actions).calls|
    ensures k < |actions| && Arms(Run(actions[..k]), actions[k], Run(actions).calls[i].token)
    ensures var c := Run(actions).calls[i];
            var written := Exec(Run(actions[..k]), actions[k]);
            && written.workers[c.token].id == c.id
            && c.id in written.db.operations
            && c.material == written.db.operations[c.id].material
            && c.authority == Some(Authority(written.db.generation, c.material))
  {
    var n := |actions| - 1;
    var before := actions[..n];
    WhatIsCalled(Run(before), actions[n]);
    if i < |Run(before).calls| {
      k := CallsAreAuthorised(before, i);
      assert before[..k] == actions[..k];
    } else {
      k := ArmedSince(before, actions[n].token);
      assert before[..k] == actions[..k];
    }
  }

  /** At most one execution per operation and generation: two calls on one id belong to different generations. */
  lemma ExecutesAtMostOncePerGeneration(actions: seq<Action>, i: nat, j: nat)
    requires i < j < |Run(actions).calls| && Run(actions).calls[i].id == Run(actions).calls[j].id
    ensures Run(actions).calls[i].authority.Some? && Run(actions).calls[j].authority.Some?
    ensures Run(actions).calls[i].authority.value.generation != Run(actions).calls[j].authority.value.generation
  {
    InvHolds(actions);
  }

  // ---- phases ----

  /**
    Phase history. One step of any run moves a persisted phase along a legal edge, creates a
    row as Created, or deletes every row while raising the generation by exactly one. In
    particular FailedDefinitive and RecoveryBlocked are entered from Reconciling only.
   */
  lemma PhasesMoveLegally(actions: seq<Action>, a: Action, id: OperationId)
    ensures PhaseMoves(Run(actions).db, Exec(Run(actions), a).db, id)
    ensures var (db, db') := (Run(actions).db, Exec(Run(actions), a).db);
            id in db.operations && id in db'.operations
            && db'.operations[id].operation.phase != db.operations[id].operation.phase
            && (db'.operations[id].operation.phase == FailedDefinitive
                || db'.operations[id].operation.phase == RecoveryBlocked) ==>
              db.operations[id].operation.phase == Reconciling
  {
    InvHolds(actions);
    hide Exec, Run;
    StepMovesPhases(Run(actions), a, id);
  }

  lemma CallKeepsContent(db: Db, call: Call, id: OperationId)
    requires id in db.operations && id in Apply(db, call).operations
    requires call.Put? || call.Commit? ==> call.operation.operationId != id || !Current(db, id, call.token)
    ensures Apply(db, call).operations[id].operation == db.operations[id].operation
    ensures Apply(db, call).operations[id].material == db.operations[id].material
  {
    if IsHandoffCall(call) {
      hide Apply;
      HandoffCallFrame(db, call);
    }
  }

  lemma TerminalStep(s: State, a: Action, id: OperationId)
    requires Inv(s) && id in s.db.operations && s.db.operations[id].operation.phase.Terminal()
    requires id in Exec(s, a).db.operations
    ensures Exec(s, a).db.operations[id].operation == s.db.operations[id].operation
    ensures Exec(s, a).db.operations[id].material == s.db.operations[id].material
  {
    hide Exec, Apply, CommitsReset;
    StepIsStoreCall(s, a);
    if StoreCall(s, a).Some? {
      CallsAreLegal(s, a);
      hide StoreCall, WorkersOk, ResettersOk;
      CallKeepsContent(s.db, StoreCall(s, a).value, id);
    }
  }

  /** A terminal result, with its material, is never overwritten before a reset. */
  lemma {:induction false} TerminalIsFinal(actions: seq<Action>, i: nat, id: OperationId)
    requires i <= |actions| && id in Run(actions[..i]).db.operations
    requires Run(actions[..i]).db.operations[id].operation.phase.Terminal()
    ensures Run(actions).db.generation >= Run(actions[..i]).db.generation
    ensures Run(actions).db.generation == Run(actions[..i]).db.generation ==>
              && id in Run(actions).db.operations
              && Run(actions).db.operations[id].operation == Run(actions[..i]).db.operations[id].operation
              && Run(actions).db.operations[id].material == Run(actions[..i]).db.operations[id].material
  {
    hide Exec, Run, Inv;
    if i == |actions| {
      assert actions[..i] == actions;
    } else {
      var n := |actions| - 1;
      assert actions[..n][..i] == actions[..i];
      TerminalIsFinal(actions[..n], i, id);
      var s := Run(actions[..n]);
      InvHolds(actions[..n]);
      PhasesMoveLegally(actions[..n], actions[n], id);
      RunLast(actions);
      if Run(actions).db.generation == Run(actions[..i]).db.generation { TerminalStep(s, actions[n], id); }
    }
  }
}
