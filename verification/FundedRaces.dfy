/**
  When the cashu-ts sender's `resume` and `reset` are safe. Both clear the in-flight map under
  live calls, and `reset` then empties the store under them. This module proves exactly when
  every continuation still hands over one payload per delivery, and gives the failing runs.
 */
module FundedRaces {
  import opened Prelude
  import opened FundedSender

  /** An action of calls and crashes only. */
  predicate Plain(a: Action) { a.Invoke? || a.Continue? || a.Crash? }

  predicate AllPlain(actions: seq<Action>) { forall k :: 0 <= k < |actions| ==> Plain(actions[k]) }

  /** `s'` can follow `s` without any further `resume` or `reset`. */
  ghost predicate Reaches(s: State, s': State) {
    exists actions :: AllPlain(actions) && RunFrom(s, actions) == s'
  }

  lemma ReachesSelf(s: State)
    ensures Reaches(s, s)
  {
    assert RunFrom(s, []) == s && AllPlain([]);
  }

  lemma ReachesStep(s: State, s': State, a: Action)
    requires Reaches(s, s') && Plain(a)
    ensures Reaches(s, Exec(s', a))
  {
    hide Exec;
    var actions :| AllPlain(actions) && RunFrom(s, actions) == s';
    RunLast(s, actions, a);
    assert AllPlain(actions + [a]);
  }

  lemma PlainIsCareful(s: State, actions: seq<Action>)
    requires AllPlain(actions)
    ensures CarefulFrom(s, actions) && UnladenResets(s, actions)
  {
    hide RunFrom, Quiet, Settled, Unladen;
    forall k | 0 <= k < |actions|
      ensures Careful(RunFrom(s, actions[..k]), actions[k]) && !Empties(RunFrom(s, actions[..k]), actions[k])
    {
      assert Plain(actions[k]);
    }
  }

  lemma ReachedIsFine(s: State, s': State)
    requires Inv(s) && Reaches(s, s')
    ensures SameBytes(s') && (Backed(s) ==> Reserved(s'))
  {
    var actions :| AllPlain(actions) && RunFrom(s, actions) == s';
    hide RunFrom, Inv, Backed, SameBytes, Reserved;
    PlainIsCareful(s, actions);
    InvFrom(s, actions);
    InvMeansSame(s');
    if Backed(s) {
      BackedFrom(s, actions);
      BackedMeansReserved(s');
    }
  }

  // ---- pieces of runs ----

  function Fine(now: nat): Choice { Choice(now, "proofs", true, true) }

  const Fails := Choice(0, "", false, false)

  /** Call `c` on delivery `d` is at `pc`. */
  predicate At(s: State, c: nat, d: DeliveryId, fingerprint: string, pc: Pc) {
    c in s.calls && s.calls[c] == Call(d, fingerprint, pc)
  }

  /** Only call `c` differs between the calls of `s` and `s'`. */
  predicate OnlyCall(s: State, s': State, c: nat) {
    c in s'.calls && s'.calls == s.calls[c := s'.calls[c]]
  }

  /** A fresh call is about to look for a reservation. */
  lemma FreshCall(s0: State, s: State, d: DeliveryId, fingerprint: string, now: nat) returns (s': State)
    requires Reaches(s0, s) && d !in s.inflight && d !in s.records
    ensures Reaches(s0, s') && At(s', s.nextCall, d, fingerprint, ReadReservation(now)) && OnlyCall(s, s', s.nextCall)
    ensures s' == s.(calls := s'.calls, inflight := s.inflight[d := s.nextCall], nextCall := s.nextCall + 1)
  {
    hide Reaches;
    ReachesStep(s0, s, Invoke(d, fingerprint));
    var mid := Exec(s, Invoke(d, fingerprint));
    ReachesStep(s0, mid, Continue(s.nextCall, Fine(now)));
    s' := Exec(mid, Continue(s.nextCall, Fine(now)));
  }

  /** With a reservation of its own request the call builds its payload from it. */
  lemma FreshBuild(s0: State, s: State, c: nat, d: DeliveryId, reservation: Reservation, now: nat) returns (s': State)
    requires Reaches(s0, s) && At(s, c, d, reservation.fingerprint, ReadReservation(now))
    requires Lookup(s.reservations, d) == Some(reservation)
    ensures Reaches(s0, s')
    ensures var call := Call(d, reservation.fingerprint, ReadReservation(now));
            s' == s.(calls := s.calls[c := call.(pc := PutRecord(Build(call, reservation, now)))])
  {
    hide Reaches;
    ReachesStep(s0, s, Continue(c, Fine(now)));
    s' := Exec(s, Continue(c, Fine(now)));
  }

  /** Without one it makes and stores one first. */
  lemma FreshReserve(s0: State, s: State, c: nat, d: DeliveryId, fingerprint: string, now: nat) returns (s': State)
    requires Reaches(s0, s) && At(s, c, d, fingerprint, ReadReservation(now)) && d !in s.reservations
    ensures Reaches(s0, s')
    ensures var reservation := Reservation(fingerprint, "proofs");
            s' == s.(calls := s.calls[c := Call(d, fingerprint, CheckReservation(now, reservation))],
                     reservations := s.reservations[d := reservation])
  {
    hide Reaches;
    var go := Continue(c, Fine(now));
    var reservation := Reservation(fingerprint, "proofs");
    ReachesStep(s0, s, go);
    var s1 := Exec(s, go);
    assert s1 == s.(calls := s.calls[c := Call(d, fingerprint, Reserve(now))]);
    ReachesStep(s0, s1, go);
    var s2 := Exec(s1, go);
    assert s2 == s.(calls := s.calls[c := Call(d, fingerprint, PutReservation(now, reservation))]);
    ReachesStep(s0, s2, go);
    s' := Exec(s2, go);
  }

  lemma FreshCheck(s0: State, s: State, c: nat, d: DeliveryId, reservation: Reservation, now: nat) returns (s': State)
    requires Reaches(s0, s) && At(s, c, d, reservation.fingerprint, CheckReservation(now, reservation))
    requires Lookup(s.reservations, d) == Some(reservation)
    ensures Reaches(s0, s')
    ensures var call := Call(d, reservation.fingerprint, ReadReservation(now));
            s' == s.(calls := s.calls[c := call.(pc := PutRecord(Build(call, reservation, now)))])
  {
    hide Reaches;
    ReachesStep(s0, s, Continue(c, Fine(now)));
    s' := Exec(s, Continue(c, Fine(now)));
  }

  /** A fresh call reaches the point of storing a payload stamped `now`. */
  lemma FreshPayload(s0: State, s: State, d: DeliveryId, fingerprint: string, now: nat) returns (s': State, record: Record)
    requires Reaches(s0, s) && d !in s.inflight && d !in s.records
    requires d in s.reservations ==> s.reservations[d].fingerprint == fingerprint
    ensures Reaches(s0, s') && At(s', s.nextCall, d, fingerprint, PutRecord(record)) && record.payload.createdAt == now
    ensures s'.records == s.records && s'.nextCall == s.nextCall + 1 && s'.sent == s.sent && s'.since == s.since
    ensures d in s'.reservations && s'.reservations[d].fingerprint == fingerprint
    ensures OnlyCall(s, s', s.nextCall)
  {
    var read := FreshCall(s0, s, d, fingerprint, now);
    hide Exec, Reaches;
    if d in s.reservations {
      s' := FreshBuild(s0, read, s.nextCall, d, s.reservations[d], now);
    } else {
      var kept := FreshReserve(s0, read, s.nextCall, d, fingerprint, now);
      s' := FreshCheck(s0, kept, s.nextCall, d, Reservation(fingerprint, "proofs"), now);
    }
    record := s'.calls[s.nextCall].pc.record;
  }

  /** A call about to count its attempt can send. */
  lemma AttemptSends(s0: State, s: State, c: nat, d: DeliveryId, fingerprint: string, record: Record) returns (s': State)
    requires Reaches(s0, s) && At(s, c, d, fingerprint, PutAttempt(record))
    ensures Reaches(s0, s') && s'.sent == s.sent + [Sent(d, record.payload)] && s'.since == s.since
    ensures OnlyCall(s, s', c) && s'.reservations == s.reservations
  {
    hide Reaches;
    var go := Continue(c, Fine(0));
    ReachesStep(s0, s, go);
    var mid := Exec(s, go);
    ReachesStep(s0, mid, go);
    s' := Exec(mid, go);
  }

  /** So can one with a built payload. */
  lemma BuiltSends(s0: State, s: State, c: nat, d: DeliveryId, fingerprint: string, record: Record) returns (s': State)
    requires Reaches(s0, s) && At(s, c, d, fingerprint, PutRecord(record))
    ensures Reaches(s0, s') && s'.sent == s.sent + [Sent(d, record.payload)] && s'.since == s.since
    ensures OnlyCall(s, s', c) && s'.reservations == s.reservations
  {
    hide Reaches;
    ReachesStep(s0, s, Continue(c, Fine(0)));
    var mid := Exec(s, Continue(c, Fine(0)));
    assert At(mid, c, d, fingerprint, PutAttempt(record));
    s' := AttemptSends(s0, mid, c, d, fingerprint, record);
  }

  /** A call that fails where it stands drops its delivery from the in-flight map. */
  lemma CallFails(s0: State, s: State, c: nat) returns (s': State)
    requires Reaches(s0, s) && Live(s, c) && !s.calls[c].pc.Transmit?
    ensures Reaches(s0, s')
    ensures s' == s.(calls := s.calls[c := s.calls[c].(pc := Over)], inflight := s.inflight - {s.calls[c].delivery})
  {
    hide Reaches;
    ReachesStep(s0, s, Continue(c, Fails));
    s' := Exec(s, Continue(c, Fails));
  }

  /** Two calls on `d` that both hold a built payload can both send it. */
  lemma RacersDiffer(s0: State, s: State, d: DeliveryId, fingerprint: string, first: Record, second: Record, c: nat, u: nat)
    returns (s': State)
    requires Reaches(s0, s) && s.since <= |s.sent| && c != u && At(s, c, d, fingerprint, PutRecord(first))
    requires At(s, u, d, fingerprint, PutRecord(second)) && first.payload != second.payload
    ensures Reaches(s0, s') && !SameBytes(s')
  {
    hide Exec, Reaches;
    var s1 := BuiltSends(s0, s, c, d, fingerprint, first);
    s' := BuiltSends(s0, s1, u, d, fingerprint, second);
    assert s'.sent[|s.sent|] == Sent(d, first.payload) && s'.sent[|s.sent| + 1] == Sent(d, second.payload);
  }

  /** A live call that nobody can join, with nothing stored for its delivery, lets two others race. */
  lemma UnjoinedRaces(s0: State, s: State, c: nat) returns (s': State)
    requires Reaches(s0, s) && WellFormed(s) && Live(s, c) && !s.calls[c].pc.Transmit?
    requires s.calls[c].delivery !in s.records && s.calls[c].delivery !in s.inflight
    ensures Reaches(s0, s') && !SameBytes(s')
  {
    hide Exec, Reaches;
    var d := s.calls[c].delivery;
    var fingerprint := if d in s.reservations then s.reservations[d].fingerprint else "request";
    assert c < s.nextCall;
    var s1, first := FreshPayload(s0, s, d, fingerprint, 1);
    var s2 := CallFails(s0, s1, c);
    var s3, second := FreshPayload(s0, s2, d, fingerprint, 2);
    s' := RacersDiffer(s0, s3, d, fingerprint, first, second, s.nextCall, s.nextCall + 1);
  }

  // ---- clearing the in-flight map ----

  lemma UnquietClearRaces(s: State, a: Action) returns (s': State)
    requires WellFormed(s) && Inv(s) && Clears(a) && !Quiet(s)
    ensures Reaches(Exec(s, a), s') && !SameBytes(s')
  {
    var c :| Live(s, c) && s.calls[c].delivery !in s.records;
    assert CallOk(s, c);
    WellFormedStep(s, a);
    var s0 := Exec(s, a);
    ReachesSelf(s0);
    assert Live(s0, c);
    s' := UnjoinedRaces(s0, s0, c);
  }

  lemma QuietClearKeeps(s: State, a: Action)
    requires Inv(s) && Clears(a) && Quiet(s)
    ensures Inv(Exec(s, a))
  {
    ExecKeeps(s, a);
  }

  /**
    After every careful run, `resume` or the first half of `reset` is safe for every
    continuation by calls and crashes if and only if the state is quiet: no live call may still
    be on its way to storing its payload.
   */
  lemma ClearIsSafeIff(actions: seq<Action>, a: Action)
    requires CarefulFrom(InitialState, actions) && Clears(a)
    ensures var s := Run(actions);
            (forall s' :: Reaches(Exec(s, a), s') ==> SameBytes(s')) <==> Quiet(s)
  {
    var s := Run(actions);
    InvFrom(InitialState, actions);
    WellFormedHolds(actions);
    hide Exec, Run, Inv, SameBytes, Reaches, WellFormed;
    if Quiet(s) {
      QuietClearKeeps(s, a);
      forall s' | Reaches(Exec(s, a), s')
        ensures SameBytes(s')
      {
        ReachedIsFine(Exec(s, a), s');
      }
    } else {
      var s' := UnquietClearRaces(s, a);
    }
  }

  /** The unsafe case is real: one call has just started. */
  lemma UnquietIsReachable(d: DeliveryId, fingerprint: string)
    ensures var actions := [Invoke(d, fingerprint)];
            CarefulFrom(InitialState, actions) && !Quiet(Run(actions))
  {
    var actions := [Invoke(d, fingerprint)];
    assert AllPlain(actions);
    PlainIsCareful(InitialState, actions);
    assert actions == [] + [Invoke(d, fingerprint)];
    RunLast(InitialState, [], Invoke(d, fingerprint));
    assert Live(Run(actions), 0);
  }

  // ---- emptying the store ----

  /** A call about to hand its payload over does so and fails; then a fresh call builds another payload. */
  lemma LateSendRaces(s0: State, s: State, c: nat) returns (s': State)
    requires Reaches(s0, s) && WellFormed(s) && Live(s, c) && s.calls[c].pc.Transmit?
    requires s.calls[c].delivery !in s.records
    ensures Reaches(s0, s') && !SameBytes(s')
  {
    var call := s.calls[c];
    var (d, payload) := (call.delivery, call.pc.record.payload);
    ReachesStep(s0, s, Continue(c, Fails));
    var s1 := Exec(s, Continue(c, Fails));
    assert s1.sent == s.sent + [Sent(d, payload)] && d !in s1.inflight && d !in s1.records && s1.since == s.since;
    hide Exec, Reaches;
    var fingerprint := if d in s1.reservations then s1.reservations[d].fingerprint else "request";
    var s2, record := FreshPayload(s0, s1, d, fingerprint, payload.createdAt + 1);
    s' := BuiltSends(s0, s2, s1.nextCall, d, fingerprint, record);
    assert s'.sent[|s.sent|] == Sent(d, payload) && s'.sent[|s.sent| + 1] == Sent(d, record.payload);
  }

  /** Two live calls on one delivery: one fails and takes the other's in-flight entry with it. */
  lemma TwoLiveRace(s0: State, s: State, c: nat, u: nat) returns (s': State)
    requires Reaches(s0, s) && WellFormed(s) && Live(s, c) && Live(s, u) && c != u
    requires s.calls[c].delivery == s.calls[u].delivery && s.calls[c].delivery !in s.records
    requires !s.calls[c].pc.Transmit? && !s.calls[u].pc.Transmit?
    ensures Reaches(s0, s') && !SameBytes(s')
  {
    WellFormedStep(s, Continue(c, Fails));
    assert Exec(s, Continue(c, Fails))
        == s.(calls := s.calls[c := s.calls[c].(pc := Over)], inflight := s.inflight - {s.calls[c].delivery});
    hide Exec, Reaches, WellFormed;
    var s1 := CallFails(s0, s, c);
    s' := UnjoinedRaces(s0, s1, u);
  }

  lemma UnsettledResetRaces(s: State) returns (s': State)
    requires WellFormed(s) && s.resetting > 0 && !Settled(s)
    ensures Reaches(Exec(s, EndReset(true)), s') && !SameBytes(s')
  {
    var c :| Live(s, c) && (!Owns(s, c) || s.calls[c].pc.Transmit?);
    WellFormedStep(s, EndReset(true));
    var s0 := Exec(s, EndReset(true));
    ReachesSelf(s0);
    assert s0.records == map[] && s0.calls == s.calls && s0.inflight == s.inflight;
    hide Exec, Reaches;
    var d := s.calls[c].delivery;
    if s.calls[c].pc.Transmit? {
      s' := LateSendRaces(s0, s0, c);
    } else if d !in s.inflight {
      s' := UnjoinedRaces(s0, s0, c);
    } else if s.calls[s.inflight[d]].pc.Transmit? {
      s' := LateSendRaces(s0, s0, s.inflight[d]);
    } else {
      s' := TwoLiveRace(s0, s0, c, s.inflight[d]);
    }
  }

  /** A settled state with an empty store starts over. */
  lemma SettledResetKeeps(s: State)
    requires WellFormed(s) && s.resetting > 0 && Settled(s)
    ensures Inv(Exec(s, EndReset(true))) && (Unladen(s) ==> Backed(Exec(s, EndReset(true))))
  {
    var s' := Exec(s, EndReset(true));
    forall c | c in s'.calls ensures CallOk(s', c) { assert Live(s, c) || s.calls[c].pc.Over?; }
  }

  /**
    Identical payloads after a reset. After every run, whatever its earlier resets and resumes,
    emptying the store is safe for every continuation by calls and crashes if and only if every
    live call owns its in-flight entry and none is about to hand its payload over.
   */
  lemma ResetIsSafeIff(actions: seq<Action>)
    requires Run(actions).resetting > 0
    ensures var s := Run(actions);
            (forall s' :: Reaches(Exec(s, EndReset(true)), s') ==> SameBytes(s')) <==> Settled(s)
  {
    var s := Run(actions);
    WellFormedHolds(actions);
    hide Exec, Run, Inv, Backed, SameBytes, Reaches, WellFormed;
    if Settled(s) {
      SettledResetKeeps(s);
      forall s' | Reaches(Exec(s, EndReset(true)), s')
        ensures SameBytes(s')
      {
        ReachedIsFine(Exec(s, EndReset(true)), s');
      }
    } else {
      var s' := UnsettledResetRaces(s);
    }
  }

  /** Both unsafe cases are real: a call from before the reset, and one about to send when the store is emptied. */
  lemma UnsettledIsReachable(d: DeliveryId, fingerprint: string)
    ensures var s := Run([Invoke(d, fingerprint), BeginReset]);
            s.resetting > 0 && Live(s, 0) && !Owns(s, 0) && !Settled(s)
    ensures exists s :: Reaches(Exec(InitialState, BeginReset), s)
                        && s.resetting > 0 && Live(s, 0) && Owns(s, 0) && s.calls[0].pc.Transmit? && !Settled(s)
  {
    var one := [Invoke(d, fingerprint)];
    RunLast(InitialState, [], one[0]);
    assert [] + [one[0]] == one && RunFrom(InitialState, []) == InitialState;
    RunLast(InitialState, one, BeginReset);
    assert one + [BeginReset] == [Invoke(d, fingerprint), BeginReset];
    var stale := Run([Invoke(d, fingerprint), BeginReset]);
    assert stale == Exec(Exec(InitialState, one[0]), BeginReset);
    assert Live(stale, 0) && !Owns(stale, 0);
    LateIsReachable(d, fingerprint);
  }

  lemma LateIsReachable(d: DeliveryId, fingerprint: string)
    ensures exists s :: Reaches(Exec(InitialState, BeginReset), s)
                        && s.resetting > 0 && Live(s, 0) && Owns(s, 0) && s.calls[0].pc.Transmit? && !Settled(s)
  {
    var s0 := Exec(InitialState, BeginReset);
    ReachesSelf(s0);
    var read := FreshCall(s0, s0, d, fingerprint, 0);
    assert read.inflight == map[d := 0] && read.resetting == 1;
    var reservation := Reservation(fingerprint, "proofs");
    var kept := FreshReserve(s0, read, 0, d, fingerprint, 0);
    var built := FreshCheck(s0, kept, 0, d, reservation, 0);
    var record := built.calls[0].pc.record;
    assert At(built, 0, d, fingerprint, PutRecord(record));
    hide Reaches;
    var go := Continue(0, Fine(0));
    ReachesStep(s0, built, go);
    var counted := Exec(built, go);
    assert At(counted, 0, d, fingerprint, PutAttempt(record));
    ReachesStep(s0, counted, go);
    var s := Exec(counted, go);
    assert s.calls[0].pc.Transmit? && Live(s, 0);
  }

  // ---- the proofs of the stored reservation ----

  /** A call that carries a payload over the reset can get it sent although no reservation is stored. */
  lemma LadenResetSendsUnreserved(s: State) returns (s': State)
    requires WellFormed(s) && s.resetting > 0 && Settled(s) && !Unladen(s)
    ensures Reaches(Exec(s, EndReset(true)), s') && !Reserved(s')
  {
    var c :| Live(s, c) && Laden(s.calls[c].pc);
    var s0 := Exec(s, EndReset(true));
    ReachesSelf(s0);
    var call := s0.calls[c];
    var (d, record) := (call.delivery, call.pc.record);
    assert s0.since == |s0.sent| && s0.reservations == map[] && At(s0, c, d, call.fingerprint, call.pc);
    if call.pc.PutRecord? {
      s' := BuiltSends(s0, s0, c, d, call.fingerprint, record);
    } else if call.pc.PutAttempt? {
      s' := AttemptSends(s0, s0, c, d, call.fingerprint, record);
    } else {
      var stored, next := ReceiptStored(s0, s0, c);
      s' := AttemptSends(s0, stored, next, d, record.fingerprint, record);
    }
    assert s'.sent[|s0.sent|] == Sent(d, record.payload);
  }

  /** A late receipt write stores the old record, and a fresh call reads it. */
  lemma ReceiptStored(s0: State, s: State, c: nat) returns (s': State, next: nat)
    requires Reaches(s0, s) && Live(s, c) && s.calls[c].pc.PutReceipt?
    ensures var (call, record) := (s.calls[c], s.calls[c].pc.record);
            Reaches(s0, s') && At(s', next, call.delivery, record.fingerprint, PutAttempt(record))
            && s'.sent == s.sent && s'.since == s.since && s'.reservations == s.reservations
  {
    hide Reaches;
    var (d, record) := (s.calls[c].delivery, s.calls[c].pc.record);
    next := s.nextCall;
    ReachesStep(s0, s, Continue(c, Fine(0)));
    var s1 := Exec(s, Continue(c, Fine(0)));
    assert s1.records[d] == record && d !in s1.inflight && s1.nextCall == next;
    ReachesStep(s0, s1, Invoke(d, record.fingerprint));
    var s2 := Exec(s1, Invoke(d, record.fingerprint));
    assert At(s2, next, d, record.fingerprint, ReadRecord) && s2.records[d] == record;
    ReachesStep(s0, s2, Continue(next, Fine(0)));
    s' := Exec(s2, Continue(next, Fine(0)));
  }

  /**
    The full promise after a reset, equal payloads with the proofs of the one stored reservation,
    holds for every continuation if and only if the state is settled and no live call carries a
    payload across.
   */
  lemma ResetKeepsReservationsIff(actions: seq<Action>)
    requires Run(actions).resetting > 0
    ensures var s := Run(actions);
            (forall s' :: Reaches(Exec(s, EndReset(true)), s') ==> SameBytes(s') && Reserved(s'))
            <==> Settled(s) && Unladen(s)
  {
    var s := Run(actions);
    WellFormedHolds(actions);
    hide Exec, Run, Inv, Backed, SameBytes, Reserved, Reaches, WellFormed, Settled, Unladen;
    if !Settled(s) {
      var s' := UnsettledResetRaces(s);
    } else if !Unladen(s) {
      var s' := LadenResetSendsUnreserved(s);
    } else {
      SettledResetKeeps(s);
      forall s' | Reaches(Exec(s, EndReset(true)), s')
        ensures SameBytes(s') && Reserved(s')
      {
        ReachedIsFine(Exec(s, EndReset(true)), s');
      }
    }
  }
}
