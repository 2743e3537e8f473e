/**
  What single calls of the cashu-ts sender do, in every run: whose request a payload belongs
  to, which requests are refused, and what a call that is left alone stores and sends.
 */
module FundedReplies {
  import opened Prelude
  import opened FundedSender
  import opened FundedRaces

  // ---- payloads belong to their requests ----

  /** The record was built for delivery `d`, and its payload from the record's own request. */
  predicate BuiltFor(d: DeliveryId, record: Record) {
    record.payload.delivery == d && record.payload.fingerprint == record.fingerprint
  }

  ghost predicate Signed(s: State) {
    && (forall d :: d in s.records ==> BuiltFor(d, s.records[d]))
    && (forall c :: Live(s, c) && Laden(s.calls[c].pc) ==>
          BuiltFor(s.calls[c].delivery, s.calls[c].pc.record) && s.calls[c].pc.record.fingerprint == s.calls[c].fingerprint)
  }

  lemma SignedContinue(s: State, c: nat, choice: Choice)
    requires Signed(s) && c in s.calls
    ensures Signed(Step(s, c, s.calls[c], choice))
  {
    if Live(s, c) {
      var s' := Step(s, c, s.calls[c], choice);
      forall u | Live(s', u) && u != c && Laden(s'.calls[u].pc)
        ensures BuiltFor(s'.calls[u].delivery, s'.calls[u].pc.record)
                && s'.calls[u].pc.record.fingerprint == s'.calls[u].fingerprint
      {
        assert Live(s, u);
      }
    }
  }

  lemma SignedStep(s: State, a: Action)
    requires Signed(s)
    ensures Signed(Exec(s, a))
  {
    if a.Continue? {
      if a.call in s.calls { SignedContinue(s, a.call, a.choice); }
    } else {
      var s' := Exec(s, a);
      forall u | Live(s', u) && Laden(s'.calls[u].pc)
        ensures BuiltFor(s'.calls[u].delivery, s'.calls[u].pc.record)
                && s'.calls[u].pc.record.fingerprint == s'.calls[u].fingerprint
      {
        assert Live(s, u);
      }
    }
  }

  lemma {:induction false} SignedHolds(actions: seq<Action>)
    ensures Signed(Run(actions))
  {
    if actions != [] {
      SignedHolds(actions[..|actions| - 1]);
      SignedStep(Run(actions[..|actions| - 1]), actions[|actions| - 1]);
    }
  }

  /** In every run, whatever a call hands over was built for that call's delivery and that call's request. */
  lemma HandedOverAsAsked(actions: seq<Action>, c: nat, choice: Choice)
    requires var s := Run(actions); c in s.calls && |Exec(s, Continue(c, choice)).sent| > |s.sent|
    ensures var s := Run(actions);
            var sent := Exec(s, Continue(c, choice)).sent;
            && sent[..|s.sent|] == s.sent && |sent| == |s.sent| + 1
            && sent[|s.sent|].delivery == s.calls[c].delivery
            && sent[|s.sent|].payload.delivery == s.calls[c].delivery
            && sent[|s.sent|].payload.fingerprint == s.calls[c].fingerprint
  {
    SignedHolds(actions);
    hide Run;
    var s := Run(actions);
    assert Live(s, c);
  }

  // ---- reservations ----

  /** The first reservation of a delivery stays until the store is emptied, in every run. */
  lemma ReservationStays(s: State, a: Action, d: DeliveryId)
    requires d in s.reservations && !Empties(s, a)
    ensures d in Exec(s, a).reservations && Exec(s, a).reservations[d] == s.reservations[d]
  {
    hide Decide;
  }

  // ---- refusals ----

  /** Nothing happens but that the call ends and leaves the in-flight map. */
  predicate JustEnds(s: State, s': State, c: nat)
    requires c in s.calls
  {
    s' == s.(calls := s.calls[c := s.calls[c].(pc := Over)], inflight := s.inflight - {s.calls[c].delivery})
  }

  /** A delivery that is bound to another request by its record or its reservation is refused. */
  lemma OtherRequestIsRefused(s: State, c: nat, choice: Choice)
    requires c in s.calls
    ensures var (call, s') := (s.calls[c], Exec(s, Continue(c, choice)));
            (call.pc.ReadRecord? && call.delivery in s.records && s.records[call.delivery].fingerprint != call.fingerprint) ==>
              JustEnds(s, s', c)
    ensures var (call, s') := (s.calls[c], Exec(s, Continue(c, choice)));
            (call.pc.ReadReservation? && call.delivery in s.reservations
             && s.reservations[call.delivery].fingerprint != call.fingerprint) ==> JustEnds(s, s', c)
  {
  }

  /** A call on a delivery that is in flight starts nothing new. */
  lemma InFlightIsJoined(s: State, d: DeliveryId, fingerprint: string)
    requires d in s.inflight
    ensures Exec(s, Invoke(d, fingerprint)) == s
  {
  }

  // ---- a call left alone ----

  /** A first send: one reservation, one payload with its proofs and the clock, stored and handed over once. */
  lemma FirstSend(s: State, d: DeliveryId, fingerprint: string, now: nat) returns (s': State)
    requires d !in s.inflight && d !in s.records && d !in s.reservations
    ensures Reaches(s, s') && |s'.sent| == |s.sent| + 1 && s'.sent[..|s.sent|] == s.sent
    ensures var sent := s'.sent[|s.sent|];
            && sent.delivery == d && sent.payload.createdAt == now && sent.payload.delivery == d
            && sent.payload.fingerprint == fingerprint
            && d in s'.records && s'.records[d].payload == sent.payload && s'.records[d].attempts == 1
            && d in s'.reservations && s'.reservations[d].fingerprint == fingerprint
            && sent.payload.proofs == s'.reservations[d].proofs
  {
    ReachesSelf(s);
    var read := FreshCall(s, s, d, fingerprint, now);
    var kept := FreshReserve(s, read, s.nextCall, d, fingerprint, now);
    var built := FreshCheck(s, kept, s.nextCall, d, Reservation(fingerprint, "proofs"), now);
    var record := built.calls[s.nextCall].pc.record;
    hide Reaches;
    s' := StoredAndSent(s, built, s.nextCall, record);
  }

  lemma StoredAndSent(s0: State, s: State, c: nat, record: Record) returns (s': State)
    requires Reaches(s0, s) && c in s.calls && s.calls[c].pc == PutRecord(record)
    ensures Reaches(s0, s') && s'.sent == s.sent + [Sent(s.calls[c].delivery, record.payload)]
    ensures s'.reservations == s.reservations
    ensures var d := s.calls[c].delivery;
            d in s'.records && s'.records[d] == record.(attempts := record.attempts + 1)
  {
    hide Reaches;
    var go := Continue(c, Fine(0));
    ReachesStep(s0, s, go);
    var s1 := Exec(s, go);
    assert s1.calls[c] == s.calls[c].(pc := PutAttempt(record)) && s1.sent == s.sent && s1.reservations == s.reservations;
    s' := CountedAndSent(s0, s1, c, record);
  }

  lemma CountedAndSent(s0: State, s: State, c: nat, record: Record) returns (s': State)
    requires Reaches(s0, s) && c in s.calls && s.calls[c].pc == PutAttempt(record)
    ensures Reaches(s0, s') && s'.sent == s.sent + [Sent(s.calls[c].delivery, record.payload)]
    ensures s'.reservations == s.reservations
    ensures var d := s.calls[c].delivery;
            d in s'.records && s'.records[d] == record.(attempts := record.attempts + 1)
  {
    hide Reaches;
    var go := Continue(c, Fine(0));
    ReachesStep(s0, s, go);
    var s1 := Exec(s, go);
    ReachesStep(s0, s1, go);
    s' := Exec(s1, go);
  }

  /** A repeated send of the same request: the stored payload goes out again, and the attempt is counted first. */
  lemma RepeatedSend(s: State, d: DeliveryId, now: nat) returns (s': State)
    requires d !in s.inflight && d in s.records
    ensures Reaches(s, s') && s'.sent == s.sent + [Sent(d, s.records[d].payload)] && s'.reservations == s.reservations
    ensures d in s'.records && s'.records[d] == s.records[d].(attempts := s.records[d].attempts + 1)
  {
    ReachesSelf(s);
    hide Reaches;
    var (record, c) := (s.records[d], s.nextCall);
    ReachesStep(s, s, Invoke(d, record.fingerprint));
    var s1 := Exec(s, Invoke(d, record.fingerprint));
    assert s1.calls[c] == Call(d, record.fingerprint, ReadRecord) && s1.records == s.records;
    ReachesStep(s, s1, Continue(c, Fine(now)));
    var s2 := Exec(s1, Continue(c, Fine(now)));
    assert s2.calls[c].pc == PutAttempt(record) && s2.sent == s.sent && s2.reservations == s.reservations;
    s' := CountedAndSent(s, s2, c, record);
  }
}
