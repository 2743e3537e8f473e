/**
  The funded cashu-ts sender over a persistent store: concurrent `send` calls share an
  in-flight map, the process may die at any await and restart, `resume` clears the map, and
  `reset` first clears the map and then, after an await, empties the store.

  One step of a call runs from one await to the next. A payload is represented by what is
  serialised into it; `createdAt` is the clock reading of the call that builds it.
 */
module FundedSender {
  import opened Prelude

  type DeliveryId = nat

  datatype Reservation = Reservation(fingerprint: string, proofs: string)

  datatype Payload = Payload(delivery: DeliveryId, fingerprint: string, proofs: string, createdAt: nat)

  datatype Record = Record(fingerprint: string, payload: Payload, attempts: nat)

  datatype Pc =
    | ReadRecord
    | ReadReservation(now: nat)
    | Reserve(now: nat)
    | PutReservation(now: nat, reservation: Reservation)
    | CheckReservation(now: nat, reservation: Reservation)
    | PutRecord(record: Record)
    | PutAttempt(record: Record)
    | Transmit(record: Record)
    | PutReceipt(record: Record)
    | Over

  datatype Call = Call(delivery: DeliveryId, fingerprint: string, pc: Pc)

  datatype Sent = Sent(delivery: DeliveryId, payload: Payload)

  /**
    `records` and `reservations` are durable; `calls`, `inflight` and the number of resets under
    way live in the process. History: `sent`, and how much of it precedes the last store reset.
   */
  datatype State = State(
    records: map<DeliveryId, Record>, reservations: map<DeliveryId, Reservation>,
    calls: map<nat, Call>, inflight: map<DeliveryId, nat>, nextCall: nat, resetting: nat,
    sent: seq<Sent>, since: nat)

  const InitialState := State(map[], map[], map[], map[], 0, 0, [], 0)

  /** What the world decides at one step: the clock, the reserved proofs, whether the await throws and still took effect. */
  datatype Choice = Choice(now: nat, proofs: string, fine: bool, effect: bool)

  datatype Action =
    | Invoke(delivery: DeliveryId, fingerprint: string)
    | Continue(call: nat, choice: Choice)
    | Crash
    | Resume
    | BeginReset
    | EndReset(committed: bool)

  function Build(call: Call, reservation: Reservation, now: nat): Record {
    Record(call.fingerprint, Payload(call.delivery, call.fingerprint, reservation.proofs, now), 0)
  }

  /** What one step does: where the call goes, and what it writes, inserts if absent, or hands to the transport. */
  datatype Effect = Effect(pc: Pc, record: Option<Record>, reservation: Option<Reservation>, payload: Option<Payload>)

  function Just(pc: Pc): Effect { Effect(pc, None, None, None) }

  function WriteIf(pc: Pc, record: Record, happens: bool): Effect {
    Effect(pc, if happens then Some(record) else None, None, None)
  }

  /** The code between two awaits, given the stored record and reservation of the call's delivery. */
  function Decide(stored: Option<Record>, reserved: Option<Reservation>, call: Call, choice: Choice): Effect {
    var happens := choice.fine || choice.effect;
    match call.pc
    case ReadRecord =>
      if !choice.fine then Just(Over)
      else if stored.None? then Just(ReadReservation(choice.now))
      else Just(if stored.value.fingerprint == call.fingerprint then PutAttempt(stored.value) else Over)
    case ReadReservation(now) =>
      if !choice.fine then Just(Over)
      else if reserved.None? then Just(Reserve(now))
      else Just(if reserved.value.fingerprint == call.fingerprint then PutRecord(Build(call, reserved.value, now)) else Over)
    case Reserve(now) =>
      Just(if choice.fine then PutReservation(now, Reservation(call.fingerprint, choice.proofs)) else Over)
    case PutReservation(now, reservation) =>
      Effect(if choice.fine then CheckReservation(now, reservation) else Over,
             None, if happens then Some(reservation) else None, None)
    case CheckReservation(now, reservation) =>
      Just(if choice.fine && reserved == Some(reservation) then PutRecord(Build(call, reservation, now)) else Over)
    case PutRecord(record) => WriteIf(if choice.fine then PutAttempt(record) else Over, record, happens)
    case PutAttempt(record) =>
      var next := record.(attempts := record.attempts + 1);
      WriteIf(if choice.fine then Transmit(next) else Over, next, happens)
    case Transmit(record) => Effect(if choice.fine then PutReceipt(record) else Over, None, None, Some(record.payload))
    case PutReceipt(record) => WriteIf(Over, record, happens)
    case Over => Just(Over)
  }

  function Lookup<T>(m: map<DeliveryId, T>, d: DeliveryId): Option<T> { if d in m then Some(m[d]) else None }

  /** A reservation is inserted only where there is none; `finally` drops whatever entry the delivery has. */
  function ApplyEffect(s: State, c: nat, call: Call, e: Effect): State {
    var d := call.delivery;
    s.(records := if e.record.Some? then s.records[d := e.record.value] else s.records,
       reservations :=
         if e.reservation.Some? && d !in s.reservations then s.reservations[d := e.reservation.value] else s.reservations,
       calls := s.calls[c := call.(pc := e.pc)],
       inflight := if e.pc.Over? then s.inflight - {d} else s.inflight,
       sent := if e.payload.Some? then s.sent + [Sent(d, e.payload.value)] else s.sent)
  }

  function Step(s: State, c: nat, call: Call, choice: Choice): State {
    if call.pc.Over? then s
    else ApplyEffect(s, c, call, Decide(Lookup(s.records, call.delivery), Lookup(s.reservations, call.delivery), call, choice))
  }

  function Exec(s: State, a: Action): State {
    match a
    case Invoke(d, fingerprint) =>
      // A call on a delivery in flight joins it or is refused; either way nothing new starts.
      if d in s.inflight then s
      else s.(calls := s.calls[s.nextCall := Call(d, fingerprint, ReadRecord)],
              inflight := s.inflight[d := s.nextCall], nextCall := s.nextCall + 1)
    case Continue(c, choice) => if c in s.calls then Step(s, c, s.calls[c], choice) else s
    case Crash => s.(calls := map[], inflight := map[], resetting := 0)
    case Resume => s.(inflight := map[])
    case BeginReset => s.(inflight := map[], resetting := s.resetting + 1)
    case EndReset(committed) =>
      if s.resetting == 0 then s
      else if !committed then s.(resetting := s.resetting - 1)
      else EmptyStore(s.(resetting := s.resetting - 1))
  }

  /** The store's transaction: every record and reservation goes, whatever calls are live. */
  function EmptyStore(s: State): State { s.(records := map[], reservations := map[], since := |s.sent|) }

  function RunFrom(s: State, actions: seq<Action>): State {
    if actions == [] then s else Exec(RunFrom(s, actions[..|actions| - 1]), actions[|actions| - 1])
  }

  function Run(actions: seq<Action>): State { RunFrom(InitialState, actions) }

  lemma RunLast(s: State, actions: seq<Action>, a: Action)
    ensures RunFrom(s, actions + [a]) == Exec(RunFrom(s, actions), a)
  {
    hide Exec;
    assert (actions + [a])[..|actions|] == actions;
  }

  // ---- when clearing the in-flight map or emptying the store is harmless ----

  predicate Live(s: State, c: nat) { c in s.calls && !s.calls[c].pc.Over? }

  predicate Clears(a: Action) { a.Resume? || a.BeginReset? }

  predicate Empties(s: State, a: Action) { a.EndReset? && a.committed && s.resetting > 0 }

  /** Every live call's delivery already has its stored payload. */
  ghost predicate Quiet(s: State) { forall c :: Live(s, c) ==> s.calls[c].delivery in s.records }

  /** Call `c` is the one that later calls on its delivery would join. */
  predicate Owns(s: State, c: nat)
    requires c in s.calls
  {
    var d := s.calls[c].delivery;
    d in s.inflight && s.inflight[d] == c
  }

  /** Every live call owns its in-flight entry and is not about to hand its payload over. */
  ghost predicate Settled(s: State) { forall c :: Live(s, c) ==> Owns(s, c) && !s.calls[c].pc.Transmit? }

  /** The call carries a payload that it has built or read. */
  predicate Laden(pc: Pc) { pc.PutRecord? || pc.PutAttempt? || pc.Transmit? || pc.PutReceipt? }

  ghost predicate Unladen(s: State) { forall c :: Live(s, c) ==> !Laden(s.calls[c].pc) }

  /** The in-flight map is cleared in quiet states only, and the store emptied in settled states only. */
  ghost predicate Careful(s: State, a: Action) { (Clears(a) ==> Quiet(s)) && (Empties(s, a) ==> Settled(s)) }

  ghost predicate CarefulFrom(s: State, actions: seq<Action>) {
    forall k :: 0 <= k < |actions| ==> Careful(RunFrom(s, actions[..k]), actions[k])
  }

  ghost predicate UnladenResets(s: State, actions: seq<Action>) {
    forall k :: 0 <= k < |actions| && Empties(RunFrom(s, actions[..k]), actions[k]) ==> Unladen(RunFrom(s, actions[..k]))
  }

  /** All payloads handed over for a delivery since the store was last emptied are the same. */
  predicate SameBytes(s: State) {
    forall i, j :: s.since <= i < |s.sent| && s.since <= j < |s.sent| && s.sent[i].delivery == s.sent[j].delivery ==>
      s.sent[i].payload == s.sent[j].payload
  }

  /** They carry the proofs of the delivery's one stored reservation. */
  predicate Reserved(s: State) {
    forall i :: s.since <= i < |s.sent| ==>
      var d := s.sent[i].delivery;
      d in s.reservations && s.sent[i].payload.proofs == s.reservations[d].proofs
  }

  // ---- what every run keeps ----

  /** Call numbers are not reused and an in-flight entry names a live call on its delivery. */
  predicate WellFormed(s: State) {
    && (forall c :: c in s.calls ==> c < s.nextCall)
    && (forall d :: d in s.inflight ==> Live(s, s.inflight[d]) && s.calls[s.inflight[d]].delivery == d)
    && s.since <= |s.sent|
  }

  lemma WellFormedStep(s: State, a: Action)
    requires WellFormed(s)
    ensures WellFormed(Exec(s, a))
  {
    hide Decide;
  }

  lemma {:induction false} WellFormedHolds(actions: seq<Action>)
    ensures WellFormed(Run(actions))
  {
    if actions != [] {
      WellFormedHolds(actions[..|actions| - 1]);
      WellFormedStep(Run(actions[..|actions| - 1]), actions[|actions| - 1]);
    }
  }

  // ---- the invariant of careful runs ----

  /** The payload a call holds, once it may be sent, is `payload`. */
  predicate Holds(pc: Pc, payload: Payload) {
    (pc.PutAttempt? || pc.Transmit? || pc.PutReceipt?) ==> pc.record.payload == payload
  }

  predicate Building(pc: Pc) {
    pc.ReadReservation? || pc.Reserve? || pc.PutReservation? || pc.CheckReservation? || pc.PutRecord?
  }

  predicate CallOk(s: State, c: nat)
    requires c in s.calls
  {
    var call := s.calls[c];
    var d := call.delivery;
    && c < s.nextCall
    && (d in s.records ==> !Building(call.pc) && Holds(call.pc, s.records[d].payload))
    && (d !in s.records && !call.pc.Over? ==> Owns(s, c) && !call.pc.Transmit?)
  }

  predicate SentOk(s: State, i: nat)
    requires i < |s.sent|
  {
    s.sent[i].delivery in s.records && s.sent[i].payload == s.records[s.sent[i].delivery].payload
  }

  predicate Inv(s: State) {
    && (forall c :: c in s.calls ==> CallOk(s, c))
    && (forall i :: s.since <= i < |s.sent| ==> SentOk(s, i))
  }

  /** What the invariant says about a step's effect on its own delivery. */
  predicate EffectOk(s: State, call: Call, e: Effect) {
    var d := call.delivery;
    && (e.record.Some? && d in s.records ==> e.record.value.payload == s.records[d].payload)
    && (e.payload.Some? ==> d in s.records && e.payload.value == s.records[d].payload)
  }

  function EffectOf(s: State, c: nat, choice: Choice): Effect
    requires c in s.calls
  {
    var call := s.calls[c];
    Decide(Lookup(s.records, call.delivery), Lookup(s.reservations, call.delivery), call, choice)
  }

  lemma DecideOk(s: State, c: nat, choice: Choice)
    requires c in s.calls && CallOk(s, c)
    ensures var (call, e) := (s.calls[c], EffectOf(s, c, choice));
            EffectOk(s, call, e) && (!call.pc.Over? ==> CallOk(ApplyEffect(s, c, call, e), c))
  {
  }

  lemma OtherCallOk(s: State, c: nat, e: Effect, u: nat)
    requires c in s.calls && CallOk(s, c) && !s.calls[c].pc.Over? && EffectOk(s, s.calls[c], e)
    requires u != c && u in s.calls && CallOk(s, u)
    ensures CallOk(ApplyEffect(s, c, s.calls[c], e), u)
  {
  }

  lemma StepKeeps(s: State, c: nat, choice: Choice)
    requires Inv(s) && c in s.calls
    ensures Inv(Step(s, c, s.calls[c], choice))
  {
    var call := s.calls[c];
    if !call.pc.Over? {
      var e := EffectOf(s, c, choice);
      DecideOk(s, c, choice);
      var s' := ApplyEffect(s, c, call, e);
      hide Decide, CallOk;
      forall i | s'.since <= i < |s'.sent| ensures SentOk(s', i) { assert i < |s.sent| ==> SentOk(s, i); }
      forall u | u in s.calls
        ensures CallOk(s', u)
      {
        if u != c { OtherCallOk(s, c, e, u); }
      }
    }
  }

  lemma ExecKeeps(s: State, a: Action)
    requires Inv(s) && Careful(s, a)
    ensures Inv(Exec(s, a))
  {
    if a.Continue? {
      if a.call in s.calls { StepKeeps(s, a.call, a.choice); }
    } else {
      var s' := Exec(s, a);
      forall i | s'.since <= i < |s'.sent| ensures SentOk(s', i) { assert SentOk(s, i); }
      forall c | c in s'.calls ensures CallOk(s', c) { assert c in s.calls ==> CallOk(s, c); }
    }
  }

  lemma CarefulPrefix(s: State, actions: seq<Action>, a: Action)
    requires CarefulFrom(s, actions + [a])
    ensures CarefulFrom(s, actions) && Careful(RunFrom(s, actions), a)
  {
    hide RunFrom, Careful;
    var all := actions + [a];
    forall k | 0 <= k < |actions| ensures Careful(RunFrom(s, actions[..k]), actions[k]) {
      assert all[..k] == actions[..k] && all[k] == actions[k];
    }
    assert all[..|actions|] == actions && all[|actions|] == a;
  }

  lemma {:induction false} InvFrom(s: State, actions: seq<Action>)
    requires Inv(s) && CarefulFrom(s, actions)
    ensures Inv(RunFrom(s, actions))
  {
    if actions != [] {
      var (before, a) := (actions[..|actions| - 1], actions[|actions| - 1]);
      assert actions == before + [a];
      hide Exec, RunFrom, Inv, Careful, CarefulFrom;
      CarefulPrefix(s, before, a);
      InvFrom(s, before);
      RunLast(s, before, a);
      ExecKeeps(RunFrom(s, before), a);
    }
  }

  lemma InvMeansSame(s: State)
    requires Inv(s)
    ensures SameBytes(s)
  {
    hide CallOk;
    forall i, j | s.since <= i < |s.sent| && s.since <= j < |s.sent| && s.sent[i].delivery == s.sent[j].delivery
      ensures s.sent[i].payload == s.sent[j].payload
    {
      assert SentOk(s, i) && SentOk(s, j);
    }
  }

  /**
    Crash-safe identical payloads. Over any number of crashes, restarts, resets and concurrent
    calls, all payloads handed to the transport for a delivery since the store was last emptied
    are equal, provided `resume` and the first half of `reset` happen in quiet states and the
    second half in settled ones.
   */
  lemma PayloadsAreIdentical(actions: seq<Action>)
    requires CarefulFrom(InitialState, actions)
    ensures SameBytes(Run(actions))
  {
    InvFrom(InitialState, actions);
    InvMeansSame(Run(actions));
  }

  // ---- the proofs come from the reservation ----

  predicate ProofsOf(s: State, d: DeliveryId, record: Record) {
    d in s.reservations && record.payload.proofs == s.reservations[d].proofs
  }

  /** A stored payload has its stored reservation, and so has one that is about to be stored. */
  ghost predicate Backed(s: State) {
    && (forall d :: d in s.records ==> ProofsOf(s, d, s.records[d]))
    && (forall c :: Live(s, c) && s.calls[c].delivery !in s.records && Laden(s.calls[c].pc) ==>
          s.calls[c].pc.PutRecord? && ProofsOf(s, s.calls[c].delivery, s.calls[c].pc.record))
  }

  lemma BackedContinue(s: State, c: nat, choice: Choice)
    requires Inv(s) && Backed(s) && c in s.calls
    ensures Backed(Step(s, c, s.calls[c], choice))
  {
    assert CallOk(s, c);
    if Live(s, c) {
      var (call, e) := (s.calls[c], EffectOf(s, c, choice));
      var s' := ApplyEffect(s, c, call, e);
      forall u | Live(s', u) && u != c && s'.calls[u].delivery !in s'.records && Laden(s'.calls[u].pc)
        ensures s'.calls[u].pc.PutRecord? && ProofsOf(s', s'.calls[u].delivery, s'.calls[u].pc.record)
      {
        assert Live(s, u) && CallOk(s, u);
      }
    }
  }

  lemma BackedStep(s: State, a: Action)
    requires Inv(s) && Backed(s) && (Empties(s, a) ==> Unladen(s))
    ensures Backed(Exec(s, a))
  {
    if a.Continue? {
      if a.call in s.calls { BackedContinue(s, a.call, a.choice); }
    } else {
      var s' := Exec(s, a);
      forall c | Live(s', c) && s'.calls[c].delivery !in s'.records && Laden(s'.calls[c].pc)
        ensures s'.calls[c].pc.PutRecord? && ProofsOf(s', s'.calls[c].delivery, s'.calls[c].pc.record)
      {
        assert Live(s, c);
      }
    }
  }

  lemma UnladenPrefix(s: State, actions: seq<Action>, a: Action)
    requires UnladenResets(s, actions + [a])
    ensures UnladenResets(s, actions) && (Empties(RunFrom(s, actions), a) ==> Unladen(RunFrom(s, actions)))
  {
    hide RunFrom, Empties, Unladen;
    var all := actions + [a];
    forall k | 0 <= k < |actions| && Empties(RunFrom(s, actions[..k]), actions[k]) ensures Unladen(RunFrom(s, actions[..k])) {
      assert all[..k] == actions[..k] && all[k] == actions[k];
    }
    assert all[..|actions|] == actions && all[|actions|] == a;
  }

  lemma {:induction false} BackedFrom(s: State, actions: seq<Action>)
    requires Inv(s) && Backed(s) && CarefulFrom(s, actions) && UnladenResets(s, actions)
    ensures Backed(RunFrom(s, actions))
  {
    if actions != [] {
      var (before, a) := (actions[..|actions| - 1], actions[|actions| - 1]);
      assert actions == before + [a];
      hide Exec, RunFrom, Inv, Backed, Careful, CarefulFrom, UnladenResets, Unladen, Empties;
      CarefulPrefix(s, before, a);
      UnladenPrefix(s, before, a);
      BackedFrom(s, before);
      InvFrom(s, before);
      RunLast(s, before, a);
      BackedStep(RunFrom(s, before), a);
    }
  }

  lemma BackedMeansReserved(s: State)
    requires Inv(s) && Backed(s)
    ensures Reserved(s)
  {
    hide CallOk;
    forall i | s.since <= i < |s.sent|
      ensures SentOk(s, i) && ProofsOf(s, s.sent[i].delivery, s.records[s.sent[i].delivery])
    {
      assert SentOk(s, i);
    }
  }

  /** If moreover no live call carries a payload when the store is emptied, the proofs are those of the reservation. */
  lemma ProofsAreReserved(actions: seq<Action>)
    requires CarefulFrom(InitialState, actions) && UnladenResets(InitialState, actions)
    ensures Reserved(Run(actions))
  {
    InvFrom(InitialState, actions);
    BackedFrom(InitialState, actions);
    BackedMeansReserved(Run(actions));
  }
}
