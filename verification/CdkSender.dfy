/**
  The funded CDK sender. A send holds one lock from start to end, so a run is a sequence of
  whole sends and resets; what the wallet, the transport and the clock answer is part of each.
 */
module CdkSender {
  import opened Prelude

  const MAX_SAFE_INTEGER: nat := 9_007_199_254_740_991
  const MAX_PAYLOAD_BYTES: nat := 65_536
  const MAX_LIFETIME: nat := 86_400

  datatype Receipt = Receipt(
    profile: string, requestId: string, deliveryId: string, payloadHash: string, status: string, statusVersion: nat,
    mint: string, unit: string, amount: nat, detailCode: string)
  {
    predicate Terminal() { status == "settled" || status == "rejected" }
  }

  datatype Request = Request(id: string, amount: nat, unit: string, mints: seq<string>, target: string, expiresAt: nat)

  /** A fingerprint is represented by what is hashed: the request text and the memo. */
  datatype Input = Input(request: string, deliveryId: Option<string>, memo: Option<string>)

  datatype Fingerprint = Fingerprint(request: string, memo: Option<string>)

  datatype Stored = Stored(
    requestId: string, fingerprint: Fingerprint, target: string, payload: string, payloadHash: string,
    mint: string, unit: string, amount: nat, receipt: Option<Receipt>, settledMarked: bool)

  datatype Post = Post(deliveryId: string, target: string, payload: string)

  datatype State = State(seed: Option<string>, ordinal: nat, records: map<string, Stored>, posts: seq<Post>)

  const InitialState := State(None, 0, map[], [])

  /** What the outside answers during one send. */
  datatype World = World(
    now: nat, parsed: Result<Request>, validId: bool, generatedId: string, reservedMint: Result<string>,
    reservationValid: bool, payload: string, payloadHash: Result<string>, posted: Result<Receipt>, marked: Result<()>)

  datatype Reply = Reply(state: State, result: Result<Receipt>)

  predicate Matches(r: Receipt, record: Stored, deliveryId: string) {
    && r.profile == "cashu-delivery-v1" && r.requestId == record.requestId && r.deliveryId == deliveryId
    && r.payloadHash == record.payloadHash && r.mint == record.mint && r.unit == record.unit && r.amount == record.amount
    && (r.status == "processing" || r.Terminal()) && r.statusVersion != 0 && r.detailCode != ""
  }

  predicate Regresses(r: Receipt, previous: Receipt) {
    || r.statusVersion < previous.statusVersion
    || (r.statusVersion == previous.statusVersion && r != previous)
    || (previous.Terminal() && r != previous)
  }

  function ValidateReceipt(r: Receipt, record: Stored, deliveryId: string): Result<()> {
    if !Matches(r, record, deliveryId) then Err("Cashu receiver receipt does not match the persisted payment")
    else if record.receipt.Some? && Regresses(r, record.receipt.value) then Err("Cashu receiver receipt status regressed")
    else Ok(())
  }

  /** A receipt for the right payment is taken exactly if it repeats the last one or is newer than a non-terminal one. */
  lemma ReceiptTakenIff(r: Receipt, record: Stored, deliveryId: string)
    requires Matches(r, record, deliveryId) && record.receipt.Some?
    ensures ValidateReceipt(r, record, deliveryId).Ok? <==>
              r == record.receipt.value
              || (r.statusVersion > record.receipt.value.statusVersion && !record.receipt.value.Terminal())
  {
  }

  /** The record of a delivery seen for the first time, or why there is none. */
  function NewRecord(input: Input, request: Request, world: World): Result<Stored> {
    if request.expiresAt <= world.now then Err("Cashu payment request has expired")
    else if request.expiresAt - world.now > MAX_LIFETIME then
      Err("Delivery expiry cannot be more than 24 hours away")
    else if world.reservedMint.Err? then Err(world.reservedMint.error)
    else if world.reservedMint.value !in request.mints then
      Err("CDK wallet reserved proofs from an unrequested mint")
    else if !world.reservationValid then Err("CDK wallet returned an invalid proof reservation")
    else if |world.payload| > MAX_PAYLOAD_BYTES then Err("Cashu payment payload is too large")
    else if world.payloadHash.Err? then Err(world.payloadHash.error)
    else
      Ok(Stored(request.id, Fingerprint(input.request, input.memo), request.target, world.payload, world.payloadHash.value,
                world.reservedMint.value, request.unit, request.amount, None, false))
  }

  /** Post the stored payload and take the answer. */
  function Deliver(s: State, id: string, record: Stored, world: World): Reply {
    var posted := s.(posts := s.posts + [Post(id, record.target, record.payload)]);
    if world.posted.Err? then Reply(posted, Err("Cashu payment delivery failed"))
    else
      var r := world.posted.value;
      var verdict := ValidateReceipt(r, record, id);
      var mark := r.status == "settled" && !record.settledMarked;
      if verdict.Err? then Reply(posted, Err(verdict.error))
      else if mark && world.marked.Err? then Reply(posted, Err(world.marked.error))
      else
        Reply(posted.(records := posted.records[id := record.(receipt := Some(r), settledMarked := record.settledMarked || mark)]),
              Ok(r))
  }

  /** Send under delivery id `id`: reuse the stored record of the same request, or store a new one first. */
  function SendAs(s: State, id: string, input: Input, request: Request, world: World): Reply {
    if id in s.records then
      if s.records[id].fingerprint != Fingerprint(input.request, input.memo) then
        Reply(s, Err("Delivery ID is already bound to another payment request"))
      else Deliver(s, id, s.records[id], world)
    else
      var created := NewRecord(input, request, world);
      if created.Err? then Reply(s, Err(created.error))
      else Deliver(s.(records := s.records[id := created.value]), id, created.value, world)
  }

  function Send(s: State, input: Input, world: World): Reply {
    if world.now > MAX_SAFE_INTEGER then Reply(s, Err("CDK adapter time is invalid"))
    else if world.parsed.Err? then Reply(s, Err(world.parsed.error))
    else if s.seed.None? then Reply(s, Err("CDK funded adapter must be reset first"))
    else if input.deliveryId.None? then
      SendAs(s.(ordinal := s.ordinal + 1), world.generatedId, input, world.parsed.value, world)
    else if !world.validId then Reply(s, Err("Protocol ID is invalid"))
    else SendAs(s, input.deliveryId.value, input, world.parsed.value, world)
  }

  function Reset(s: State, seed: string, walletReset: Result<()>): State {
    if seed == "" || walletReset.Err? then s else State(Some(seed), 0, map[], s.posts)
  }

  /** The sender with its state mutated in place. */
  class Sender {
    var seed: Option<string>
    var ordinal: nat
    var records: map<string, Stored>
    var posts: seq<Post>

    ghost function View(): State
      reads this
    {
      State(seed, ordinal, records, posts)
    }

    constructor ()
      ensures View() == InitialState
    {
      seed, ordinal, records, posts := None, 0, map[], [];
    }

    method ResetAll(newSeed: string, walletReset: Result<()>)
      modifies this
      ensures View() == Reset(old(View()), newSeed, walletReset)
    {
      if newSeed == "" || walletReset.Err? { return; }
      seed, ordinal, records := Some(newSeed), 0, map[];
    }

    method SendOne(input: Input, world: World) returns (r: Result<Receipt>)
      modifies this
      ensures Reply(View(), r) == Send(old(View()), input, world)
    {
      hide NewRecord, ValidateReceipt;
      if world.now > MAX_SAFE_INTEGER { return Err("CDK adapter time is invalid"); }
      if world.parsed.Err? { return Err(world.parsed.error); }
      var request := world.parsed.value;
      var fingerprint := Fingerprint(input.request, input.memo);
      if seed.None? { return Err("CDK funded adapter must be reset first"); }
      var id;
      match input.deliveryId {
        case Some(value) =>
          if !world.validId { return Err("Protocol ID is invalid"); }
          id := value;
        case None =>
          id := world.generatedId;
          ordinal := ordinal + 1;
      }
      var record;
      if id in records {
        record := records[id];
        if record.fingerprint != fingerprint {
          return Err("Delivery ID is already bound to another payment request");
        }
      } else {
        var created := NewRecord(input, request, world);
        if created.Err? { return Err(created.error); }
        record := created.value;
        // The exact bytes are stored before the first network attempt.
        records := records[id := record];
      }
      posts := posts + [Post(id, record.target, record.payload)];
      if world.posted.Err? { return Err("Cashu payment delivery failed"); }
      var receipt := world.posted.value;
      var verdict := ValidateReceipt(receipt, record, id);
      if verdict.Err? { return Err(verdict.error); }
      var mark := receipt.status == "settled" && !record.settledMarked;
      if mark && world.marked.Err? { return Err(world.marked.error); }
      records := records[id := record.(receipt := Some(receipt), settledMarked := record.settledMarked || mark)];
      r := Ok(receipt);
    }
  }

  // ---- runs ----

  datatype Action = DoSend(input: Input, world: World) | DoReset(seed: string, walletReset: Result<()>)

  function Exec(s: State, a: Action): State {
    match a
    case DoSend(input, world) => Send(s, input, world).state
    case DoReset(seed, walletReset) => Reset(s, seed, walletReset)
  }

  function Run(actions: seq<Action>): State {
    if actions == [] then InitialState else Exec(Run(actions[..|actions| - 1]), actions[|actions| - 1])
  }

  predicate Resets(a: Action) { a.DoReset? && a.seed != "" && a.walletReset.Ok? }

  /** A later receipt: the same one, or a newer one after a non-terminal one. */
  predicate Advances(before: Option<Receipt>, after: Option<Receipt>) {
    before.None? || (after.Some? && (after == before
                                     || (before.value.statusVersion < after.value.statusVersion && !before.value.Terminal())))
  }

  predicate Evolves(before: Stored, after: Stored) {
    after == before.(receipt := after.receipt, settledMarked := after.settledMarked)
    && Advances(before.receipt, after.receipt)
  }

  predicate RecordOk(id: string, record: Stored) {
    && (record.receipt.Some? ==> Matches(record.receipt.value, record, id))
    && (record.settledMarked <==> record.receipt.Some? && record.receipt.value.status == "settled")
  }

  predicate RecordsOk(s: State) { forall id :: id in s.records ==> RecordOk(id, s.records[id]) }

  /** The one record a delivery touches evolves and stays consistent. */
  lemma DeliverStep(s: State, id: string, record: Stored, world: World)
    requires RecordOk(id, record) && id in s.records && s.records[id] == record
    ensures var s' := Deliver(s, id, record, world).state;
            && s'.records == s.records[id := s'.records[id]] && RecordOk(id, s'.records[id])
            && Evolves(record, s'.records[id])
            && s'.posts == s.posts + [Post(id, record.target, record.payload)]
  {
  }

  lemma NewRecordOk(id: string, input: Input, request: Request, world: World)
    requires NewRecord(input, request, world).Ok?
    ensures RecordOk(id, NewRecord(input, request, world).value)
  {
  }

  /** What one send does to the records and the posts, for some delivery `id`. */
  predicate SendEffect(s: State, s': State, id: string) {
    || (s'.records == s.records && s'.posts == s.posts)
    || (&& id in s'.records && s'.records == s.records[id := s'.records[id]] && RecordOk(id, s'.records[id])
        && (id in s.records ==> Evolves(s.records[id], s'.records[id]))
        && s'.posts == s.posts + [Post(id, s'.records[id].target, s'.records[id].payload)])
  }

  lemma SendAsHasEffect(s: State, id: string, input: Input, request: Request, world: World)
    requires RecordsOk(s)
    ensures SendEffect(s, SendAs(s, id, input, request, world).state, id)
  {
    if id in s.records {
      DeliverStep(s, id, s.records[id], world);
      EvolvesKeepsPayload(s.records[id], Deliver(s, id, s.records[id], world).state.records[id]);
    } else if NewRecord(input, request, world).Ok? {
      var record := NewRecord(input, request, world).value;
      var stored := s.(records := s.records[id := record]);
      NewRecordOk(id, input, request, world);
      DeliverStep(stored, id, record, world);
      EvolvesKeepsPayload(record, Deliver(stored, id, record, world).state.records[id]);
    }
    hide Deliver, RecordOk, Evolves, NewRecord;
  }

  lemma SendHasEffect(s: State, input: Input, world: World) returns (id: string)
    requires RecordsOk(s)
    ensures SendEffect(s, Send(s, input, world).state, id)
  {
    hide SendAs, RecordOk, Evolves;
    id := if input.deliveryId.Some? then input.deliveryId.value else world.generatedId;
    if world.parsed.Ok? {
      var s1 := if input.deliveryId.Some? then s else s.(ordinal := s.ordinal + 1);
      SendAsHasEffect(s1, id, input, world.parsed.value, world);
    }
  }

  lemma EvolvesKeepsPayload(before: Stored, after: Stored)
    requires Evolves(before, after)
    ensures after.target == before.target && after.payload == before.payload
  {
  }

  lemma SendStep(s: State, input: Input, world: World)
    requires RecordsOk(s)
    ensures RecordsOk(Send(s, input, world).state)
    ensures forall id :: id in s.records ==>
              id in Send(s, input, world).state.records
              && Evolves(s.records[id], Send(s, input, world).state.records[id])
  {
    var touched := SendHasEffect(s, input, world);
    hide Send;
  }

  lemma {:induction false} RecordsHold(actions: seq<Action>)
    ensures RecordsOk(Run(actions))
  {
    if actions != [] {
      var (n, a) := (|actions| - 1, actions[|actions| - 1]);
      RecordsHold(actions[..n]);
      if a.DoSend? { SendStep(Run(actions[..n]), a.input, a.world); }
    }
  }

  /** A delivery is marked settled exactly when its stored receipt says so, after every run. */
  lemma SettledMarkMatchesReceipt(actions: seq<Action>, id: string)
    requires id in Run(actions).records
    ensures var record := Run(actions).records[id];
            record.settledMarked <==> record.receipt.Some? && record.receipt.value.status == "settled"
  {
    RecordsHold(actions);
  }

  lemma AdvancesTransitive(a: Option<Receipt>, b: Option<Receipt>, c: Option<Receipt>)
    requires Advances(a, b) && Advances(b, c)
    ensures Advances(a, c)
  {
  }

  /**
    Receipts only move forward. Until a reset a stored delivery stays stored with the same
    payload and identity, its status version never decreases, equal versions mean the same
    receipt, and a settled or rejected receipt never changes.
   */
  lemma {:induction false} ReceiptsOnlyAdvance(actions: seq<Action>, i: nat, j: nat, id: string)
    requires i <= j <= |actions| && id in Run(actions[..i]).records
    requires forall k :: i <= k < j ==> !Resets(actions[k])
    ensures id in Run(actions[..j]).records && Evolves(Run(actions[..i]).records[id], Run(actions[..j]).records[id])
  {
    if i < j {
      ReceiptsOnlyAdvance(actions, i, j - 1, id);
      var (s, a) := (Run(actions[..j - 1]), actions[j - 1]);
      RecordsHold(actions[..j - 1]);
      if a.DoSend? {
        SendStep(s, a.input, a.world);
        assert actions[..j][..j - 1] == actions[..j - 1];
        AdvancesTransitive(Run(actions[..i]).records[id].receipt, s.records[id].receipt, Run(actions[..j]).records[id].receipt);
      } else {
        assert actions[..j][..j - 1] == actions[..j - 1];
      }
    }
  }

  /** The posts a run makes after its first `i` actions come from the stored record. */
  predicate PostsStored(s: State, from: nat) {
    forall k :: from <= k < |s.posts| ==>
      var p := s.posts[k];
      p.deliveryId in s.records && p.payload == s.records[p.deliveryId].payload && p.target == s.records[p.deliveryId].target
  }

  lemma SendPosts(s: State, input: Input, world: World, from: nat)
    requires RecordsOk(s) && PostsStored(s, from) && from <= |s.posts|
    ensures PostsStored(Send(s, input, world).state, from) && s.posts <= Send(s, input, world).state.posts
  {
    var touched := SendHasEffect(s, input, world);
    hide Send, RecordOk;
  }

  lemma {:induction false} PostsSinceReset(actions: seq<Action>, i: nat, j: nat)
    requires i <= j <= |actions| && forall k :: i <= k < j ==> !Resets(actions[k])
    ensures |Run(actions[..i]).posts| <= |Run(actions[..j]).posts|
    ensures PostsStored(Run(actions[..i]), |Run(actions[..i]).posts|)
    ensures PostsStored(Run(actions[..j]), |Run(actions[..i]).posts|)
  {
    if i < j {
      PostsSinceReset(actions, i, j - 1);
      assert actions[..j][..j - 1] == actions[..j - 1];
      var a := actions[j - 1];
      RecordsHold(actions[..j - 1]);
      if a.DoSend? { SendPosts(Run(actions[..j - 1]), a.input, a.world, |Run(actions[..i]).posts|); }
    }
  }

  /** Between resets every post for a delivery carries the same bytes to the same target. */
  lemma PostsAreIdentical(actions: seq<Action>, i: nat, j: nat, m: nat, n: nat)
    requires i <= j <= |actions| && forall k :: i <= k < j ==> !Resets(actions[k])
    requires |Run(actions[..i]).posts| <= m < |Run(actions[..j]).posts|
    requires |Run(actions[..i]).posts| <= n < |Run(actions[..j]).posts|
    requires Run(actions[..j]).posts[m].deliveryId == Run(actions[..j]).posts[n].deliveryId
    ensures Run(actions[..j]).posts[m] == Run(actions[..j]).posts[n]
  {
    PostsSinceReset(actions, i, j);
  }
}
