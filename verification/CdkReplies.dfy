/**
  What one CDK send does and answers: when it posts, what its first post is made of, which
  receipts it takes and what it returns.
 */
module CdkReplies {
  import opened Prelude
  import opened CdkSender

  /** The request can be looked at: a usable clock, a parsable request, a reset adapter and a valid delivery id. */
  predicate Considered(s: State, input: Input, world: World) {
    world.now <= 9_007_199_254_740_991 && world.parsed.Ok? && s.seed.Some? && (input.deliveryId.None? || world.validId)
  }

  function DeliveryOf(input: Input, world: World): string {
    if input.deliveryId.Some? then input.deliveryId.value else world.generatedId
  }

  /** A first payment can be made: fresh, reserved from a requested mint, validly, and not too large. */
  predicate Payable(request: Request, world: World) {
    && world.now < request.expiresAt <= world.now + 86_400
    && world.reservedMint.Ok? && world.reservedMint.value in request.mints && world.reservationValid
    && |world.payload| <= 65_536 && world.payloadHash.Ok?
  }

  /** The stored delivery is the one that this request asks for, as first built. */
  predicate MadeFor(record: Stored, input: Input, request: Request, world: World)
    requires Payable(request, world)
  {
    && record.requestId == request.id && record.target == request.target && record.unit == request.unit
    && record.amount == request.amount && record.fingerprint.request == input.request && record.fingerprint.memo == input.memo
    && record.mint == world.reservedMint.value && record.mint in request.mints && record.payload == world.payload
    && record.payloadHash == world.payloadHash.value && record.receipt.None? && !record.settledMarked
  }

  /** The record that a send goes on with, if it goes on: the stored one of the same request and memo, or a new one. */
  predicate GoesOnWith(s: State, input: Input, world: World, record: Stored) {
    && Considered(s, input, world)
    && var id := DeliveryOf(input, world);
    if id in s.records then
      record == s.records[id] && record.fingerprint.request == input.request && record.fingerprint.memo == input.memo
    else Payable(world.parsed.value, world) && MadeFor(record, input, world.parsed.value, world)
  }

  /** The receipt is about this payment. */
  predicate IsAbout(r: Receipt, record: Stored, id: string) {
    && r.profile == "cashu-delivery-v1" && r.requestId == record.requestId && r.deliveryId == id
    && r.payloadHash == record.payloadHash && r.mint == record.mint && r.unit == record.unit && r.amount == record.amount
    && r.status in {"processing", "settled", "rejected"} && r.statusVersion > 0 && r.detailCode != ""
  }

  /** It is the first, repeats the last one, or is newer than one that was still processing. */
  predicate GoesForward(r: Receipt, last: Option<Receipt>) {
    last.None? || r == last.value
    || (r.statusVersion > last.value.statusVersion && last.value.status != "settled" && last.value.status != "rejected")
  }

  lemma ReceiptValidIff(r: Receipt, record: Stored, id: string)
    ensures ValidateReceipt(r, record, id).Ok? <==> IsAbout(r, record, id) && GoesForward(r, record.receipt)
  {
  }

  /** A delivery posts its record once and takes the answer exactly if the receipt is valid and a first settlement can be marked. */
  lemma DeliverReply(s: State, id: string, record: Stored, world: World)
    ensures var reply := Deliver(s, id, record, world);
            var first := world.posted.Ok? && world.posted.value.status == "settled" && !record.settledMarked;
            && reply.state.posts == s.posts + [Post(id, record.target, record.payload)]
            && (reply.result.Ok? <==>
                  && world.posted.Ok? && IsAbout(world.posted.value, record, id) && GoesForward(world.posted.value, record.receipt)
                  && (first ==> world.marked.Ok?))
            && (reply.result.Ok? ==>
                  && reply.result.value == world.posted.value
                  && reply.state.records == s.records[id := record.(receipt := Some(world.posted.value),
                                                                     settledMarked := record.settledMarked || first)])
            && (reply.result.Err? ==> reply.state.records == s.records)
            && reply.state.seed == s.seed && reply.state.ordinal == s.ordinal
  {
    if world.posted.Ok? { ReceiptValidIff(world.posted.value, record, id); }
    hide ValidateReceipt, IsAbout, GoesForward;
  }

  lemma NewRecordIff(input: Input, request: Request, world: World)
    ensures NewRecord(input, request, world).Ok? <==> Payable(request, world)
    ensures NewRecord(input, request, world).Ok? ==> MadeFor(NewRecord(input, request, world).value, input, request, world)
  {
  }

  /** How a considered send continues. */
  lemma SendIsDeliver(s: State, input: Input, world: World) returns (record: Option<Stored>)
    ensures record.Some? <==> exists r :: GoesOnWith(s, input, world, r)
    ensures record.Some? ==> GoesOnWith(s, input, world, record.value)
    ensures var id := DeliveryOf(input, world);
            var ordinal := if input.deliveryId.None? && Considered(s, input, world) then s.ordinal + 1 else s.ordinal;
            if record.Some? then
              Send(s, input, world) ==
              Deliver(s.(ordinal := ordinal, records := s.records[id := record.value]), id, record.value, world)
            else Send(s, input, world).state == s.(ordinal := ordinal) && Send(s, input, world).result.Err?
  {
    record := None;
    if Considered(s, input, world) {
      var (id, request) := (DeliveryOf(input, world), world.parsed.value);
      NewRecordIff(input, request, world);
      if id in s.records {
        assert s.records[id := s.records[id]] == s.records;
        if s.records[id].fingerprint == Fingerprint(input.request, input.memo) { record := Some(s.records[id]); }
      } else if NewRecord(input, request, world).Ok? {
        record := Some(NewRecord(input, request, world).value);
      }
    }
    hide NewRecord, Deliver, Payable, MadeFor;
    if record.Some? { assert GoesOnWith(s, input, world, record.value); }
  }

  /**
    One send. It posts exactly once if there is a record to go on with, and otherwise not at all
    and answers with an error; the first post of a delivery has the target, the bytes and the
    expiry window of its request; and the answer is Ok exactly for a valid receipt whose
    settlement could be marked.
   */
  lemma SendReply(s: State, input: Input, world: World) returns (record: Option<Stored>)
    ensures record.Some? <==> exists r :: GoesOnWith(s, input, world, r)
    ensures record.Some? ==> GoesOnWith(s, input, world, record.value)
    ensures var reply := Send(s, input, world);
            var id := DeliveryOf(input, world);
            if record.None? then reply.result.Err? && reply.state.posts == s.posts && reply.state.records == s.records
            else
              && reply.state.posts == s.posts + [Post(id, record.value.target, record.value.payload)]
              && id in reply.state.records && reply.state.records[id].payload == record.value.payload
              && (reply.result.Ok? <==>
                    && world.posted.Ok? && IsAbout(world.posted.value, record.value, id)
                    && GoesForward(world.posted.value, record.value.receipt)
                    && (world.posted.value.status == "settled" && !record.value.settledMarked ==> world.marked.Ok?))
              && (reply.result.Ok? ==>
                    reply.result.value == world.posted.value && reply.state.records[id].receipt == Some(world.posted.value))
  {
    record := SendIsDeliver(s, input, world);
    if record.Some? {
      var id := DeliveryOf(input, world);
      var ordinal := if input.deliveryId.None? then s.ordinal + 1 else s.ordinal;
      DeliverReply(s.(ordinal := ordinal, records := s.records[id := record.value]), id, record.value, world);
    }
    hide Send, Deliver, IsAbout, GoesForward;
  }

  /** A reset starts over exactly with a seed and a wallet that resets; what was posted stays posted. */
  lemma ResetStartsOver(s: State, seed: string, walletReset: Result<()>)
    ensures var s' := Reset(s, seed, walletReset);
            if |seed| > 0 && walletReset.Ok? then
              s'.seed == Some(seed) && s'.ordinal == 0 && s'.records == map[] && s'.posts == s.posts
            else s' == s
  {
  }
}
