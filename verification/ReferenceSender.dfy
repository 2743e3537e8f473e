/**
  The reference sender's handling of one delivery under its delivery lock.

  Every `await` of the source may complete, throw (with its effect done or not done), or be
  the point where the process dies. What the sender did to the outside is kept in `trace`.
 */
module ReferenceSender {
  import opened Prelude

  datatype Status = Sending | Settled | Rejected | RecoveryRequired
  {
    predicate Terminal() { Settled? || Rejected? }
  }

  datatype Stage = Transport | ReceiptValidation

  datatype Code = TransportFailure | PermanentFailure | InvalidReceipt | ReceiptIdentityConflict | ReceiptTransitionConflict

  datatype Diagnostic = Diagnostic(attempt: nat, target: string, stage: Stage, code: Code, retryable: bool)

  datatype ReceiptStatus = ReceiptProcessing | ReceiptSettled | ReceiptRejected

  datatype Receipt = Receipt(status: ReceiptStatus, recoveryBlocked: bool, body: string)

  datatype Record = Record(
    transports: seq<string>, bytes: string, target: string, status: Status, attempts: nat,
    receipt: Option<Receipt>, diagnostics: seq<Diagnostic>)

  /** What happens to the outside, what comes back, where a run of attempts starts, and where an awaited call fails. */
  datatype Event =
    | RunStarted(maxAttempts: nat)
    | Persisted(record: Record)
    | Sent(attempt: nat, target: string, bytes: string)
    | Answered(answer: Answer)
    | MarkedSettled
    | ReleasedRejected
    | MarkedRecovery
    | Slept(localAttempt: nat, milliseconds: nat)
    | Broke(fate: Fate)

  /** How an awaited call ends. */
  datatype Fate = Done | Threw | Died

  /** What comes back from the transport, with the verdicts of parsing, identity check and merge. */
  datatype Answer =
    | TransportThrew
    | ProcessDied
    | NoResponse
    | Refused
    | Receipted(parsed: bool, identical: bool, merged: Option<Receipt>)

  datatype Outcome = Finished(status: Status) | Failed(fate: Fate)

  const MAX_DIAGNOSTICS: nat := 20
  const MAX_SAFE_INTEGER: nat := 9_007_199_254_740_991

  // ---- retry delays ----

  function Power2(n: nat): nat { if n == 0 then 1 else 2 * Power2(n - 1) }

  function Min(a: nat, b: nat): nat { if a < b then a else b }

  /** The capped exponential bound of the `attempt`-th delay. */
  function DelayBound(attempt: nat, base: nat, cap: nat): nat { Min(cap, base * Power2(Min(attempt, 30))) }

  /** `retryDelay`, over exact real arithmetic. */
  function RetryDelay(attempt: nat, base: nat, cap: nat, sample: real): Result<int> {
    if attempt > MAX_SAFE_INTEGER then Err("Retry attempt must be a nonnegative safe integer")
    else if base < 1 || base > MAX_SAFE_INTEGER || cap < 1 || cap > MAX_SAFE_INTEGER then
      Err("Retry bounds must be positive safe integers")
    else if sample < 0.0 || sample > 1.0 then Err("Retry random sample must be between zero and one")
    else Ok(((DelayBound(attempt, base, cap) as real) * sample).Floor)
  }

  lemma ScaleDown(bound: nat, sample: real)
    requires 0.0 <= sample <= 1.0
    ensures 0 <= ((bound as real) * sample).Floor <= bound
  {
    var product := (bound as real) * sample;
    assert 0.0 <= product <= bound as real;
    assert product.Floor as real <= bound as real;
  }

  /** A delay never exceeds its capped exponential bound, and the bound is reached. */
  lemma DelayIsBounded(attempt: nat, base: nat, cap: nat, sample: real)
    requires RetryDelay(attempt, base, cap, sample).Ok?
    ensures 0 <= RetryDelay(attempt, base, cap, sample).value <= DelayBound(attempt, base, cap) <= cap
    ensures sample == 1.0 ==> RetryDelay(attempt, base, cap, sample).value == DelayBound(attempt, base, cap)
    ensures var delay := RetryDelay(attempt, base, cap, sample).value;
            delay as real <= (DelayBound(attempt, base, cap) as real) * sample < delay as real + 1.0
  {
    ScaleDown(DelayBound(attempt, base, cap), sample);
  }

  // ---- diagnostics ----

  /** What the store checks before it saves. */
  predicate DiagnosticsValid(diagnostics: seq<Diagnostic>) {
    |diagnostics| <= MAX_DIAGNOSTICS
    && forall k :: 0 <= k < |diagnostics| ==> 1 <= diagnostics[k].attempt <= MAX_SAFE_INTEGER
  }

  /** What the sender maintains: a bounded list with one diagnostic per attempt, in order. */
  predicate DiagnosticsOk(r: Record) {
    && |r.diagnostics| <= MAX_DIAGNOSTICS
    && (forall k :: 0 <= k < |r.diagnostics| ==> 1 <= r.diagnostics[k].attempt <= r.attempts)
    && (forall j, k :: 0 <= j < k < |r.diagnostics| ==> r.diagnostics[j].attempt < r.diagnostics[k].attempt)
  }

  function LastN<T>(s: seq<T>, n: nat): seq<T> { if |s| <= n then s else s[|s| - n..] }

  function AppendDiagnostic(r: Record, code: Code, stage: Stage, retryable: bool): Record {
    r.(diagnostics := LastN(r.diagnostics + [Diagnostic(r.attempts, r.target, stage, code, retryable)], MAX_DIAGNOSTICS))
  }

  /** No diagnostic of the present attempt yet. */
  predicate NotYetDiagnosed(r: Record) {
    DiagnosticsOk(r) && r.attempts >= 1
    && forall k :: 0 <= k < |r.diagnostics| ==> r.diagnostics[k].attempt < r.attempts
  }

  lemma AppendKeepsOrder(r: Record, code: Code, stage: Stage, retryable: bool)
    requires NotYetDiagnosed(r)
    ensures DiagnosticsOk(AppendDiagnostic(r, code, stage, retryable))
  {
  }

  /** The newest diagnostic is of the present attempt and target; before it stand the newest of the old ones. */
  lemma AppendMeaning(r: Record, code: Code, stage: Stage, retryable: bool)
    ensures var (before, after) := (r.diagnostics, AppendDiagnostic(r, code, stage, retryable).diagnostics);
            && 1 <= |after| <= 20 && after[|after| - 1] == Diagnostic(r.attempts, r.target, stage, code, retryable)
            && |after| - 1 == Min(|before|, 19) && after[..|after| - 1] == before[|before| - (|after| - 1)..]
    ensures AppendDiagnostic(r, code, stage, retryable) == r.(diagnostics := AppendDiagnostic(r, code, stage, retryable).diagnostics)
  {
  }

  /** The sender's diagnostics always pass validation while attempts are safe integers. */
  lemma DiagnosticsPassValidation(r: Record)
    requires DiagnosticsOk(r) && r.attempts <= MAX_SAFE_INTEGER
    ensures DiagnosticsValid(r.diagnostics)
  {
  }

  // ---- what may happen next ----

  function Stored(trace: seq<Event>): Option<Record> {
    if trace == [] then None
    else
      var last := trace[|trace| - 1];
      if last.Persisted? then Some(last.record) else Stored(trace[..|trace| - 1])
  }

  /** One more than the last attempt number handed to the transport. */
  function Tried(trace: seq<Event>): nat {
    if trace == [] then 0
    else
      var last := trace[|trace| - 1];
      if last.Sent? then last.attempt + 1 else Tried(trace[..|trace| - 1])
  }

  function Sends(trace: seq<Event>): nat {
    if trace == [] then 0
    else Sends(trace[..|trace| - 1]) + if trace[|trace| - 1].Sent? then 1 else 0
  }

  function Breaks(trace: seq<Event>): nat {
    if trace == [] then 0
    else Breaks(trace[..|trace| - 1]) + if trace[|trace| - 1].Broke? then 1 else 0
  }

  // ---- one run of attempts ----

  /** The answers that allow another attempt. */
  predicate Retryable(a: Answer) {
    || a.TransportThrew? || a.NoResponse?
    || (a.Receipted? && (!a.parsed || (a.identical && a.merged.Some? && a.merged.value.status == ReceiptProcessing
                                       && !a.merged.value.recoveryBlocked)))
  }

  /** The answers that end the attempts without a result: a refusal, a conflict, a blocked recovery. */
  predicate Stops(a: Answer) {
    || a.Refused?
    || (a.Receipted? && a.parsed && (!a.identical || a.merged.None? || (a.merged.value.status == ReceiptProcessing
                                                                      && a.merged.value.recoveryBlocked)))
  }

  /** The answers that settle or reject the delivery. */
  predicate Concludes(a: Answer) {
    a.Receipted? && a.parsed && a.identical && a.merged.Some? && a.merged.value.status != ReceiptProcessing
  }

  /** The present run: its limit, its sends and sleeps, the last answer, and whether something was saved since. */
  datatype RunView = RunView(max: nat, sends: nat, sleeps: nat, awaiting: bool, answer: Option<Answer>, saved: bool)

  function Advance(v: Option<RunView>, e: Event): Option<RunView> {
    if e.RunStarted? then Some(RunView(e.maxAttempts, 0, 0, false, None, false))
    else if v.None? then None
    else
      match e
      case Sent(_, _, _) => Some(v.value.(sends := v.value.sends + 1, awaiting := true, answer := None, saved := false))
      case Answered(a) => Some(v.value.(awaiting := false, answer := Some(a), saved := false))
      case Persisted(_) => Some(v.value.(saved := true))
      case Slept(_, _) => Some(v.value.(sleeps := v.value.sleeps + 1))
      case _ => v
  }

  function CurrentRun(trace: seq<Event>): Option<RunView> {
    if trace == [] then None else Advance(CurrentRun(trace[..|trace| - 1]), trace[|trace| - 1])
  }

  /** What a run of attempts may do next. */
  predicate RunAllows(v: Option<RunView>, e: Event) {
    match e
    case RunStarted(max) => 1 <= max <= 100
    case Sent(_, _, _) =>
      && v.Some? && v.value.saved && !v.value.awaiting && v.value.sends < v.value.max && v.value.sleeps == v.value.sends
      && (v.value.answer.None? <==> v.value.sends == 0) && (v.value.answer.Some? ==> Retryable(v.value.answer.value))
    case Answered(_) => v.Some? && v.value.awaiting
    case Slept(local, _) =>
      && v.Some? && v.value.saved && v.value.answer.Some? && Retryable(v.value.answer.value)
      && local == v.value.sleeps && v.value.sends == local + 1 && v.value.sends < v.value.max
    case Persisted(r) =>
      && (r.status == RecoveryRequired ==>
            && v.Some? && v.value.saved && v.value.answer.Some? && !Concludes(v.value.answer.value)
            && (v.value.sends == v.value.max || Stops(v.value.answer.value)))
      && (r.status.Terminal() ==>
            v.Some? && v.value.answer.Some? && Concludes(v.value.answer.value) && r.receipt == v.value.answer.value.merged)
    case _ => true
  }

  function TargetFor(transports: seq<string>, attempt: nat): string
    requires |transports| > 0
  {
    transports[Min(attempt, |transports| - 1)]
  }

  predicate TerminalMatchesReceipt(r: Record) {
    && (r.status == Settled ==> r.receipt.Some? && r.receipt.value.status == ReceiptSettled)
    && (r.status == Rejected ==> r.receipt.Some? && r.receipt.value.status == ReceiptRejected)
  }

  /** The discipline: which event may follow which history. */
  predicate Allowed(trace: seq<Event>, e: Event) {
    RecordAllows(trace, e) && RunAllows(CurrentRun(trace), e)
  }

  predicate RecordAllows(trace: seq<Event>, e: Event) {
    var stored := Stored(trace);
    match e
    case RunStarted(_) => stored.Some? && !stored.value.status.Terminal()
    case Persisted(r) =>
      && |r.transports| > 0 && DiagnosticsOk(r) && TerminalMatchesReceipt(r)
      && (stored.None? ==> r.status == Sending && r.attempts == 0)
      && (stored.Some? ==>
            && !stored.value.status.Terminal()
            && r.transports == stored.value.transports && r.bytes == stored.value.bytes
            && stored.value.attempts <= r.attempts <= stored.value.attempts + 1)
    case Sent(attempt, target, bytes) =>
      && stored.Some? && !stored.value.status.Terminal() && |stored.value.transports| > 0
      && stored.value.attempts == attempt + 1 && Tried(trace) <= attempt
      && bytes == stored.value.bytes && target == stored.value.target == TargetFor(stored.value.transports, attempt)
    case MarkedSettled => stored.Some? && stored.value.status == Settled
    case ReleasedRejected => stored.Some? && stored.value.status == Rejected
    case MarkedRecovery => stored.None? || !stored.value.status.Terminal()
    case Slept(localAttempt, milliseconds) => milliseconds <= DelayBound(localAttempt, 250, 30_000)
    case _ => true
  }

  /** The wallet has just been told of `status`. */
  predicate Told(trace: seq<Event>, status: Status) {
    |trace| > 0 &&
    match status
    case Settled => trace[|trace| - 1] == MarkedSettled
    case Rejected => trace[|trace| - 1] == ReleasedRejected
    case RecoveryRequired => trace[|trace| - 1] == MarkedRecovery
    case Sending => false
  }

  predicate StepAllowed(trace: seq<Event>, k: nat)
    requires k < |trace|
  {
    Allowed(trace[..k], trace[k])
  }

  predicate Disciplined(trace: seq<Event>) { forall k :: 0 <= k < |trace| ==> StepAllowed(trace, k) }

  lemma Snoc(trace: seq<Event>, e: Event)
    requires Disciplined(trace) && Allowed(trace, e)
    ensures Disciplined(trace + [e])
    ensures Stored(trace + [e]) == if e.Persisted? then Some(e.record) else Stored(trace)
    ensures Tried(trace + [e]) == if e.Sent? then e.attempt + 1 else Tried(trace)
    ensures Sends(trace + [e]) == Sends(trace) + if e.Sent? then 1 else 0
    ensures Breaks(trace + [e]) == Breaks(trace) + if e.Broke? then 1 else 0
    ensures CurrentRun(trace + [e]) == Advance(CurrentRun(trace), e)
  {
    hide Advance, RunAllows, RecordAllows;
    var t := trace + [e];
    assert t[..|trace|] == trace;
    forall k | 0 <= k < |t|
      ensures StepAllowed(t, k)
    {
      if k < |trace| { assert t[..k] == trace[..k] && StepAllowed(trace, k); }
    }
  }

  // ---- what the discipline means ----

  predicate TerminalAt(trace: seq<Event>, k: nat)
    requires k <= |trace|
  {
    Stored(trace[..k]).Some? && Stored(trace[..k]).value.status.Terminal()
  }

  /** A persisted terminal record never changes, and after it nothing is sent or marked for recovery. */
  lemma {:induction false} TerminalIsFrozen(trace: seq<Event>, i: nat, j: nat)
    requires Disciplined(trace) && i <= j <= |trace| && TerminalAt(trace, i)
    ensures Stored(trace[..j]) == Stored(trace[..i])
    ensures j < |trace| ==> !trace[j].Persisted? && !trace[j].Sent? && !trace[j].MarkedRecovery?
  {
    if j < |trace| { assert StepAllowed(trace, j); }
    if i < j { assert StepAllowed(trace, j - 1); }
    hide DiagnosticsOk, TerminalMatchesReceipt, DelayBound, TargetFor, Tried, RunAllows, CurrentRun;
    if i < j {
      TerminalIsFrozen(trace, i, j - 1);
      assert trace[..j][..j - 1] == trace[..j - 1];
    }
  }

  /** Over the whole life of a delivery its wallet sees only settlement or only release. */
  lemma SettleOrReleaseNeverBoth(trace: seq<Event>, i: nat, j: nat)
    requires Disciplined(trace) && i < |trace| && j < |trace| && trace[i].MarkedSettled?
    ensures !trace[j].ReleasedRejected?
  {
    assert StepAllowed(trace, i) && StepAllowed(trace, j);
    if trace[j].ReleasedRejected? {
      if i <= j { TerminalIsFrozen(trace, i, j); } else { TerminalIsFrozen(trace, j, i); }
    }
  }

  /** The matching receipt is persisted before the wallet is told. */
  lemma {:induction false} ReceiptFirst(trace: seq<Event>, j: nat)
    requires Disciplined(trace) && j < |trace| && (trace[j].MarkedSettled? || trace[j].ReleasedRejected?)
    ensures exists i :: 0 <= i < j && trace[i].Persisted? && trace[i].record.receipt.Some?
              && trace[i].record.receipt.value.status
                 == if trace[j].MarkedSettled? then ReceiptSettled else ReceiptRejected
  {
    assert StepAllowed(trace, j);
    var i := PersistedAt(trace, j);
  }

  lemma {:induction false} PersistedAt(trace: seq<Event>, j: nat) returns (i: nat)
    requires Disciplined(trace) && j <= |trace| && Stored(trace[..j]).Some?
    ensures i < j && trace[i].Persisted? && Stored(trace[..j]) == Some(trace[i].record)
    ensures TerminalMatchesReceipt(trace[i].record)
  {
    assert StepAllowed(trace, j - 1);
    if trace[j - 1].Persisted? {
      i := j - 1;
    } else {
      assert trace[..j][..j - 1] == trace[..j - 1];
      i := PersistedAt(trace, j - 1);
    }
  }

  lemma {:induction false} IdentityIsKept(trace: seq<Event>, i: nat, j: nat)
    requires Disciplined(trace) && i <= j <= |trace| && Stored(trace[..i]).Some?
    ensures Stored(trace[..j]).Some?
    ensures Stored(trace[..j]).value.bytes == Stored(trace[..i]).value.bytes
    ensures Stored(trace[..j]).value.transports == Stored(trace[..i]).value.transports
    ensures Stored(trace[..i]).value.attempts <= Stored(trace[..j]).value.attempts
  {
    if i < j { assert StepAllowed(trace, j - 1); }
    hide DiagnosticsOk, TerminalMatchesReceipt, DelayBound, TargetFor, Tried, RunAllows, CurrentRun;
    if i < j {
      IdentityIsKept(trace, i, j - 1);
      assert trace[..j][..j - 1] == trace[..j - 1];
    }
  }

  lemma {:induction false} TriedGrows(trace: seq<Event>, i: nat, j: nat)
    requires Disciplined(trace) && i <= j <= |trace|
    ensures Tried(trace[..i]) <= Tried(trace[..j])
  {
    if i < j { assert StepAllowed(trace, j - 1); }
    hide Stored, DiagnosticsOk, TerminalMatchesReceipt, DelayBound, TargetFor, RunAllows, CurrentRun;
    if i < j {
      TriedGrows(trace, i, j - 1);
      assert trace[..j][..j - 1] == trace[..j - 1];
    }
  }

  /**
    Attempt discipline. Of two sends the later one has the larger attempt number, so no number
    is used twice; both carry the same bytes; and attempt `k` goes to transport `min(k, n - 1)`.
   */
  lemma AttemptsAreUsedOnce(trace: seq<Event>, i: nat, j: nat)
    requires Disciplined(trace) && i < j < |trace| && trace[i].Sent? && trace[j].Sent?
    ensures trace[i].attempt < trace[j].attempt && trace[i].bytes == trace[j].bytes
    ensures Stored(trace[..j]).Some?
    ensures var transports := Stored(trace[..j]).value.transports;
            |transports| > 0 && trace[i].target == TargetFor(transports, trace[i].attempt)
            && trace[j].target == TargetFor(transports, trace[j].attempt)
  {
    assert StepAllowed(trace, i) && StepAllowed(trace, j);
    assert trace[..i + 1][..i] == trace[..i];
    TriedGrows(trace, i + 1, j);
    IdentityIsKept(trace, i, j);
  }

  /** What the stored record satisfies at every point of a disciplined history. */
  lemma {:induction false} StoredFactsAt(trace: seq<Event>, j: nat)
    requires Disciplined(trace) && j <= |trace|
    ensures Stored(trace[..j]).None? ==> Tried(trace[..j]) == 0
    ensures Stored(trace[..j]).Some? ==>
              var r := Stored(trace[..j]).value;
              |r.transports| > 0 && DiagnosticsOk(r) && TerminalMatchesReceipt(r) && Tried(trace[..j]) <= r.attempts
  {
    if j > 0 { assert StepAllowed(trace, j - 1); }
    hide DiagnosticsOk, TerminalMatchesReceipt, DelayBound, TargetFor, RunAllows, CurrentRun;
    if j > 0 {
      StoredFactsAt(trace, j - 1);
      assert trace[..j][..j - 1] == trace[..j - 1];
    }
  }

  lemma StoredFacts(trace: seq<Event>)
    requires Disciplined(trace)
    ensures Stored(trace).None? ==> Tried(trace) == 0
    ensures Stored(trace).Some? ==>
              var r := Stored(trace).value;
              |r.transports| > 0 && DiagnosticsOk(r) && TerminalMatchesReceipt(r) && Tried(trace) <= r.attempts
  {
    StoredFactsAt(trace, |trace|);
    assert trace[..|trace|] == trace;
    hide *;
  }

  // ---- what a run of attempts means ----

  lemma RunAt(trace: seq<Event>, k: nat)
    requires k < |trace|
    ensures CurrentRun(trace[..k + 1]) == Advance(CurrentRun(trace[..k]), trace[k])
  {
    hide Advance;
    assert trace[..k + 1][..k] == trace[..k];
  }

  lemma AllowedAt(trace: seq<Event>, k: nat)
    requires Disciplined(trace) && k < |trace|
    ensures RunAllows(CurrentRun(trace[..k]), trace[k])
  {
    assert StepAllowed(trace, k);
    hide RunAllows, CurrentRun, RecordAllows;
  }

  predicate SameRun(trace: seq<Event>, i: nat, j: nat)
    requires i <= j <= |trace|
  {
    forall k :: i <= k < j ==> !trace[k].RunStarted?
  }

  /** After a refusal, a conflict, a blocked or a final receipt the run neither sends nor sleeps again. */
  lemma {:induction false} NothingSentAfterStop(trace: seq<Event>, i: nat, j: nat, a: Answer)
    requires Disciplined(trace) && i < j <= |trace| && trace[i] == Answered(a) && (Stops(a) || Concludes(a))
    requires SameRun(trace, i, j)
    ensures var v := CurrentRun(trace[..j]); v.Some? && v.value.answer == Some(a) && !v.value.awaiting
    ensures j < |trace| ==> !trace[j].Sent? && !trace[j].Slept? && !trace[j].Answered?
  {
    hide CurrentRun;
    RunAt(trace, j - 1);
    AllowedAt(trace, j - 1);
    if j < |trace| { AllowedAt(trace, j); }
    if i + 1 < j { NothingSentAfterStop(trace, i, j - 1, a); }
  }

  /** How many sleeps lie at positions `i .. j`. */
  function Sleeps(trace: seq<Event>, i: nat, j: nat): nat
    requires i <= j <= |trace|
  {
    if i == j then 0 else Sleeps(trace, i, j - 1) + if trace[j - 1].Slept? then 1 else 0
  }

  lemma {:induction false} SleepsCounted(trace: seq<Event>, i: nat, j: nat)
    requires i <= j <= |trace| && CurrentRun(trace[..i]).Some?
    requires forall k :: i <= k < j ==> !trace[k].RunStarted? && !trace[k].Sent?
    ensures var (v, v') := (CurrentRun(trace[..i]), CurrentRun(trace[..j]));
            v'.Some? && v'.value.sleeps == v.value.sleeps + Sleeps(trace, i, j) && v'.value.sends == v.value.sends
  {
    hide CurrentRun;
    if i < j {
      SleepsCounted(trace, i, j - 1);
      RunAt(trace, j - 1);
    }
  }

  /** Between two consecutive sends of one run there is exactly one sleep, and the answer in between allowed the retry. */
  lemma OneSleepBetweenSends(trace: seq<Event>, i: nat, j: nat)
    requires Disciplined(trace) && i < j < |trace| && trace[i].Sent? && trace[j].Sent?
    requires forall k :: i < k < j ==> !trace[k].RunStarted? && !trace[k].Sent?
    ensures Sleeps(trace, i + 1, j) == 1
    ensures exists k :: i < k < j && trace[k].Answered? && Retryable(trace[k].answer)
  {
    hide CurrentRun;
    AllowedAt(trace, i);
    AllowedAt(trace, j);
    RunAt(trace, i);
    SleepsCounted(trace, i + 1, j);
    var k := AnsweredAt(trace, i + 1, j);
  }

  /** The last answer since position `i`, where there was none. */
  lemma {:induction false} AnsweredAt(trace: seq<Event>, i: nat, j: nat) returns (k: nat)
    requires i <= j <= |trace| && CurrentRun(trace[..i]).Some? && CurrentRun(trace[..i]).value.answer.None?
    requires forall n :: i <= n < j ==> !trace[n].RunStarted? && !trace[n].Sent?
    requires CurrentRun(trace[..j]).Some? && CurrentRun(trace[..j]).value.answer.Some?
    ensures i <= k < j && trace[k] == Answered(CurrentRun(trace[..j]).value.answer.value)
  {
    hide CurrentRun;
    SleepsCounted(trace, i, j - 1);
    RunAt(trace, j - 1);
    if trace[j - 1].Answered? {
      k := j - 1;
    } else {
      k := AnsweredAt(trace, i, j - 1);
    }
  }

  /** How many sends lie at positions `i .. j`. */
  function SendsIn(trace: seq<Event>, i: nat, j: nat): nat
    requires i <= j <= |trace|
  {
    if i == j then 0 else SendsIn(trace, i, j - 1) + if trace[j - 1].Sent? then 1 else 0
  }

  lemma {:induction false} RunSends(trace: seq<Event>, i: nat, j: nat)
    requires i < j <= |trace| && trace[i].RunStarted? && SameRun(trace, i + 1, j)
    ensures var v := CurrentRun(trace[..j]);
            v.Some? && v.value.max == trace[i].maxAttempts && v.value.sends == SendsIn(trace, i + 1, j)
  {
    hide CurrentRun;
    RunAt(trace, j - 1);
    if i + 1 < j { RunSends(trace, i, j - 1); }
  }

  /** The last answer of a run, where it was given, with nothing sent or answered since. */
  lemma {:induction false} LastAnswerAt(trace: seq<Event>, i: nat, j: nat) returns (k: nat)
    requires i < j <= |trace| && trace[i].RunStarted? && SameRun(trace, i + 1, j)
    requires CurrentRun(trace[..j]).Some? && CurrentRun(trace[..j]).value.answer.Some?
    ensures i < k < j && trace[k] == Answered(CurrentRun(trace[..j]).value.answer.value)
    ensures forall n :: k < n < j ==> !trace[n].Sent? && !trace[n].Answered?
  {
    hide CurrentRun;
    RunAt(trace, j - 1);
    RunSends(trace, i, j);
    if trace[j - 1].Answered? {
      k := j - 1;
    } else {
      RunSends(trace, i, j - 1);
      k := LastAnswerAt(trace, i, j - 1);
    }
  }

  /**
    Retries are used up. A run that started at `i` persists "recovery required" only after
    exactly its allowed number of sends, or when the last answer stops it; and it never sends
    more often than allowed.
   */
  lemma GivesUpOnlyWhenDone(trace: seq<Event>, i: nat, j: nat)
    requires Disciplined(trace) && i < j < |trace| && trace[i].RunStarted? && SameRun(trace, i + 1, j)
    ensures SendsIn(trace, i + 1, j) <= trace[i].maxAttempts
    ensures trace[j].Persisted? && trace[j].record.status == RecoveryRequired ==>
              exists k :: i < k < j && trace[k].Answered? && (forall n :: k < n < j ==> !trace[n].Sent? && !trace[n].Answered?)
                          && !Concludes(trace[k].answer)
                          && (SendsIn(trace, i + 1, j) == trace[i].maxAttempts || Stops(trace[k].answer))
  {
    hide CurrentRun;
    RunSends(trace, i, j);
    AllowedAt(trace, j);
    SendsBounded(trace, i, j);
    if trace[j].Persisted? && trace[j].record.status == RecoveryRequired { var k := LastAnswerAt(trace, i, j); }
  }

  lemma {:induction false} SendsBounded(trace: seq<Event>, i: nat, j: nat)
    requires Disciplined(trace) && i < j <= |trace| && trace[i].RunStarted? && SameRun(trace, i + 1, j)
    ensures SendsIn(trace, i + 1, j) <= trace[i].maxAttempts
  {
    hide CurrentRun;
    if i + 1 < j {
      SendsBounded(trace, i, j - 1);
      RunSends(trace, i, j - 1);
      AllowedAt(trace, j - 1);
    }
  }

  // ---- the sender ----

  /** The verdict on one answer: the receipt and the diagnostic it leaves in the record. */
  predicate JudgedBy(r: Record, answer: Answer, judged: Record) {
    && judged == r.(receipt := judged.receipt, diagnostics := judged.diagnostics)
    && judged.receipt == (if answer.Receipted? && answer.parsed && answer.identical && answer.merged.Some?
                          then answer.merged else r.receipt)
    && match answer
       case Receipted(parsed, identical, merged) =>
         if !parsed then judged == AppendDiagnostic(r, InvalidReceipt, ReceiptValidation, true)
         else if !identical then judged == AppendDiagnostic(r, ReceiptIdentityConflict, ReceiptValidation, false)
         else if merged.None? then judged == AppendDiagnostic(r, ReceiptTransitionConflict, ReceiptValidation, false)
         else judged.diagnostics == r.diagnostics
       case Refused => judged == AppendDiagnostic(r, PermanentFailure, Transport, false)
       case _ => judged == AppendDiagnostic(r, TransportFailure, Transport, true)
  }

  /** An awaited call has just failed. */
  ghost predicate Failing(before: seq<Event>, after: seq<Event>) {
    Breaks(after) > Breaks(before) && |after| > 0 && after[|after| - 1].Broke?
  }

  /** Marking for recovery was the last thing done, or it failed, or the record could not be read for it. */
  predicate MarkTried(trace: seq<Event>) {
    || (|trace| > 0 && trace[|trace| - 1].MarkedRecovery?)
    || (|trace| > 1 && trace[|trace| - 1].Broke? && (trace[|trace| - 2].MarkedRecovery? || trace[|trace| - 2].Broke?))
  }

  /** History is only added to. */
  ghost predicate Grown(before: seq<Event>, after: seq<Event>) { before <= after }

  lemma GrownOn(before: seq<Event>, mid: seq<Event>, after: seq<Event>)
    requires Grown(before, mid) && Grown(mid, after)
    ensures Grown(before, after)
  {
  }

  class Delivery {
    var stored: Option<Record>
    var trace: seq<Event>

    ghost predicate Valid()
      reads this
    {
      Disciplined(trace) && stored == Stored(trace)
    }

    constructor ()
      ensures Valid() && trace == []
    {
      stored, trace := None, [];
    }

    method Note(e: Event)
      requires Valid() && Allowed(trace, e)
      modifies this
      ensures Valid() && trace == old(trace) + [e]
      ensures stored == if e.Persisted? then Some(e.record) else old(stored)
      ensures Tried(trace) == if e.Sent? then e.attempt + 1 else Tried(old(trace))
      ensures Sends(trace) == Sends(old(trace)) + if e.Sent? then 1 else 0
      ensures Breaks(trace) == Breaks(old(trace)) + if e.Broke? then 1 else 0
      ensures CurrentRun(trace) == Advance(CurrentRun(old(trace)), e)
    {
      Snoc(trace, e);
      trace := trace + [e];
      if e.Persisted? { stored := Some(e.record); }
    }

    /** An awaited call fails. */
    method Break(fate: Fate)
      requires Valid()
      modifies this
      ensures Valid() && Grown(old(trace), trace) && stored == old(stored)
      ensures Tried(trace) == Tried(old(trace)) && Sends(trace) == Sends(old(trace))
      ensures Failing(old(trace), trace) && trace == old(trace) + [Broke(fate)] && CurrentRun(trace) == CurrentRun(old(trace))
    {
      Note(Broke(fate));
    }

    /** `state.create` and `state.save`: both validate, then write; a failing write may have happened. */
    method Write(r: Record, create: bool) returns (fate: Fate)
      requires Valid() && ((create <==> stored.None?) ==> Allowed(trace, Persisted(r)))
      modifies this
      ensures Valid() && Grown(old(trace), trace)
      ensures Tried(trace) == Tried(old(trace)) && Sends(trace) == Sends(old(trace))
      ensures stored == old(stored) || stored == Some(r)
      ensures fate == Done ==>
                && trace == old(trace) + [Persisted(r)] && stored == Some(r) && Breaks(trace) == Breaks(old(trace))
                && CurrentRun(trace) == Advance(CurrentRun(old(trace)), Persisted(r))
      ensures fate != Done ==> Failing(old(trace), trace)
      ensures create != old(stored).None? || !DiagnosticsValid(r.diagnostics) ==> fate == Threw && stored == old(stored)
    {
      if create != stored.None? || !DiagnosticsValid(r.diagnostics) {
        Break(Threw);
        return Threw;
      }
      var written: bool := *;
      fate := *;
      if written || fate == Done { Note(Persisted(r)); }
      if fate != Done { Break(fate); }
    }

    method Transmit(attempt: nat, target: string, bytes: string) returns (answer: Answer)
      requires Valid() && Allowed(trace, Sent(attempt, target, bytes))
      modifies this
      ensures Valid() && Grown(old(trace), trace) && stored == old(stored)
      ensures Tried(trace) == attempt + 1 && Sends(trace) == Sends(old(trace)) + 1
      ensures if answer.ProcessDied? then Failing(old(trace), trace) else Breaks(trace) == Breaks(old(trace))
      ensures !answer.ProcessDied? ==>
                CurrentRun(trace) == Advance(Advance(CurrentRun(old(trace)), Sent(attempt, target, bytes)), Answered(answer))
    {
      Note(Sent(attempt, target, bytes));
      answer := *;
      if answer.ProcessDied? { Break(Died); } else { Note(Answered(answer)); }
    }

    /** A call on the wallet, or a sleep. */
    method Tell(e: Event) returns (fate: Fate)
      requires Valid() && Allowed(trace, e) && (e.MarkedSettled? || e.ReleasedRejected? || e.MarkedRecovery? || e.Slept?)
      modifies this
      ensures Valid() && Grown(old(trace), trace) && stored == old(stored)
      ensures Tried(trace) == Tried(old(trace)) && Sends(trace) == Sends(old(trace))
      ensures CurrentRun(trace) == Advance(CurrentRun(old(trace)), e)
      ensures fate == Done ==> trace == old(trace) + [e] && Breaks(trace) == Breaks(old(trace))
      ensures fate != Done ==> Failing(old(trace), trace) && exists f :: trace == old(trace) + [e, Broke(f)]
    {
      Note(e);
      fate := *;
      if fate != Done { Break(fate); }
    }

    /** The verdict on one answer: the record with its receipt or diagnostic, and whether to go on. */
    static method Judge(r: Record, answer: Answer) returns (judged: Record, shouldRetry: bool)
      requires NotYetDiagnosed(r) && !answer.ProcessDied?
      ensures DiagnosticsOk(judged) && JudgedBy(r, answer, judged)
      ensures !Concludes(answer) ==> (shouldRetry <==> Retryable(answer)) && (!shouldRetry <==> Stops(answer))
    {
      judged, shouldRetry := r, true;
      match answer {
        case TransportThrew =>
          AppendKeepsOrder(r, TransportFailure, Transport, true);
          judged := AppendDiagnostic(r, TransportFailure, Transport, true);
        case NoResponse =>
          AppendKeepsOrder(r, TransportFailure, Transport, true);
          judged := AppendDiagnostic(r, TransportFailure, Transport, true);
        case Refused =>
          AppendKeepsOrder(r, PermanentFailure, Transport, false);
          judged := AppendDiagnostic(r, PermanentFailure, Transport, false);
          shouldRetry := false;
        case Receipted(parsed, identical, merged) =>
          if !parsed {
            AppendKeepsOrder(r, InvalidReceipt, ReceiptValidation, true);
            judged := AppendDiagnostic(r, InvalidReceipt, ReceiptValidation, true);
          } else if !identical {
            AppendKeepsOrder(r, ReceiptIdentityConflict, ReceiptValidation, false);
            judged := AppendDiagnostic(r, ReceiptIdentityConflict, ReceiptValidation, false);
            shouldRetry := false;
          } else if merged.None? {
            AppendKeepsOrder(r, ReceiptTransitionConflict, ReceiptValidation, false);
            judged := AppendDiagnostic(r, ReceiptTransitionConflict, ReceiptValidation, false);
            shouldRetry := false;
          } else {
            judged := r.(receipt := merged);
            if merged.value.recoveryBlocked { shouldRetry := false; }
          }
      }
    }

    /** The wallet call that goes with a final status. */
    static function Announcement(status: Status): Event {
      match status
      case Settled => MarkedSettled
      case Rejected => ReleasedRejected
      case _ => MarkedRecovery
    }

    /** Persist the final record of this run, then tell the wallet. */
    method Conclude(r: Record) returns (out: Outcome)
      requires Valid() && stored.Some? && !r.status.Sending? && Allowed(trace, Persisted(r))
      modifies this
      ensures Valid() && Grown(old(trace), trace) && Sends(trace) == Sends(old(trace))
      ensures out.Finished? ==>
                stored == Some(r) && out.status == r.status && Told(trace, r.status) && Breaks(trace) == Breaks(old(trace))
      ensures out.Failed? ==> out.fate != Done && Failing(old(trace), trace)
    {
      hide Disciplined, DiagnosticsOk, Stored, Tried, Sends, Breaks, CurrentRun, Advance;
      var fate := Write(r, false);
      if fate != Done { return Failed(fate); }
      fate := Tell(Announcement(r.status));
      if fate != Done { return Failed(fate); }
      out := Finished(r.status);
    }

    /** The local record is the stored one, up to its status, receipt and diagnostics. */
    ghost predicate InStep(record: Record)
      reads this
    {
      && stored.Some? && !stored.value.status.Terminal() && record.status == Sending
      && record.transports == stored.value.transports && record.bytes == stored.value.bytes
      && record.attempts == stored.value.attempts && |record.transports| > 0
      && DiagnosticsOk(record) && Tried(trace) <= record.attempts
    }

    /** The run has made `sends` sends out of `max` and may make the next one. */
    ghost predicate MaySend(max: nat, sends: nat)
      reads this
    {
      var v := CurrentRun(trace);
      && v.Some? && v.value.max == max && v.value.sends == sends && v.value.sleeps == sends && sends < max
      && !v.value.awaiting && (v.value.answer.None? <==> sends == 0)
      && (v.value.answer.Some? ==> Retryable(v.value.answer.value))
    }

    /** The run has made `sends` sends, the last of which was answered by `answer`, and saved the verdict. */
    ghost predicate Judged(max: nat, sends: nat, answer: Answer)
      reads this
    {
      sends >= 1 && CurrentRun(trace) == Some(RunView(max, sends, sends - 1, false, Some(answer), true))
    }

    /** The record that goes with the next attempt. */
    static function Next(record: Record): Record
      requires |record.transports| > 0
    {
      record.(target := TargetFor(record.transports, record.attempts), attempts := record.attempts + 1)
    }

    /** One attempt: persist the attempt number and target, send, judge the answer, persist the verdict. */
    method Attempt(record: Record, ghost max: nat, ghost sends: nat)
      returns (ended: Option<Outcome>, judged: Record, shouldRetry: bool, ghost answer: Answer)
      requires Valid() && InStep(record) && MaySend(max, sends)
      modifies this
      ensures Valid() && Grown(old(trace), trace) && Sends(old(trace)) <= Sends(trace) <= Sends(old(trace)) + 1
      ensures ended.None? || ended.value.Finished? ==> Sends(trace) == Sends(old(trace)) + 1
      ensures ended.None? ==>
                && InStep(judged) && stored == Some(judged) && Judged(max, sends + 1, answer)
                && JudgedBy(Next(record), answer, judged)
                && (shouldRetry <==> Retryable(answer)) && (!shouldRetry <==> Stops(answer)) && !Concludes(answer)
      ensures ended.None? || ended.value.Finished? ==> Breaks(trace) == Breaks(old(trace))
      ensures ended.Some? && ended.value.Finished? ==>
                && stored.Some? && stored.value.status == ended.value.status
                && ended.value.status.Terminal() && Told(trace, ended.value.status)
      ensures ended.Some? && ended.value.Failed? ==> ended.value.fate != Done && Failing(old(trace), trace)
    {
      hide Disciplined, DiagnosticsOk, Stored, Tried, Sends, Breaks, DelayBound, CurrentRun;
      var next := Next(record);
      NextAttemptUndiagnosed(record, next);
      judged, shouldRetry, ended, answer := next, true, None, NoResponse;
      var fate := Write(next, false);
      if fate != Done { return Some(Failed(fate)), next, true, answer; }
      var got := Transmit(record.attempts, next.target, next.bytes);
      answer := got;
      if got.ProcessDied? { return Some(Failed(Died)), next, true, answer; }
      judged, shouldRetry := Judge(next, got);
      if got.Receipted? && got.parsed && got.identical && got.merged.Some? && got.merged.value.status != ReceiptProcessing {
        var status := if got.merged.value.status == ReceiptSettled then Settled else Rejected;
        StatusKeepsDiagnostics(judged, status);
        var out := Conclude(judged.(status := status));
        return Some(out), judged, shouldRetry, answer;
      }
      fate := Write(judged, false);
      if fate != Done { ended := Some(Failed(fate)); }
    }

    static lemma NextAttemptUndiagnosed(record: Record, next: Record)
      requires DiagnosticsOk(record) && next.diagnostics == record.diagnostics && next.attempts == record.attempts + 1
      ensures NotYetDiagnosed(next) && DiagnosticsOk(next)
    {
    }

    static lemma StatusKeepsDiagnostics(record: Record, status: Status)
      requires DiagnosticsOk(record)
      ensures DiagnosticsOk(record.(status := status))
    {
    }

    /** Sleep for a random time within the capped exponential bound; a sample outside the unit interval throws. */
    method Pause(localAttempt: nat, ghost record: Record, ghost max: nat, ghost answer: Answer) returns (fate: Fate)
      requires Valid() && InStep(record) && localAttempt + 1 < max <= 100 && Judged(max, localAttempt + 1, answer) && Retryable(answer)
      modifies this
      ensures Valid() && Grown(old(trace), trace) && stored == old(stored)
      ensures Tried(trace) == Tried(old(trace)) && Sends(trace) == Sends(old(trace))
      ensures fate == Done ==> InStep(record) && MaySend(max, localAttempt + 1) && Breaks(trace) == Breaks(old(trace))
      ensures fate != Done ==> Failing(old(trace), trace)
    {
      hide Disciplined, Stored, Tried, Sends, Breaks, CurrentRun;
      var sample: real := *;
      if RetryDelay(localAttempt, 250, 30_000, sample).Err? {
        Break(Threw);
        return Threw;
      }
      DelayIsBounded(localAttempt, 250, 30_000, sample);
      fate := Tell(Slept(localAttempt, RetryDelay(localAttempt, 250, 30_000, sample).value));
    }

    lemma RecoveryAllowed(record: Record, max: nat, sends: nat, answer: Answer)
      requires Valid() && InStep(record) && MayGiveUp(max, sends, answer)
      ensures Allowed(trace, Persisted(record.(status := RecoveryRequired)))
    {
      StatusKeepsDiagnostics(record, RecoveryRequired);
      hide Disciplined, DiagnosticsOk, Stored, Tried, Sends, DelayBound, CurrentRun;
    }

    /** Persist that recovery is required, then tell the wallet. */
    method GiveUp(record: Record, ghost max: nat, ghost sends: nat, ghost answer: Answer) returns (out: Outcome)
      requires Valid() && InStep(record) && MayGiveUp(max, sends, answer)
      modifies this
      ensures Valid() && Grown(old(trace), trace) && Sends(trace) == Sends(old(trace))
      ensures out.Finished? ==>
                && out.status == RecoveryRequired && stored == Some(record.(status := RecoveryRequired))
                && Told(trace, RecoveryRequired) && Breaks(trace) == Breaks(old(trace))
      ensures out.Failed? ==> out.fate != Done && Failing(old(trace), trace)
    {
      RecoveryAllowed(record, max, sends, answer);
      assert stored.Some?;
      hide *;
      out := Conclude(record.(status := RecoveryRequired));
    }

    /** `runAttempts`: at most `maxAttempts` sends, each persisted first. An empty retry seed is refused. */
    method RunAttempts(initial: Record, maxAttempts: nat, seeded: bool) returns (out: Outcome)
      requires Valid() && stored.Some? && !stored.value.status.Terminal()
      requires initial == stored.value.(status := Sending)
      modifies this
      ensures Valid() && Grown(old(trace), trace)
      ensures Sends(trace) <= Sends(old(trace)) + maxAttempts
      ensures out.Finished? ==>
                && stored.Some? && stored.value.status == out.status && Told(trace, out.status)
                && Sends(trace) > Sends(old(trace)) && Breaks(trace) == Breaks(old(trace))
      ensures var refused := maxAttempts < 1 || maxAttempts > 100 || !seeded;
              && (refused ==> out == Failed(Threw) && trace == old(trace))
              && (out.Failed? ==> out.fate != Done && (refused || Failing(old(trace), trace)))
    {
      if maxAttempts < 1 || maxAttempts > 100 || !seeded { return Failed(Threw); }
      StoredFacts(trace);
      StatusKeepsDiagnostics(stored.value, Sending);
      hide Disciplined, DiagnosticsOk, Stored, Tried, Sends, Breaks, DelayBound, CurrentRun;
      Note(RunStarted(maxAttempts));
      assert InStep(initial) && MaySend(maxAttempts, 0);
      out := RunLoop(initial, maxAttempts);
    }

    /** The loop of `runAttempts`. */
    method RunLoop(initial: Record, maxAttempts: nat) returns (out: Outcome)
      requires Valid() && InStep(initial) && MaySend(maxAttempts, 0) && maxAttempts <= 100
      modifies this
      ensures Valid() && Grown(old(trace), trace)
      ensures Sends(trace) <= Sends(old(trace)) + maxAttempts
      ensures out.Finished? ==>
                && stored.Some? && stored.value.status == out.status && Told(trace, out.status)
                && Sends(trace) > Sends(old(trace)) && Breaks(trace) == Breaks(old(trace))
      ensures out.Failed? ==> out.fate != Done && Failing(old(trace), trace)
    {
      var record := initial;
      var localAttempt := 0;
      var again := true;
      ghost var last := NoResponse;
      MaySendIsBounded(maxAttempts, 0);
      hide *;
      while again
        invariant again ==> localAttempt < maxAttempts && MaySend(maxAttempts, localAttempt)
        invariant !again ==> MayGiveUp(maxAttempts, localAttempt, last) && 1 <= localAttempt <= maxAttempts
        invariant Valid() && InStep(record) && Grown(old(trace), trace)
        invariant Sends(trace) == Sends(old(trace)) + localAttempt && Breaks(trace) == Breaks(old(trace))
        decreases maxAttempts - localAttempt, again
      {
        var ended;
        ghost var mid := trace;
        ended, record, again, last := Round(record, localAttempt, maxAttempts);
        GrownOn(old(trace), mid, trace);
        localAttempt := localAttempt + 1;
        if ended.Some? { return ended.value; }
      }
      ghost var mid := trace;
      out := GiveUp(record, maxAttempts, localAttempt, last);
      GrownOn(old(trace), mid, trace);
    }

    /** One turn of the loop: an attempt, and a pause if another one is to follow. */
    method Round(record: Record, localAttempt: nat, maxAttempts: nat)
      returns (ended: Option<Outcome>, judged: Record, again: bool, ghost last: Answer)
      requires Valid() && InStep(record) && MaySend(maxAttempts, localAttempt) && localAttempt < maxAttempts <= 100
      modifies this
      ensures Valid() && Grown(old(trace), trace) && Sends(trace) <= Sends(old(trace)) + 1
      ensures ended.None? ==>
                && InStep(judged) && Sends(trace) == Sends(old(trace)) + 1 && Breaks(trace) == Breaks(old(trace))
                && (again ==> MaySend(maxAttempts, localAttempt + 1) && localAttempt + 1 < maxAttempts)
                && (!again ==> MayGiveUp(maxAttempts, localAttempt + 1, last))
      ensures ended.Some? && ended.value.Finished? ==>
                && stored.Some? && stored.value.status == ended.value.status && Told(trace, ended.value.status)
                && Sends(trace) == Sends(old(trace)) + 1 && Breaks(trace) == Breaks(old(trace))
      ensures ended.Some? && ended.value.Failed? ==> ended.value.fate != Done && Failing(old(trace), trace)
    {
      hide Disciplined, DiagnosticsOk, Stored, Tried, Sends, Breaks, CurrentRun, Grown, Told, Concludes, Stops, Retryable;
      var shouldRetry;
      ended, judged, shouldRetry, last := Attempt(record, maxAttempts, localAttempt);
      again := shouldRetry && localAttempt + 1 != maxAttempts;
      if ended.None? {
        if again {
          ghost var mid := trace;
          var slept := Pause(localAttempt, judged, maxAttempts, last);
          GrownOn(old(trace), mid, trace);
          if slept != Done { ended := Some(Failed(slept)); }
        } else {
          GiveUpIsDue(maxAttempts, localAttempt + 1, last);
        }
      }
    }

    /** Every attempt is used up, or the last answer ends the run without a result. */
    ghost predicate MayGiveUp(max: nat, sends: nat, answer: Answer)
      reads this
    {
      Judged(max, sends, answer) && !Concludes(answer) && (sends == max || Stops(answer))
    }

    lemma GiveUpIsDue(max: nat, sends: nat, answer: Answer)
      requires Judged(max, sends, answer) && !Concludes(answer) && (sends == max || Stops(answer))
      ensures MayGiveUp(max, sends, answer)
    {
    }

    lemma MaySendIsBounded(max: nat, sends: nat)
      requires MaySend(max, sends)
      ensures sends < max
    {
    }

    /** After a failed run: mark recovery unless a terminal record was persisted. */
    method MarkRecoveryAfterNonterminalFailure()
      requires Valid()
      modifies this
      ensures Valid() && Grown(old(trace), trace) && Sends(trace) == Sends(old(trace)) && stored == old(stored)
      ensures Breaks(trace) >= Breaks(old(trace))
      ensures || trace == old(trace) + [MarkedRecovery]
              || (exists f :: trace == old(trace) + [Broke(f)] || trace == old(trace) + [MarkedRecovery, Broke(f)])
              || (trace == old(trace) && stored.Some? && stored.value.status.Terminal())
    {
      var fate: Fate := *;
      if fate != Done {
        Break(fate);
        return;
      }
      if stored.Some? && stored.value.status.Terminal() { return; }
      var marked := Tell(MarkedRecovery);
    }

    static lemma NewRecordAllowed(trace: seq<Event>, record: Record)
      requires Stored(trace).None? && record.transports != []
      requires record.status == Sending && record.attempts == 0 && record.diagnostics == []
      ensures Allowed(trace, Persisted(record)) && Allowed(trace, MarkedRecovery)
      ensures record.(status := Sending) == record
    {
    }

    /** `sendPayment` under the delivery lock; `acceptable` stands for the checks on the request. */
    method SendPayment(transports: seq<string>, acceptable: bool, maxAttempts: nat, seeded: bool) returns (out: Outcome)
      requires Valid()
      modifies this
      ensures Valid() && Grown(old(trace), trace)
      ensures Sends(trace) <= Sends(old(trace)) + maxAttempts
      ensures !acceptable || transports == [] || maxAttempts < 1 || maxAttempts > 100 ==>
                out == Failed(Threw) && trace == old(trace)
      ensures old(stored).Some? ==> out.Failed? && stored == old(stored) && Sends(trace) == Sends(old(trace))
      ensures out.Finished? ==>
                && stored.Some? && stored.value.status == out.status && Told(trace, out.status)
                && stored.value.transports == transports && Breaks(trace) == Breaks(old(trace))
      ensures out.Failed? ==>
                && out.fate != Done
                && (Breaks(trace) > Breaks(old(trace)) || old(stored).Some? || !acceptable || transports == []
                    || maxAttempts < 1 || maxAttempts > 100 || !seeded)
    {
      if !acceptable || transports == [] || maxAttempts < 1 || maxAttempts > 100 { return Failed(Threw); }
      var fate: Fate := *;
      if fate != Done {
        Break(fate);
        return Failed(fate);
      }
      if stored.Some? { return Failed(Threw); }
      fate := *;
      if fate != Done {
        Break(fate);
        return Failed(fate);
      }
      var built: bool := *;
      var bytes: string := *;
      ghost var before := trace;
      hide Disciplined, DiagnosticsOk, Stored, Tried, Sends, Breaks, DelayBound, Allowed, CurrentRun;
      fate := Open(transports, bytes, built);
      if fate != Done { return Failed(fate); }
      out := RunOrMark(stored.value, maxAttempts, seeded);
    }

    /** Persist the new delivery; if building or writing it throws, recovery is marked. */
    method Open(transports: seq<string>, bytes: string, built: bool) returns (fate: Fate)
      requires Valid() && stored.None? && transports != []
      modifies this
      ensures Valid() && Grown(old(trace), trace) && Sends(trace) == Sends(old(trace))
      ensures fate == Done ==>
                && stored == Some(Record(transports, bytes, transports[0], Sending, 0, None, []))
                && Breaks(trace) == Breaks(old(trace))
      ensures fate != Done ==> Breaks(trace) > Breaks(old(trace))
      ensures fate == Threw ==> MarkTried(trace)
      ensures !built ==> fate != Done
    {
      var record := Record(transports, bytes, transports[0], Sending, 0, None, []);
      NewRecordAllowed(trace, record);
      hide Disciplined, DiagnosticsOk, Stored, Tried, Sends, Breaks, DelayBound, CurrentRun, Advance;
      if built { fate := Write(record, true); } else {
        fate := Threw;
        Break(Threw);
      }
      if fate == Threw {
        var marked := Tell(MarkedRecovery);
        if marked == Died { fate := Died; }
      }
    }

    /** The attempts of a new delivery; if they throw, recovery is marked. */
    method RunOrMark(record: Record, maxAttempts: nat, seeded: bool) returns (out: Outcome)
      requires Valid() && stored == Some(record) && record.status == Sending
      modifies this
      ensures Valid() && Grown(old(trace), trace)
      ensures Sends(trace) <= Sends(old(trace)) + maxAttempts
      ensures out.Finished? ==>
                stored.Some? && stored.value.status == out.status && Told(trace, out.status) && Breaks(trace) == Breaks(old(trace))
      ensures out.Failed? ==>
                out.fate != Done && (maxAttempts < 1 || maxAttempts > 100 || !seeded || Breaks(trace) > Breaks(old(trace)))
      ensures stored.Some? && stored.value.transports == record.transports && stored.value.bytes == record.bytes
      ensures out == Failed(Threw) && 1 <= maxAttempts <= 100 && seeded ==> MarkTried(trace) || stored.value.status.Terminal()
    {
      hide Disciplined, DiagnosticsOk, Stored, Tried, Sends, Breaks, DelayBound, CurrentRun, Allowed;
      out := RunAttempts(record, maxAttempts, seeded);
      ghost var mid := trace;
      if out == Failed(Threw) {
        MarkRecoveryAfterNonterminalFailure();
        if 1 <= maxAttempts <= 100 && seeded && trace != mid {
          assert || trace == mid + [MarkedRecovery]
                 || exists f :: trace == mid + [Broke(f)] || trace == mid + [MarkedRecovery, Broke(f)];
          MarkIsTried(old(trace), mid, trace);
        }
      }
      SameDelivery(trace, old(trace));
    }

    static lemma MarkIsTried(before: seq<Event>, mid: seq<Event>, after: seq<Event>)
      requires Failing(before, mid)
      requires || after == mid + [MarkedRecovery]
               || exists f :: after == mid + [Broke(f)] || after == mid + [MarkedRecovery, Broke(f)]
      ensures MarkTried(after)
    {
      assert after[|mid| - 1] == mid[|mid| - 1];
    }

    /** A later history is about the same transports and bytes. */
    static lemma SameDelivery(trace: seq<Event>, before: seq<Event>)
      requires Disciplined(trace) && before <= trace && Stored(before).Some?
      ensures Stored(trace).Some? && Stored(trace).value.transports == Stored(before).value.transports
      ensures Stored(trace).value.bytes == Stored(before).value.bytes
    {
      hide Disciplined, Stored;
      assert trace[..|before|] == before && trace[..|trace|] == trace;
      IdentityIsKept(trace, |before|, |trace|);
    }

    /** `resumePayment` under the delivery lock. */
    method ResumePayment(maxAttempts: nat, seeded: bool) returns (out: Outcome)
      requires Valid()
      modifies this
      ensures Valid() && Grown(old(trace), trace)
      ensures Sends(trace) <= Sends(old(trace)) + maxAttempts
      ensures old(stored).Some? && old(stored).value.status.Terminal() ==>
                && stored == old(stored) && Sends(trace) == Sends(old(trace))
                && (out.Finished? ==> out.status == old(stored).value.status)
      ensures out.Finished? ==>
                stored.Some? && stored.value.status == out.status && Told(trace, out.status) && Breaks(trace) == Breaks(old(trace))
      ensures out.Failed? ==>
                && out.fate != Done
                && (Breaks(trace) > Breaks(old(trace)) || old(stored).None?
                    || (!old(stored).value.status.Terminal() && (maxAttempts < 1 || maxAttempts > 100 || !seeded)))
    {
      var fate: Fate := *;
      if fate != Done {
        Break(fate);
        return Failed(fate);
      }
      if stored.None? { return Failed(Threw); }
      var record := stored.value;
      StoredFacts(trace);
      if record.status.Terminal() && record.receipt.Some? {
        fate := Tell(Announcement(record.status));
        if fate != Done { return Failed(fate); }
        return Finished(record.status);
      }
      out := RunAttempts(record.(status := Sending), maxAttempts, seeded);
    }
  }
}
