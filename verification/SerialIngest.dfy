/** Ingesting turns one at a time and cutting the snapshot where a partial import stopped. */
module SerialIngest {
  import opened Options
  import opened Text
  import opened Chunking

  /** The counters of one ingest result. A field that is missing or not a finite number is `None`. */
  datatype IngestResult = IngestResult(
    attemptedTurnCount: Option<int>,
    extractionCount: Option<int>,
    persistedCount: Option<int>,
    durableOutputCount: Option<int>,
    skippedCount: Option<int>,
    failedCount: Option<int>,
    postPersistMetadataFailureCount: Option<int>,
    processedTurnCount: Option<int>)

  /** How one single-turn batch ended: it returned, perhaps without a result, or it threw,
      perhaps carrying a partial result. */
  datatype BatchOutcome =
    | Returned(result: Option<IngestResult>)
    | Threw(partialResult: Option<IngestResult>)

  datatype Counters = Counters(
    attempted: int, extracted: int, persisted: int, durable: int, skipped: int,
    failed: int, metadataFailures: int, processed: int)

  const ZERO := Counters(0, 0, 0, 0, 0, 0, 0, 0)

  /** The whole call returns the aggregate, or rethrows. */
  datatype SerialResult = Aggregate(counters: Counters) | Rethrown

  function Amount(v: Option<int>): int {
    match v
    case None => 0
    case Some(n) => n
  }

  function Merge(c: Counters, r: Option<IngestResult>): Counters {
    match r
    case None => c
    case Some(x) =>
      Counters(
        c.attempted + Amount(x.attemptedTurnCount),
        c.extracted + Amount(x.extractionCount),
        c.persisted + Amount(x.persistedCount),
        c.durable + Amount(x.durableOutputCount),
        c.skipped + Amount(x.skippedCount),
        c.failed + Amount(x.failedCount),
        c.metadataFailures + Amount(x.postPersistMetadataFailureCount),
        c.processed + Amount(x.processedTurnCount))
  }

  predicate IsFailed(r: Option<IngestResult>) {
    r.Some? && r.value.failedCount.Some? && r.value.failedCount.value > 0
  }

  predicate Succeeds(o: BatchOutcome) {
    o.Returned? && !IsFailed(o.result)
  }

  /** Turns before the first batch that did not succeed. */
  function SuccessfulPrefix(outcomes: seq<BatchOutcome>): (k: nat)
    ensures k <= |outcomes|
    ensures forall i | 0 <= i < k :: Succeeds(outcomes[i])
    ensures k < |outcomes| ==> !Succeeds(outcomes[k])
  {
    if outcomes == [] || !Succeeds(outcomes[0]) then 0 else 1 + SuccessfulPrefix(outcomes[1..])
  }

  /** What one successful batch adds to the processed count. */
  function Contribution(o: BatchOutcome): int
    requires o.Returned?
  {
    var reported := if o.result.Some? then Amount(o.result.value.processedTurnCount) else 0;
    if reported > 0 then reported else reported + 1
  }

  /** Counters after one more batch that succeeded. */
  function Added(before: Counters, o: BatchOutcome): Counters
    requires o.Returned?
  {
    Merge(before, o.result).(processed := before.processed + Contribution(o))
  }

  /** Counters after the first `k` batches, all of which succeeded. */
  function After(outcomes: seq<BatchOutcome>, k: nat): Counters
    requires k <= |outcomes| && forall i | 0 <= i < k :: Succeeds(outcomes[i])
  {
    if k == 0 then ZERO
    else
      assert Succeeds(outcomes[k - 1]);
      Added(After(outcomes, k - 1), outcomes[k - 1])
  }

  /** How the call ends at the first batch that fails or throws. */
  function Ending(before: Counters, o: BatchOutcome): SerialResult {
    match o
    case Returned(r) => Aggregate(Merge(before, r))
    case Threw(p) =>
      var merged := Merge(before, p);
      var failed := if merged.failed <= 0 then merged.failed + 1 else merged.failed;
      if merged.processed > 0 then Aggregate(merged.(failed := failed)) else Rethrown
  }

  function Outcome(outcomes: seq<BatchOutcome>): SerialResult {
    var k := SuccessfulPrefix(outcomes);
    if k == |outcomes| then Aggregate(After(outcomes, k)) else Ending(After(outcomes, k), outcomes[k])
  }

  /** One pass of the loop: the batch is counted, or the call ends with it. */
  method TakeBatch(before: Counters, o: BatchOutcome) returns (aggregate: Counters, ended: Option<SerialResult>)
    ensures ended == if Succeeds(o) then None else Some(Ending(before, o))
    ensures Succeeds(o) ==> aggregate == Added(before, o)
  {
    match o {
      case Threw(p) =>
        aggregate := Merge(before, p);
        if aggregate.failed <= 0 {
          aggregate := aggregate.(failed := aggregate.failed + 1);
        }
        ended := Some(if aggregate.processed > 0 then Aggregate(aggregate) else Rethrown);
      case Returned(r) =>
        aggregate := Merge(before, r);
        if IsFailed(r) {
          return aggregate, Some(Aggregate(aggregate));
        }
        if !(r.Some? && r.value.processedTurnCount.Some? && r.value.processedTurnCount.value > 0) {
          aggregate := aggregate.(processed := aggregate.processed + 1);
        }
        ended := None;
    }
  }

  /** The loop over turns. `outcomes[i]` is what the ingestor does with turn `i`. */
  method IngestImportTurns(outcomes: seq<BatchOutcome>) returns (result: SerialResult)
    ensures result == Outcome(outcomes)
  {
    var aggregate := ZERO;
    for i := 0 to |outcomes|
      invariant i <= SuccessfulPrefix(outcomes)
      invariant aggregate == After(outcomes, i)
    {
      var next, ended := TakeBatch(aggregate, outcomes[i]);
      if ended.Some? {
        return ended.value;
      }
      aggregate := next;
    }
    result := Aggregate(aggregate);
  }

  function Reported(o: BatchOutcome): int {
    var r := if o.Returned? then o.result else o.partialResult;
    if r.Some? then Amount(r.value.processedTurnCount) else 0
  }

  /** A single-turn batch reports at most the one turn it was given, and none when it fails. */
  predicate Honest(o: BatchOutcome) {
    Reported(o) <= if Succeeds(o) then 1 else 0
  }

  /** An honest batch whose failure count, if any, is not negative. */
  predicate Reliable(o: BatchOutcome) {
    var r := if o.Returned? then o.result else o.partialResult;
    Honest(o) && (r.Some? ==> Amount(r.value.failedCount) >= 0)
  }

  /** With reliable batches the counters never run ahead of the turns taken in, and a call that ends
      early with an aggregate says that it failed. */
  lemma ReliableCounts(before: Counters, o: BatchOutcome, done: nat)
    requires Reliable(o) && before.processed <= done && before.failed == 0
    ensures Succeeds(o) ==> Added(before, o).processed <= done + 1 && Added(before, o).failed == 0
    ensures !Succeeds(o) && Ending(before, o).Aggregate? ==>
              Ending(before, o).counters.failed > 0 && Ending(before, o).counters.processed <= done
  {
  }

  lemma {:induction false} CountsTheSuccesses(outcomes: seq<BatchOutcome>, k: nat)
    requires k <= |outcomes| && forall i | 0 <= i < k :: Succeeds(outcomes[i]) && Reported(outcomes[i]) >= 0
    ensures After(outcomes, k).processed >= k
    ensures After(outcomes, k).processed == k <==> forall i | 0 <= i < k :: Honest(outcomes[i])
  {
    if k > 0 {
      CountsTheSuccesses(outcomes, k - 1);
      assert Succeeds(outcomes[k - 1]);
      assert Contribution(outcomes[k - 1]) >= 1;
      assert Contribution(outcomes[k - 1]) == 1 <==> Honest(outcomes[k - 1]);
    }
  }

  /** The count in the aggregate is the length of the successful prefix if and only if every batch
      that was tried reported honestly; it is never too small. */
  lemma CountIsSuccessfulPrefix(outcomes: seq<BatchOutcome>)
    requires forall i | 0 <= i < |outcomes| :: Reported(outcomes[i]) >= 0
    requires Outcome(outcomes).Aggregate?
    ensures
      var k := SuccessfulPrefix(outcomes);
      var count := Outcome(outcomes).counters.processed;
      && count >= k
      && (count == k <==> forall i | 0 <= i < |outcomes| && i <= k :: Honest(outcomes[i]))
  {
    var k := SuccessfulPrefix(outcomes);
    CountsTheSuccesses(outcomes, k);
    if k < |outcomes| {
      LastBatch(outcomes);
    }
  }

  lemma LastBatch(outcomes: seq<BatchOutcome>)
    requires SuccessfulPrefix(outcomes) < |outcomes| && Outcome(outcomes).Aggregate?
    ensures
      var k := SuccessfulPrefix(outcomes);
      Outcome(outcomes).counters.processed == After(outcomes, k).processed + Reported(outcomes[k])
  {
    var k := SuccessfulPrefix(outcomes);
    EndingCounts(After(outcomes, k), outcomes[k]);
  }

  lemma EndingCounts(before: Counters, o: BatchOutcome)
    ensures Ending(before, o).Aggregate? ==> Ending(before, o).counters.processed == before.processed + Reported(o)
  {
  }

  /** The call rethrows exactly when a batch threw before anything was counted as processed. */
  lemma RethrowsOnlyWithoutProgress(outcomes: seq<BatchOutcome>)
    requires forall i | 0 <= i < |outcomes| :: Reported(outcomes[i]) >= 0
    ensures Outcome(outcomes).Rethrown? <==> outcomes != [] && outcomes[0].Threw? && Reported(outcomes[0]) == 0
  {
    var k := SuccessfulPrefix(outcomes);
    CountsTheSuccesses(outcomes, k);
    if k == 0 {
      assert After(outcomes, 0) == ZERO;
    }
  }

  // ---------------------------------------------------------------------------
  // What the counters add up to
  // ---------------------------------------------------------------------------

  datatype Field = Attempts | Extractions | Persistences | DurableOutputs | Skips | Failures | MetadataFailures | ProcessedTurns

  /** What a batch says of one counter, whether it returned or threw; nothing counts as zero. */
  function Says(o: BatchOutcome, field: Field): int {
    match if o.Returned? then o.result else o.partialResult
    case None => 0
    case Some(r) =>
      Amount(match field
             case Attempts => r.attemptedTurnCount
             case Extractions => r.extractionCount
             case Persistences => r.persistedCount
             case DurableOutputs => r.durableOutputCount
             case Skips => r.skippedCount
             case Failures => r.failedCount
             case MetadataFailures => r.postPersistMetadataFailureCount
             case ProcessedTurns => r.processedTurnCount)
  }

  function Counter(c: Counters, field: Field): int {
    match field
    case Attempts => c.attempted
    case Extractions => c.extracted
    case Persistences => c.persisted
    case DurableOutputs => c.durable
    case Skips => c.skipped
    case Failures => c.failed
    case MetadataFailures => c.metadataFailures
    case ProcessedTurns => c.processed
  }

  function Total(outcomes: seq<BatchOutcome>, k: nat, field: Field): int
    requires k <= |outcomes|
  {
    if k == 0 then 0 else Total(outcomes, k - 1, field) + Says(outcomes[k - 1], field)
  }

  /** How many of the first `k` batches reported no turn as processed. */
  function Silent(outcomes: seq<BatchOutcome>, k: nat): int
    requires k <= |outcomes|
  {
    if k == 0 then 0 else Silent(outcomes, k - 1) + if Says(outcomes[k - 1], ProcessedTurns) <= 0 then 1 else 0
  }

  lemma MergeAdds(before: Counters, o: BatchOutcome, field: Field)
    ensures Counter(Merge(before, if o.Returned? then o.result else o.partialResult), field) ==
      Counter(before, field) + Says(o, field)
  {
  }

  lemma {:induction false} AfterAddsUp(outcomes: seq<BatchOutcome>, k: nat, field: Field)
    requires k <= |outcomes| && forall i | 0 <= i < k :: Succeeds(outcomes[i])
    ensures Counter(After(outcomes, k), field) ==
      Total(outcomes, k, field) + if field == ProcessedTurns then Silent(outcomes, k) else 0
  {
    if k > 0 {
      AfterAddsUp(outcomes, k - 1, field);
      assert Succeeds(outcomes[k - 1]);
      MergeAdds(After(outcomes, k - 1), outcomes[k - 1], field);
    }
  }

  /** Batches tried before the call ends: up to the first that does not succeed, that one included. */
  function Tried(outcomes: seq<BatchOutcome>): (n: nat)
    ensures n <= |outcomes|
  {
    var k := SuccessfulPrefix(outcomes);
    if k < |outcomes| then k + 1 else k
  }

  /** Every counter of the aggregate is the sum of what the batches that were tried said of it. Two take
      corrections: a batch that succeeded and reported no processed turn counts for one, and a batch that
      threw counts for one failure if the failures add up to none. */
  lemma CountersAddUp(outcomes: seq<BatchOutcome>, field: Field)
    requires Outcome(outcomes).Aggregate?
    ensures
      var k, n := SuccessfulPrefix(outcomes), Tried(outcomes);
      var total := Total(outcomes, n, field);
      Counter(Outcome(outcomes).counters, field) ==
        if field == ProcessedTurns then total + Silent(outcomes, k)
        else if field == Failures && k < |outcomes| && outcomes[k].Threw? && total <= 0 then total + 1
        else total
  {
    var k := SuccessfulPrefix(outcomes);
    AfterAddsUp(outcomes, k, field);
    if k < |outcomes| {
      AfterAddsUp(outcomes, k, Failures);
      EndingAddsUp(After(outcomes, k), outcomes[k], field);
      EndingAddsUp(After(outcomes, k), outcomes[k], Failures);
    }
  }

  lemma EndingAddsUp(before: Counters, o: BatchOutcome, field: Field)
    requires Ending(before, o).Aggregate?
    ensures
      var sum := Counter(before, field) + Says(o, field);
      Counter(Ending(before, o).counters, field) == if field == Failures && o.Threw? && sum <= 0 then sum + 1 else sum
  {
  }

  // ---------------------------------------------------------------------------
  // Where a partial import is cut
  // ---------------------------------------------------------------------------

  /** Where `done` ends in the snapshot: from its start, or else after its leading white space. */
  function Locate(content: string, done: string): (cut: Option<string>)
    ensures cut.Some? ==> cut.value <= content && cut.value != ""
  {
    var lead := LeadingSpace(content);
    if done == "" then None
    else if done <= content then Some(done)
    else if lead > 0 && done <= content[lead..] then
      assert content[..lead + |done|] == content[..lead] + content[lead..][..|done|];
      Some(content[..lead + |done|])
    else None
  }

  /** The part of the snapshot that the first `processed` turns account for, if it can be located. */
  function PartialCut(content: string, raws: seq<string>, processed: int): (cut: Option<string>)
    ensures cut.Some? ==> cut.value <= content && cut.value != ""
  {
    if processed <= 0 then None
    else Locate(content, Concat(raws[..if processed < |raws| then processed else |raws|]))
  }

  lemma LocateAfterSpace(content: string, lead: string, done: string, rest: string)
    requires content == lead + done + rest && lead == content[..LeadingSpace(content)]
    requires done != "" && !IsSpace(done[0])
    ensures Locate(content, done) == Some(lead + done)
  {
    assert content[|lead|..] == done + rest;
    assert content[..|lead| + |done|] == lead + done;
    if lead != "" {
      assert content[0] == lead[0] && IsSpace(content[0]);
    } else {
      assert lead + done == done;
    }
  }

  /** When the turns spell the trimmed text, the cut is the leading white space and the raw text of
      the processed turns, and a proper prefix of the file while turns are missing. */
  lemma CutIsProcessedText(content: string, raws: seq<string>, k: nat)
    requires 0 < k <= |raws| && Concat(raws) == Trim(content)
    requires forall i | 0 <= i < |raws| :: raws[i] != ""
    ensures
      PartialCut(content, raws, k) == Some(content[..LeadingSpace(content)] + Concat(raws[..k]))
    ensures k < |raws| ==> |PartialCut(content, raws, k).value| < |content|
  {
    var lead, trail := TrimSplits(content);
    ConcatTake(raws, k);
    var done, rest := Concat(raws[..k]), Concat(raws[k..]);
    assert done != "" by { assert raws[..k][0] == raws[0]; }
    assert k < |raws| ==> rest != "" by {
      if k < |raws| { assert raws[k..][0] == raws[k]; }
    }
    Reassociate(lead, done, rest, trail);
    CutInside(content, lead, done, rest + trail);
  }

  lemma Reassociate(a: string, b: string, c: string, d: string)
    ensures a + (b + c) + d == a + b + (c + d)
  {
  }

  lemma CutInside(content: string, lead: string, done: string, tail: string)
    requires content == lead + done + tail && lead == content[..LeadingSpace(content)]
    requires done != "" && (LeadingSpace(content) < |content| ==> !IsSpace(content[LeadingSpace(content)]))
    ensures Locate(content, done) == Some(lead + done)
    ensures tail != "" ==> |lead + done| < |content|
  {
    assert done[0] == content[|lead|];
    LocateAfterSpace(content, lead, done, tail);
  }

  /** Whatever cut is taken, the imported turns account for it. */
  lemma CutIsCovered(content: string, raws: seq<string>, processed: int, imported: set<string>)
    requires PartialCut(content, raws, processed).Some?
    requires forall i | 0 <= i < |raws| && i < processed :: raws[i] in imported
    ensures Covered(PartialCut(content, raws, processed).value, imported)
  {
    var k := if processed < |raws| then processed else |raws|;
    CoveredByPieces(raws[..k], imported);
    LocatedIsCovered(content, Concat(raws[..k]), imported);
  }

  lemma LocatedIsCovered(content: string, done: string, imported: set<string>)
    requires Locate(content, done).Some? && Covered(done, imported)
    ensures Covered(Locate(content, done).value, imported)
  {
    if !(done <= content) {
      var n := LeadingSpace(content);
      CoveredBlank(content[..n], imported);
      CoveredJoin(content[..n], done, imported);
      assert content[n..][..|done|] == done;
      assert content[..n + |done|] == content[..n] + content[n..][..|done|];
      assert Locate(content, done).value == content[..n] + done;
    }
  }
}
