/** No text is lost over whole runs, and text leaves the disk only after its import succeeded. */
module ProtocolSafety {
  import opened Collections
  import opened Options
  import opened Text
  import opened Chunking
  import opened ImportTurns
  import opened SerialIngest
  import opened Marker
  import opened PlanDirectory
  import opened Protocol

  // ---------------------------------------------------------------------------
  // Markers that are written can be read
  // ---------------------------------------------------------------------------

  lemma CheckedIsReadable(turns: seq<ImportTurn>, n: nat)
    requires 0 < n <= |turns| && GoodTurns(turns)
    ensures ChunksReadable(Checked(turns, n))
  {
    assert forall i | 0 <= i < n :: Records(turns)[..n][i] == Record(turns[i], i, |turns|);
  }

  lemma WrittenMarkerReadsBack(status: Status, text: string, at: Value, reason: string, turns: seq<ImportTurn>)
    requires GoodTurns(turns) && text != "" && ByteLength(text) <= MAX_SAFE_INTEGER
    ensures var m := BuildMarker(status, text, at, reason, turns); ReadBack(m) == Some(m) && OwnMarker(m)
  {
    var m := BuildMarker(status, text, at, reason, turns);
    if RecordedChunks(text, turns).Some? {
      CheckedIsReadable(turns, TurnsSpelling(Trim(text), Raws(turns)).value);
    }
    MarkerRoundTrip(m);
  }

  lemma ChunkSizes(content: string, maxTurnChars: nat)
    requires !Blank(content)
    ensures var chunks := ChunksOf(content, maxTurnChars);
      && |chunks| <= ByteLength(content)
      && forall i | 0 <= i < |chunks| :: chunks[i] != "" && 0 < ByteLength(chunks[i]) <= ByteLength(content)
  {
    var chunks := ChunksOf(content, maxTurnChars);
    ChunksFacts(content, maxTurnChars);
    TrimIsShorter(content);
    PartsCount(chunks);
    forall i | 0 <= i < |chunks| ensures 0 < ByteLength(chunks[i]) <= ByteLength(content) {
      ByteLengthAppend(chunks[i], "");
      ChunkIsPart(content, maxTurnChars, i);
    }
  }

  lemma ChunkIsPart(content: string, maxTurnChars: nat, i: nat)
    requires i < |ChunksOf(content, maxTurnChars)|
    ensures ByteLength(ChunksOf(content, maxTurnChars)[i]) <= ByteLength(Trim(content))
  {
    var plan := PlanOf(content, maxTurnChars).value;
    PlanIsSplit(content, maxTurnChars);
    var pieces := Pieces(Trim(content), 0, plan.share);
    PiecesConserve(Trim(content), 0, plan.share);
    assert Trim(content)[0..] == Trim(content);
    KeptAreNonBlank(pieces);
    assert plan.chunks[i] in plan.chunks;
    var k :| 0 <= k < |pieces| && pieces[k] == plan.chunks[i];
    PartsFit(pieces, k);
  }

  lemma FreshTurnsAreGood(content: string, origin: Origin, at: Value, reason: string, maxTurnChars: nat)
    requires !Blank(content) && ByteLength(content) <= MAX_SAFE_INTEGER && maxTurnChars >= 1
    ensures GoodTurns(BuildTurns(content, origin, at, reason, maxTurnChars))
  {
    ChunkSizes(content, maxTurnChars);
  }

  lemma ReplayedTurnsAreGood(content: string, m: Marker, origin: Origin)
    requires ChunksReadable(m.processedChunks) && TurnsFromMarker(content, m, origin).Some?
    ensures GoodTurns(TurnsFromMarker(content, m, origin).value)
  {
    var chunks := m.processedChunks.value;
    var parts := SplitByChunks(Trim(content), chunks).value;
    SplitLengths(Trim(content), chunks);
    var turns := TurnsFromMarker(content, m, origin).value;
    forall i | 0 <= i < |turns| ensures ValidChunk(Record(turns[i], i, |turns|)) {
      assert turns[i] == ReplayTurn(parts, chunks, i, origin, m);
    }
  }

  lemma {:induction false} SplitLengths(content: string, chunks: seq<MarkerChunk>)
    requires SplitByChunks(content, chunks).Some?
    ensures forall i | 0 <= i < |chunks| :: ByteLength(SplitByChunks(content, chunks).value[i]) == chunks[i].rawBytes
    decreases chunks
  {
    if chunks != [] {
      var p := PrefixByByteLength(content, chunks[0].rawBytes).value;
      SplitLengths(content[|p|..], chunks[1..]);
    }
  }

  // ---------------------------------------------------------------------------
  // Keeping the text
  // ---------------------------------------------------------------------------

  /** A step that leaves the text on disk alone conserves it. */
  lemma SameText(s: State, t: State)
    requires Conserved(s) && t.history == s.history && s.imported <= t.imported
    requires TextOnDisk(t.disk) == TextOnDisk(s.disk)
    ensures Conserved(t) && Retired(t) == Retired(s)
  {
    CoveredGrows(Retired(s), s.imported, t.imported);
  }

  lemma MarkerStays(m: Option<Marker>, imported: set<string>, more: set<string>)
    requires MarkerOk(m, imported) && imported <= more
    ensures MarkerOk(m, more)
  {
    if m.Some? && m.value.status.Processed? {
      CoveredGrows(m.value.processedContent.value, imported, more);
    }
  }

  /** Restoring the tail changes nothing that is owed. */
  lemma RestoreKeepsText(d: Disk)
    requires d.snapshots != [] && TailOf(d.marker, d.snapshots[0]) != ""
    ensures
      var after := d.(plan := Restore(d.plan, TailOf(d.marker, d.snapshots[0])));
      TextOnDisk(after) == TextOnDisk(d) && TailBack(after)
  {
    ReconcileIsIdempotent(TextOf(d.plan), TailOf(d.marker, d.snapshots[0]));
  }

  /** Rotating the file out keeps its text, as the marker covers a prefix of it. */
  lemma RotateKeepsText(d: Disk, text: string)
    requires StartsPlan(d, text) && ProcessedMarkerFor(d.marker, text)
    ensures
      var after := d.(plan := None, snapshots := [d.plan.value]);
      TextOnDisk(after) == TextOnDisk(d) && SnapshotOk(after)
          && TailOf(d.marker, d.plan.value) == d.plan.value[|text|..]
  {
    var content := d.plan.value;
    assert text + content[|text|..] == content;
    assert Reconciled("", content[|text|..]) == content[|text|..] by {
      assert content[|text|..] + "" == content[|text|..];
    }
  }

  /** Unlinking the snapshot retires exactly the text its processed marker covers. */
  lemma UnlinkRetires(s: State, t: State)
    requires Conserved(s) && SnapshotOk(s.disk) && MarkerOk(s.disk.marker, s.imported) && TailBack(s.disk)
    requires t == s.(disk := UnlinkNewest(s.disk), pc := t.pc)
    ensures Conserved(t) && t.disk.snapshots == []
    ensures Retired(t) == Retired(s) + s.disk.marker.value.processedContent.value
  {
    var head := s.disk.marker.value.processedContent.value;
    assert TextOnDisk(s.disk) == head + TextOnDisk(t.disk);
    Associates(Retired(s), head, TextOnDisk(t.disk));
    FrontOf(Retired(s) + head, TextOnDisk(t.disk));
    CoveredJoin(Retired(s), head, s.imported);
  }

  /** The exact condition on the writer: an append keeps the account in order if and only if it does
      not complete a copy of a tail that is still missing. */
  lemma AppendIsCountedExactly(d: Disk, text: string)
    requires SnapshotOk(d)
    ensures TextOnDisk(Appended(d, text)) == TextOnDisk(d) + text <==> AppendOk(d, text)
  {
    if d.snapshots != [] {
      var tail, plan := TailOf(d.marker, d.snapshots[0]), TextOf(d.plan);
      var head := HeadOf(d.marker, d.snapshots[0]);
      RestoreAndAppendCommute(plan, tail, text);
      var a, b := Reconciled(plan + text, tail), Reconciled(plan, tail) + text;
      assert head + Reconciled(plan, tail) + text == head + b;
      if head + a == head + b {
        assert a == (head + a)[|head|..] && b == (head + b)[|head|..];
      }
    }
  }

  lemma BytesOfPlan(s: State, content: string)
    requires Conserved(s) && StartsPlan(s.disk, content)
    ensures ByteLength(content) <= ByteLength(s.history)
  {
    var plan := s.disk.plan.value;
    assert plan == content + plan[|content|..];
    ByteLengthAppend(content, plan[|content|..]);
    ByteLengthAppend(Retired(s), plan);
  }

  // ---------------------------------------------------------------------------
  // One lemma per kind of step
  // ---------------------------------------------------------------------------

  lemma AppendKeepsPc(s: State, text: string)
    requires Inv(s)
    ensures PcOk(Step(s, Origin("", "", ""), Append(text)))
  {
  }

  lemma AppendStep(s: State, origin: Origin, text: string)
    requires Inv(s) && EventOk(s, Append(text))
    ensures Inv(Step(s, origin, Append(text)))
  {
    var t := Step(s, origin, Append(text));
    AppendIsCountedExactly(s.disk, text);
    AppendedHistory(s, t, text);
    AppendKeepsPc(s, text);
    assert PcOk(t);
  }

  lemma AppendedHistory(s: State, t: State, text: string)
    requires s.history == Retired(s) + TextOnDisk(s.disk)
    requires t.history == s.history + text && TextOnDisk(t.disk) == TextOnDisk(s.disk) + text
    ensures Retired(t) == Retired(s) && t.history == Retired(t) + TextOnDisk(t.disk)
  {
    Associates(Retired(s), TextOnDisk(s.disk), text);
    FrontOf(Retired(s), TextOnDisk(t.disk));
  }

  lemma FrontOf(a: string, b: string)
    ensures (a + b)[..|a + b| - |b|] == a
  {
  }

  /** A step from `d` to `e` that leaves a tail missing has moved the whole plan file out, or has left
      the plan's text, the snapshot and the marker alone. */
  predicate LeavesFiles(d: Disk, e: Disk) {
    TailMissing(e) ==>
      || (TextOf(e.plan) == TextOf(d.plan) && e.snapshots == d.snapshots && e.marker == d.marker)
      || (d.snapshots == [] && e.snapshots == [TextOf(d.plan)] && TextOf(e.plan) == "")
  }

  /** The step from `s` to `t` keeps the invariant and retires nothing. */
  ghost predicate KeepsAll(s: State, t: State) {
    Inv(t) && Retired(t) == Retired(s) && LeavesFiles(s.disk, t.disk)
  }

  /** The step from `s` to `t` retires exactly the imported text that the processed marker covers. */
  ghost predicate RetiresMarked(s: State, t: State) {
    && s.disk.marker.Some? && s.disk.marker.value.status.Processed?
    && s.disk.marker.value.processedContent.Some?
    && Covered(s.disk.marker.value.processedContent.value, s.imported)
    && Retired(t) == Retired(s) + s.disk.marker.value.processedContent.value
  }

  lemma StartKeeps(s: State, t: State)
    requires Inv(s) && s.pc.Idle? && t == s.(pc := Recovering(s.disk.marker))
    ensures KeepsAll(s, t)
  {
    SameText(s, t);
  }

  lemma RecoverKeeps(s: State, m: Option<Marker>, t: State)
    requires Inv(s) && s.pc == Recovering(m) && t == RecoverStep(s, m)
    ensures KeepsAll(s, t)
  {
    SameText(s, t);
  }

  lemma PutBackKeeps(s: State, tail: string, next: Pc, t: State)
    requires Inv(s) && t == PutBack(s, tail, next)
    requires (exists m, used :: s.pc == RestoreOld(m, used, tail) && next == UnlinkOld(m, used))
          || (exists deferred :: s.pc == RestoreRotated(tail, deferred) && next == UnlinkRotated(deferred))
    ensures KeepsAll(s, t)
  {
    RestoreKeepsText(s.disk);
    TailIsBack(s, t.disk.plan, next, t);
  }

  lemma TailIsBack(s: State, plan: Option<string>, next: Pc, t: State)
    requires Inv(s) && t == s.(disk := s.disk.(plan := plan), pc := next)
    requires TextOnDisk(t.disk) == TextOnDisk(s.disk) && TailBack(t.disk)
    requires next == UnlinkOld(s.disk.marker, true) || next == UnlinkRotated(false)
    ensures KeepsAll(s, t)
  {
    SameText(s, t);
  }

  lemma UnlinkKeeps(s: State, next: Pc, t: State)
    requires Inv(s) && t == Unlink(s, next)
    requires (s.pc.UnlinkOld? && next == DropUsed) || (s.pc.UnlinkRotated? && next == DropAndStop)
    ensures Inv(t) && RetiresMarked(s, t) && LeavesFiles(s.disk, t.disk)
  {
    assert s.disk.snapshots[1..] == [];
    Unlinked(s, next, t);
  }

  lemma Unlinked(s: State, next: Pc, t: State)
    requires Inv(s) && TailBack(s.disk) && (next == DropUsed || next == DropAndStop)
    requires t == s.(disk := s.disk.(snapshots := []), pc := next)
    ensures Inv(t) && RetiresMarked(s, t) && LeavesFiles(s.disk, t.disk)
  {
    UnlinkRetires(s, t);
  }

  lemma UnmarkKeeps(s: State, next: Pc, t: State)
    requires Inv(s) && t == Unmark(s, next)
    requires (s.pc.DropUsed? && next == Recovering(None)) || (s.pc.DropAndStop? && next == Idle)
          || (s.pc.DropStale? && next == Fresh(s.pc.content))
    ensures KeepsAll(s, t)
  {
    assert s.disk.snapshots == [] && (next.Fresh? ==> StartsPlan(s.disk, next.content));
    Unmarked(s, next, t);
  }

  lemma Unmarked(s: State, next: Pc, t: State)
    requires Inv(s) && t == Unmark(s, next) && s.disk.snapshots == []
    requires next == Recovering(None) || next == Idle || (next.Fresh? && StartsPlan(s.disk, next.content))
    ensures KeepsAll(s, t)
  {
    SameText(s, t);
  }

  lemma NextAfterReadingPlan(s: State, m: Option<Marker>, origin: Origin, c: Choice)
    requires Inv(s) && s.pc == ReadPlan(m) && c.maxTurnChars >= 1
    ensures PcOk(s.(pc := AfterReadingPlan(s, m, origin, c)))
  {
    var content := TextOf(s.disk.plan);
    if s.disk.plan.Some? && IsMeaningful(content) {
      MeaningfulIsNotBlank(content);
      assert StartsPlan(s.disk, content);
      if m.Some? {
        NextWithMarker(s, origin, c, m.value);
      }
    }
  }

  lemma NextWithMarker(s: State, origin: Origin, c: Choice, m: Marker)
    requires Inv(s) && s.pc == ReadPlan(Some(m)) && c.maxTurnChars >= 1
    requires StartsPlan(s.disk, TextOf(s.disk.plan)) && IsMeaningful(TextOf(s.disk.plan))
    ensures PcOk(s.(pc := AfterReadingPlan(s, Some(m), origin, c)))
  {
    AfterMarker(s, origin, c, m);
    if m.processedContent.value <= TextOf(s.disk.plan) && m.status.Pending? {
      ReplayIsGood(s, origin, c, m);
    }
  }

  lemma AfterMarker(s: State, origin: Origin, c: Choice, m: Marker)
    requires OwnMarker(m) && s.disk.plan.Some? && IsMeaningful(TextOf(s.disk.plan))
    ensures
      var content, text := TextOf(s.disk.plan), m.processedContent.value;
      AfterReadingPlan(s, Some(m), origin, c) ==
      if !(text <= content) then DropStale(content)
      else if m.status.Pending? then
        Ingesting(Job(text, ReplayTurns(text, m, origin, c.maxTurnChars), m.processedAt, m.reason), 0, ZERO)
      else Rename(text)
  {
    MarkerPrefixIsContent(TextOf(s.disk.plan), m, m.processedContent.value);
  }

  lemma ReplayIsGood(s: State, origin: Origin, c: Choice, m: Marker)
    requires Conserved(s) && ByteLength(s.history) <= MAX_SAFE_INTEGER && c.maxTurnChars >= 1
    requires OwnMarker(m) && StartsPlan(s.disk, m.processedContent.value)
    ensures
      var text := m.processedContent.value;
      JobOk(s, Job(text, ReplayTurns(text, m, origin, c.maxTurnChars), m.processedAt, m.reason), 0)
  {
    var text := m.processedContent.value;
    ReplayCovers(text, m, origin, c.maxTurnChars);
    BytesOfPlan(s, text);
    if TurnsFromMarker(text, m, origin).Some? {
      ReplayedTurnsAreGood(text, m, origin);
    } else {
      var turns := BuildTurns(text, origin, m.processedAt, m.reason, c.maxTurnChars);
      BuiltJobIsGood(s, Job(text, turns, m.processedAt, m.reason), origin, c.maxTurnChars);
    }
  }

  lemma BuiltJobIsGood(s: State, job: Job, origin: Origin, maxTurnChars: nat)
    requires Conserved(s) && ByteLength(s.history) <= MAX_SAFE_INTEGER && StartsPlan(s.disk, job.content)
    requires job.turns == BuildTurns(job.content, origin, job.processedAt, job.reason, maxTurnChars)
        && maxTurnChars >= 1
    ensures JobOk(s, job, 0)
  {
    BytesOfPlan(s, job.content);
    ChunksCover(job.content, maxTurnChars);
    FreshRaws(job.content, origin, job.processedAt, job.reason, maxTurnChars);
    if !Blank(job.content) {
      FreshTurnsAreGood(job.content, origin, job.processedAt, job.reason, maxTurnChars);
    } else {
      var _, _ := TrimSplits(job.content);
    }
  }

  lemma FreshJobIsGood(s: State, content: string, origin: Origin, c: Choice)
    requires Conserved(s) && ByteLength(s.history) <= MAX_SAFE_INTEGER && StartsPlan(s.disk, content)
    requires c.maxTurnChars >= 1
    ensures JobOk(s, FreshJob(content, origin, c), 0)
  {
    BuiltJobIsGood(s, FreshJob(content, origin, c), origin, c.maxTurnChars);
  }

  lemma FreshKeeps(s: State, job: Job, t: State)
    requires Inv(s) && JobOk(s, job, 0) && t == FreshStep(s, job)
    ensures KeepsAll(s, t)
  {
    BytesOfPlan(s, job.content);
    var m := PendingMarkerIsWritten(s, job, t);
    PendingWritten(s, job, m, t);
  }

  lemma PendingMarkerIsWritten(s: State, job: Job, t: State) returns (m: Marker)
    requires GoodTurns(job.turns) && job.content != "" && ByteLength(job.content) <= MAX_SAFE_INTEGER
    requires t == FreshStep(s, job)
    ensures OwnMarker(m) && m.status.Pending?
    ensures t == s.(disk := s.disk.(marker := Some(m)), pc := Ingesting(job, 0, ZERO))
  {
    m := BuildMarker(Pending, job.content, job.processedAt, job.reason, job.turns);
    WrittenMarkerReadsBack(Pending, job.content, job.processedAt, job.reason, job.turns);
  }

  lemma PendingWritten(s: State, job: Job, m: Marker, t: State)
    requires Inv(s) && JobOk(s, job, 0) && OwnMarker(m) && m.status.Pending?
    requires t == s.(disk := s.disk.(marker := Some(m)), pc := Ingesting(job, 0, ZERO))
    ensures KeepsAll(s, t)
  {
    SameText(s, t);
  }

  lemma IngestDone(s: State, job: Job)
    requires JobOk(s, job, |job.turns|)
    ensures Covered(job.content, s.imported)
  {
    assert SetOf(Raws(job.turns)) <= s.imported;
    CoveredGrows(job.content, SetOf(Raws(job.turns)), s.imported);
  }

  lemma TurnImported(s: State, job: Job, done: nat, counters: Counters, t: State)
    requires Inv(s) && done < |job.turns| && JobOk(s, job, done)
    requires counters.processed <= done + 1 && counters.failed == 0
    requires t == s.(imported := s.imported + {job.turns[done].rawContent}, pc := Ingesting(job, done + 1, counters))
    ensures KeepsAll(s, t)
  {
    SameText(s, t);
    MarkerStays(s.disk.marker, s.imported, t.imported);
    assert JobOk(t, job, done + 1);
  }

  /** The ingest call has ended: completely, early with an aggregate, or with an exception. */
  predicate Ended(job: Job, done: nat, result: SerialResult) {
    result.Aggregate? ==>
      if result.counters.failed > 0 then result.counters.processed <= done else done == |job.turns|
  }

  lemma MoreImported(s: State, next: Pc, more: set<string>, t: State)
    requires Inv(s) && s.imported <= more && t == s.(imported := more, pc := next)
    requires next.Idle? || (next.WriteProcessed? && GoodTurns(next.job.turns) && Covered(next.text, more)
        && StartsPlan(s.disk, next.text))
    ensures KeepsAll(s, t)
  {
    SameText(s, t);
    MarkerStays(s.disk.marker, s.imported, more);
  }

  lemma ProcessedTextIsImported(s: State, job: Job, done: nat, result: SerialResult, more: set<string>)
    requires JobOk(s, job, done) && s.imported <= more && Ended(job, done, result)
    ensures var next := AfterIngest(job, result);
      next == Idle || (next.WriteProcessed? && next.job == job && Covered(next.text, more)
          && StartsPlan(s.disk, next.text))
  {
    if result.Aggregate? {
      if result.counters.failed <= 0 {
        IngestDone(s, job);
        CoveredGrows(job.content, s.imported, more);
      } else if PartialCut(job.content, Raws(job.turns), result.counters.processed).Some? {
        CutIsImported(s, job, done, result.counters.processed, more);
      }
    }
  }

  lemma CutIsImported(s: State, job: Job, done: nat, processed: int, more: set<string>)
    requires JobOk(s, job, done) && processed <= done && s.imported <= more
    requires PartialCut(job.content, Raws(job.turns), processed).Some?
    ensures var cut := PartialCut(job.content, Raws(job.turns), processed).value;
      Covered(cut, more) && StartsPlan(s.disk, cut)
  {
    var cut := PartialCut(job.content, Raws(job.turns), processed).value;
    CutIsCovered(job.content, Raws(job.turns), processed, more);
    assert cut <= job.content <= s.disk.plan.value;
  }

  lemma IngestKeeps(s: State, job: Job, done: nat, counters: Counters, o: BatchOutcome, persisted: bool, t: State)
    requires Inv(s) && s.pc == Ingesting(job, done, counters) && Reliable(o)
    requires t == IngestStep(s, job, done, counters, o, persisted)
    ensures KeepsAll(s, t)
  {
    assert JobOk(s, job, done);
    if done == |job.turns| {
      ProcessedTextIsImported(s, job, done, Aggregate(counters), s.imported);
      MoreImported(s, AfterIngest(job, Aggregate(counters)), s.imported, t);
    } else {
      ReliableCounts(counters, o, done);
      if Succeeds(o) {
        TurnImported(s, job, done, Added(counters, o), t);
      } else {
        ProcessedTextIsImported(s, job, done, Ending(counters, o), t.imported);
        MoreImported(s, AfterIngest(job, Ending(counters, o)), t.imported, t);
      }
    }
  }

  lemma WriteProcessedKeeps(s: State, job: Job, text: string, cleanUp: bool, t: State)
    requires Inv(s) && s.pc == WriteProcessed(job, text, cleanUp)
    requires t == Mark(s, Processed, text, job, if cleanUp then Rename(text) else Idle)
    ensures KeepsAll(s, t)
  {
    BytesOfPlan(s, text);
    WrittenMarkerReadsBack(Processed, text, job.processedAt, job.reason, job.turns);
    ProcessedWritten(s, BuildMarker(Processed, text, job.processedAt, job.reason, job.turns), text, cleanUp, t);
  }

  lemma ProcessedWritten(s: State, m: Marker, text: string, cleanUp: bool, t: State)
    requires Inv(s) && StartsPlan(s.disk, text) && Covered(text, s.imported)
    requires OwnMarker(m) && m.status.Processed? && m.processedContent == Some(text)
    requires t == s.(disk := s.disk.(marker := Some(m)), pc := if cleanUp then Rename(text) else Idle)
    ensures KeepsAll(s, t)
  {
    SameText(s, t);
  }

  lemma RenameKeeps(s: State, text: string, t: State)
    requires Inv(s) && s.pc == Rename(text) && t == RenameStep(s, text)
    ensures KeepsAll(s, t)
  {
    var plan := s.disk.plan.value;
    assert [plan] + s.disk.snapshots == [plan];
    RotateKeeps(s, text, plan, t);
  }

  lemma RotateKeeps(s: State, text: string, plan: string, t: State)
    requires Inv(s) && StartsPlan(s.disk, text) && ProcessedMarkerFor(s.disk.marker, text)
    requires s.disk.plan == Some(plan) && t == State(Disk(None, [plan], s.disk.marker), Recreate(text), s.history, s.imported)
    ensures KeepsAll(s, t)
  {
    assert t.disk == s.disk.(plan := None, snapshots := [plan]);
    RotateKeepsText(s.disk, text);
    SameText(s, t);
    RotatedIsOk(s, text, plan, t);
  }

  lemma RotatedIsOk(s: State, text: string, plan: string, t: State)
    requires MarkerOk(s.disk.marker, s.imported) && text <= plan && text != "" && ProcessedMarkerFor(s.disk.marker, text)
    requires t == State(Disk(None, [plan], s.disk.marker), Recreate(text), s.history, s.imported)
    ensures SnapshotOk(t.disk) && MarkerOk(t.disk.marker, t.imported) && PcOk(t)
  {
  }

  lemma ReadRotatedKeeps(s: State, text: string, t: State)
    requires Inv(s) && s.pc == ReadRotated(text) && t == ReadRotatedStep(s, text)
    ensures KeepsAll(s, t)
  {
    assert TailOf(s.disk.marker, s.disk.snapshots[0]) == s.disk.snapshots[0][|text|..];
    SameText(s, t);
  }

  /** What every operation does to the account of text: it keeps it, or retires what is marked. */
  ghost predicate KeepsOrRetires(s: State, t: State) {
    && Inv(t) && LeavesFiles(s.disk, t.disk)
    && if s.pc.UnlinkOld? || s.pc.UnlinkRotated? then RetiresMarked(s, t) else Retired(t) == Retired(s)
  }

  lemma ImportKeepsInv(s: State, origin: Origin, c: Choice, t: State)
    requires Inv(s) && Importing(s.pc) && EventFits(s, Run(c)) && t == AdvanceImport(s, origin, c)
    ensures KeepsAll(s, t)
  {
    match s.pc
    case ReadPlan(m) =>
      SameText(s, t);
      NextAfterReadingPlan(s, m, origin, c);
    case DropStale(content) => UnmarkKeeps(s, Fresh(content), t);
    case Fresh(content) =>
      FreshJobIsGood(s, content, origin, c);
      FreshKeeps(s, FreshJob(content, origin, c), t);
    case Ingesting(job, done, counters) => IngestKeeps(s, job, done, counters, c.outcome, c.persisted, t);
    case WriteProcessed(job, text, cleanUp) => WriteProcessedKeeps(s, job, text, cleanUp, t);
  }

  lemma CreateKeeps(s: State, text: string, t: State)
    requires Inv(s) && s.pc == Recreate(text) && t == CreateStep(s, text)
    ensures KeepsAll(s, t)
  {
    assert TextOf(t.disk.plan) == TextOf(s.disk.plan) && TextOnDisk(t.disk) == TextOnDisk(s.disk);
    SameText(s, t);
  }

  lemma RemovalKeepsAll(s: State, t: State)
    requires Inv(s) && t == AdvanceRemoval(s)
    requires !Recovery(s.pc) && !Importing(s.pc) && !s.pc.UnlinkRotated?
    ensures KeepsAll(s, t)
  {
    match s.pc
    case Rename(text) => RenameKeeps(s, text, t);
    case Recreate(text) => CreateKeeps(s, text, t);
    case ReadRotated(text) => ReadRotatedKeeps(s, text, t);
    case RestoreRotated(tail, deferred) => PutBackKeeps(s, tail, UnlinkRotated(deferred), t);
    case DropAndStop => UnmarkKeeps(s, Idle, t);
  }

  lemma RemovalKeepsInv(s: State, t: State)
    requires Inv(s) && !Recovery(s.pc) && !Importing(s.pc) && t == AdvanceRemoval(s)
    ensures KeepsOrRetires(s, t)
  {
    if s.pc.UnlinkRotated? {
      assert !s.pc.deferred;
      UnlinkKeeps(s, DropAndStop, t);
    } else {
      RemovalKeepsAll(s, t);
    }
  }

  /** Every operation of a run keeps the invariant, and retires text only when it unlinks a snapshot. */
  lemma AdvanceKeepsInv(s: State, origin: Origin, c: Choice, t: State)
    requires Inv(s) && EventFits(s, Run(c)) && t == Advance(s, origin, c)
    ensures KeepsOrRetires(s, t)
  {
    if Recovery(s.pc) {
      match s.pc
      case Idle => StartKeeps(s, t);
      case Recovering(m) => RecoverKeeps(s, m, t);
      case RestoreOld(m, used, tail) => PutBackKeeps(s, tail, UnlinkOld(m, used), t);
      case UnlinkOld(_, _) => UnlinkKeeps(s, DropUsed, t);
      case DropUsed => UnmarkKeeps(s, Recovering(None), t);
    } else if Importing(s.pc) {
      ImportKeepsInv(s, origin, c, t);
    } else {
      RemovalKeepsInv(s, t);
    }
  }

  /** Every step, of the run, of the writer or of a crash, keeps the invariant. */
  lemma StepKeepsInv(s: State, origin: Origin, e: Event)
    requires Inv(s) && EventOk(s, e)
    ensures Inv(Step(s, origin, e))
  {
    match e
    case Append(text) => AppendStep(s, origin, text);
    case Crash => SameText(s, s.(pc := Idle));
    case Run(c) => AdvanceKeepsInv(s, origin, c, Advance(s, origin, c));
  }

  // ---------------------------------------------------------------------------
  // Whole runs
  // ---------------------------------------------------------------------------

  /** `states` is what `events` lead through from a start, under the assumptions on each event. */
  predicate IsRun(states: seq<State>, origin: Origin, events: seq<Event>) {
    && |states| == |events| + 1
    && Initial(states[0])
    && forall i | 0 <= i < |events| ::
         EventOk(states[i], events[i]) && states[i + 1] == Step(states[i], origin, events[i])
  }

  function Written(e: Event): string {
    if e.Append? then e.text else ""
  }

  function AppendedBy(events: seq<Event>): string {
    if events == [] then "" else AppendedBy(events[..|events| - 1]) + Written(events[|events| - 1])
  }

  lemma InitialIsInv(s: State)
    requires Initial(s)
    ensures Inv(s)
  {
    assert Retired(s) == "" && s.history == "" + TextOnDisk(s.disk);
    CoveredBlank("", s.imported);
  }

  lemma {:induction false} RunKeepsInv(states: seq<State>, origin: Origin, events: seq<Event>, n: nat)
    requires IsRun(states, origin, events) && n <= |events|
    ensures Inv(states[n])
  {
    if n == 0 {
      InitialIsInv(states[0]);
    } else {
      RunKeepsInv(states, origin, events, n - 1);
      StepKeepsInv(states[n - 1], origin, events[n - 1]);
    }
  }

  lemma HistoryOfStep(s: State, origin: Origin, e: Event)
    ensures Step(s, origin, e).history == s.history + Written(e)
  {
    assert s.history + "" == s.history;
  }

  lemma RunHistory(states: seq<State>, origin: Origin, events: seq<Event>, n: nat)
    requires IsRun(states, origin, events) && n <= |events|
    ensures states[n].history == states[0].history + AppendedBy(events[..n])
  {
    var histories := seq(|states|, i requires 0 <= i < |states| => states[i].history);
    forall i | 0 <= i < |events| ensures histories[i + 1] == histories[i] + Written(events[i]) {
      HistoryOfStep(states[i], origin, events[i]);
    }
    HistoriesGrow(histories, events, n);
  }

  lemma {:induction false} HistoriesGrow(histories: seq<string>, events: seq<Event>, n: nat)
    requires n <= |events| < |histories|
    requires forall i | 0 <= i < |events| :: histories[i + 1] == histories[i] + Written(events[i])
    ensures histories[n] == histories[0] + AppendedBy(events[..n])
  {
    if n == 0 {
      assert histories[0] + "" == histories[0];
    } else {
      HistoriesGrow(histories, events, n - 1);
      AppendedNext(histories[0], events, n - 1);
      assert histories[n - 1 + 1] == histories[n - 1] + Written(events[n - 1]);
    }
  }

  lemma AppendedNext(before: string, events: seq<Event>, n: nat)
    requires n < |events|
    ensures before + AppendedBy(events[..n + 1]) == before + AppendedBy(events[..n]) + Written(events[n])
  {
    assert events[..n + 1][..n] == events[..n];
  }

  /** No text is lost. From any start, after any number of appends, crashes and run steps, all text
      ever appended is what has left the disk, which is imported, followed by what the disk holds. */
  lemma NoTextIsLost(states: seq<State>, origin: Origin, events: seq<Event>, n: nat)
    requires IsRun(states, origin, events) && n <= |events|
    ensures states[0].history + AppendedBy(events[..n]) == Retired(states[n]) + TextOnDisk(states[n].disk)
    ensures Covered(Retired(states[n]), states[n].imported)
  {
    RunKeepsInv(states, origin, events, n);
    RunHistory(states, origin, events, n);
  }

  /** In the same terms as the next run sees it: the history is imported text followed by the text that
      the disk still owes, where what a processed marker covers is not owed. */
  lemma OwedTextFollowsImported(states: seq<State>, origin: Origin, events: seq<Event>, n: nat) returns (done: string)
    requires IsRun(states, origin, events) && n <= |events|
    ensures states[0].history + AppendedBy(events[..n]) == done + Owed(states[n].disk)
    ensures Covered(done, states[n].imported)
  {
    NoTextIsLost(states, origin, events, n);
    RunKeepsInv(states, origin, events, n);
    done := OwedAfter(states[n]);
  }

  lemma OwedAfter(s: State) returns (done: string)
    requires Inv(s)
    ensures s.history == done + Owed(s.disk) && Covered(done, s.imported)
  {
    var m := s.disk.marker;
    if m.Some? && m.value.status.Processed?
        && (s.disk.snapshots != [] || m.value.processedContent.value <= TextOf(s.disk.plan)) {
      var head := m.value.processedContent.value;
      assert TextOnDisk(s.disk) == head + Owed(s.disk);
      Associates(Retired(s), head, Owed(s.disk));
      CoveredJoin(Retired(s), head, s.imported);
      done := Retired(s) + head;
    } else {
      done := Retired(s);
    }
  }

  /** In every reachable state a cleanup snapshot is alone and comes with a processed marker whose
      content is a prefix of it and has been imported. */
  lemma SnapshotHasProcessedMarker(states: seq<State>, origin: Origin, events: seq<Event>, n: nat)
    requires IsRun(states, origin, events) && n <= |events|
    ensures
      var d := states[n].disk;
      d.snapshots != [] ==>
        && |d.snapshots| == 1
        && d.marker.Some? && d.marker.value.status.Processed?
        && d.marker.value.processedContent.Some?
        && d.marker.value.processedContent.value <= d.snapshots[0]
        && Covered(d.marker.value.processedContent.value, states[n].imported)
  {
    RunKeepsInv(states, origin, events, n);
  }

  /** Over every run, text leaves the disk in one kind of step only: unlinking a snapshot, and then
      exactly the imported text that the processed marker on disk covers. */
  lemma RetirementFollowsIngestion(states: seq<State>, origin: Origin, events: seq<Event>, n: nat)
    requires IsRun(states, origin, events) && n < |events|
    ensures
      var s, t := states[n], states[n + 1];
      if events[n].Run? && (s.pc.UnlinkOld? || s.pc.UnlinkRotated?) then RetiresMarked(s, t)
      else Retired(t) == Retired(s)
  {
    var s, t := states[n], states[n + 1];
    RunKeepsInv(states, origin, events, n);
    match events[n]
    case Append(text) =>
      AppendIsCountedExactly(s.disk, text);
      AppendedHistory(s, t, text);
    case Crash => assert t.disk == s.disk;
    case Run(c) => AdvanceKeepsInv(s, origin, c, t);
  }
}
