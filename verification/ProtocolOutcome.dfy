/** What an import leaves on disk when it ends, whether with its last turn or at a batch that fails. */
module ProtocolOutcome {
  import opened Options
  import opened Text
  import opened Chunking
  import opened ImportTurns
  import opened SerialIngest
  import opened Marker
  import opened PlanDirectory
  import opened Protocol
  import opened ProtocolSafety
  import opened ProtocolProgress

  /** The turns spell the trimmed text of the import; so they do if no piece of it was dropped. */
  predicate Spelled(job: Job) {
    Concat(Raws(job.turns)) == Trim(job.content) && forall i | 0 <= i < |job.turns| :: job.turns[i].rawContent != ""
  }

  /** The text that the first `done` turns deal with: all of it, or the leading white space and what these
      turns spell. */
  function DealtWith(job: Job, done: nat): string
    requires done <= |job.turns|
  {
    if done == |job.turns| then job.content
    else job.content[..LeadingSpace(job.content)] + Concat(Raws(job.turns)[..done])
  }

  /** The batch fails or throws, and says that it has processed nothing. */
  predicate FailsPlainly(o: BatchOutcome) {
    !Succeeds(o) && Reliable(o) && Reported(o) == 0
  }

  /** The next step ends the import: no turn is left, or the batch fails. */
  predicate EndsImport(job: Job, done: nat, o: BatchOutcome) {
    done == |job.turns| || (done < |job.turns| && FailsPlainly(o))
  }

  /** The failures after persisting that the import will have been told of. */
  function MetadataFailureCount(job: Job, done: nat, counters: Counters, o: BatchOutcome): int {
    counters.metadataFailures + if done < |job.turns| then Says(o, MetadataFailures) else 0
  }

  /** What the ingestor has taken in when the import ends: a batch that fails may have persisted its turn. */
  function TakenInAtEnd(s: State, job: Job, done: nat, persisted: bool): set<string> {
    if done < |job.turns| && persisted then s.imported + {job.turns[done].rawContent} else s.imported
  }

  lemma FailureIsCounted(counters: Counters, o: BatchOutcome, done: nat)
    requires FailsPlainly(o) && counters.failed == 0 && counters.processed == done
    ensures Ending(counters, o).Rethrown? <==> o.Threw? && done == 0
    ensures Ending(counters, o).Aggregate? ==>
      var c := Ending(counters, o).counters;
      c.failed > 0 && c.processed == done && c.metadataFailures == counters.metadataFailures + Says(o, MetadataFailures)
  {
  }

  /** The step that ends an import. */
  lemma EndingStep(s: State, c: Choice, job: Job, done: nat, counters: Counters, t: State)
    requires s.pc == Ingesting(job, done, counters) && counters.processed == done && counters.failed == 0
    requires EndsImport(job, done, c.outcome) && Spelled(job)
    requires t == IngestStep(s, job, done, counters, c.outcome, c.persisted)
    ensures t == s.(imported := TakenInAtEnd(s, job, done, c.persisted),
                    pc := if done == 0 && done < |job.turns| then Idle
                          else WriteProcessed(job, DealtWith(job, done),
                              MetadataFailureCount(job, done, counters, c.outcome) <= 0))
  {
    if done < |job.turns| {
      FailureIsCounted(counters, c.outcome, done);
      if done > 0 {
        CutIsProcessedText(job.content, Raws(job.turns), done);
      }
    }
  }

  lemma MarkedOnly(s: State, origin: Origin, c: Choice, job: Job, text: string) returns (t: State)
    requires Inv(s) && s.pc == WriteProcessed(job, text, false)
    ensures Reaches(s, t, origin, c)
    ensures t.pc.Idle? && t.history == s.history && t.imported == s.imported
    ensures t.disk.plan == s.disk.plan && t.disk.snapshots == [] && ProcessedMarkerFor(t.disk.marker, text)
  {
    BytesOfPlan(s, text);
    WrittenMarkerReadsBack(Processed, text, job.processedAt, job.reason, job.turns);
    t := Mark(s, Processed, text, job, Idle);
    One(s, t, origin, c);
  }

  /** How an import ends. If its first turn fails nothing on disk has changed. Otherwise the text that the
      finished turns deal with is taken off the front of the plan file, and there is no marker any more; but
      if a failure after persisting was reported, the file stays and the text is marked as processed. */
  lemma ImportLeaves(s: State, origin: Origin, c: Choice, job: Job, done: nat, counters: Counters, plan: string)
    returns (t: State)
    requires Inv(s) && s.pc == Ingesting(job, done, counters) && counters.processed == done && Spelled(job)
    requires EndsImport(job, done, c.outcome) && s.disk.plan == Some(plan)
    ensures Reaches(s, t, origin, c) && t.pc.Idle?
    ensures t.history == s.history && t.imported == TakenInAtEnd(s, job, done, c.persisted)
    ensures
      if done == 0 && done < |job.turns| then t.disk == s.disk
      else
        && DealtWith(job, done) <= plan
        && if MetadataFailureCount(job, done, counters, c.outcome) > 0 then
             t.disk.plan == Some(plan) && t.disk.snapshots == [] && ProcessedMarkerFor(t.disk.marker, DealtWith(job, done))
           else t.disk == Disk(Some(plan[|DealtWith(job, done)|..]), [], None)
  {
    var next := IngestStep(s, job, done, counters, c.outcome, c.persisted);
    EndingStep(s, c, job, done, counters, next);
    OneIngestStep(s, origin, c, job, done, counters, next);
    if done == 0 && done < |job.turns| {
      t := next;
    } else {
      EndingKeepsInv(s, c, done, next);
      t := DealtWithIsRemoved(next, origin, c, job, DealtWith(job, done), plan);
      Then(s, next, t, origin, c);
    }
  }

  lemma OneIngestStep(s: State, origin: Origin, c: Choice, job: Job, done: nat, counters: Counters, next: State)
    requires s.pc == Ingesting(job, done, counters)
    requires next == IngestStep(s, job, done, counters, c.outcome, c.persisted)
    ensures Reaches(s, next, origin, c)
  {
    One(s, next, origin, c);
  }

  lemma EndingKeepsInv(s: State, c: Choice, done: nat, next: State)
    requires Inv(s) && s.pc.Ingesting? && s.pc.done == done
    requires next == IngestStep(s, s.pc.job, done, s.pc.counters, c.outcome, c.persisted)
    requires done == |s.pc.job.turns| || Reliable(c.outcome)
    ensures Inv(next)
  {
    if done == |s.pc.job.turns| {
      IngestKeeps(s, s.pc.job, done, s.pc.counters, Returned(None), false, next);
    } else {
      IngestKeeps(s, s.pc.job, done, s.pc.counters, c.outcome, c.persisted, next);
    }
  }

  lemma DealtWithIsRemoved(s: State, origin: Origin, c: Choice, job: Job, text: string, plan: string)
    returns (t: State)
    requires Inv(s) && s.pc.WriteProcessed? && s.pc.job == job && s.pc.text == text && s.disk.plan == Some(plan)
    ensures Reaches(s, t, origin, c) && t.pc.Idle? && t.history == s.history && t.imported == s.imported
    ensures text <= plan
    ensures
      if s.pc.cleanUp then t.disk == Disk(Some(plan[|text|..]), [], None)
      else t.disk.plan == Some(plan) && t.disk.snapshots == [] && ProcessedMarkerFor(t.disk.marker, text)
  {
    if s.pc.cleanUp {
      t := ProcessedFinishes(s, origin, c, job, text, plan);
    } else {
      t := MarkedOnly(s, origin, c, job, text);
    }
  }

  // ---------------------------------------------------------------------------
  // Text that is marked as processed
  // ---------------------------------------------------------------------------

  lemma ProcessedIsRead(s: State, origin: Origin, c: Choice, text: string, plan: string)
    requires Inv(s) && s.pc == ReadPlan(s.disk.marker) && s.disk.plan == Some(plan) && IsMeaningful(plan)
    requires ProcessedMarkerFor(s.disk.marker, text) && text <= plan
    ensures Advance(s, origin, c) == s.(pc := Rename(text))
  {
    AfterMarker(s, origin, c, s.disk.marker.value);
  }

  /** The next run takes processed text off the plan file, and the marker with it, and hands the ingestor
      nothing, however its batches would have ended. */
  lemma ProcessedTextIsOnlyRemoved(s: State, origin: Origin, c: Choice, text: string, plan: string)
    returns (t: State)
    requires Inv(s) && s.pc.Idle? && s.disk.snapshots == [] && s.disk.plan == Some(plan) && IsMeaningful(plan)
    requires ProcessedMarkerFor(s.disk.marker, text) && text <= plan
    ensures Reaches(s, t, origin, c)
    ensures t == State(Disk(Some(plan[|text|..]), [], None), Idle, s.history, s.imported)
  {
    var recovering := s.(pc := Recovering(s.disk.marker));
    One(s, recovering, origin, c);
    var reading := s.(pc := ReadPlan(s.disk.marker));
    One(recovering, reading, origin, c);
    Then(s, recovering, reading, origin, c);
    ProcessedIsRead(reading, origin, c, text, plan);
    var renaming := s.(pc := Rename(text));
    One(reading, renaming, origin, c);
    Then(s, reading, renaming, origin, c);
    t := State(Disk(Some(plan[|text|..]), [], None), Idle, s.history, s.imported);
    RemovalFinishes(renaming, origin, c, text, plan, t);
    Then(s, renaming, t, origin, c);
  }
}
