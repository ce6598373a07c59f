/** The texts that the machine counts as imported are those whose fingerprints the ingestor holds. */
module ProtocolStore {
  import opened Options
  import opened Text
  import opened ImportTurns
  import opened SerialIngest
  import opened Marker
  import opened PlanDirectory
  import opened Protocol
  import opened ProtocolSafety

  // ---------------------------------------------------------------------------
  // Fingerprints across a marker
  // ---------------------------------------------------------------------------

  /** Every turn carries the fingerprint of its own raw text. */
  predicate OwnFingerprints(turns: seq<ImportTurn>, origin: Origin) {
    forall i | 0 <= i < |turns| :: turns[i].fingerprint == Fingerprint(origin, turns[i].rawContent)
  }

  predicate OwnBytes(turns: seq<ImportTurn>) {
    forall i | 0 <= i < |turns| :: turns[i].bytes == ByteLength(turns[i].rawContent)
  }

  /** The turns that a marker gives back carry their own fingerprints. */
  predicate GivesBack(content: string, m: Marker, origin: Origin) {
    var turns := TurnsFromMarker(content, m, origin);
    turns.Some? ==> OwnFingerprints(turns.value, origin)
  }

  lemma {:induction false} SpellingSpells(rest: string, raws: seq<string>)
    requires TurnsSpelling(rest, raws).Some?
    ensures Concat(raws[..TurnsSpelling(rest, raws).value]) == rest
    decreases raws
  {
    var n := TurnsSpelling(rest, raws).value;
    assert raws[..n][0] == raws[0] && raws[..n][1..] == raws[1..][..n - 1];
    if raws[0] == rest {
      assert raws[0] + "" == rest;
    } else {
      SpellingSpells(rest[|raws[0]|..], raws[1..]);
      assert raws[0] + rest[|raws[0]|..] == rest;
    }
  }

  lemma SpelledTurnsComeBack(turns: seq<ImportTurn>, n: nat, content: string, m: Marker, origin: Origin)
    requires OwnFingerprints(turns, origin) && OwnBytes(turns) && n <= |turns|
    requires Trim(content) == Concat(Raws(turns)[..n]) && m.processedChunks == Some(Records(turns)[..n])
    ensures GivesBack(content, m, origin)
  {
    SplitSpelledText(Raws(turns)[..n], Records(turns)[..n]);
  }

  lemma WrittenMarkerGivesBack(
    status: Status, content: string, at: Value, reason: string, turns: seq<ImportTurn>, origin: Origin)
    requires OwnFingerprints(turns, origin) && OwnBytes(turns)
    ensures GivesBack(content, BuildMarker(status, content, at, reason, turns), origin)
  {
    var m := BuildMarker(status, content, at, reason, turns);
    if m.processedChunks.Some? {
      var n := TurnsSpelling(Trim(content), Raws(turns)).value;
      SpellingSpells(Trim(content), Raws(turns));
      SpelledTurnsComeBack(turns, n, content, m, origin);
    }
  }

  // ---------------------------------------------------------------------------
  // What every step keeps
  // ---------------------------------------------------------------------------

  predicate MarkerTells(m: Option<Marker>, origin: Origin) {
    m.Some? && m.value.status.Pending? && m.value.processedContent.Some? ==>
      GivesBack(m.value.processedContent.value, m.value, origin)
  }

  predicate JobTells(pc: Pc, origin: Origin) {
    pc.Ingesting? ==> OwnFingerprints(pc.job.turns, origin)
  }

  predicate Tells(s: State, origin: Origin) {
    MarkerTells(s.disk.marker, origin) && JobTells(s.pc, origin)
  }

  lemma ReplayTells(s: State, origin: Origin, c: Choice, m: Option<Marker>)
    requires Inv(s) && s.pc == ReadPlan(m) && MarkerTells(m, origin)
    ensures JobTells(AfterReadingPlan(s, m, origin, c), origin)
  {
    if m.Some? && s.disk.plan.Some? && IsMeaningful(TextOf(s.disk.plan)) {
      AfterMarker(s, origin, c, m.value);
    }
  }

  lemma FreshTells(s: State, origin: Origin, c: Choice, content: string, t: State)
    requires Inv(s) && s.pc == Fresh(content) && c.maxTurnChars >= 1
    requires t == FreshStep(s, FreshJob(content, origin, c))
    ensures Tells(t, origin)
  {
    var job := FreshJob(content, origin, c);
    BuiltJobIsGood(s, job, origin, c.maxTurnChars);
    BytesOfPlan(s, content);
    WrittenMarkerReadsBack(Pending, content, job.processedAt, job.reason, job.turns);
    WrittenMarkerGivesBack(Pending, content, job.processedAt, job.reason, job.turns, origin);
  }

  lemma ProcessedTells(s: State, origin: Origin, job: Job, text: string, cleanUp: bool, next: Pc)
    requires Inv(s) && s.pc == WriteProcessed(job, text, cleanUp) && !next.Ingesting?
    ensures Tells(Mark(s, Processed, text, job, next), origin)
  {
    BytesOfPlan(s, text);
    WrittenMarkerReadsBack(Processed, text, job.processedAt, job.reason, job.turns);
  }

  lemma IngestTells(s: State, origin: Origin, job: Job, done: nat, counters: Counters, o: BatchOutcome,
      persisted: bool, t: State)
    requires Tells(s, origin) && s.pc == Ingesting(job, done, counters)
    requires t == IngestStep(s, job, done, counters, o, persisted)
    ensures Tells(t, origin)
  {
  }

  lemma ImportTells(s: State, origin: Origin, c: Choice, t: State)
    requires Inv(s) && Tells(s, origin) && c.maxTurnChars >= 1 && Importing(s.pc) && t == AdvanceImport(s, origin, c)
    ensures Tells(t, origin)
  {
    match s.pc
    case ReadPlan(m) => ReplayTells(s, origin, c, m);
    case DropStale(_) =>
    case Fresh(content) => FreshTells(s, origin, c, content, t);
    case Ingesting(job, done, counters) => IngestTells(s, origin, job, done, counters, c.outcome, c.persisted, t);
    case WriteProcessed(job, text, cleanUp) =>
      ProcessedTells(s, origin, job, text, cleanUp, if cleanUp then Rename(text) else Idle);
  }

  /** No new marker, and no job. */
  predicate WritesNothing(s: State, t: State) {
    (t.disk.marker == s.disk.marker || t.disk.marker.None?) && !t.pc.Ingesting?
  }

  lemma RecoveryWritesNothing(s: State, t: State)
    requires Recovery(s.pc) && t == AdvanceRecovery(s)
    ensures WritesNothing(s, t)
  {
  }

  lemma RemovalWritesNothing(s: State, t: State)
    requires !Recovery(s.pc) && !Importing(s.pc) && t == AdvanceRemoval(s)
    ensures WritesNothing(s, t)
  {
  }

  lemma StepTells(s: State, origin: Origin, e: Event)
    requires Inv(s) && Tells(s, origin) && EventOk(s, e)
    ensures Tells(Step(s, origin, e), origin)
  {
    if e.Run? {
      if Importing(s.pc) {
        ImportTells(s, origin, e.choice, AdvanceImport(s, origin, e.choice));
      } else if Recovery(s.pc) {
        RecoveryWritesNothing(s, AdvanceRecovery(s));
      } else {
        RemovalWritesNothing(s, AdvanceRemoval(s));
      }
    }
  }

  // ---------------------------------------------------------------------------
  // The ingestor's store over whole runs
  // ---------------------------------------------------------------------------

  /** The ingestor is given a turn, and takes it in. */
  predicate TakesIn(s: State, e: Event) {
    && e.Run? && s.pc.Ingesting? && s.pc.done < |s.pc.job.turns|
    && (Succeeds(e.choice.outcome) || e.choice.persisted)
  }

  /** The ingestor's store after one event. */
  function TakenIn(store: Store, s: State, e: Event): Store {
    if TakesIn(s, e) then Ingest(store, s.pc.job.turns[s.pc.done]) else store
  }

  function StoreAfter(store: Store, states: seq<State>, events: seq<Event>, n: nat): Store
    requires n <= |events| < |states|
  {
    if n == 0 then store else TakenIn(StoreAfter(store, states, events, n - 1), states[n - 1], events[n - 1])
  }

  /** The store has the fingerprints of exactly these texts of the origin, and perhaps others. */
  ghost predicate Holds(store: Store, origin: Origin, texts: set<string>) {
    forall text: string :: text in texts <==> Fingerprint(origin, text) in store
  }

  lemma IngestHolds(store: Store, origin: Origin, texts: set<string>, turn: ImportTurn)
    requires Holds(store, origin, texts) && turn.fingerprint == Fingerprint(origin, turn.rawContent)
    ensures Holds(Ingest(store, turn), origin, texts + {turn.rawContent})
  {
    forall text: string
      ensures text in texts + {turn.rawContent} <==> Fingerprint(origin, text) in Ingest(store, turn)
    {
      if Fingerprint(origin, text) == turn.fingerprint {
        FingerprintIsInjective(origin, text, turn.rawContent);
      }
    }
  }

  lemma ImportedOfStep(s: State, origin: Origin, e: Event)
    ensures Step(s, origin, e).imported ==
      if TakesIn(s, e) then s.imported + {s.pc.job.turns[s.pc.done].rawContent} else s.imported
  {
  }

  lemma {:induction false} RunTells(states: seq<State>, origin: Origin, events: seq<Event>, n: nat)
    requires IsRun(states, origin, events) && n <= |events|
    ensures Tells(states[n], origin)
  {
    if n > 0 {
      RunTells(states, origin, events, n - 1);
      RunKeepsInv(states, origin, events, n - 1);
      StepTells(states[n - 1], origin, events[n - 1]);
    }
  }

  /** Over every run, crashes and replays included, the machine's imported texts are those whose
      fingerprints the ingestor's store holds. */
  lemma {:induction false} ImportedIsTheStore(
    states: seq<State>, origin: Origin, events: seq<Event>, store: Store, n: nat)
    requires IsRun(states, origin, events) && n <= |events| && Holds(store, origin, states[0].imported)
    ensures Holds(StoreAfter(store, states, events, n), origin, states[n].imported)
  {
    if n > 0 {
      ImportedIsTheStore(states, origin, events, store, n - 1);
      RunTells(states, origin, events, n - 1);
      ImportedOfStep(states[n - 1], origin, events[n - 1]);
      if TakesIn(states[n - 1], events[n - 1]) {
        var job, done := states[n - 1].pc.job, states[n - 1].pc.done;
        IngestHolds(StoreAfter(store, states, events, n - 1), origin, states[n - 1].imported, job.turns[done]);
      }
    }
  }
}
