/** The pending marker over whole runs: while an import is under way it is on disk and gives its turns
    back, so that after any interruption the next run imports the same turns again. */
module ProtocolReplay {
  import opened Options
  import opened Text
  import opened Chunking
  import opened ImportTurns
  import opened SerialIngest
  import opened Marker
  import opened PlanDirectory
  import opened Protocol
  import opened ProtocolSafety
  import opened ProtocolStore
  import opened ProtocolProgress
  import opened JoinedLines

  // ---------------------------------------------------------------------------
  // What a pending marker gives back
  // ---------------------------------------------------------------------------

  /** Every turn was made under a limit that a marker can record. */
  predicate LimitsSafe(turns: seq<ImportTurn>) {
    forall i | 0 <= i < |turns| :: turns[i].maxTurnChars <= MAX_SAFE_INTEGER
  }

  /** The same turns (fingerprint, raw text, time, number and count), but perhaps for the turn limit. */
  predicate SameButLimit(a: seq<ImportTurn>, b: seq<ImportTurn>) {
    && |a| == |b|
    && forall i | 0 <= i < |a| :: a[i] == b[i].(maxTurnChars := a[i].maxTurnChars, wrapper := a[i].wrapper)
  }

  /** The turns that `text`'s recorded chunks give back are those of the import. */
  predicate ChunksGiveBack(text: string, m: Marker, origin: Origin, turns: seq<ImportTurn>) {
    var back := TurnsFromMarker(text, m, origin);
    && back.Some? && SameButLimit(back.value, turns)
    && (back.value == turns <==> LimitsSafe(turns))
  }

  /** The turns are those of a first attempt under some usable limit. */
  ghost predicate BuiltUnderSomeLimit(job: Job, origin: Origin) {
    exists limit: nat :: limit >= 1 && BuiltUnder(job, origin, limit)
  }

  predicate BuiltUnder(job: Job, origin: Origin, limit: nat) {
    job.turns == BuildTurns(job.content, origin, job.processedAt, job.reason, limit)
  }

  /** A pending marker for this job. */
  ghost predicate MarkerOfJob(m: Marker, job: Job, origin: Origin) {
    && m.status.Pending? && m.processedContent == Some(job.content)
    && m.processedAt == job.processedAt && m.reason == job.reason
    && if m.processedChunks.Some? then ChunksGiveBack(job.content, m, origin, job.turns)
       else BuiltUnderSomeLimit(job, origin)
  }

  /** The first attempt: the marker that is written before the first turn is handed over. */
  lemma FreshMarkerIsOfJob(job: Job, origin: Origin, ms: int, limit: nat, m: Marker)
    requires job.processedAt == Iso(ms) && limit >= 1 && BuiltUnder(job, origin, limit)
    requires ByteLength(job.content) <= MAX_SAFE_INTEGER
    requires m == BuildMarker(Pending, job.content, job.processedAt, job.reason, job.turns)
    ensures MarkerOfJob(m, job, origin)
  {
    if m.processedChunks.Some? {
      RecordedMeansSpelled(job.content, origin, ms, job.reason, limit, m);
      FreshChunksGiveBack(job, origin, ms, limit, m);
    }
  }

  lemma FreshChunksGiveBack(job: Job, origin: Origin, ms: int, limit: nat, m: Marker)
    requires job.processedAt == Iso(ms) && limit >= 1 && BuiltUnder(job, origin, limit)
    requires !Blank(job.content) && ByteLength(job.content) <= MAX_SAFE_INTEGER && ChunksSpell(job.content, limit)
    requires m == FreshMarker(job.content, origin, ms, job.reason, limit)
    ensures ChunksGiveBack(job.content, m, origin, job.turns)
  {
    SpelledChunksAreRecorded(job.content, origin, ms, job.reason, limit);
    ReplayedTurnsAreFresh(job.content, origin, ms, job.reason, limit, m);
    FreshRaws(job.content, origin, job.processedAt, job.reason, limit);
    ReplayedButLimit(job, origin, m, limit);
    OneLimit(job.turns, limit);
  }

  lemma RecordedMeansSpelled(content: string, origin: Origin, ms: int, reason: string, limit: nat, m: Marker)
    requires ByteLength(content) <= MAX_SAFE_INTEGER
    requires m == FreshMarker(content, origin, ms, reason, limit) && m.processedChunks.Some?
    ensures !Blank(content) && ChunksSpell(content, limit)
  {
    var _, _ := TrimSplits(content);
    if !ChunksSpell(content, limit) {
      ChunksFacts(content, limit);
      FreshRaws(content, origin, Iso(ms), reason, limit);
      SpellingTooLittle(Trim(content), ChunksOf(content, limit));
    }
  }

  lemma ReplayedButLimit(job: Job, origin: Origin, m: Marker, limit: nat)
    requires m.processedChunks == Some(Records(job.turns)) && BuiltUnder(job, origin, limit)
    requires m.processedAt == job.processedAt && m.reason == job.reason && |job.turns| <= MAX_SAFE_INTEGER
    requires Trim(job.content) == Concat(Raws(job.turns))
    ensures TurnsFromMarker(job.content, m, origin).Some?
    ensures SameButLimit(TurnsFromMarker(job.content, m, origin).value, job.turns)
  {
    SplitSpelledText(Raws(job.turns), Records(job.turns));
  }

  lemma OneLimit(turns: seq<ImportTurn>, limit: nat)
    requires turns != [] && forall i | 0 <= i < |turns| :: turns[i].maxTurnChars == limit
    ensures LimitsSafe(turns) <==> limit <= MAX_SAFE_INTEGER
  {
    assert turns[0].maxTurnChars == limit;
  }

  /** A later attempt: the turns that a replay rebuilds. */
  lemma ReplayedJobIsOfMarker(m: Marker, text: string, origin: Origin, limit: nat)
    requires OwnMarker(m) && m.status.Pending? && m.processedContent == Some(text) && limit >= 1
    requires m.processedChunks.Some? ==> TurnsFromMarker(text, m, origin).Some?
    ensures MarkerOfJob(m, Job(text, ReplayTurns(text, m, origin, limit), m.processedAt, m.reason), origin)
  {
    var job := Job(text, ReplayTurns(text, m, origin, limit), m.processedAt, m.reason);
    if m.processedChunks.Some? {
      ReplayedLimitsAreSafe(text, m, origin, job.turns);
    } else {
      assert BuiltUnder(job, origin, limit);
    }
  }

  lemma ReplayedLimitsAreSafe(text: string, m: Marker, origin: Origin, turns: seq<ImportTurn>)
    requires ChunksReadable(m.processedChunks) && TurnsFromMarker(text, m, origin) == Some(turns)
    ensures LimitsSafe(turns)
  {
    var chunks := m.processedChunks.value;
    var parts := SplitByChunks(Trim(text), chunks).value;
    forall i | 0 <= i < |turns| ensures turns[i].maxTurnChars <= MAX_SAFE_INTEGER {
      assert turns[i] == ReplayTurn(parts, chunks, i, origin, m);
    }
  }

  // ---------------------------------------------------------------------------
  // What every step keeps
  // ---------------------------------------------------------------------------

  /** A pending marker that has recorded its chunks can be replayed from them. */
  predicate MarkerReplays(m: Option<Marker>, origin: Origin) {
    m.Some? && m.value.status.Pending? && m.value.processedChunks.Some? && m.value.processedContent.Some? ==>
      TurnsFromMarker(m.value.processedContent.value, m.value, origin).Some?
  }

  /** While an import is under way its marker is on disk; before a first attempt there is none. */
  ghost predicate PcHasMarker(s: State, origin: Origin) {
    && (s.pc.Ingesting? ==> s.disk.marker.Some? && MarkerOfJob(s.disk.marker.value, s.pc.job, origin))
    && (s.pc.Fresh? ==> s.disk.marker.None?)
  }

  ghost predicate Replayable(s: State, origin: Origin) {
    MarkerReplays(s.disk.marker, origin) && PcHasMarker(s, origin)
  }

  lemma FreshIsReplayable(s: State, origin: Origin, c: Choice, job: Job, t: State)
    requires Inv(s) && s.pc == Fresh(job.content) && c.maxTurnChars >= 1
    requires job == FreshJob(job.content, origin, c) && t == FreshStep(s, job)
    ensures Replayable(t, origin)
  {
    FreshJobIsGood(s, job.content, origin, c);
    BytesOfPlan(s, job.content);
    FreshIsBuilt(job, origin, c);
    StartedIsReplayable(s, origin, c.now, c.maxTurnChars, job, t);
  }

  lemma FreshIsBuilt(job: Job, origin: Origin, c: Choice)
    requires job == FreshJob(job.content, origin, c)
    ensures BuiltUnder(job, origin, c.maxTurnChars) && job.processedAt == Iso(c.now)
  {
  }

  lemma StartedIsReplayable(s: State, origin: Origin, ms: int, limit: nat, job: Job, t: State)
    requires GoodTurns(job.turns) && job.content != "" && ByteLength(job.content) <= MAX_SAFE_INTEGER
    requires job.processedAt == Iso(ms) && limit >= 1 && BuiltUnder(job, origin, limit) && t == FreshStep(s, job)
    ensures Replayable(t, origin)
  {
    var m := BuildMarker(Pending, job.content, job.processedAt, job.reason, job.turns);
    WrittenMarkerReadsBack(Pending, job.content, job.processedAt, job.reason, job.turns);
    FreshMarkerIsOfJob(job, origin, ms, limit, m);
    WrittenIsReplayable(job, origin, m, t);
  }

  lemma WrittenIsReplayable(job: Job, origin: Origin, m: Marker, t: State)
    requires t.disk.marker == Some(m) && t.pc == Ingesting(job, 0, ZERO) && MarkerOfJob(m, job, origin)
    ensures Replayable(t, origin)
  {
  }

  lemma ReplayIsReplayable(s: State, origin: Origin, c: Choice, m: Option<Marker>, t: State)
    requires Inv(s) && s.pc == ReadPlan(m) && MarkerReplays(m, origin) && c.maxTurnChars >= 1
    requires t == s.(pc := AfterReadingPlan(s, m, origin, c))
    ensures Replayable(t, origin)
  {
    if m.Some? && s.disk.plan.Some? && IsMeaningful(TextOf(s.disk.plan)) {
      AfterMarker(s, origin, c, m.value);
      if t.pc.Ingesting? {
        ReplayedJobIsOfMarker(m.value, m.value.processedContent.value, origin, c.maxTurnChars);
      }
    }
  }

  lemma ProcessedIsReplayable(s: State, origin: Origin, job: Job, text: string, cleanUp: bool, next: Pc)
    requires Inv(s) && s.pc == WriteProcessed(job, text, cleanUp) && !next.Ingesting? && !next.Fresh?
    ensures Replayable(Mark(s, Processed, text, job, next), origin)
  {
    BytesOfPlan(s, text);
    WrittenMarkerReadsBack(Processed, text, job.processedAt, job.reason, job.turns);
  }

  lemma IngestIsReplayable(s: State, origin: Origin, job: Job, done: nat, counters: Counters, o: BatchOutcome,
      persisted: bool, t: State)
    requires Replayable(s, origin) && s.pc == Ingesting(job, done, counters)
    requires t == IngestStep(s, job, done, counters, o, persisted)
    ensures Replayable(t, origin)
  {
  }

  lemma ImportIsReplayable(s: State, origin: Origin, c: Choice, t: State)
    requires Inv(s) && Replayable(s, origin) && c.maxTurnChars >= 1 && Importing(s.pc) && t == AdvanceImport(s, origin, c)
    ensures Replayable(t, origin)
  {
    match s.pc
    case ReadPlan(m) => ReplayIsReplayable(s, origin, c, m, t);
    case DropStale(_) =>
    case Fresh(content) => FreshIsReplayable(s, origin, c, FreshJob(content, origin, c), t);
    case Ingesting(job, done, counters) =>
      IngestIsReplayable(s, origin, job, done, counters, c.outcome, c.persisted, t);
    case WriteProcessed(job, text, cleanUp) =>
      ProcessedIsReplayable(s, origin, job, text, cleanUp, if cleanUp then Rename(text) else Idle);
  }

  /** Recovery and removal begin no import. */
  lemma OthersBeginNothing(s: State, t: State)
    requires !Importing(s.pc) && t == if Recovery(s.pc) then AdvanceRecovery(s) else AdvanceRemoval(s)
    ensures (t.disk.marker == s.disk.marker || t.disk.marker.None?) && !t.pc.Ingesting? && !t.pc.Fresh?
  {
  }

  lemma StepIsReplayable(s: State, origin: Origin, e: Event)
    requires Inv(s) && Replayable(s, origin) && EventOk(s, e)
    ensures Replayable(Step(s, origin, e), origin)
  {
    if e.Run? {
      if Importing(s.pc) {
        ImportIsReplayable(s, origin, e.choice, AdvanceImport(s, origin, e.choice));
      } else {
        OthersBeginNothing(s, Advance(s, origin, e.choice));
      }
    }
  }

  lemma {:induction false} RunIsReplayable(states: seq<State>, origin: Origin, events: seq<Event>, n: nat)
    requires IsRun(states, origin, events) && n <= |events|
    ensures Replayable(states[n], origin)
  {
    if n > 0 {
      RunIsReplayable(states, origin, events, n - 1);
      RunKeepsInv(states, origin, events, n - 1);
      StepIsReplayable(states[n - 1], origin, events[n - 1]);
    }
  }

  /** In every reachable state in which an import is under way, the disk holds a pending marker for its
      content, time and reason. If the marker has recorded chunks they give the turns back, the same but
      for limits that a marker cannot record; if not, the turns are those of a first attempt. */
  lemma ImportHasItsMarker(states: seq<State>, origin: Origin, events: seq<Event>, n: nat)
    requires IsRun(states, origin, events) && n <= |events| && states[n].pc.Ingesting?
    ensures states[n].disk.marker.Some? && MarkerOfJob(states[n].disk.marker.value, states[n].pc.job, origin)
  {
    RunIsReplayable(states, origin, events, n);
  }

  // ---------------------------------------------------------------------------
  // Coming back after an interruption
  // ---------------------------------------------------------------------------

  /** The job that a run under this turn limit makes of a pending marker. */
  function ReplayedJob(text: string, m: Marker, origin: Origin, limit: nat): Job {
    Job(text, ReplayTurns(text, m, origin, limit), m.processedAt, m.reason)
  }

  /** When a replay gives the import under way back: whatever the limit has become if the chunks were
      recorded and could be, and under the same limit if they were not. */
  lemma ReplayGivesJobBackExactly(s: State, origin: Origin, limit: nat)
    requires Replayable(s, origin) && s.pc.Ingesting?
    ensures s.disk.marker.Some?
    ensures ReplayedJob(s.pc.job.content, s.disk.marker.value, origin, limit) == s.pc.job <==>
      if s.disk.marker.value.processedChunks.Some? then LimitsSafe(s.pc.job.turns)
      else BuiltUnder(s.pc.job, origin, limit)
  {
  }

  /** Between runs, with a pending marker whose text the plan file starts with. */
  predicate Interrupted(s: State, text: string, m: Marker) {
    && s.pc.Idle? && s.disk.marker == Some(m) && StartsPlan(s.disk, text)
    && OwnMarker(m) && m.status.Pending? && m.processedContent == Some(text)
  }

  /** The next run replays the marker if the plan file still has a line with meaning; an append can have
      taken that away, and the run then drops the marker and imports nothing. */
  lemma RunReplays(s: State, origin: Origin, c: Choice, text: string, m: Marker)
    requires Interrupted(s, text, m)
    ensures Runs(s, origin, c, 3) ==
      s.(pc := if IsMeaningful(TextOf(s.disk.plan)) then Ingesting(ReplayedJob(text, m, origin, c.maxTurnChars), 0, ZERO)
               else DropAndStop)
  {
    var reading := s.(pc := ReadPlan(Some(m)));
    assert Advance(Advance(s, origin, c), origin, c) == reading;
    if IsMeaningful(TextOf(s.disk.plan)) {
      AfterMarker(reading, origin, c, m);
    }
    var t := Advance(reading, origin, c);
    assert Runs(reading, origin, c, 1) == Runs(t, origin, c, 0) == t;
    RunsJoin(s, origin, c, 2, 1);
    assert Runs(s, origin, c, 2) == reading by {
      assert Runs(Advance(s, origin, c), origin, c, 1) == Runs(reading, origin, c, 0);
    }
  }

  /** From every reachable state in which an import is under way, a crash and three steps of the next run
      come back to the beginning of the very same import, if and only if the plan file has a line with
      meaning and the marker's replay gives the turns back. */
  lemma CrashComesBackExactly(states: seq<State>, origin: Origin, events: seq<Event>, n: nat, c: Choice)
    requires IsRun(states, origin, events) && n <= |events| && states[n].pc.Ingesting?
    ensures states[n].disk.marker.Some?
    ensures
      var s := states[n];
      var crashed := Step(s, origin, Crash);
      Runs(crashed, origin, c, 3) == crashed.(pc := Ingesting(s.pc.job, 0, ZERO)) <==>
      && IsMeaningful(TextOf(s.disk.plan))
      && if s.disk.marker.value.processedChunks.Some? then LimitsSafe(s.pc.job.turns)
         else BuiltUnder(s.pc.job, origin, c.maxTurnChars)
  {
    var s := states[n];
    RunKeepsInv(states, origin, events, n);
    RunIsReplayable(states, origin, events, n);
    CrashComesBack(s, origin, c, s.disk.marker.value, Step(s, origin, Crash));
  }

  lemma CrashComesBack(s: State, origin: Origin, c: Choice, m: Marker, crashed: State)
    requires Inv(s) && Replayable(s, origin) && s.pc.Ingesting? && s.disk.marker == Some(m)
    requires crashed == s.(pc := Idle)
    ensures Runs(crashed, origin, c, 3) == crashed.(pc := Ingesting(s.pc.job, 0, ZERO)) <==>
      && IsMeaningful(TextOf(s.disk.plan))
      && if m.processedChunks.Some? then LimitsSafe(s.pc.job.turns) else BuiltUnder(s.pc.job, origin, c.maxTurnChars)
  {
    CrashInterrupts(s, origin, m, crashed);
    RunReplays(crashed, origin, c, s.pc.job.content, m);
    ComesBack(s, origin, c.maxTurnChars, m, crashed, Runs(crashed, origin, c, 3));
  }

  lemma CrashInterrupts(s: State, origin: Origin, m: Marker, stopped: State)
    requires Inv(s) && Replayable(s, origin) && s.pc.Ingesting? && s.disk.marker == Some(m)
    requires stopped.pc.Idle? && stopped.disk.marker == Some(m) && StartsPlan(stopped.disk, s.pc.job.content)
    ensures Interrupted(stopped, s.pc.job.content, m)
  {
  }

  lemma ComesBack(s: State, origin: Origin, limit: nat, m: Marker, crashed: State, t: State)
    requires Replayable(s, origin) && s.pc.Ingesting? && s.disk.marker == Some(m) && crashed == s.(pc := Idle)
    requires t == crashed.(pc := if IsMeaningful(TextOf(crashed.disk.plan))
                                 then Ingesting(ReplayedJob(s.pc.job.content, m, origin, limit), 0, ZERO)
                                 else DropAndStop)
    ensures t == crashed.(pc := Ingesting(s.pc.job, 0, ZERO)) <==>
      && IsMeaningful(TextOf(s.disk.plan))
      && if m.processedChunks.Some? then LimitsSafe(s.pc.job.turns) else BuiltUnder(s.pc.job, origin, limit)
  {
    ReplayGivesJobBackExactly(s, origin, limit);
  }

  // ---------------------------------------------------------------------------
  // The ingestor's store over attempts at one import
  // ---------------------------------------------------------------------------

  /** The store after `k` steps of an undisturbed run. */
  function StoreOfRuns(store: Store, s: State, origin: Origin, c: Choice, k: nat): Store
    decreases k
  {
    if k == 0 then store else StoreOfRuns(TakenIn(store, s, Run(c)), Advance(s, origin, c), origin, c, k - 1)
  }

  /** Steps that go on from a state, and the stores they leave, one step after the other. */
  ghost predicate StepByStep(runs: (State, nat) -> State, stores: (Store, State, nat) -> Store, next: State -> State,
      more: (Store, State) -> Store) {
    && (forall s, k: nat, later: nat | later == k + 1 :: runs(s, later) == runs(next(s), k))
    && (forall y, s, k: nat, later: nat | later == k + 1 :: stores(y, s, later) == stores(more(y, s), next(s), k))
    && (forall s :: runs(s, 0) == s) && (forall y, s :: stores(y, s, 0) == y)
  }

  lemma {:induction false} StepsJoin(runs: (State, nat) -> State, stores: (Store, State, nat) -> Store,
      next: State -> State, more: (Store, State) -> Store, store: Store, s: State, j: nat, k: nat)
    requires StepByStep(runs, stores, next, more)
    ensures stores(stores(store, s, j), runs(s, j), k) == stores(store, s, j + k)
    decreases j
  {
    if j > 0 {
      StepsJoin(runs, stores, next, more, more(store, s), next(s), j - 1, k);
      assert runs(s, j) == runs(next(s), j - 1);
      assert stores(store, s, j) == stores(more(store, s), next(s), j - 1);
      assert stores(store, s, j + k) == stores(more(store, s), next(s), j - 1 + k);
    }
  }

  lemma StoresJoin(store: Store, s: State, origin: Origin, c: Choice, j: nat, k: nat)
    ensures StoreOfRuns(StoreOfRuns(store, s, origin, c, j), Runs(s, origin, c, j), origin, c, k) ==
      StoreOfRuns(store, s, origin, c, j + k)
  {
    var runs := (x: State, i: nat) => Runs(x, origin, c, i);
    var stores := (y: Store, x: State, i: nat) => StoreOfRuns(y, x, origin, c, i);
    var next := (x: State) => Advance(x, origin, c);
    var more := (y: Store, x: State) => TakenIn(y, x, Run(c));
    forall x: State, i: nat, later: nat | later == i + 1 ensures runs(x, later) == runs(next(x), i) {
      StoreStep(store, x, origin, c, later, next(x), more(store, x));
    }
    forall y: Store, x: State, i: nat, later: nat | later == i + 1
      ensures stores(y, x, later) == stores(more(y, x), next(x), i)
    {
      StoreStep(y, x, origin, c, later, next(x), more(y, x));
    }
    StepsJoin(runs, stores, next, more, store, s, j, k);
  }

  lemma StoreStep(store: Store, s: State, origin: Origin, c: Choice, k: nat, next: State, more: Store)
    requires k > 0 && next == Advance(s, origin, c) && more == TakenIn(store, s, Run(c))
    ensures StoreOfRuns(store, s, origin, c, k) == StoreOfRuns(more, next, origin, c, k - 1)
    ensures Runs(s, origin, c, k) == Runs(next, origin, c, k - 1)
  {
  }

  /** An undisturbed import hands over the turns that are left. */
  lemma {:induction false} ImportStores(store: Store, s: State, origin: Origin, c: Choice, job: Job, done: nat,
      counters: Counters) returns (k: nat)
    requires Undisturbed(c) && s.pc == Ingesting(job, done, counters) && done <= |job.turns| && Untroubled(counters)
    ensures Runs(s, origin, c, k).pc == WriteProcessed(job, job.content, true)
    ensures StoreOfRuns(store, s, origin, c, k) == IngestAll(store, job.turns[done..])
    decreases |job.turns| - done
  {
    if done == |job.turns| {
      k := 1;
      assert Runs(s, origin, c, 1) == Runs(Advance(s, origin, c), origin, c, 0);
    } else {
      var more := Added(counters, c.outcome);
      var next := s.(imported := s.imported + {job.turns[done].rawContent}, pc := Ingesting(job, done + 1, more));
      assert Advance(s, origin, c) == next;
      assert job.turns[done..][1..] == job.turns[done + 1..];
      k := ImportStores(Ingest(store, job.turns[done]), next, origin, c, job, done + 1, more);
      k := k + 1;
    }
  }

  /** An import that nothing disturbs: the store then has taken in its turns. */
  lemma UndisturbedImportStores(store: Store, s: State, origin: Origin, c: Choice) returns (k: nat)
    requires Undisturbed(c) && s.pc.Ingesting? && s.pc.done == 0 && s.pc.counters == ZERO
    ensures Runs(s, origin, c, k).pc == WriteProcessed(s.pc.job, s.pc.job.content, true)
    ensures StoreOfRuns(store, s, origin, c, k) == IngestAll(store, s.pc.job.turns)
  {
    var turns := s.pc.job.turns;
    k := ImportStores(store, s, origin, c, s.pc.job, 0, ZERO);
    assert turns[0..] == turns;
  }

  /** A marker and the import it stands for. */
  predicate StandsFor(m: Marker, job: Job) {
    && m.status.Pending? && m.processedContent == Some(job.content)
    && m.processedAt == job.processedAt && m.reason == job.reason
  }

  /** What the events of some attempts may be: any, but a run's limit must let the replay give the turns back. */
  predicate LimitSuits(e: Event, m: Marker, job: Job, origin: Origin) {
    e.Run? ==> ReplayTurns(job.content, m, origin, e.choice.maxTurnChars) == job.turns
  }

  /** An attempt at the job is under way or has been interrupted. */
  predicate Attempting(s: State, m: Marker, job: Job) {
    s.disk.marker == Some(m) && StartsPlan(s.disk, job.content) && (s.pc.Ingesting? ==> s.pc.job == job)
  }

  /** While the marker is pending the plan file only grows. */
  lemma PlanOnlyGrows(s: State, origin: Origin, e: Event, text: string, t: State)
    requires Inv(s) && EventOk(s, e) && t == Step(s, origin, e)
    requires s.disk.marker.Some? && s.disk.marker.value.status.Pending? && StartsPlan(s.disk, text)
    ensures StartsPlan(t.disk, text)
  {
    if e.Run? {
      FilesStay(s, origin, e.choice, t);
    }
  }

  /** The states of a run whose next step moves or rewrites a file. */
  predicate MovesFiles(pc: Pc) {
    pc.RestoreOld? || pc.UnlinkOld? || pc.Rename? || pc.Recreate? || pc.ReadRotated? || pc.RestoreRotated?
    || pc.UnlinkRotated?
  }

  lemma PendingMovesNothing(s: State)
    requires PcOk(s) && s.disk.marker.Some? && s.disk.marker.value.status.Pending? && s.disk.snapshots == []
    ensures !MovesFiles(s.pc)
  {
  }

  lemma RecoveryTouchesNoFile(s: State)
    requires Recovery(s.pc) && !MovesFiles(s.pc)
    ensures AdvanceRecovery(s).disk.plan == s.disk.plan && AdvanceRecovery(s).disk.snapshots == s.disk.snapshots
  {
  }

  lemma ImportTouchesNoFile(s: State, origin: Origin, c: Choice)
    ensures AdvanceImport(s, origin, c).disk.plan == s.disk.plan
    ensures AdvanceImport(s, origin, c).disk.snapshots == s.disk.snapshots
  {
  }

  lemma FilesStay(s: State, origin: Origin, c: Choice, t: State)
    requires PcOk(s) && t == Advance(s, origin, c)
    requires s.disk.marker.Some? && s.disk.marker.value.status.Pending? && s.disk.snapshots == []
    ensures t.disk.plan == s.disk.plan && t.disk.snapshots == []
  {
    PendingMovesNothing(s);
    if Recovery(s.pc) {
      RecoveryTouchesNoFile(s);
    } else if Importing(s.pc) {
      ImportTouchesNoFile(s, origin, c);
    }
  }

  /** A step within an import: what it takes in, and where it leaves the import. */
  lemma StepWithinImport(store: Store, s: State, origin: Origin, e: Event, job: Job, t: State)
    requires t == Step(s, origin, e) && s.pc.Ingesting? && s.pc.job == job && Known(store, job.turns, s.pc.done)
    ensures IngestAll(TakenIn(store, s, e), job.turns) == IngestAll(store, job.turns)
    ensures t.pc.Ingesting? ==> t.pc.job == job && Known(TakenIn(store, s, e), job.turns, t.pc.done)
  {
    if TakesIn(s, e) {
      NextTurnChangesNothing(store, job.turns, s.pc.done);
    }
  }

  /** What a step of the attempts at a job keeps. */
  ghost predicate AttemptKept(store: Store, s: State, e: Event, m: Marker, job: Job, t: State) {
    && Attempting(t, m, job)
    && IngestAll(TakenIn(store, s, e), job.turns) == IngestAll(store, job.turns)
    && (t.pc.Ingesting? ==> Known(TakenIn(store, s, e), job.turns, t.pc.done))
  }

  lemma AttemptGoesOn(store: Store, s: State, origin: Origin, e: Event, m: Marker, job: Job, t: State)
    requires Inv(s) && Replayable(s, origin) && EventOk(s, e) && t == Step(s, origin, e)
    requires StandsFor(m, job) && Attempting(s, m, job) && t.disk.marker == Some(m) && LimitSuits(e, m, job, origin)
    requires s.pc.Ingesting? ==> Known(store, job.turns, s.pc.done)
    ensures AttemptKept(store, s, e, m, job, t)
  {
    PlanOnlyGrows(s, origin, e, job.content, t);
    if s.pc.Ingesting? {
      StepWithinImport(store, s, origin, e, job, t);
    } else if t.pc.Ingesting? {
      AttemptBegins(s, origin, e.choice, m, job, t);
    }
  }

  lemma AttemptBegins(s: State, origin: Origin, c: Choice, m: Marker, job: Job, t: State)
    requires Inv(s) && Replayable(s, origin) && t == Advance(s, origin, c)
    requires StandsFor(m, job) && Attempting(s, m, job) && t.pc.Ingesting? && !s.pc.Ingesting?
    requires ReplayTurns(job.content, m, origin, c.maxTurnChars) == job.turns
    ensures t.pc == Ingesting(job, 0, ZERO)
  {
    if !Importing(s.pc) {
      OthersBeginNothing(s, t);
    } else {
      assert s.pc == ReadPlan(Some(m));
      AfterMarker(s, origin, c, m);
    }
  }

  /** From step `a` to step `n` of a run the marker `m` for the job stays on disk. */
  predicate MarkerStaysFor(states: seq<State>, events: seq<Event>, a: nat, n: nat, m: Marker, job: Job, origin: Origin)
    requires a <= n <= |events| < |states|
  {
    && StandsFor(m, job) && states[a].pc == Ingesting(job, 0, ZERO)
    && (forall i | a <= i <= n :: states[i].disk.marker == Some(m))
    && (forall i | a <= i < n :: LimitSuits(events[i], m, job, origin))
  }

  /** An attempt has come to `s`, and going on from `stored` to the end of the import gives `whole`. */
  predicate AddedUp(s: State, stored: Store, whole: Store, m: Marker, job: Job) {
    && Attempting(s, m, job) && IngestAll(stored, job.turns) == whole
    && (s.pc.Ingesting? ==> Known(stored, job.turns, s.pc.done))
  }

  lemma AttemptOfRunGoesOn(states: seq<State>, origin: Origin, events: seq<Event>, n: nat, m: Marker, job: Job,
      store: Store, whole: Store)
    requires IsRun(states, origin, events) && n < |events| && StandsFor(m, job)
    requires states[n + 1].disk.marker == Some(m) && LimitSuits(events[n], m, job, origin)
    requires AddedUp(states[n], StoreAfter(store, states, events, n), whole, m, job)
    ensures AddedUp(states[n + 1], StoreAfter(store, states, events, n + 1), whole, m, job)
  {
    RunKeepsInv(states, origin, events, n);
    RunIsReplayable(states, origin, events, n);
    AttemptGoesOn(StoreAfter(store, states, events, n), states[n], origin, events[n], m, job, states[n + 1]);
  }

  lemma AttemptIsUnderWay(states: seq<State>, origin: Origin, events: seq<Event>, n: nat, m: Marker, job: Job,
      store: Store)
    requires IsRun(states, origin, events) && n <= |events|
    requires states[n].pc == Ingesting(job, 0, ZERO) && states[n].disk.marker == Some(m)
    ensures var stored := StoreAfter(store, states, events, n);
      AddedUp(states[n], stored, IngestAll(stored, job.turns), m, job)
  {
    RunKeepsInv(states, origin, events, n);
  }

  lemma AttemptNext(states: seq<State>, origin: Origin, events: seq<Event>, store: Store, a: nat, i: nat, n: nat,
      m: Marker, job: Job, whole: Store)
    requires IsRun(states, origin, events) && a <= i < n <= |events|
    requires MarkerStaysFor(states, events, a, n, m, job, origin)
    requires AddedUp(states[i], StoreAfter(store, states, events, i), whole, m, job)
    ensures AddedUp(states[i + 1], StoreAfter(store, states, events, i + 1), whole, m, job)
  {
    assert states[i + 1].disk.marker == Some(m) && LimitSuits(events[i], m, job, origin);
    AttemptOfRunGoesOn(states, origin, events, i, m, job, store, whole);
  }

  /** `stores` are the stores along a run, and the attempts add up from each step to the next. */
  ghost predicate AddingUp(states: seq<State>, stores: seq<Store>, a: nat, n: nat, m: Marker, job: Job, whole: Store)
    requires a <= n < |states| && n < |stores|
  {
    forall i, j | a <= i < n && j == i + 1 ::
      AddedUp(states[i], stores[i], whole, m, job) ==> AddedUp(states[j], stores[j], whole, m, job)
  }

  lemma {:induction false} AllAddUp(states: seq<State>, stores: seq<Store>, a: nat, n: nat, m: Marker, job: Job,
      whole: Store)
    requires a <= n < |states| && n < |stores| && AddingUp(states, stores, a, n, m, job, whole)
    requires AddedUp(states[a], stores[a], whole, m, job)
    ensures AddedUp(states[n], stores[n], whole, m, job)
    decreases n - a
  {
    if a < n {
      AllAddUp(states, stores, a, n - 1, m, job, whole);
    }
  }

  lemma AttemptsAddUp(states: seq<State>, origin: Origin, events: seq<Event>, store: Store, a: nat, n: nat, m: Marker,
      job: Job, whole: Store)
    requires IsRun(states, origin, events) && a <= n <= |events|
    requires MarkerStaysFor(states, events, a, n, m, job, origin)
    requires AddedUp(states[a], StoreAfter(store, states, events, a), whole, m, job)
    ensures AddedUp(states[n], StoreAfter(store, states, events, n), whole, m, job)
  {
    var stores := seq(n + 1, i requires 0 <= i <= n => StoreAfter(store, states, events, i));
    StoresAddUp(states, origin, events, store, a, n, m, job, whole, stores);
    AllAddUp(states, stores, a, n, m, job, whole);
  }

  lemma StoresAddUp(states: seq<State>, origin: Origin, events: seq<Event>, store: Store, a: nat, n: nat, m: Marker,
      job: Job, whole: Store, stores: seq<Store>)
    requires IsRun(states, origin, events) && a <= n <= |events| && n < |stores|
    requires MarkerStaysFor(states, events, a, n, m, job, origin)
    requires forall i | 0 <= i <= n :: stores[i] == StoreAfter(store, states, events, i)
    ensures AddingUp(states, stores, a, n, m, job, whole)
  {
    forall i, j | a <= i < n && j == i + 1 && AddedUp(states[i], stores[i], whole, m, job)
      ensures AddedUp(states[j], stores[j], whole, m, job)
    {
      AttemptNext(states, origin, events, store, a, i, n, m, job, whole);
    }
  }

  /** Over every run: an import that begins at step `a` may be interrupted any number of times, by crashes
      or batches that fail, and replayed, and be interrupted again, while text is appended. As long as its
      marker stays, the next run left alone ends it, and the store is as after one uninterrupted import
      from step `a`. */
  lemma InterruptedImportIsOneImport(states: seq<State>, origin: Origin, events: seq<Event>, store: Store, a: nat,
      n: nat, m: Marker, job: Job, c: Choice) returns (k: nat)
    requires IsRun(states, origin, events) && a <= n <= |events|
    requires MarkerStaysFor(states, events, a, n, m, job, origin)
    requires states[n].pc.Idle? && IsMeaningful(TextOf(states[n].disk.plan))
    requires Undisturbed(c) && LimitSuits(Run(c), m, job, origin)
    ensures Runs(states[n], origin, c, k).pc == WriteProcessed(job, job.content, true)
    ensures StoreOfRuns(StoreAfter(store, states, events, n), states[n], origin, c, k) ==
      IngestAll(StoreAfter(store, states, events, a), job.turns)
  {
    var whole := IngestAll(StoreAfter(store, states, events, a), job.turns);
    AttemptIsUnderWay(states, origin, events, a, m, job, store);
    AttemptsAddUp(states, origin, events, store, a, n, m, job, whole);
    AttemptIsReplayed(states, origin, events, n, m, job, c);
    k := ReplayStores(StoreAfter(store, states, events, n), states[n], origin, c, job);
  }

  lemma AttemptIsReplayed(states: seq<State>, origin: Origin, events: seq<Event>, n: nat, m: Marker, job: Job,
      c: Choice)
    requires IsRun(states, origin, events) && n <= |events| && StandsFor(m, job) && Attempting(states[n], m, job)
    requires states[n].pc.Idle? && IsMeaningful(TextOf(states[n].disk.plan)) && LimitSuits(Run(c), m, job, origin)
    ensures Runs(states[n], origin, c, 3) == states[n].(pc := Ingesting(job, 0, ZERO))
  {
    RunKeepsInv(states, origin, events, n);
    RunReplays(states[n], origin, c, job.content, m);
  }

  /** The first three steps of a run hand nothing to the ingestor. */
  lemma NothingTakenIn(store: Store, s: State, origin: Origin, c: Choice)
    requires s.pc.Idle?
    ensures StoreOfRuns(store, s, origin, c, 3) == store
  {
    var s1 := Advance(s, origin, c);
    var s2 := Advance(s1, origin, c);
    assert !s1.pc.Ingesting? && !s2.pc.Ingesting?;
    assert StoreOfRuns(store, s, origin, c, 3) == StoreOfRuns(store, s1, origin, c, 2);
    assert StoreOfRuns(store, s1, origin, c, 2) == StoreOfRuns(store, s2, origin, c, 1);
    assert StoreOfRuns(store, s2, origin, c, 1) == StoreOfRuns(store, Advance(s2, origin, c), origin, c, 0);
  }

  lemma ReplayStores(store: Store, s: State, origin: Origin, c: Choice, job: Job) returns (k: nat)
    requires Undisturbed(c) && s.pc.Idle? && Runs(s, origin, c, 3) == s.(pc := Ingesting(job, 0, ZERO))
    ensures Runs(s, origin, c, k).pc == WriteProcessed(job, job.content, true)
    ensures StoreOfRuns(store, s, origin, c, k) == IngestAll(store, job.turns)
  {
    var again := s.(pc := Ingesting(job, 0, ZERO));
    NothingTakenIn(store, s, origin, c);
    k := UndisturbedImportStores(store, again, origin, c);
    RunsJoin(s, origin, c, 3, k);
    StoresJoin(store, s, origin, c, 3, k);
    k := 3 + k;
  }

  // ---------------------------------------------------------------------------
  // An append that takes the meaning away
  // ---------------------------------------------------------------------------

  lemma RunGrows(states: seq<State>, origin: Origin, events: seq<Event>, e: Event, t: State)
    requires IsRun(states, origin, events) && EventOk(states[|events|], e) && t == Step(states[|events|], origin, e)
    ensures IsRun(states + [t], origin, events + [e])
  {
    var longer, more := states + [t], events + [e];
    forall i | 0 <= i < |more|
      ensures EventOk(longer[i], more[i]) && longer[i + 1] == Step(longer[i], origin, more[i])
    {
      if i < |events| {
        assert longer[i] == states[i] && longer[i + 1] == states[i + 1] && more[i] == events[i];
      }
    }
  }

  /** From any reachable import: if an append leaves the plan file without a line that means anything, the
      run after a crash drops the marker, and imports nothing. */
  lemma HiddenPlanIsDropped(states: seq<State>, origin: Origin, events: seq<Event>, n: nat, more: string, c: Choice)
    requires IsRun(states, origin, events) && n <= |events| && states[n].pc.Ingesting?
    requires !IsMeaningful(TextOf(states[n].disk.plan) + more)
    ensures
      var stopped := Step(Step(states[n], origin, Append(more)), origin, Crash);
      Runs(stopped, origin, c, 4) == stopped.(disk := stopped.disk.(marker := None))
  {
    var s := states[n];
    RunKeepsInv(states, origin, events, n);
    RunIsReplayable(states, origin, events, n);
    HiddenPlan(s, origin, more, c, s.disk.marker.value, Step(Step(s, origin, Append(more)), origin, Crash));
  }

  lemma HiddenPlan(s: State, origin: Origin, more: string, c: Choice, m: Marker, stopped: State)
    requires Inv(s) && Replayable(s, origin) && s.pc.Ingesting? && s.disk.marker == Some(m)
    requires !IsMeaningful(TextOf(s.disk.plan) + more)
    requires stopped == s.(disk := Appended(s.disk, more), history := s.history + more, pc := Idle)
    ensures Runs(stopped, origin, c, 4) == stopped.(disk := stopped.disk.(marker := None))
  {
    CrashInterrupts(s, origin, m, stopped);
    RunReplays(stopped, origin, c, s.pc.job.content, m);
    RunsJoin(stopped, origin, c, 3, 1);
    MarkerIsDropped(stopped.(pc := DropAndStop), origin, c);
  }

  lemma MarkerIsDropped(s: State, origin: Origin, c: Choice)
    requires s.pc.DropAndStop?
    ensures Runs(s, origin, c, 1) == s.(disk := s.disk.(marker := None), pc := Idle)
  {
    assert Runs(s, origin, c, 1) == Runs(Advance(s, origin, c), origin, c, 0);
  }

  /** The failing input: the file "<" is being imported when "!--" is appended, which makes it a comment. */
  lemma CommentHidesThePlan()
    ensures IsMeaningful("<") && !IsMeaningful("<" + "!--")
  {
    var a: string, b: string, ab: string := ['<'], ['!', '-', '-'], ['<', '!', '-', '-'];
    LinesOfOne(a);
    TrimFixed(a);
    assert a in Lines(a) && Means(a);
    LinesOfOne(ab);
    TrimFixed(ab);
    assert a + b == ab && !Means(ab);
  }

  lemma AnyPlanIsImported(origin: Origin, plan: string, c: Choice) returns (states: seq<State>, events: seq<Event>)
    requires IsMeaningful(plan) && ByteLength(plan) <= MAX_SAFE_INTEGER && c.maxTurnChars >= 1 && Reliable(c.outcome)
    ensures IsRun(states, origin, events) && states[0].history == plan && states[0].imported == {}
    ensures AppendedBy(events) == "" && states[|events|].pc.Ingesting? && states[|events|].pc.done == 0
    ensures states[|events|].disk.plan == Some(plan) && states[|events|].imported == {}
  {
    var s := State(Disk(Some(plan), [], None), Idle, plan, {});
    states, events := [s], [];
    var reading := s.(pc := ReadPlan(None));
    states, events := RunsOnce(states, origin, events, c, s.(pc := Recovering(None)));
    states, events := RunsOnce(states, origin, events, c, reading);
    PlanIsFresh(reading, origin, c, plan);
    states, events := RunsOnce(states, origin, events, c, s.(pc := Fresh(plan)));
    var started := Advance(s.(pc := Fresh(plan)), origin, c);
    FreshImportStarts(s.(pc := Fresh(plan)), origin, c, plan, started);
    states, events := RunsOnce(states, origin, events, c, started);
  }

  lemma PlanIsFresh(s: State, origin: Origin, c: Choice, plan: string)
    requires s.pc == ReadPlan(None) && s.disk.plan == Some(plan) && IsMeaningful(plan)
    ensures Advance(s, origin, c) == s.(pc := Fresh(plan))
  {
  }

  lemma FreshImportStarts(s: State, origin: Origin, c: Choice, plan: string, t: State)
    requires s.pc == Fresh(plan) && s.disk.plan == Some(plan) && t == Advance(s, origin, c)
    ensures t.pc.Ingesting? && t.pc.done == 0 && t.disk.plan == Some(plan) && t.imported == s.imported
  {
  }

  lemma RunsOnce(states: seq<State>, origin: Origin, events: seq<Event>, c: Choice, t: State)
      returns (longer: seq<State>, more: seq<Event>)
    requires IsRun(states, origin, events) && AppendedBy(events) == ""
    requires c.maxTurnChars >= 1 && Reliable(c.outcome) && t == Advance(states[|events|], origin, c)
    ensures IsRun(longer, origin, more) && AppendedBy(more) == ""
    ensures longer[0] == states[0] && longer[|more|] == t
  {
    RunGrows(states, origin, events, Run(c), t);
    longer, more := states + [t], events + [Run(c)];
    assert more[..|more| - 1] == events;
  }
}
