/** The flush-plan run as a machine: one step per file operation or ingested turn, with a writer
    that appends and crashes that can come between any two steps.

    Assumptions on the surroundings: the writer only appends, by path; the plan path is a regular
    file; snapshots sort newest first; a marker write is one rename. Restoring a tail is one step
    because `PlanFile.ReconcileReplacement` leaves what its last read found, reconciled. */
module Protocol {
  import opened Options
  import opened Text
  import opened Chunking
  import opened ImportTurns
  import opened SerialIngest
  import opened Marker
  import opened PlanDirectory

  /** One import in progress. */
  datatype Job = Job(content: string, turns: seq<ImportTurn>, processedAt: Value, reason: string)

  datatype Pc =
    | Idle
    | Recovering(marker: Option<Marker>)
    | RestoreOld(marker: Option<Marker>, used: bool, tail: string)
    | UnlinkOld(marker: Option<Marker>, used: bool)
    | DropUsed
    | ReadPlan(marker: Option<Marker>)
    | DropAndStop
    | DropStale(content: string)
    | Fresh(content: string)
    | Ingesting(job: Job, done: nat, counters: Counters)
    | WriteProcessed(job: Job, text: string, cleanUp: bool)
    | Rename(text: string)
    | Recreate(text: string)
    | ReadRotated(text: string)
    | RestoreRotated(tail: string, deferred: bool)
    | UnlinkRotated(deferred: bool)

  /** `history` is everything ever appended; `imported` is the raw text of every turn the ingestor has
      taken in (a turn's fingerprint determines its raw text). */
  datatype State = State(disk: Disk, pc: Pc, history: string, imported: set<string>)

  /** What one step of a run may depend on besides the state: the configured turn limit, the clock, the
      reason, how the next single-turn batch ends, and whether a batch that does not succeed has
      taken its turn in all the same. */
  datatype Choice = Choice(maxTurnChars: nat, now: int, reason: string, outcome: BatchOutcome, persisted: bool)

  datatype Event = Append(text: string) | Crash | Run(choice: Choice)

  // ---------------------------------------------------------------------------
  // Steps
  // ---------------------------------------------------------------------------

  /** What a marker file holds once written is what it reads back as. */
  function ReadBack(m: Marker): Option<Marker> {
    ParseMarker(Some(MarkerJson(m)))
  }

  function AfterReadingPlan(s: State, m: Option<Marker>, origin: Origin, c: Choice): Pc {
    var content := TextOf(s.disk.plan);
    if s.disk.plan.None? || !IsMeaningful(content) then
      if m.Some? then DropAndStop else Idle
    else if m.None? then Fresh(content)
    else
      match MarkerPrefix(content, m.value)
      case None => DropStale(content)
      case Some(prefix) =>
        if prefix == "" then DropStale(content)
        else if m.value.status.Pending? then
          var turns := ReplayTurns(prefix, m.value, origin, c.maxTurnChars);
          Ingesting(Job(prefix, turns, m.value.processedAt, m.value.reason), 0, ZERO)
        else Rename(prefix)
  }

  /** What the run does with the result of the ingest call; an exception ends it. */
  function AfterIngest(job: Job, result: SerialResult): Pc {
    match result
    case Rethrown => Idle
    case Aggregate(c) =>
      if c.failed > 0 then
        match PartialCut(job.content, Raws(job.turns), c.processed)
        case None => Idle
        case Some(cut) => WriteProcessed(job, cut, c.metadataFailures <= 0)
      else WriteProcessed(job, job.content, c.metadataFailures <= 0)
  }

  function IngestStep(s: State, job: Job, done: nat, counters: Counters, outcome: BatchOutcome,
      persisted: bool): State {
    if done >= |job.turns| then s.(pc := AfterIngest(job, Aggregate(counters)))
    else
      var more := s.imported + {job.turns[done].rawContent};
      if Succeeds(outcome) then s.(imported := more, pc := Ingesting(job, done + 1, Added(counters, outcome)))
      else s.(imported := if persisted then more else s.imported, pc := AfterIngest(job, Ending(counters, outcome)))
  }

  function RecoverStep(s: State, m: Option<Marker>): State {
    if s.disk.snapshots == [] then s.(pc := ReadPlan(m))
    else
      var newest := s.disk.snapshots[0];
      var tail := TailOf(m, newest);
      if tail == "" then s.(pc := UnlinkOld(m, Matches(m, newest)))
      else s.(pc := RestoreOld(m, Matches(m, newest), tail))
  }

  /** Write a marker for part or all of a job, and go on. */
  function Mark(s: State, status: Status, text: string, job: Job, next: Pc): State {
    var marker := BuildMarker(status, text, job.processedAt, job.reason, job.turns);
    s.(disk := s.disk.(marker := ReadBack(marker)), pc := next)
  }

  function Unmark(s: State, next: Pc): State {
    s.(disk := s.disk.(marker := None), pc := next)
  }

  function PutBack(s: State, tail: string, next: Pc): State {
    s.(disk := s.disk.(plan := Restore(s.disk.plan, tail)), pc := next)
  }

  function Unlink(s: State, next: Pc): State {
    s.(disk := UnlinkNewest(s.disk), pc := next)
  }

  function FreshJob(content: string, origin: Origin, c: Choice): Job {
    var turns := BuildTurns(content, origin, Iso(c.now), c.reason, c.maxTurnChars);
    Job(content, turns, Iso(c.now), c.reason)
  }

  function FreshStep(s: State, job: Job): State {
    Mark(s, Pending, job.content, job, Ingesting(job, 0, ZERO))
  }

  function RenameStep(s: State, text: string): State {
    if s.disk.plan.None? then s.(pc := DropAndStop)
    else s.(disk := s.disk.(plan := None, snapshots := [s.disk.plan.value] + s.disk.snapshots), pc := Recreate(text))
  }

  function ReadRotatedStep(s: State, text: string): State {
    if s.disk.snapshots == [] then s.(pc := Idle)
    else
      var current := s.disk.snapshots[0];
      var deferred := !(text <= current);
      var preserved := if deferred then current else current[|text|..];
      s.(pc := if preserved == "" then UnlinkRotated(deferred) else RestoreRotated(preserved, deferred))
  }

  function UnlinkNewest(d: Disk): Disk {
    if d.snapshots == [] then d else d.(snapshots := d.snapshots[1..])
  }

  function CreateStep(s: State, text: string): State {
    s.(disk := s.disk.(plan := Some(TextOf(s.disk.plan))), pc := ReadRotated(text))
  }

  predicate Recovery(pc: Pc) {
    pc.Idle? || pc.Recovering? || pc.RestoreOld? || pc.UnlinkOld? || pc.DropUsed?
  }

  predicate Importing(pc: Pc) {
    pc.ReadPlan? || pc.DropStale? || pc.Fresh? || pc.Ingesting? || pc.WriteProcessed?
  }

  /** A run starts, and folds back a snapshot that an earlier run left. */
  function AdvanceRecovery(s: State): State {
    match s.pc
    case Idle => s.(pc := Recovering(s.disk.marker))
    case Recovering(m) => RecoverStep(s, m)
    case RestoreOld(m, used, tail) => PutBack(s, tail, UnlinkOld(m, used))
    case UnlinkOld(m, used) => Unlink(s, if used then DropUsed else Recovering(m))
    case _ => Unmark(s, Recovering(None))
  }

  /** It reads the plan, imports it and marks it as processed. */
  function AdvanceImport(s: State, origin: Origin, c: Choice): State {
    match s.pc
    case ReadPlan(m) => s.(pc := AfterReadingPlan(s, m, origin, c))
    case DropStale(content) => Unmark(s, Fresh(content))
    case Fresh(content) => FreshStep(s, FreshJob(content, origin, c))
    case Ingesting(job, done, counters) => IngestStep(s, job, done, counters, c.outcome, c.persisted)
    case WriteProcessed(job, text, cleanUp) => Mark(s, Processed, text, job, if cleanUp then Rename(text) else Idle)
    case _ => s
  }

  /** It takes the processed text off the plan file, and the marker with it. */
  function AdvanceRemoval(s: State): State {
    match s.pc
    case Rename(text) => RenameStep(s, text)
    case Recreate(text) => CreateStep(s, text)
    case ReadRotated(text) => ReadRotatedStep(s, text)
    case RestoreRotated(tail, deferred) => PutBack(s, tail, UnlinkRotated(deferred))
    case UnlinkRotated(deferred) => Unlink(s, if deferred then Idle else DropAndStop)
    case _ => Unmark(s, Idle)
  }

  /** The next operation of the run that is under way, or the start of one. */
  function Advance(s: State, origin: Origin, c: Choice): State {
    if Recovery(s.pc) then AdvanceRecovery(s)
    else if Importing(s.pc) then AdvanceImport(s, origin, c)
    else AdvanceRemoval(s)
  }

  function Appended(d: Disk, text: string): Disk {
    d.(plan := Some(TextOf(d.plan) + text))
  }

  function Step(s: State, origin: Origin, e: Event): State {
    match e
    case Append(text) => s.(disk := Appended(s.disk, text), history := s.history + text)
    case Crash => s.(pc := Idle)
    case Run(c) => Advance(s, origin, c)
  }

  // ---------------------------------------------------------------------------
  // What the disk still owes
  // ---------------------------------------------------------------------------

  /** The text a snapshot's marker covers. */
  function HeadOf(m: Option<Marker>, snapshot: string): string {
    if Matches(m, snapshot) then m.value.processedContent.value else ""
  }

  /** All text on disk in the order it was appended; a tail that is already back is not counted twice. */
  function TextOnDisk(d: Disk): string {
    if d.snapshots == [] then TextOf(d.plan)
    else HeadOf(d.marker, d.snapshots[0]) + Reconciled(TextOf(d.plan), TailOf(d.marker, d.snapshots[0]))
  }

  /** The text on disk that still has to be imported: without what a processed marker covers. */
  function Owed(d: Disk): string {
    if d.snapshots != [] then Reconciled(TextOf(d.plan), TailOf(d.marker, d.snapshots[0]))
    else if d.marker.Some? && d.marker.value.status.Processed? then TailOf(d.marker, TextOf(d.plan))
    else TextOf(d.plan)
  }

  /** The part of the history that has left the disk. */
  function Retired(s: State): string {
    if |TextOnDisk(s.disk)| <= |s.history| then s.history[..|s.history| - |TextOnDisk(s.disk)|] else ""
  }

  /** The snapshot's tail is not back in the plan file yet. */
  predicate TailMissing(d: Disk) {
    && d.snapshots != []
    && TailOf(d.marker, d.snapshots[0]) != ""
    && !(TailOf(d.marker, d.snapshots[0]) <= TextOf(d.plan))
  }

  /** While a tail is missing, what is appended does not complete a verbatim copy of it at the start of
      the recreated file. */
  predicate AppendOk(d: Disk, text: string) {
    TailMissing(d) ==> !(TailOf(d.marker, d.snapshots[0]) <= TextOf(d.plan) + text)
  }

  /** The other assumptions on an event: a history of a size that JavaScript can count, a turn limit of at
      least one, and batches that report reliably. */
  predicate EventFits(s: State, e: Event) {
    match e
    case Append(text) => ByteLength(s.history + text) <= MAX_SAFE_INTEGER
    case Crash => true
    case Run(c) => c.maxTurnChars >= 1 && Reliable(c.outcome)
  }

  predicate EventOk(s: State, e: Event) {
    EventFits(s, e) && (e.Append? ==> AppendOk(s.disk, e.text))
  }

  // ---------------------------------------------------------------------------
  // Invariant
  // ---------------------------------------------------------------------------

  /** A marker as this code writes it. */
  predicate OwnMarker(m: Marker) {
    && m.processedContent.Some? && m.processedContent.value != ""
    && m.processedHash == Sha256(m.processedContent.value)
    && m.processedBytes == ByteLength(m.processedContent.value)
    && ChunksReadable(m.processedChunks)
  }

  predicate ProcessedMarkerFor(m: Option<Marker>, text: string) {
    m.Some? && m.value.status.Processed? && m.value.processedContent == Some(text)
  }

  predicate SnapshotOk(d: Disk) {
    d.snapshots != [] ==>
      && |d.snapshots| == 1
      && d.marker.Some? && d.marker.value.status.Processed?
      && Matches(d.marker, d.snapshots[0])
  }

  ghost predicate MarkerOk(m: Option<Marker>, imported: set<string>) {
    m.Some? ==>
      && OwnMarker(m.value)
      && (m.value.status.Processed? ==> Covered(m.value.processedContent.value, imported))
  }

  /** Every character ever appended is on disk or has been imported, in order. */
  ghost predicate Conserved(s: State) {
    && s.history == Retired(s) + TextOnDisk(s.disk)
    && Covered(Retired(s), s.imported)
  }

  predicate StartsPlan(d: Disk, text: string) {
    d.snapshots == [] && text != "" && d.plan.Some? && text <= d.plan.value
  }

  /** Turns whose marker chunks pass validation when they are read back. */
  predicate GoodTurns(turns: seq<ImportTurn>) {
    forall i | 0 <= i < |turns| :: ValidChunk(Record(turns[i], i, |turns|))
  }

  ghost predicate JobOk(s: State, job: Job, done: nat) {
    && StartsPlan(s.disk, job.content)
    && GoodTurns(job.turns)
    && Covered(job.content, SetOf(Raws(job.turns)))
    && done <= |job.turns|
    && forall i | 0 <= i < done :: job.turns[i].rawContent in s.imported
  }

  predicate TailBack(d: Disk) {
    d.snapshots != [] && TailOf(d.marker, d.snapshots[0]) <= TextOf(d.plan)
  }

  ghost predicate PcOk(s: State) {
    var d := s.disk;
    match s.pc
    case Idle => true
    case Recovering(m) => m == d.marker
    case RestoreOld(m, used, tail) =>
      m == d.marker && d.snapshots != [] && used && tail == TailOf(m, d.snapshots[0]) && tail != ""
    case UnlinkOld(m, used) => m == d.marker && used && TailBack(d)
    case DropUsed => d.snapshots == []
    case ReadPlan(m) => m == d.marker && d.snapshots == []
    case DropAndStop => d.snapshots == []
    case DropStale(content) => StartsPlan(d, content)
    case Fresh(content) => StartsPlan(d, content)
    case Ingesting(job, done, counters) => JobOk(s, job, done) && counters.processed <= done && counters.failed == 0
    case WriteProcessed(job, text, _) => StartsPlan(d, text) && GoodTurns(job.turns) && Covered(text, s.imported)
    case Rename(text) => StartsPlan(d, text) && ProcessedMarkerFor(d.marker, text)
    case Recreate(text) => d.snapshots != [] && ProcessedMarkerFor(d.marker, text)
    case ReadRotated(text) => d.snapshots != [] && ProcessedMarkerFor(d.marker, text)
    case RestoreRotated(tail, deferred) =>
      d.snapshots != [] && tail == TailOf(d.marker, d.snapshots[0]) && tail != "" && !deferred
    case UnlinkRotated(deferred) => TailBack(d) && !deferred
  }

  ghost predicate Inv(s: State) {
    && Conserved(s)
    && SnapshotOk(s.disk)
    && MarkerOk(s.disk.marker, s.imported)
    && ByteLength(s.history) <= MAX_SAFE_INTEGER
    && PcOk(s)
  }

  /** Nothing appended yet, or a file that was there before the first run. */
  predicate Initial(s: State) {
    && s.disk.snapshots == [] && s.disk.marker.None? && s.pc.Idle?
    && s.history == TextOf(s.disk.plan) && ByteLength(s.history) <= MAX_SAFE_INTEGER
  }
}
