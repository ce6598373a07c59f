/** Sidecar processes sharing one vector store: the writer lock, the index lock and the commit log.

    Any number of processes run one command each. Creating a lock file exclusively, and checking
    and unlinking a stale one, are atomic steps; a lock is only ever broken when its holder is dead. */
module FaissLocks {
  import opened Options
  import opened FaissMerge

  // ---------------------------------------------------------------------------
  // Commands, the store and the commit log
  // ---------------------------------------------------------------------------

  datatype Write = Upsert(cutoff: Option<int>, chunks: seq<Row>) | Rebuild(chunks: seq<Row>)

  datatype Job = Writing(write: Write) | Searching

  /** The three artifacts: the rows the vectors were made from, the metadata rows, the manifest's count. */
  datatype Store = Store(index: Option<seq<Row>>, metadata: Option<seq<Row>>, manifest: Option<nat>)

  const EMPTY := Store(None, None, None)

  function Triple(rows: seq<Row>): Store {
    Store(Some(rows), Some(rows), Some(|rows|))
  }

  /** A commit part of the way: each artifact is first moved to its backup, then replaced. */
  function Mixed(before: Store, rows: seq<Row>, done: nat): Store {
    Store(if done >= 2 then Some(rows) else if done == 1 then None else before.index,
          if done >= 4 then Some(rows) else if done == 3 then None else before.metadata,
          if done >= 6 then Some(|rows|) else if done == 5 then None else before.manifest)
  }

  datatype Entry = Entry(pid: nat, write: Write)

  function Applied(rows: seq<Row>, write: Write): seq<Row> {
    match write
    case Upsert(cutoff, chunks) => Upserted(rows, cutoff, chunks)
    case Rebuild(chunks) => chunks
  }

  /** The rows a serial run of the committed writes would leave. */
  function Fold(log: seq<Entry>): seq<Row> {
    if log == [] then [] else Applied(Fold(log[..|log| - 1]), log[|log| - 1].write)
  }

  function Base(log: seq<Entry>): Store {
    if log == [] then EMPTY else Triple(Fold(log))
  }

  // ---------------------------------------------------------------------------
  // Processes
  // ---------------------------------------------------------------------------

  /** Where a process is. `sound` records that no commit was torn when a search ended, and `at` how
      many writes were committed then. */
  datatype Pc =
    | Waiting
    | Locked
    | Prepared(rows: seq<Row>)
    | Ready(rows: seq<Row>)
    | Swapping(rows: seq<Row>, before: Store, done: nat)
    | Committed
    | Unlocking(ok: bool)
    | Finished(ok: bool)
    | Probing
    | SawRows(rows: seq<Row>)
    | SawIndex(rows: seq<Row>, index: seq<Row>)
    | Answered(rows: seq<Row>, at: nat, sound: bool)
    | Broken(sound: bool)
    | Skipped

  datatype Process = Process(job: Job, pc: Pc)

  /** `torn` is set while a commit that died, or whose backups could not be deleted, has left the
      artifacts other than it found them; a completed rebuild clears it. */
  datatype State = State(
    procs: map<nat, Process>,
    dead: set<nat>,
    writer: Option<nat>,
    index: Option<nat>,
    store: Store,
    torn: bool,
    log: seq<Entry>)

  const START := State(map[], {}, None, None, EMPTY, false, [])

  predicate HasWriter(pc: Pc) {
    pc.Locked? || pc.Prepared? || pc.Ready? || pc.Swapping? || pc.Committed? || pc.Unlocking?
  }

  predicate HasIndex(pc: Pc) {
    pc.Ready? || pc.Swapping? || pc.Committed? || pc.Probing? || pc.SawRows? || pc.SawIndex?
  }

  predicate Live(s: State, p: nat) {
    p in s.procs && p !in s.dead
  }

  function Held(lock: Option<nat>, p: nat, held: bool, holds: bool): Option<nat> {
    if holds && !held then Some(p)
    else if held && !holds && lock == Some(p) then None
    else lock
  }

  /** A process goes on to `pc`, taking and giving up the locks whose `try` blocks it enters and leaves. */
  function Move(s: State, p: nat, pc: Pc): State
    requires p in s.procs
  {
    var was := s.procs[p];
    s.(procs := s.procs[p := Process(was.job, pc)],
       writer := Held(s.writer, p, HasWriter(was.pc), HasWriter(pc)),
       index := Held(s.index, p, HasIndex(was.pc), HasIndex(pc)))
  }

  function MetadataRows(store: Store): seq<Row> {
    if store.metadata.Some? then store.metadata.value else []
  }

  // ---------------------------------------------------------------------------
  // Steps
  // ---------------------------------------------------------------------------

  function WriterPc(s: State, write: Write, pc: Pc): Pc {
    match pc
    case Waiting => if s.writer.None? then Locked else pc
    case Locked => Prepared(Applied(MetadataRows(s.store), write))
    case Prepared(rows) => if s.index.None? then Ready(rows) else pc
    case Ready(rows) => Swapping(rows, s.store, 0)
    case Swapping(rows, before, done) => if done < 6 then Swapping(rows, before, done + 1) else Committed
    case Committed => Unlocking(true)
    case Unlocking(ok) => Finished(ok)
    case _ => pc
  }

  function SearchPc(s: State, pc: Pc): Pc {
    match pc
    case Waiting => if s.index.None? then Probing else pc
    case Probing =>
      if s.store == EMPTY then Answered([], |s.log|, !s.torn)
      else if s.store.index.None? || s.store.metadata.None? || s.store.manifest.None? then Broken(!s.torn)
      else SawRows(s.store.metadata.value)
    case SawRows(rows) => if s.store.index.None? then Broken(!s.torn) else SawIndex(rows, s.store.index.value)
    case SawIndex(rows, index) =>
      if s.store.manifest.None? || |index| != |rows| || |index| != s.store.manifest.value then Broken(!s.torn)
      else Answered(rows, |s.log|, !s.torn)
    case _ => pc
  }

  /** An exception: time-out, unreadable file, failed embedding or failed swap. `finally` gives up the
      index lock, and a later step the writer lock. */
  function FailPc(pc: Pc): Pc {
    match pc
    case Waiting => Finished(false)
    case Locked => Unlocking(false)
    case Prepared(_) => Unlocking(false)
    case Ready(_) => Unlocking(false)
    case Swapping(_, _, _) => Unlocking(false)
    case Probing => Finished(false)
    case SawRows(_) => Finished(false)
    case SawIndex(_, _) => Finished(false)
    case _ => pc
  }

  /** A completed rebuild replaces whatever a torn commit had left. */
  function Logged(s: State, p: nat, write: Write): State {
    s.(log := s.log + [Entry(p, write)], torn := s.torn && !write.Rebuild?)
  }

  function AdvanceWriter(s: State, p: nat): State
    requires Live(s, p) && s.procs[p].job.Writing?
  {
    var pc := WriterPc(s, s.procs[p].job.write, s.procs[p].pc);
    var t := Move(s, p, pc);
    match pc
    case Swapping(rows, before, done) => t.(store := Mixed(before, rows, done))
    case Committed => Logged(t, p, s.procs[p].job.write)
    case _ => t
  }

  function AdvanceSearch(s: State, p: nat): State
    requires Live(s, p) && s.procs[p].job.Searching?
  {
    Move(s, p, SearchPc(s, s.procs[p].pc))
  }

  /** The swap loop puts the artifacts back before it passes the exception on. */
  function Fail(s: State, p: nat): State
    requires Live(s, p)
  {
    var t := Move(s, p, FailPc(s.procs[p].pc));
    match s.procs[p].pc
    case Swapping(_, before, _) => t.(store := before)
    case _ => t
  }

  /** The first `lost` backups are deleted, the next cannot be, and roll-back has nothing to restore
      those first artifacts from. */
  function Left(before: Store, lost: nat): Store {
    Store(if lost >= 1 then None else before.index, if lost >= 2 then None else before.metadata, before.manifest)
  }

  function FailDeleting(s: State, p: nat, lost: nat): State
    requires Live(s, p)
  {
    match s.procs[p].pc
    case Swapping(_, before, done) =>
      if done != 6 then s
      else Move(s, p, Unlocking(false)).(store := Left(before, lost), torn := s.torn || Left(before, lost) != before)
    case _ => s
  }

  /** A process may die anywhere. Past the last swap its commit stands; inside the swaps it tears
      the store if it has changed anything. */
  function Die(s: State, p: nat): State
    requires Live(s, p)
  {
    var d := s.(dead := s.dead + {p});
    match s.procs[p].pc
    case Swapping(_, before, done) =>
      if done == 6 && s.procs[p].job.Writing? then Logged(Move(d, p, Committed), p, s.procs[p].job.write)
      else d.(torn := s.torn || s.store != before)
    case _ => d
  }

  datatype Event =
    | Start(pid: nat, job: Job)
    | Advance(pid: nat)
    | Error(pid: nat)
    | DeleteError(pid: nat, lost: nat)
    | Death(pid: nat)
    | BreakWriterLock
    | BreakIndexLock

  function Started(s: State, p: nat, job: Job): State {
    var pc := if job.Writing? && job.write.Upsert? && job.write.chunks == [] then Skipped else Waiting;
    s.(procs := s.procs[p := Process(job, pc)])
  }

  function Next(s: State, e: Event): State {
    match e
    case Start(p, job) => if p in s.procs then s else Started(s, p, job)
    case Advance(p) =>
      if !Live(s, p) then s
      else if s.procs[p].job.Writing? then AdvanceWriter(s, p) else AdvanceSearch(s, p)
    case Error(p) => if Live(s, p) then Fail(s, p) else s
    case DeleteError(p, lost) => if Live(s, p) then FailDeleting(s, p, lost) else s
    case Death(p) => if Live(s, p) then Die(s, p) else s
    case BreakWriterLock => if s.writer.Some? && s.writer.value in s.dead then s.(writer := None) else s
    case BreakIndexLock => if s.index.Some? && s.index.value in s.dead then s.(index := None) else s
  }

  function Run(events: seq<Event>): State {
    if events == [] then START else Next(Run(events[..|events| - 1]), events[|events| - 1])
  }

  // ---------------------------------------------------------------------------
  // What every step keeps
  // ---------------------------------------------------------------------------

  predicate Suits(proc: Process) {
    match proc.pc
    case Waiting => true
    case Finished(ok) => proc.job.Searching? ==> !ok
    case Probing => proc.job.Searching?
    case SawRows(_) => proc.job.Searching?
    case SawIndex(_, _) => proc.job.Searching?
    case Answered(_, _, _) => proc.job.Searching?
    case Broken(_) => proc.job.Searching?
    case _ => proc.job.Writing?
  }

  /** A live process holds a lock exactly while its code is inside that lock's `try` block. */
  ghost predicate LocksOk(s: State) {
    && (forall p | p in s.dead :: p in s.procs)
    && (s.writer.Some? ==> s.writer.value in s.procs)
    && (s.index.Some? ==> s.index.value in s.procs)
    && (forall p | p in s.procs :: Suits(s.procs[p]))
    && (forall p | p in s.procs && p !in s.dead :: HasWriter(s.procs[p].pc) <==> s.writer == Some(p))
    && (forall p | p in s.procs && p !in s.dead :: HasIndex(s.procs[p].pc) <==> s.index == Some(p))
  }

  predicate Wrote(proc: Process) {
    proc.pc.Committed? || proc.pc == Unlocking(true) || proc.pc == Finished(true)
  }

  predicate InLog(log: seq<Entry>, p: nat) {
    exists i | 0 <= i < |log| :: log[i].pid == p
  }

  /** The log holds the successful writers' commands, each once. */
  ghost predicate LogOk(s: State) {
    && (forall p | p in s.procs :: Wrote(s.procs[p]) <==> InLog(s.log, p))
    && (forall i | 0 <= i < |s.log| :: s.log[i].pid in s.procs && s.procs[s.log[i].pid].job == Writing(s.log[i].write))
    && (forall i, j | 0 <= i < j < |s.log| :: s.log[i].pid != s.log[j].pid)
  }

  /** The rows a writer is about to commit are what its command makes of the committed rows. */
  predicate RowsOk(s: State, write: Write, rows: seq<Row>) {
    if write.Rebuild? then rows == write.chunks else s.torn || rows == Applied(Fold(s.log), write)
  }

  predicate WorkOk(s: State, proc: Process) {
    match proc.pc
    case Prepared(rows) => proc.job.Writing? && RowsOk(s, proc.job.write, rows)
    case Ready(rows) => proc.job.Writing? && RowsOk(s, proc.job.write, rows)
    case Swapping(rows, before, done) =>
      && proc.job.Writing? && RowsOk(s, proc.job.write, rows)
      && done <= 6 && s.store == Mixed(before, rows, done) && (s.torn || before == Base(s.log))
    case SawRows(rows) => s.torn || (s.log != [] && rows == Fold(s.log))
    case SawIndex(rows, index) => s.torn || (s.log != [] && rows == Fold(s.log) && index == rows)
    case _ => true
  }

  predicate AnswerOk(log: seq<Entry>, pc: Pc) {
    match pc
    case Answered(rows, at, sound) => at <= |log| && (sound ==> rows == Fold(log[..at]))
    case Broken(sound) => !sound
    case _ => true
  }

  predicate MidCommit(s: State) {
    s.index.Some? && Live(s, s.index.value) && s.procs[s.index.value].pc.Swapping?
  }

  ghost predicate StoreOk(s: State) {
    && (forall p | p in s.procs && p !in s.dead :: WorkOk(s, s.procs[p]))
    && (forall p | p in s.procs :: AnswerOk(s.log, s.procs[p].pc))
    && (!s.torn && !MidCommit(s) ==> s.store == Base(s.log))
  }

  ghost predicate Inv(s: State) {
    LocksOk(s) && LogOk(s) && StoreOk(s)
  }

  // ---------------------------------------------------------------------------
  // Locks
  // ---------------------------------------------------------------------------

  /** A move that takes a lock finds it free. */
  predicate MayMove(s: State, p: nat, pc: Pc)
    requires p in s.procs
  {
    && (HasWriter(pc) && !HasWriter(s.procs[p].pc) ==> s.writer.None?)
    && (HasIndex(pc) && !HasIndex(s.procs[p].pc) ==> s.index.None?)
    && Suits(Process(s.procs[p].job, pc))
  }

  lemma MoveKeepsLocks(s: State, p: nat, pc: Pc)
    requires LocksOk(s) && Live(s, p) && MayMove(s, p, pc)
    ensures LocksOk(Move(s, p, pc))
  {
  }

  lemma WriterMayMove(s: State, p: nat)
    requires Live(s, p) && s.procs[p].job.Writing? && Suits(s.procs[p])
    ensures MayMove(s, p, WriterPc(s, s.procs[p].job.write, s.procs[p].pc))
  {
  }

  lemma SearchMayMove(s: State, p: nat)
    requires Live(s, p) && s.procs[p].job.Searching? && Suits(s.procs[p])
    ensures MayMove(s, p, SearchPc(s, s.procs[p].pc))
  {
  }

  lemma FailMayMove(s: State, p: nat)
    requires Live(s, p) && Suits(s.procs[p])
    ensures MayMove(s, p, FailPc(s.procs[p].pc))
  {
  }

  /** The locks say nothing about the store, the log or the torn flag. */
  lemma LocksIgnoreStore(s: State, t: State)
    requires LocksOk(s)
    requires t.procs == s.procs && s.dead <= t.dead && (forall p | p in t.dead :: p in t.procs)
    requires t.writer == s.writer && t.index == s.index
    ensures LocksOk(t)
  {
  }

  lemma AdvanceKeepsLocks(s: State, p: nat)
    requires LocksOk(s) && Live(s, p)
    ensures LocksOk(Next(s, Advance(p)))
  {
    var proc := s.procs[p];
    if proc.job.Writing? {
      var pc := WriterPc(s, proc.job.write, proc.pc);
      WriterMayMove(s, p);
      MoveKeepsLocks(s, p, pc);
      LocksIgnoreStore(Move(s, p, pc), AdvanceWriter(s, p));
    } else {
      SearchMayMove(s, p);
      MoveKeepsLocks(s, p, SearchPc(s, proc.pc));
    }
  }

  lemma ErrorKeepsLocks(s: State, p: nat)
    requires LocksOk(s) && Live(s, p)
    ensures LocksOk(Fail(s, p))
  {
    FailMayMove(s, p);
    MoveKeepsLocks(s, p, FailPc(s.procs[p].pc));
    LocksIgnoreStore(Move(s, p, FailPc(s.procs[p].pc)), Fail(s, p));
  }

  lemma DeleteErrorKeepsLocks(s: State, p: nat, lost: nat)
    requires LocksOk(s) && Live(s, p)
    ensures LocksOk(FailDeleting(s, p, lost))
  {
    if s.procs[p].pc.Swapping? {
      MoveKeepsLocks(s, p, Unlocking(false));
      var moved, t := Move(s, p, Unlocking(false)), FailDeleting(s, p, lost);
      LocksIgnoreStore(moved, moved.(store := t.store, torn := t.torn));
    }
  }

  lemma DeathKeepsLocks(s: State, p: nat)
    requires LocksOk(s) && Live(s, p)
    ensures LocksOk(Die(s, p))
  {
    if s.procs[p].pc.Swapping? && s.procs[p].pc.done == 6 {
      MoveKeepsLocks(s, p, Committed);
      LocksIgnoreStore(Move(s, p, Committed), Die(s, p));
    } else {
      LocksIgnoreStore(s, Die(s, p));
    }
  }

  lemma StepKeepsLocks(s: State, e: Event)
    requires LocksOk(s)
    ensures LocksOk(Next(s, e))
  {
    match e
    case Start(_, _) =>
    case Advance(p) => if Live(s, p) { AdvanceKeepsLocks(s, p); }
    case Error(p) => if Live(s, p) { ErrorKeepsLocks(s, p); }
    case DeleteError(p, lost) => if Live(s, p) { DeleteErrorKeepsLocks(s, p, lost); }
    case Death(p) => if Live(s, p) { DeathKeepsLocks(s, p); }
    case BreakWriterLock =>
    case BreakIndexLock =>
  }

  // ---------------------------------------------------------------------------
  // The log
  // ---------------------------------------------------------------------------

  /** `t` is `s` with one process moved and, if it then has written and had not before, logged. */
  ghost predicate Logs(s: State, t: State, p: nat, pc: Pc) {
    && p in s.procs && t.procs == s.procs[p := Process(s.procs[p].job, pc)]
    && (Wrote(s.procs[p]) ==> Wrote(t.procs[p]))
    && (Wrote(t.procs[p]) && !Wrote(s.procs[p]) ==> s.procs[p].job.Writing?)
    && t.log == s.log + if Wrote(t.procs[p]) && !Wrote(s.procs[p]) then [Entry(p, s.procs[p].job.write)] else []
  }

  lemma InLogAppend(log: seq<Entry>, entry: Entry, q: nat)
    ensures InLog(log + [entry], q) <==> InLog(log, q) || q == entry.pid
  {
    if InLog(log, q) {
      var i :| 0 <= i < |log| && log[i].pid == q;
      assert (log + [entry])[i].pid == q;
    } else if q == entry.pid {
      assert (log + [entry])[|log|].pid == q;
    }
  }

  lemma LogsKeepsLog(s: State, t: State, p: nat, pc: Pc)
    requires LogOk(s) && Logs(s, t, p, pc)
    ensures LogOk(t)
  {
    if Wrote(t.procs[p]) && !Wrote(s.procs[p]) {
      forall q ensures InLog(t.log, q) <==> InLog(s.log, q) || q == p {
        InLogAppend(s.log, Entry(p, s.procs[p].job.write), q);
      }
      forall i | 0 <= i < |s.log| ensures s.log[i].pid != p {
        assert InLog(s.log, s.log[i].pid);
      }
    } else {
      assert t.log == s.log;
    }
  }

  lemma WriterLogs(s: State, p: nat)
    requires Live(s, p) && s.procs[p].job.Writing?
    ensures Logs(s, AdvanceWriter(s, p), p, WriterPc(s, s.procs[p].job.write, s.procs[p].pc))
  {
  }

  lemma SearchLogs(s: State, p: nat)
    requires Live(s, p) && s.procs[p].job.Searching? && Suits(s.procs[p])
    ensures Logs(s, AdvanceSearch(s, p), p, SearchPc(s, s.procs[p].pc))
  {
  }

  lemma ErrorLogs(s: State, p: nat)
    requires Live(s, p)
    ensures Logs(s, Fail(s, p), p, FailPc(s.procs[p].pc))
  {
  }

  lemma StepKeepsLog(s: State, e: Event)
    requires LocksOk(s) && LogOk(s)
    ensures LogOk(Next(s, e))
  {
    match e
    case Start(p, job) =>
      if p !in s.procs {
        forall i | 0 <= i < |s.log| ensures s.log[i].pid != p {
          assert s.log[i].pid in s.procs;
        }
      }
    case Advance(p) => if Live(s, p) { AdvanceKeepsLog(s, p); }
    case Error(p) => if Live(s, p) { ErrorLogs(s, p); LogsKeepsLog(s, Fail(s, p), p, FailPc(s.procs[p].pc)); }
    case DeleteError(p, lost) => if Live(s, p) && s.procs[p].pc.Swapping? && s.procs[p].pc.done == 6 {
        LogsKeepsLog(s, FailDeleting(s, p, lost), p, Unlocking(false));
      }
    case Death(p) => if Live(s, p) { DeathKeepsLog(s, p); }
    case BreakWriterLock =>
    case BreakIndexLock =>
  }

  lemma AdvanceKeepsLog(s: State, p: nat)
    requires LocksOk(s) && LogOk(s) && Live(s, p)
    ensures LogOk(Next(s, Advance(p)))
  {
    if s.procs[p].job.Writing? {
      WriterLogs(s, p);
      LogsKeepsLog(s, AdvanceWriter(s, p), p, WriterPc(s, s.procs[p].job.write, s.procs[p].pc));
    } else {
      SearchLogs(s, p);
      LogsKeepsLog(s, AdvanceSearch(s, p), p, SearchPc(s, s.procs[p].pc));
    }
  }

  lemma DeathKeepsLog(s: State, p: nat)
    requires LocksOk(s) && LogOk(s) && Live(s, p)
    ensures LogOk(Die(s, p))
  {
    if s.procs[p].pc.Swapping? && s.procs[p].pc.done == 6 && s.procs[p].job.Writing? {
      LogsKeepsLog(s, Die(s, p), p, Committed);
    }
  }

  // ---------------------------------------------------------------------------
  // The store
  // ---------------------------------------------------------------------------

  /** What `p` may change without disturbing the work of the others: nothing they rely on, or the
      store while it holds the index lock, or everything while it holds both. */
  predicate Discreet(s: State, t: State, p: nat) {
    || (t.store == s.store && t.log == s.log && (s.torn ==> t.torn))
    || (s.index == Some(p) && t.log == s.log && (s.torn ==> t.torn))
    || (s.index == Some(p) && s.writer == Some(p))
  }

  lemma OthersUntouched(s: State, t: State, p: nat, q: nat)
    requires q in s.procs && q != p && WorkOk(s, s.procs[q]) && Discreet(s, t, p)
    requires HasWriter(s.procs[q].pc) ==> s.writer == Some(q)
    requires HasIndex(s.procs[q].pc) ==> s.index == Some(q)
    ensures WorkOk(t, s.procs[q])
  {
  }

  lemma AnswersStay(log: seq<Entry>, more: seq<Entry>, pc: Pc)
    requires AnswerOk(log, pc)
    ensures AnswerOk(log + more, pc)
  {
    if pc.Answered? {
      assert (log + more)[..pc.at] == log[..pc.at];
    }
  }

  /** Enough for the store invariant after `p` alone has moved. */
  lemma MoveKeepsStore(s: State, t: State, p: nat)
    requires LocksOk(s) && StoreOk(s) && Live(s, p) && Discreet(s, t, p)
    requires p in t.procs && t.procs == s.procs[p := t.procs[p]] && s.dead <= t.dead
    requires Live(t, p) ==> WorkOk(t, t.procs[p])
    requires s.log <= t.log && AnswerOk(t.log, t.procs[p].pc)
    requires !t.torn && !MidCommit(t) ==> t.store == Base(t.log)
    ensures StoreOk(t)
  {
    forall q | q in t.procs && q !in t.dead ensures WorkOk(t, t.procs[q]) {
      if q != p {
        OthersUntouched(s, t, p, q);
      }
    }
    forall q | q in t.procs ensures AnswerOk(t.log, t.procs[q].pc) {
      if q != p {
        AnswersStay(s.log, t.log[|s.log|..], s.procs[q].pc);
        assert s.log + t.log[|s.log|..] == t.log;
      }
    }
  }

  lemma FoldAppend(log: seq<Entry>, entry: Entry)
    ensures Fold(log + [entry]) == Applied(Fold(log), entry.write)
    ensures Base(log + [entry]) == Triple(Applied(Fold(log), entry.write))
  {
    assert (log + [entry])[..|log|] == log;
  }

  lemma SearchKeepsStore(s: State, p: nat)
    requires Inv(s) && Live(s, p) && s.procs[p].job.Searching?
    ensures StoreOk(AdvanceSearch(s, p))
  {
    var t := AdvanceSearch(s, p);
    SearchWork(s, p);
    QuietMidCommit(s, t, p);
    MoveKeepsStore(s, t, p);
  }

  lemma SearchWork(s: State, p: nat)
    requires Inv(s) && Live(s, p) && s.procs[p].job.Searching?
    ensures WorkOk(AdvanceSearch(s, p), AdvanceSearch(s, p).procs[p])
    ensures AnswerOk(s.log, SearchPc(s, s.procs[p].pc))
  {
    assert AnswerOk(s.log, s.procs[p].pc);
    assert s.log[..|s.log|] == s.log;
    if HasIndex(s.procs[p].pc) {
      assert !MidCommit(s);
      assert s.torn || s.store == Base(s.log);
    }
  }

  /** A step that swaps nothing does not change whether a commit is under way. */
  lemma QuietMidCommit(s: State, t: State, p: nat)
    requires LocksOk(s) && p in s.procs && p in t.procs
    requires !s.procs[p].pc.Swapping? && !t.procs[p].pc.Swapping?
    requires t.procs == s.procs[p := t.procs[p]] && (t.dead == s.dead || t.dead == s.dead + {p})
    requires t.index == s.index || (s.index.None? && t.index == Some(p)) || (s.index == Some(p) && t.index.None?)
    ensures MidCommit(t) == MidCommit(s)
  {
  }

  lemma WriterKeepsStore(s: State, p: nat)
    requires Inv(s) && Live(s, p) && s.procs[p].job.Writing?
    ensures StoreOk(AdvanceWriter(s, p))
  {
    var pc := s.procs[p].pc;
    if pc.Swapping? || pc.Ready? {
      if pc.Swapping? && pc.done >= 6 {
        CommitKeepsStore(s, p);
      } else {
        SwapKeepsStore(s, p);
      }
    } else {
      PreparationKeepsStore(s, p);
    }
  }

  lemma PreparationKeepsStore(s: State, p: nat)
    requires Inv(s) && Live(s, p) && s.procs[p].job.Writing? && !s.procs[p].pc.Swapping? && !s.procs[p].pc.Ready?
    ensures StoreOk(AdvanceWriter(s, p))
  {
    var t := AdvanceWriter(s, p);
    PreparedWork(s, p);
    QuietMidCommit(s, t, p);
    MoveKeepsStore(s, t, p);
  }

  lemma PreparedWork(s: State, p: nat)
    requires Inv(s) && Live(s, p) && s.procs[p].job.Writing? && !s.procs[p].pc.Swapping? && !s.procs[p].pc.Ready?
    ensures WorkOk(AdvanceWriter(s, p), AdvanceWriter(s, p).procs[p])
    ensures AnswerOk(s.log, AdvanceWriter(s, p).procs[p].pc)
  {
    assert AnswerOk(s.log, s.procs[p].pc) && WorkOk(s, s.procs[p]);
    if s.procs[p].pc.Locked? {
      OnlyTheWriterCommits(s, p);
      assert s.torn || s.store == Base(s.log);
      assert MetadataRows(Base(s.log)) == Fold(s.log);
    }
  }

  /** While a live process holds the writer lock outside its swaps, no commit is under way. */
  lemma OnlyTheWriterCommits(s: State, p: nat)
    requires LocksOk(s) && Live(s, p) && HasWriter(s.procs[p].pc) && !s.procs[p].pc.Swapping?
    ensures !MidCommit(s)
  {
    if MidCommit(s) {
      assert HasWriter(s.procs[s.index.value].pc);
    }
  }

  lemma SwapKeepsStore(s: State, p: nat)
    requires Inv(s) && Live(s, p) && s.procs[p].job.Writing?
    requires s.procs[p].pc.Ready? || (s.procs[p].pc.Swapping? && s.procs[p].pc.done < 6)
    ensures StoreOk(AdvanceWriter(s, p))
  {
    var t := AdvanceWriter(s, p);
    assert WorkOk(s, s.procs[p]);
    if s.procs[p].pc.Ready? {
      OnlyTheWriterCommits(s, p);
    }
    assert MidCommit(t);
    MoveKeepsStore(s, t, p);
  }

  lemma CommitKeepsStore(s: State, p: nat)
    requires Inv(s) && Live(s, p) && s.procs[p].job.Writing?
    requires s.procs[p].pc.Swapping? && s.procs[p].pc.done >= 6
    ensures StoreOk(AdvanceWriter(s, p))
  {
    var t, write := AdvanceWriter(s, p), s.procs[p].job.write;
    assert WorkOk(s, s.procs[p]);
    FoldAppend(s.log, Entry(p, write));
    MoveKeepsStore(s, t, p);
  }

  lemma ErrorKeepsStore(s: State, p: nat)
    requires Inv(s) && Live(s, p)
    ensures StoreOk(Fail(s, p))
  {
    var t := Fail(s, p);
    assert WorkOk(s, s.procs[p]) && AnswerOk(s.log, s.procs[p].pc);
    if !s.procs[p].pc.Swapping? {
      QuietMidCommit(s, t, p);
    }
    MoveKeepsStore(s, t, p);
  }

  lemma DeleteErrorKeepsStore(s: State, p: nat, lost: nat)
    requires Inv(s) && Live(s, p)
    ensures StoreOk(FailDeleting(s, p, lost))
  {
    if s.procs[p].pc.Swapping? && s.procs[p].pc.done == 6 {
      assert WorkOk(s, s.procs[p]);
      MoveKeepsStore(s, FailDeleting(s, p, lost), p);
    }
  }

  lemma DeathKeepsStore(s: State, p: nat)
    requires Inv(s) && Live(s, p)
    ensures StoreOk(Die(s, p))
  {
    if !s.procs[p].pc.Swapping? {
      QuietDeathKeepsStore(s, p);
    } else if s.procs[p].pc.done == 6 {
      LateDeathKeepsStore(s, p);
    } else {
      EarlyDeathKeepsStore(s, p);
    }
  }

  lemma QuietDeathKeepsStore(s: State, p: nat)
    requires Inv(s) && Live(s, p) && !s.procs[p].pc.Swapping?
    ensures StoreOk(Die(s, p))
  {
    assert AnswerOk(s.log, s.procs[p].pc);
    assert s.procs[p := s.procs[p]] == s.procs;
    QuietMidCommit(s, Die(s, p), p);
    MoveKeepsStore(s, Die(s, p), p);
  }

  lemma EarlyDeathKeepsStore(s: State, p: nat)
    requires Inv(s) && Live(s, p) && s.procs[p].pc.Swapping? && s.procs[p].pc.done != 6
    ensures StoreOk(Die(s, p))
  {
    assert WorkOk(s, s.procs[p]);
    assert s.procs[p := s.procs[p]] == s.procs;
    MoveKeepsStore(s, Die(s, p), p);
  }

  lemma LateDeathKeepsStore(s: State, p: nat)
    requires Inv(s) && Live(s, p) && s.procs[p].pc.Swapping? && s.procs[p].pc.done == 6
    ensures StoreOk(Die(s, p))
  {
    assert WorkOk(s, s.procs[p]);
    FoldAppend(s.log, Entry(p, s.procs[p].job.write));
    MoveKeepsStore(s, Die(s, p), p);
  }

  lemma StartKeepsStore(s: State, p: nat, job: Job)
    requires Inv(s) && p !in s.procs
    ensures StoreOk(Started(s, p, job))
  {
    assert MidCommit(Started(s, p, job)) == MidCommit(s);
  }

  lemma BreakingKeepsStore(s: State, writer: Option<nat>, index: Option<nat>)
    requires Inv(s) && (index == s.index || (s.index.Some? && s.index.value in s.dead && index.None?))
    ensures StoreOk(s.(writer := writer, index := index))
  {
    assert MidCommit(s.(writer := writer, index := index)) == MidCommit(s);
  }

  lemma StepKeepsStore(s: State, e: Event)
    requires Inv(s)
    ensures StoreOk(Next(s, e))
  {
    match e
    case Start(p, job) => if p !in s.procs { StartKeepsStore(s, p, job); }
    case Advance(p) =>
      if Live(s, p) {
        if s.procs[p].job.Writing? { WriterKeepsStore(s, p); } else { SearchKeepsStore(s, p); }
      }
    case Error(p) => if Live(s, p) { ErrorKeepsStore(s, p); }
    case DeleteError(p, lost) => if Live(s, p) { DeleteErrorKeepsStore(s, p, lost); }
    case Death(p) => if Live(s, p) { DeathKeepsStore(s, p); }
    case BreakWriterLock => BreakingKeepsStore(s, None, s.index);
    case BreakIndexLock => if s.index.Some? && s.index.value in s.dead { BreakingKeepsStore(s, s.writer, None); }
  }

  // ---------------------------------------------------------------------------
  // Whole runs
  // ---------------------------------------------------------------------------

  lemma {:induction false} RunKeepsInv(events: seq<Event>)
    ensures Inv(Run(events))
  {
    if events != [] {
      var before, e := events[..|events| - 1], events[|events| - 1];
      RunKeepsInv(before);
      StepKeepsLocks(Run(before), e);
      StepKeepsLog(Run(before), e);
      StepKeepsStore(Run(before), e);
    }
  }

  /** Writers are serialisable: unless a commit is under way or was torn, the artifacts are one triple
      with equal counts, made by running the logged commands one after another; the log holds exactly
      the commands of the writers that succeeded, each once. */
  lemma WritersAreSerialisable(events: seq<Event>)
    ensures var s := Run(events);
      && (!s.torn && !MidCommit(s) ==> s.store == Base(s.log))
      && (forall p | p in s.procs :: Wrote(s.procs[p]) <==> InLog(s.log, p))
      && (forall i | 0 <= i < |s.log| ::
            s.log[i].pid in s.procs && s.procs[s.log[i].pid].job == Writing(s.log[i].write))
      && (forall i, j | 0 <= i < j < |s.log| :: s.log[i].pid != s.log[j].pid)
  {
    RunKeepsInv(events);
  }

  /** At most one live writer is between its read and its commit, and searches exclude commits. */
  lemma LocksExclude(events: seq<Event>, p: nat, q: nat)
    requires Live(Run(events), p) && Live(Run(events), q) && p != q
    ensures !(HasWriter(Run(events).procs[p].pc) && HasWriter(Run(events).procs[q].pc))
    ensures !(HasIndex(Run(events).procs[p].pc) && HasIndex(Run(events).procs[q].pc))
  {
    RunKeepsInv(events);
  }

  /** A search that ends while no torn commit lies on disk never reports broken artifacts, and its
      rows are those of the writes committed so far. */
  lemma SearchesSeeOneCommit(events: seq<Event>, p: nat)
    requires p in Run(events).procs
    ensures Run(events).procs[p].pc != Broken(true)
    ensures var s := Run(events); var pc := s.procs[p].pc;
      pc.Answered? && pc.sound ==> pc.at <= |s.log| && pc.rows == Fold(s.log[..pc.at])
  {
    RunKeepsInv(events);
    assert AnswerOk(Run(events).log, Run(events).procs[p].pc);
  }

  /** A search accepts the artifacts: all exist and their counts agree. */
  predicate Accepts(store: Store) {
    && store.index.Some? && store.metadata.Some? && store.manifest.Some?
    && |store.index.value| == |store.metadata.value| == store.manifest.value
  }

  /** What a search holding the index lock ends with: its three steps check exactly this. */
  lemma SearchAcceptsMatchingCounts(s: State, p: nat)
    requires Live(s, p) && s.procs[p] == Process(Searching, Probing) && s.store != EMPTY
    ensures var end := Next(Next(Next(s, Advance(p)), Advance(p)), Advance(p)).procs[p].pc;
      end == if Accepts(s.store) then Answered(s.store.metadata.value, |s.log|, !s.torn) else Broken(!s.torn)
  {
    var s1 := Next(s, Advance(p));
    var s2 := Next(s1, Advance(p));
    assert s1.store == s2.store == s.store && s1.log == s2.log == s.log && s1.torn == s2.torn == s.torn;
  }

  /** The count check does not reveal every torn commit: artifacts of two commits are accepted exactly
      when none is missing and both commits have the same number of rows. */
  lemma TornCommitIsAcceptedOnEqualCounts(s: State, p: nat, was: seq<Row>, rows: seq<Row>, done: nat)
    requires Live(s, p) && s.procs[p] == Process(Searching, Probing)
    requires 0 < done < 6 && s.store == Mixed(Triple(was), rows, done)
    ensures Next(Next(Next(s, Advance(p)), Advance(p)), Advance(p)).procs[p].pc.Answered? <==>
      done % 2 == 0 && |was| == |rows|
  {
    SearchAcceptsMatchingCounts(s, p);
  }

  // ---------------------------------------------------------------------------
  // A run that tears a commit
  // ---------------------------------------------------------------------------

  /** No lock is held, and `p` has not run. */
  predicate Free(s: State, p: nat) {
    s.writer.None? && s.index.None? && p !in s.procs && p !in s.dead
  }

  /** `p` at `pc`, with the locks it then holds, and nobody else under way. */
  function At(s: State, p: nat, job: Job, pc: Pc): State {
    s.(procs := s.procs[p := Process(job, pc)],
       writer := if HasWriter(pc) then Some(p) else None,
       index := if HasIndex(pc) then Some(p) else None)
  }

  lemma MoveAt(s: State, p: nat, job: Job, pc: Pc, next: Pc)
    ensures Move(At(s, p, job, pc), p, next) == At(s, p, job, next)
  {
    assert s.procs[p := Process(job, pc)][p := Process(job, next)] == s.procs[p := Process(job, next)];
  }

  lemma RunMore(events: seq<Event>, e: Event)
    ensures Run(events + [e]) == Next(Run(events), e)
  {
    assert (events + [e])[..|events|] == events;
  }

  /** A step of `p` that leaves the store alone. */
  lemma GoesOn(s: State, events: seq<Event>, p: nat, job: Job, pc: Pc, next: Pc) returns (more: seq<Event>)
    requires Free(s, p) && Run(events) == At(s, p, job, pc)
    requires next == if job.Writing? then WriterPc(At(s, p, job, pc), job.write, pc)
        else SearchPc(At(s, p, job, pc), pc)
    requires !next.Committed? && (next.Swapping? ==> next == Swapping(next.rows, s.store, 0))
    ensures Run(more) == At(s, p, job, next)
  {
    more := events + [Advance(p)];
    RunMore(events, Advance(p));
    MoveAt(s, p, job, pc, next);
  }

  /** The command does something, and `rows` is what it makes of the rows on disk. */
  predicate Makes(s: State, write: Write, rows: seq<Row>) {
    !(write.Upsert? && write.chunks == []) && rows == Applied(MetadataRows(s.store), write)
  }

  lemma WriteBegins(s: State, events: seq<Event>, p: nat, write: Write, rows: seq<Row>) returns (more: seq<Event>)
    requires Free(s, p) && Run(events) == s && Makes(s, write, rows)
    ensures Run(more) == At(s, p, Writing(write), Swapping(rows, s.store, 0))
  {
    var job := Writing(write);
    RunMore(events, Start(p, job));
    more := GoesOn(s, events + [Start(p, job)], p, job, Waiting, Locked);
    more := GoesOn(s, more, p, job, Locked, Prepared(rows));
    more := GoesOn(s, more, p, job, Prepared(rows), Ready(rows));
    more := GoesOn(s, more, p, job, Ready(rows), Swapping(rows, s.store, 0));
  }

  /** A write after `done` of its six swaps. */
  function HalfDone(s: State, p: nat, write: Write, rows: seq<Row>, done: nat): State {
    At(s, p, Writing(write), Swapping(rows, s.store, done)).(store := Mixed(s.store, rows, done))
  }

  lemma {:induction false} WriteGoesOn(s: State, events: seq<Event>, p: nat, write: Write, rows: seq<Row>, done: nat)
      returns (more: seq<Event>)
    requires Free(s, p) && Run(events) == s && Makes(s, write, rows) && done <= 6
    ensures Run(more) == HalfDone(s, p, write, rows, done)
  {
    if done == 0 {
      more := WriteBegins(s, events, p, write, rows);
    } else {
      more := WriteGoesOn(s, events, p, write, rows, done - 1);
      RunMore(more, Advance(p));
      MoveAt(s, p, Writing(write), Swapping(rows, s.store, done - 1), Swapping(rows, s.store, done));
      more := more + [Advance(p)];
    }
  }

  function Wrought(s: State, p: nat, write: Write, rows: seq<Row>): State {
    s.(procs := s.procs[p := Process(Writing(write), Finished(true))],
       store := Triple(rows), torn := s.torn && !write.Rebuild?, log := s.log + [Entry(p, write)])
  }

  lemma WriteEnds(s: State, events: seq<Event>, p: nat, write: Write, rows: seq<Row>) returns (more: seq<Event>)
    requires Free(s, p) && Run(events) == s && Makes(s, write, rows)
    ensures Run(more) == Wrought(s, p, write, rows)
  {
    more := WriteGoesOn(s, events, p, write, rows, 6);
    var job, entry := Writing(write), Entry(p, write);
    var t := s.(store := Triple(rows), torn := s.torn && !write.Rebuild?, log := s.log + [entry]);
    RunMore(more, Advance(p));
    MoveAt(s, p, job, Swapping(rows, s.store, 6), Committed);
    more := GoesOn(t, more + [Advance(p)], p, job, Committed, Unlocking(true));
    more := GoesOn(t, more, p, job, Unlocking(true), Finished(true));
  }

  /** A rebuild by process `p` dies after `done` swaps; others break its locks. */
  function Died(s: State, p: nat, rows: seq<Row>, done: nat): State {
    s.(procs := s.procs[p := Process(Writing(Rebuild(rows)), Swapping(rows, s.store, done))],
       dead := s.dead + {p}, store := Mixed(s.store, rows, done),
       torn := s.torn || Mixed(s.store, rows, done) != s.store)
  }

  lemma RebuildDies(s: State, events: seq<Event>, p: nat, rows: seq<Row>, done: nat) returns (more: seq<Event>)
    requires Free(s, p) && Run(events) == s && done < 6
    ensures Run(more) == Died(s, p, rows, done)
  {
    more := WriteGoesOn(s, events, p, Rebuild(rows), rows, done);
    RunMore(more, Death(p));
    more := more + [Death(p)];
    RunMore(more, BreakWriterLock);
    more := more + [BreakWriterLock];
    RunMore(more, BreakIndexLock);
    more := more + [BreakIndexLock];
  }

  /** The failing input, reached from the start: one rebuild commits, the next dies between its swaps,
      its locks are broken and a search runs. When the two have equally many rows and the second died
      between two artifacts, the search answers from artifacts of different commits. */
  lemma TornCommitIsSearched(was: seq<Row>, rows: seq<Row>, done: nat) returns (events: seq<Event>)
    requires 0 < done < 6
    ensures Run(events).store == Mixed(Triple(was), rows, done) && 2 in Run(events).procs
    ensures Run(events).procs[2].pc.Answered? <==> done % 2 == 0 && |was| == |rows|
    ensures done == 2 && |was| == |rows| && was != rows ==>
      Run(events).procs[2].pc == Answered(was, 1, false) && Run(events).store.index == Some(rows)
  {
    events := WriteEnds(START, [], 0, Rebuild(was), was);
    var first := Run(events);
    events := RebuildDies(first, events, 1, rows, done);
    var torn := Run(events);
    RunMore(events, Start(2, Searching));
    events := GoesOn(torn, events + [Start(2, Searching)], 2, Searching, Waiting, Probing);
    var s := Run(events);
    TornCommitIsAcceptedOnEqualCounts(s, 2, was, rows, done);
    SearchAcceptsMatchingCounts(s, 2);
    RunMore(events, Advance(2));
    RunMore(events + [Advance(2)], Advance(2));
    RunMore(events + [Advance(2)] + [Advance(2)], Advance(2));
    events := events + [Advance(2)] + [Advance(2)] + [Advance(2)];
    SearchKeepsFiles(s, 2);
  }

  lemma SearchKeepsFiles(s: State, p: nat)
    requires Live(s, p) && s.procs[p].job.Searching?
    ensures var t := Next(Next(Next(s, Advance(p)), Advance(p)), Advance(p));
      t.store == s.store && p in t.procs
  {
  }

  // ---------------------------------------------------------------------------
  // What the committed writes leave
  // ---------------------------------------------------------------------------

  /** What one committed write makes of the rows before it. */
  ghost predicate WriteLeaves(before: seq<Row>, write: Write, after: seq<Row>) {
    match write
    case Upsert(cutoff, chunks) => UpsertLeaves(before, cutoff, chunks, after)
    case Rebuild(chunks) => after == chunks
  }

  /** The rows before the first and after each of the committed writes. */
  ghost predicate IsHistory(log: seq<Entry>, rows: seq<seq<Row>>) {
    && |rows| == |log| + 1 && rows[0] == []
    && forall i | 0 <= i < |log| :: WriteLeaves(rows[i], log[i].write, rows[i + 1])
  }

  lemma AppliedLeaves(before: seq<Row>, write: Write)
    ensures WriteLeaves(before, write, Applied(before, write))
  {
    if write.Upsert? {
      UpsertLeavesLatest(before, write.cutoff, write.chunks);
    }
  }

  lemma FoldsAreHistory(log: seq<Entry>, rows: seq<seq<Row>>)
    requires |rows| == |log| + 1 && forall i | 0 <= i <= |log| :: rows[i] == Fold(log[..i])
    ensures IsHistory(log, rows)
  {
    forall i | 0 <= i < |log| ensures WriteLeaves(rows[i], log[i].write, rows[i + 1]) {
      assert log[..i + 1][..i] == log[..i];
      AppliedLeaves(Fold(log[..i]), log[i].write);
    }
  }

  /** Over every run there is one history of committed rows, each write leaving its rows after those of
      the write before it: the artifacts are the last of them, unless a commit is under way or was torn,
      and a search that ends while none was torn answers those committed when it ended. */
  lemma CommitsLeaveTheirRows(events: seq<Event>) returns (rows: seq<seq<Row>>)
    ensures IsHistory(Run(events).log, rows)
    ensures var s := Run(events);
      !s.torn && !MidCommit(s) ==> s.store == if s.log == [] then EMPTY else Triple(rows[|s.log|])
    ensures forall p | p in Run(events).procs :: var pc := Run(events).procs[p].pc;
      pc.Answered? && pc.sound ==> pc.at <= |Run(events).log| && pc.rows == rows[pc.at]
  {
    var s := Run(events);
    rows := seq(|s.log| + 1, i requires 0 <= i <= |s.log| => Fold(s.log[..i]));
    FoldsAreHistory(s.log, rows);
    RunKeepsInv(events);
    assert s.log[..|s.log|] == s.log;
    forall p | p in s.procs && s.procs[p].pc.Answered? && s.procs[p].pc.sound
      ensures s.procs[p].pc.at <= |s.log| && s.procs[p].pc.rows == rows[s.procs[p].pc.at]
    {
      SearchesSeeOneCommit(events, p);
    }
  }

  /** A write is not only safe but happens: started while no lock is held, and left alone, it commits what
      it makes of the rows on disk, and a search right after it, left alone too, answers just that. */
  lemma UndisturbedWriteIsSearched(events: seq<Event>, p: nat, q: nat, write: Write)
      returns (more: seq<Event>, rows: seq<Row>)
    requires Free(Run(events), p) && Free(Run(events), q) && p != q && !(write.Upsert? && write.chunks == [])
    ensures WriteLeaves(MetadataRows(Run(events).store), write, rows)
    ensures Run(more).store == Triple(rows) && Run(more).log == Run(events).log + [Entry(p, write)]
    ensures p in Run(more).procs && Run(more).procs[p].pc == Finished(true)
    ensures q in Run(more).procs
      && Run(more).procs[q].pc == Answered(rows, |Run(events).log| + 1, !Run(more).torn)
  {
    var s := Run(events);
    rows := Applied(MetadataRows(s.store), write);
    AppliedLeaves(MetadataRows(s.store), write);
    more := WriteEnds(s, events, p, write, rows);
    more := SearchEnds(Wrought(s, p, write, rows), more, q, rows);
  }

  lemma SearchEnds(s: State, events: seq<Event>, q: nat, rows: seq<Row>) returns (more: seq<Event>)
    requires Free(s, q) && Run(events) == s && s.store == Triple(rows)
    ensures Run(more) == s.(procs := s.procs[q := Process(Searching, Answered(rows, |s.log|, !s.torn))])
  {
    RunMore(events, Start(q, Searching));
    more := GoesOn(s, events + [Start(q, Searching)], q, Searching, Waiting, Probing);
    more := GoesOn(s, more, q, Searching, Probing, SawRows(rows));
    more := GoesOn(s, more, q, Searching, SawRows(rows), SawIndex(rows, rows));
    more := GoesOn(s, more, q, Searching, SawIndex(rows, rows), Answered(rows, |s.log|, !s.torn));
  }
}
