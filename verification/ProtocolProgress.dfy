/** Left alone, the machine finishes: whatever a crash left behind, two undisturbed runs whose turns
    are all taken in import every meaningful text and clean up. */
module ProtocolProgress {
  import opened Options
  import opened Text
  import opened Chunking
  import opened ImportTurns
  import opened SerialIngest
  import opened Marker
  import opened PlanDirectory
  import opened Protocol
  import opened ProtocolSafety

  function Runs(s: State, origin: Origin, c: Choice, k: nat): State
    decreases k
  {
    if k == 0 then s else Runs(Advance(s, origin, c), origin, c, k - 1)
  }

  ghost predicate Reaches(s: State, t: State, origin: Origin, c: Choice) {
    exists k: nat :: Runs(s, origin, c, k) == t
  }

  /** Every turn is taken in, and the turn limit is usable. */
  predicate Undisturbed(c: Choice) {
    && c.maxTurnChars >= 1 && Reliable(c.outcome) && Succeeds(c.outcome)
    && (c.outcome.result.Some? ==> Amount(c.outcome.result.value.postPersistMetadataFailureCount) == 0)
  }

  lemma {:induction false} RunsJoin(s: State, origin: Origin, c: Choice, j: nat, k: nat)
    ensures Runs(Runs(s, origin, c, j), origin, c, k) == Runs(s, origin, c, j + k)
    decreases j
  {
    if j > 0 {
      RunsJoin(Advance(s, origin, c), origin, c, j - 1, k);
    }
  }

  lemma Then(s: State, t: State, u: State, origin: Origin, c: Choice)
    requires Reaches(s, t, origin, c) && Reaches(t, u, origin, c)
    ensures Reaches(s, u, origin, c)
  {
    var j: nat :| Runs(s, origin, c, j) == t;
    var k: nat :| Runs(t, origin, c, k) == u;
    RunsJoin(s, origin, c, j, k);
  }

  lemma One(s: State, t: State, origin: Origin, c: Choice)
    requires Advance(s, origin, c) == t
    ensures Reaches(s, t, origin, c)
  {
    assert Runs(t, origin, c, 0) == t;
    assert Runs(s, origin, c, 1) == t;
  }

  lemma {:induction false} RunsPreserve(p: State -> bool, s: State, origin: Origin, c: Choice, k: nat)
    requires p(s) && forall x :: p(x) ==> p(Advance(x, origin, c))
    ensures p(Runs(s, origin, c, k))
    decreases k
  {
    if k > 0 {
      RunsPreserve(p, Advance(s, origin, c), origin, c, k - 1);
    }
  }

  ghost predicate InvWithHistory(s: State, history: string) {
    Inv(s) && s.history == history
  }

  lemma AdvanceKeeps(s: State, origin: Origin, c: Choice)
    requires Inv(s) && Undisturbed(c)
    ensures InvWithHistory(Advance(s, origin, c), s.history)
  {
    StepKeepsInv(s, origin, Run(c));
    HistoryOfStep(s, origin, Run(c));
    assert s.history + "" == s.history;
  }

  lemma ReachedIsInv(s: State, t: State, origin: Origin, c: Choice)
    requires Inv(s) && Undisturbed(c) && Reaches(s, t, origin, c)
    ensures Inv(t) && t.history == s.history
  {
    var k: nat :| Runs(s, origin, c, k) == t;
    var p := x => InvWithHistory(x, s.history);
    forall x | p(x) ensures p(Advance(x, origin, c)) {
      AdvanceKeeps(x, origin, c);
    }
    RunsPreserve(p, s, origin, c, k);
    assert p(t);
  }

  // ---------------------------------------------------------------------------
  // Removing what a processed marker covers
  // ---------------------------------------------------------------------------

  lemma Rotated(s: State, origin: Origin, c: Choice, text: string, plan: string) returns (t: State)
    requires s.pc == Rename(text) && s.disk.plan == Some(plan) && s.disk.snapshots == []
    ensures Reaches(s, t, origin, c)
    ensures t == s.(disk := s.disk.(plan := Some(""), snapshots := [plan]), pc := ReadRotated(text))
  {
    var renamed := s.(disk := s.disk.(plan := None, snapshots := [plan]), pc := Recreate(text));
    assert [plan] + s.disk.snapshots == [plan];
    One(s, renamed, origin, c);
    t := s.(disk := s.disk.(plan := Some(""), snapshots := [plan]), pc := ReadRotated(text));
    One(renamed, t, origin, c);
    Then(s, renamed, t, origin, c);
  }

  lemma TailPutBack(s: State, origin: Origin, c: Choice, text: string, whole: string) returns (t: State)
    requires s.pc == ReadRotated(text) && s.disk.plan == Some("") && s.disk.snapshots == [whole] && text <= whole
    ensures Reaches(s, t, origin, c)
    ensures t == s.(disk := s.disk.(plan := Some(whole[|text|..])), pc := UnlinkRotated(false))
  {
    var tail := whole[|text|..];
    t := s.(disk := s.disk.(plan := Some(tail)), pc := UnlinkRotated(false));
    if tail == "" {
      assert s.disk == s.disk.(plan := Some(tail));
      One(s, t, origin, c);
    } else {
      var restoring := s.(pc := RestoreRotated(tail, false));
      One(s, restoring, origin, c);
      assert tail + "" == tail;
      One(restoring, t, origin, c);
      Then(s, restoring, t, origin, c);
    }
  }

  lemma SnapshotDropped(s: State, origin: Origin, c: Choice, t: State)
    requires s.pc == UnlinkRotated(false) && |s.disk.snapshots| == 1
    requires t == State(Disk(s.disk.plan, [], None), Idle, s.history, s.imported)
    ensures Reaches(s, t, origin, c)
  {
    var unlinked := s.(disk := s.disk.(snapshots := []), pc := DropAndStop);
    assert s.disk.snapshots[1..] == [];
    One(s, unlinked, origin, c);
    One(unlinked, t, origin, c);
    Then(s, unlinked, t, origin, c);
  }

  lemma RemovalFinishes(s: State, origin: Origin, c: Choice, text: string, plan: string, t: State)
    requires s.pc == Rename(text) && s.disk.plan == Some(plan) && s.disk.snapshots == [] && text <= plan
    requires t == State(Disk(Some(plan[|text|..]), [], None), Idle, s.history, s.imported)
    ensures Reaches(s, t, origin, c)
  {
    var rotated := Rotated(s, origin, c, text, plan);
    var back := TailPutBack(rotated, origin, c, text, plan);
    Then(s, rotated, back, origin, c);
    SnapshotDropped(back, origin, c, t);
    Then(s, back, t, origin, c);
  }

  // ---------------------------------------------------------------------------
  // Importing
  // ---------------------------------------------------------------------------

  /** Counters of a call in which no batch has failed and no metadata failure has been reported. */
  predicate Untroubled(c: Counters) {
    c.failed == 0 && c.metadataFailures == 0
  }

  lemma {:induction false} ImportFinishes(s: State, origin: Origin, c: Choice, job: Job, done: nat, counters: Counters)
    returns (t: State)
    requires Undisturbed(c) && s.pc == Ingesting(job, done, counters) && done <= |job.turns| && Untroubled(counters)
    ensures Reaches(s, t, origin, c)
    ensures t == s.(imported := t.imported, pc := WriteProcessed(job, job.content, true))
    decreases |job.turns| - done
  {
    if done == |job.turns| {
      t := s.(pc := WriteProcessed(job, job.content, true));
      One(s, t, origin, c);
    } else {
      var more := Added(counters, c.outcome);
      var next := s.(imported := s.imported + {job.turns[done].rawContent}, pc := Ingesting(job, done + 1, more));
      One(s, next, origin, c);
      t := ImportFinishes(next, origin, c, job, done + 1, more);
      Then(s, next, t, origin, c);
    }
  }

  /** A job whose content starts the plan file is imported, and its text taken off the file. */
  lemma JobFinishes(s: State, origin: Origin, c: Choice, job: Job, plan: string) returns (t: State)
    requires Inv(s) && Undisturbed(c) && s.pc == Ingesting(job, 0, ZERO) && s.disk.plan == Some(plan)
    ensures job.content <= plan && Reaches(s, t, origin, c)
    ensures t == State(Disk(Some(plan[|job.content|..]), [], None), Idle, s.history, t.imported)
  {
    var ingested := ImportFinishes(s, origin, c, job, 0, ZERO);
    ReachedIsInv(s, ingested, origin, c);
    t := ProcessedFinishes(ingested, origin, c, job, job.content, plan);
    Then(s, ingested, t, origin, c);
  }

  lemma ProcessedFinishes(s: State, origin: Origin, c: Choice, job: Job, text: string, plan: string) returns (t: State)
    requires Inv(s) && s.pc == WriteProcessed(job, text, true) && s.disk.plan == Some(plan)
    ensures text <= plan && Reaches(s, t, origin, c)
    ensures t == State(Disk(Some(plan[|text|..]), [], None), Idle, s.history, s.imported)
  {
    BytesOfPlan(s, text);
    WrittenMarkerReadsBack(Processed, text, job.processedAt, job.reason, job.turns);
    var marked := Mark(s, Processed, text, job, Rename(text));
    One(s, marked, origin, c);
    t := State(Disk(Some(plan[|text|..]), [], None), Idle, s.history, s.imported);
    RemovalFinishes(marked, origin, c, text, plan, t);
    Then(s, marked, t, origin, c);
  }

  lemma FreshFinishes(s: State, origin: Origin, c: Choice, content: string) returns (t: State)
    requires Inv(s) && Undisturbed(c) && s.pc == Fresh(content) && s.disk.plan == Some(content)
    ensures Reaches(s, t, origin, c) && Quiet(t)
  {
    var job := FreshJob(content, origin, c);
    t := JobStarts(s, origin, c, job, FreshStep(s, job));
  }

  lemma JobStarts(s: State, origin: Origin, c: Choice, job: Job, next: State) returns (t: State)
    requires Inv(s) && Undisturbed(c) && next == Advance(s, origin, c)
    requires next.pc == Ingesting(job, 0, ZERO) && next.disk.plan == Some(job.content)
    ensures Reaches(s, t, origin, c) && Quiet(t)
  {
    One(s, next, origin, c);
    ReachedIsInv(s, next, origin, c);
    t := WholeFileFinishes(next, origin, c, job);
    Then(s, next, t, origin, c);
  }

  lemma WholeFileFinishes(s: State, origin: Origin, c: Choice, job: Job) returns (t: State)
    requires Inv(s) && Undisturbed(c) && s.pc == Ingesting(job, 0, ZERO) && s.disk.plan == Some(job.content)
    ensures Reaches(s, t, origin, c) && Quiet(t)
  {
    t := JobFinishes(s, origin, c, job, job.content);
    assert job.content[|job.content|..] == "";
    NothingIsMeaningless();
  }

  lemma NothingIsMeaningless()
    ensures !IsMeaningful("")
  {
    assert Lines("") == [""];
    assert Trim("") == "";
  }

  // ---------------------------------------------------------------------------
  // Whole runs
  // ---------------------------------------------------------------------------

  /** Nothing is left to do: no snapshot, no marker, no meaningful text. */
  predicate Quiet(s: State) {
    s.pc.Idle? && s.disk.snapshots == [] && s.disk.marker.None? && !IsMeaningful(TextOf(s.disk.plan))
  }

  /** Between runs, with at most text in the plan file. */
  predicate Clean(s: State) {
    s.pc.Idle? && s.disk.snapshots == [] && s.disk.marker.None?
  }

  lemma CleanFinishes(s: State, origin: Origin, c: Choice) returns (t: State)
    requires Inv(s) && Undisturbed(c) && Clean(s)
    ensures Reaches(s, t, origin, c) && Quiet(t)
  {
    var recovering := s.(pc := Recovering(None));
    One(s, recovering, origin, c);
    var reading := s.(pc := ReadPlan(None));
    One(recovering, reading, origin, c);
    Then(s, recovering, reading, origin, c);
    ReachedIsInv(s, reading, origin, c);
    t := UnmarkedFinishes(reading, origin, c);
    Then(s, reading, t, origin, c);
  }

  lemma UnmarkedFinishes(s: State, origin: Origin, c: Choice) returns (t: State)
    requires Inv(s) && Undisturbed(c) && s.pc == ReadPlan(None)
    ensures Reaches(s, t, origin, c) && Quiet(t)
  {
    if s.disk.plan.None? || !IsMeaningful(TextOf(s.disk.plan)) {
      NothingIsMeaningless();
      t := Advance(s, origin, c);
      One(s, t, origin, c);
    } else {
      var next := s.(pc := Fresh(s.disk.plan.value));
      One(s, next, origin, c);
      ReachedIsInv(s, next, origin, c);
      t := FreshFinishes(next, origin, c, s.disk.plan.value);
      Then(s, next, t, origin, c);
    }
  }

  lemma MarkedFinishes(s: State, origin: Origin, c: Choice, m: Marker) returns (t: State)
    requires Inv(s) && Undisturbed(c) && s.pc == ReadPlan(Some(m))
    ensures Reaches(s, t, origin, c) && Clean(t)
  {
    var next := Advance(s, origin, c);
    One(s, next, origin, c);
    ReachedIsInv(s, next, origin, c);
    if s.disk.plan.None? || !IsMeaningful(TextOf(s.disk.plan)) {
      t := Unmark(next, Idle);
      One(next, t, origin, c);
    } else {
      AfterMarker(s, origin, c, m);
      t := MarkedTextFinishes(next, origin, c, s.disk.plan.value);
    }
    Then(s, next, t, origin, c);
  }

  /** Whatever a marker leads to: dropping it, importing again, or removing what it covers. */
  lemma MarkedTextFinishes(s: State, origin: Origin, c: Choice, plan: string) returns (t: State)
    requires Inv(s) && Undisturbed(c) && s.disk.plan == Some(plan)
    requires s.pc.Rename? || (s.pc.Ingesting? && s.pc.done == 0 && s.pc.counters == ZERO) || s.pc == DropStale(plan)
    ensures Reaches(s, t, origin, c) && Clean(t)
  {
    match s.pc
    case Rename(text) =>
      t := State(Disk(Some(plan[|text|..]), [], None), Idle, s.history, s.imported);
      RemovalFinishes(s, origin, c, text, plan, t);
    case Ingesting(job, _, _) => t := JobFinishes(s, origin, c, job, plan);
    case DropStale(_) =>
      var importing := Unmark(s, Fresh(plan));
      One(s, importing, origin, c);
      ReachedIsInv(s, importing, origin, c);
      t := FreshFinishes(importing, origin, c, plan);
      Then(s, importing, t, origin, c);
  }

  /** A snapshot left by a crash is folded back and its marker used up before the plan is read. */
  lemma RecoveryFinishes(s: State, origin: Origin, c: Choice) returns (t: State)
    requires Inv(s) && Undisturbed(c) && s.pc.Recovering? && s.disk.snapshots != []
    ensures Reaches(s, t, origin, c) && t.pc == ReadPlan(None)
  {
    var unlinking := UntilUnlink(s, origin, c);
    ReachedIsInv(s, unlinking, origin, c);
    t := UnlinkedFinishes(unlinking, origin, c, unlinking.pc.marker);
    Then(s, unlinking, t, origin, c);
  }

  lemma UnlinkedFinishes(s: State, origin: Origin, c: Choice, m: Option<Marker>) returns (t: State)
    requires s.pc == UnlinkOld(m, true) && |s.disk.snapshots| == 1
    ensures Reaches(s, t, origin, c) && t.pc == ReadPlan(None)
  {
    var unlinked := s.(disk := s.disk.(snapshots := []), pc := DropUsed);
    assert s.disk.snapshots[1..] == [];
    One(s, unlinked, origin, c);
    var dropped := Unmark(unlinked, Recovering(None));
    One(unlinked, dropped, origin, c);
    Then(s, unlinked, dropped, origin, c);
    t := dropped.(pc := ReadPlan(None));
    One(dropped, t, origin, c);
    Then(s, dropped, t, origin, c);
  }

  lemma UntilUnlink(s: State, origin: Origin, c: Choice) returns (t: State)
    requires Inv(s) && s.pc.Recovering? && s.disk.snapshots != []
    ensures Reaches(s, t, origin, c) && t.pc.UnlinkOld? && |t.disk.snapshots| == 1
  {
    var next := Advance(s, origin, c);
    One(s, next, origin, c);
    if next.pc.UnlinkOld? {
      t := next;
    } else {
      t := Advance(next, origin, c);
      One(next, t, origin, c);
      Then(s, next, t, origin, c);
    }
  }

  /** The machine's steps for the newest snapshot leave the directory that recovering it leaves. */
  lemma NewestRecovers(s: State, origin: Origin, c: Choice) returns (t: State)
    requires s.pc == Recovering(s.disk.marker) && s.disk.snapshots != []
    ensures Reaches(s, t, origin, c)
    ensures t == s.(disk := RecoverNewest(s.disk), pc := Recovering(RecoverNewest(s.disk).marker))
  {
    var m, newest := s.disk.marker, s.disk.snapshots[0];
    var used := Matches(m, newest);
    var restored := s.(disk := s.disk.(plan := Restore(s.disk.plan, TailOf(m, newest))), pc := UnlinkOld(m, used));
    TailRestored(s, restored, origin, c);
    var unlinked := restored.(disk := restored.disk.(snapshots := s.disk.snapshots[1..]),
        pc := if used then DropUsed else Recovering(m));
    One(restored, unlinked, origin, c);
    Then(s, restored, unlinked, origin, c);
    t := unlinked;
    if used {
      t := Unmark(unlinked, Recovering(None));
      One(unlinked, t, origin, c);
      Then(s, unlinked, t, origin, c);
    }
  }

  lemma TailRestored(s: State, t: State, origin: Origin, c: Choice)
    requires s.pc == Recovering(s.disk.marker) && s.disk.snapshots != []
    requires var m, newest := s.disk.marker, s.disk.snapshots[0];
      t == s.(disk := s.disk.(plan := Restore(s.disk.plan, TailOf(m, newest))), pc := UnlinkOld(m, Matches(m, newest)))
    ensures Reaches(s, t, origin, c)
  {
    var m, newest := s.disk.marker, s.disk.snapshots[0];
    if TailOf(m, newest) == "" {
      One(s, t, origin, c);
    } else {
      var next := s.(pc := RestoreOld(m, Matches(m, newest), TailOf(m, newest)));
      One(s, next, origin, c);
      One(next, t, origin, c);
      Then(s, next, t, origin, c);
    }
  }

  /** A run's recovery steps, whatever is on disk, end with the directory that the recovery loop leaves,
      and with its marker. */
  lemma {:induction false} RecoveryStepsAreTheLoop(s: State, origin: Origin, c: Choice)
    requires s.pc == Recovering(s.disk.marker)
    ensures Reaches(s, s.(disk := RecoverAll(s.disk), pc := ReadPlan(RecoverAll(s.disk).marker)), origin, c)
    decreases |s.disk.snapshots|
  {
    if s.disk.snapshots == [] {
      One(s, s.(pc := ReadPlan(s.disk.marker)), origin, c);
    } else {
      var next := NewestRecovers(s, origin, c);
      RecoveryStepsAreTheLoop(next, origin, c);
      Then(s, next, s.(disk := RecoverAll(s.disk), pc := ReadPlan(RecoverAll(s.disk).marker)), origin, c);
    }
  }

  lemma RunFinishes(s: State, origin: Origin, c: Choice) returns (t: State)
    requires Inv(s) && Undisturbed(c) && s.pc.Idle?
    ensures Reaches(s, t, origin, c) && Clean(t)
  {
    var recovering := s.(pc := Recovering(s.disk.marker));
    One(s, recovering, origin, c);
    ReachedIsInv(s, recovering, origin, c);
    var reading: State;
    if s.disk.snapshots != [] {
      reading := RecoveryFinishes(recovering, origin, c);
    } else {
      reading := s.(pc := ReadPlan(s.disk.marker));
      One(recovering, reading, origin, c);
    }
    Then(s, recovering, reading, origin, c);
    ReachedIsInv(s, reading, origin, c);
    if reading.pc.marker.None? {
      t := UnmarkedFinishes(reading, origin, c);
    } else {
      t := MarkedFinishes(reading, origin, c, reading.pc.marker.value);
    }
    Then(s, reading, t, origin, c);
  }

  /** From every reachable state between runs, undisturbed runs reach a quiet state, in which all text
      ever appended is imported except for a remainder without meaning. */
  lemma UndisturbedRunsImportEverything(s: State, origin: Origin, c: Choice) returns (t: State)
    requires Inv(s) && Undisturbed(c) && s.pc.Idle?
    ensures Reaches(s, t, origin, c) && Quiet(t)
    ensures s.history == Retired(t) + TextOf(t.disk.plan) && Covered(Retired(t), t.imported)
  {
    var clean := RunFinishes(s, origin, c);
    ReachedIsInv(s, clean, origin, c);
    t := CleanFinishes(clean, origin, c);
    Then(s, clean, t, origin, c);
    ReachedIsInv(s, t, origin, c);
  }
}
