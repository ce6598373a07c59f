/** What a writer has to do so that no appended entry is ever mistaken for a tail that is missing. */
module ProtocolWriter {
  import opened Options
  import opened Text
  import opened JoinedLines
  import opened Chunking
  import opened ImportTurns
  import opened SerialIngest
  import opened Marker
  import opened PlanDirectory
  import opened Protocol
  import opened ProtocolSafety

  /** One of two texts starts with the other. */
  predicate Alike(a: string, b: string) {
    a <= b || b <= a
  }

  /** No entry begins like any part at the end of an earlier one. It is not enough that entries differ, or
      that none is a prefix of another: a partial import may stop inside an entry, and the rest of that
      entry is then the tail. */
  predicate Recognisable(entries: seq<string>) {
    forall i, j, k | 0 <= i < j < |entries| && 0 <= k < |entries[i]| && entries[j] != "" ::
      !Alike(entries[i][k..], entries[j])
  }

  lemma {:induction false} FirstEntryDecides(entries: seq<string>, u: string)
    requires u != "" && u <= Concat(entries)
    ensures exists j | 0 <= j < |entries| :: entries[j] != "" && Alike(u, entries[j])
  {
    if entries[0] == "" {
      FirstEntryDecides(entries[1..], u);
      var j :| 0 <= j < |entries[1..]| && entries[1..][j] != "" && Alike(u, entries[1..][j]);
      assert entries[j + 1] != "" && Alike(u, entries[j + 1]);
    } else {
      assert Concat(entries) == entries[0] + Concat(entries[1..]);
      assert Concat(entries)[..|entries[0]|] == entries[0];
      assert Alike(u, entries[0]) by {
        if |u| <= |entries[0]| {
          assert u == Concat(entries)[..|u|] == entries[0][..|u|];
        } else {
          assert entries[0] == u[..|entries[0]|];
        }
      }
    }
  }

  /** A text at the end of some entries starts with the end of one of them. */
  lemma {:induction false} EndStartsInEntry(entries: seq<string>, before: string, tail: string)
    requires Concat(entries) == before + tail && tail != ""
    ensures exists i, k | 0 <= i < |entries| && 0 <= k < |entries[i]| :: entries[i][k..] <= tail
  {
    var first, rest := entries[0], Concat(entries[1..]);
    assert before + tail == first + rest;
    if |before| < |first| {
      assert first[|before|..] == (before + tail)[|before|..|first|] == tail[..|first| - |before|];
      assert entries[0][|before|..] <= tail;
    } else {
      var left := before[|first|..];
      assert rest == (first + rest)[|first|..] == (before + tail)[|first|..] == left + tail;
      EndStartsInEntry(entries[1..], left, tail);
      var i, k :| 0 <= i < |entries[1..]| && 0 <= k < |entries[1..][i]| && entries[1..][i][k..] <= tail;
      assert entries[i + 1][k..] <= tail;
    }
  }

  /** A tail of the entries up to `m` is never completed by the entries from `m` on. */
  lemma TailIsNotRepeated(entries: seq<string>, m: nat, before: string, tail: string)
    requires Recognisable(entries) && m <= |entries|
    requires Concat(entries[..m]) == before + tail && tail != ""
    ensures !(tail <= Concat(entries[m..]))
  {
    EndStartsInEntry(entries[..m], before, tail);
    var i, k :| 0 <= i < m && 0 <= k < |entries[..m][i]| && entries[..m][i][k..] <= tail;
    var u := entries[i][k..];
    assert Unlike(u, entries[m..]) by {
      forall j | 0 <= j < |entries[m..]| && entries[m..][j] != "" ensures !Alike(u, entries[m..][j]) {
        assert entries[m..][j] == entries[m + j];
      }
    }
    UnlikeEntriesDiffer(entries[m..], u);
    PrefixOfPrefix(u, tail, Concat(entries[m..]));
  }

  lemma PrefixOfPrefix(a: string, b: string, c: string)
    requires a <= b
    ensures b <= c ==> a <= c
  {
  }

  predicate Unlike(u: string, entries: seq<string>) {
    forall j | 0 <= j < |entries| && entries[j] != "" :: !Alike(u, entries[j])
  }

  lemma UnlikeEntriesDiffer(entries: seq<string>, u: string)
    requires u != "" && Unlike(u, entries)
    ensures !(u <= Concat(entries))
  {
    if u <= Concat(entries) {
      FirstEntryDecides(entries, u);
      assert false;
    }
  }

  // ---------------------------------------------------------------------------
  // What every step keeps
  // ---------------------------------------------------------------------------

  /** The first `m` entries end with the snapshot, and the plan file holds the others. */
  predicate SplitAt(d: Disk, entries: seq<string>, m: nat) {
    && m <= |entries| && d.snapshots != [] && TextOf(d.plan) == Concat(entries[m..])
    && EndsWith(Concat(entries[..m]), d.snapshots[0])
  }

  ghost predicate WriterOk(d: Disk, entries: seq<string>) {
    TailMissing(d) ==> exists m: nat :: SplitAt(d, entries, m)
  }

  lemma TailOfSnapshot(d: Disk, entries: seq<string>, m: nat) returns (before: string)
    requires SplitAt(d, entries, m)
    ensures Concat(entries[..m]) == before + TailOf(d.marker, d.snapshots[0])
  {
    var all, snapshot, tail := Concat(entries[..m]), d.snapshots[0], TailOf(d.marker, d.snapshots[0]);
    TailEndsSnapshot(d.marker, snapshot);
    before := EndOfEnd(all, snapshot, tail);
  }

  lemma TailEndsSnapshot(m: Option<Marker>, snapshot: string)
    ensures EndsWith(snapshot, TailOf(m, snapshot))
  {
  }

  predicate EndsWith(a: string, b: string) {
    |b| <= |a| && a[|a| - |b|..] == b
  }

  lemma EndOfEnd(a: string, b: string, c: string) returns (before: string)
    requires EndsWith(a, b) && EndsWith(b, c)
    ensures a == before + c
  {
    before := a[..|a| - |c|];
    assert a[|a| - |c|..] == a[|a| - |b|..][|b| - |c|..];
  }

  lemma AppendKeepsWriter(d: Disk, entries: seq<string>, text: string)
    requires WriterOk(d, entries) && Recognisable(entries + [text])
    ensures AppendOk(d, text) && WriterOk(Appended(d, text), entries + [text])
  {
    if TailMissing(d) {
      var m: nat :| SplitAt(d, entries, m);
      var more := entries + [text];
      assert more[..m] == entries[..m] && more[m..] == entries[m..] + [text];
      ConcatAppend(entries[m..], [text]);
      assert Concat([text]) == text + "" == text;
      assert SplitAt(Appended(d, text), more, m);
      var before := TailOfSnapshot(d, entries, m);
      TailIsNotRepeated(more, m, before, TailOf(d.marker, d.snapshots[0]));
    } else if d.snapshots != [] {
      assert TextOf(d.plan) <= TextOf(Appended(d, text).plan);
    }
  }

  lemma StepKeepsWriter(d: Disk, e: Disk, entries: seq<string>, history: string)
    requires WriterOk(d, entries) && LeavesFiles(d, e)
    requires history == Concat(entries) && (d.snapshots == [] ==> exists r :: history == r + TextOf(d.plan))
    ensures WriterOk(e, entries)
  {
    if TailMissing(e) {
      if TextOf(e.plan) == TextOf(d.plan) && e.snapshots == d.snapshots && e.marker == d.marker {
        var m: nat :| SplitAt(d, entries, m);
        assert SplitAt(e, entries, m);
      } else {
        var r :| history == r + TextOf(d.plan);
        assert entries[..|entries|] == entries && entries[|entries|..] == [];
        assert history[|r|..] == TextOf(d.plan);
        assert SplitAt(e, entries, |entries|);
      }
    }
  }

  // ---------------------------------------------------------------------------
  // Whole runs
  // ---------------------------------------------------------------------------

  /** `states` is what `events` lead through from a start, if nothing is assumed about what appended
      texts look like. */
  predicate IsFreeRun(states: seq<State>, origin: Origin, events: seq<Event>) {
    && |states| == |events| + 1
    && Initial(states[0])
    && forall i | 0 <= i < |events| ::
         EventFits(states[i], events[i]) && states[i + 1] == Step(states[i], origin, events[i])
  }

  /** What was in the file at the start, and the texts appended since. */
  function Entries(first: string, events: seq<Event>): seq<string> {
    if events == [] then [first] else Entries(first, events[..|events| - 1]) + [Written(events[|events| - 1])]
  }

  lemma {:induction false} EntriesLength(first: string, events: seq<Event>)
    ensures |Entries(first, events)| == |events| + 1
    ensures forall n | 0 <= n <= |events| :: Entries(first, events[..n]) == Entries(first, events)[..n + 1]
  {
    if events != [] {
      var front := events[..|events| - 1];
      EntriesLength(first, front);
      forall n | 0 <= n <= |events| ensures Entries(first, events[..n]) == Entries(first, events)[..n + 1] {
        if n < |events| {
          assert events[..n] == front[..n];
        } else {
          assert events[..n] == events;
        }
      }
    } else {
      assert events[..0] == events;
    }
  }

  lemma RecognisablePrefix(entries: seq<string>, n: nat)
    requires Recognisable(entries) && n <= |entries|
    ensures Recognisable(entries[..n])
  {
  }

  lemma {:induction false} WriterRun(states: seq<State>, origin: Origin, events: seq<Event>, n: nat)
    requires IsFreeRun(states, origin, events) && n <= |events| && Recognisable(Entries(states[0].history, events))
    ensures Inv(states[n]) && WriterOk(states[n].disk, Entries(states[0].history, events[..n]))
    ensures states[n].history == Concat(Entries(states[0].history, events[..n]))
    ensures n > 0 ==> EventOk(states[n - 1], events[n - 1])
  {
    var first := states[0].history;
    if n == 0 {
      InitialIsInv(states[0]);
      assert Concat([first]) == first + "" == first;
    } else {
      WriterRun(states, origin, events, n - 1);
      EntriesLength(first, events);
      RecognisablePrefix(Entries(first, events), n + 1);
      assert events[..n][..n - 1] == events[..n - 1];
      WriterStep(states[n - 1], states[n], origin, events[n - 1], Entries(first, events[..n - 1]));
    }
  }

  lemma WriterStep(s: State, t: State, origin: Origin, e: Event, entries: seq<string>)
    requires Inv(s) && WriterOk(s.disk, entries) && s.history == Concat(entries)
    requires EventFits(s, e) && t == Step(s, origin, e) && Recognisable(entries + [Written(e)])
    ensures EventOk(s, e) && Inv(t)
    ensures WriterOk(t.disk, entries + [Written(e)]) && t.history == Concat(entries + [Written(e)])
  {
    ConcatAppend(entries, [Written(e)]);
    assert Concat([Written(e)]) == Written(e) + "" == Written(e);
    match e
    case Append(text) =>
      AppendKeepsWriter(s.disk, entries, text);
      StepKeepsInv(s, origin, e);
    case Crash =>
      StepKeepsInv(s, origin, e);
      NothingWritten(s.disk, entries);
      assert s.history + "" == s.history;
    case Run(c) =>
      AdvanceKeepsInv(s, origin, c, t);
      HistoryOfStep(s, origin, e);
      assert s.disk.snapshots == [] ==> s.history == Retired(s) + TextOf(s.disk.plan);
      StepKeepsWriter(s.disk, t.disk, entries, s.history);
      NothingWritten(t.disk, entries);
      assert s.history + "" == s.history;
  }

  lemma NothingWritten(d: Disk, entries: seq<string>)
    requires WriterOk(d, entries)
    ensures WriterOk(d, entries + [""])
  {
    if TailMissing(d) {
      var m: nat :| SplitAt(d, entries, m);
      assert (entries + [""])[..m] == entries[..m] && (entries + [""])[m..] == entries[m..] + [""];
      ConcatAppend(entries[m..], [""]);
      assert Concat([""]) == "" && TextOf(d.plan) + "" == TextOf(d.plan);
      assert SplitAt(d, entries + [""], m);
    }
  }

  /** A writer whose entries are recognisable never completes a copy of a missing tail, so that all
      results about runs hold for it. */
  lemma RecognisableEntriesSuffice(states: seq<State>, origin: Origin, events: seq<Event>)
    requires IsFreeRun(states, origin, events) && Recognisable(Entries(states[0].history, events))
    ensures IsRun(states, origin, events)
  {
    forall i | 0 <= i < |events| ensures EventOk(states[i], events[i]) {
      WriterRun(states, origin, events, i + 1);
    }
  }

  // ---------------------------------------------------------------------------
  // A run in which an entry is lost
  // ---------------------------------------------------------------------------

  /** A run so far in which nothing has been appended, and where it has got to. */
  predicate RunsTo(states: seq<State>, origin: Origin, events: seq<Event>, first: string, s: State) {
    && IsFreeRun(states, origin, events) && AppendedBy(events) == ""
    && states[0].history == first && states[|events|] == s
  }

  ghost predicate Reached(origin: Origin, first: string, s: State) {
    exists states, events :: RunsTo(states, origin, events, first, s)
  }

  lemma Onward(origin: Origin, first: string, s: State, c: Choice, t: State)
    requires Reached(origin, first, s) && c.maxTurnChars >= 1 && Reliable(c.outcome) && t == Advance(s, origin, c)
    ensures Reached(origin, first, t)
  {
    var states, events :| RunsTo(states, origin, events, first, s);
    RunsOn(states, origin, events, first, s, c, t);
  }

  lemma RunsOn(states: seq<State>, origin: Origin, events: seq<Event>, first: string, s: State, c: Choice, t: State)
    requires RunsTo(states, origin, events, first, s)
    requires c.maxTurnChars >= 1 && Reliable(c.outcome) && t == Advance(s, origin, c)
    ensures RunsTo(states + [t], origin, events + [Run(c)], first, t)
  {
    var longer, more := states + [t], events + [Run(c)];
    assert more[..|more| - 1] == events;
    forall i | 0 <= i < |more|
      ensures EventFits(longer[i], more[i]) && longer[i + 1] == Step(longer[i], origin, more[i])
    {
      if i < |events| {
        assert longer[i] == states[i] && longer[i + 1] == states[i + 1] && more[i] == events[i];
      }
    }
  }

  /** Turn limit one, and a batch that takes its turn in or throws. */
  function OneChar(o: BatchOutcome): Choice {
    Choice(1, 0, "", o, o.Returned?)
  }

  const GOOD := OneChar(Returned(None))
  const BAD := OneChar(Threw(None))

  lemma ThreeChunks(s: string)
    requires s == ['x', 'a', 'b']
    ensures Trim(s) == s && ChunksOf(s, 1) == [['x'], ['a'], ['b']]
  {
    TrimFixed(s);
    ChunksAtLimitOne(s);
    PieceAt(s, 0, 1, ['x']);
    PieceAt(s, 1, 2, ['a']);
    PieceAt(s, 2, 3, ['b']);
    var pieces := [['x'], ['a'], ['b']];
    assert Pieces(s, 0, 1) == pieces;
    assert pieces[1..] == [['a'], ['b']] && pieces[1..][1..] == [['b']];
    assert KeepNonBlank([['b']]) == [['b']];
    assert KeepNonBlank([['a'], ['b']]) == [['a'], ['b']];
  }

  lemma MeansSomething(s: string)
    requires s == ['x', 'a', 'b']
    ensures IsMeaningful(s)
  {
    LinesOfOne(s);
    TrimFixed(s);
    assert s in Lines(s) && Trim(s) != "" && !("<!--" <= Trim(s)) by { assert "<!--"[0] == '<'; }
  }

  lemma FileIsRead(origin: Origin, text: string, s: State)
    requires text == ['x', 'a', 'b'] && s == State(Disk(Some(text), [], None), ReadPlan(None), text, {})
    ensures Advance(s, origin, GOOD) == s.(pc := Fresh(text))
  {
    MeansSomething(text);
  }

  lemma FileIsMarked(origin: Origin, text: string, s: State, job: Job, t: State)
    requires s.pc == Fresh(text) && job == FreshJob(text, origin, GOOD) && t == FreshStep(s, job)
    ensures Advance(s, origin, GOOD) == t
    ensures t.pc == Ingesting(job, 0, ZERO) && t.history == s.history
    ensures t.disk.plan == s.disk.plan && t.disk.snapshots == s.disk.snapshots
  {
  }

  lemma RunBegins(origin: Origin, d: Disk, s: State)
    requires s.disk == d && d.snapshots == [] && d.marker.None?
    ensures s.pc == Idle ==> Advance(s, origin, GOOD) == s.(pc := Recovering(None))
    ensures s.pc == Recovering(None) ==> Advance(s, origin, GOOD) == s.(pc := ReadPlan(None))
  {
  }

  lemma Starts(origin: Origin, text: string, s: State)
    requires s == State(Disk(Some(text), [], None), Idle, text, {}) && ByteLength(text) <= MAX_SAFE_INTEGER
    ensures Reached(origin, text, s)
  {
    assert RunsTo([s], origin, [], text, s);
  }

  /** The job of a file that has not been looked at before. */
  lemma JobBegins(origin: Origin, text: string, job: Job) returns (s: State)
    requires text == ['x', 'a', 'b'] && job == FreshJob(text, origin, GOOD)
    ensures Reached(origin, text, s) && s.pc == Ingesting(job, 0, ZERO) && s.history == text
    ensures s.disk.plan == Some(text) && s.disk.snapshots == []
  {
    var s0 := State(Disk(Some(text), [], None), Idle, text, {});
    ShortTextIsSafe(text);
    Starts(origin, text, s0);
    var s1, s2, s3 := s0.(pc := Recovering(None)), s0.(pc := ReadPlan(None)), s0.(pc := Fresh(text));
    RunBegins(origin, s0.disk, s0);
    Onward(origin, text, s0, GOOD, s1);
    RunBegins(origin, s1.disk, s1);
    Onward(origin, text, s1, GOOD, s2);
    FileIsRead(origin, text, s2);
    Onward(origin, text, s2, GOOD, s3);
    s := FreshStep(s3, job);
    FileIsMarked(origin, text, s3, job, s);
    Onward(origin, text, s3, GOOD, s);
  }

  /** How the call ends that has taken in one turn of three. */
  lemma StopsInside(text: string, job: Job, counters: Counters)
    requires text == ['x', 'a', 'b'] && job.content == text && Raws(job.turns) == [['x'], ['a'], ['b']]
    requires counters == Added(ZERO, GOOD.outcome)
    ensures AfterIngest(job, Ending(counters, BAD.outcome)) == WriteProcessed(job, ['x'], true)
  {
    assert Raws(job.turns)[..1] == [['x']];
    assert Concat([['x']]) == ['x'] + "" == ['x'];
    assert ['x'] <= text;
  }

  lemma Remainder(m: Option<Marker>, text: string)
    requires text == ['x', 'a', 'b'] && m.Some? && m.value.processedContent == Some(['x'])
    ensures Matches(m, text) && TailOf(m, text) == ['a', 'b']
  {
    assert text[1..] == ['a', 'b'];
  }

  /** While a tail is missing, an entry that begins like it is taken for it. */
  lemma EntryIsTakenForTail(d: Disk, head: string, tail: string, entry: string)
    requires d.plan.None? && d.snapshots == [head + tail] && tail != "" && tail <= entry
    requires Matches(d.marker, head + tail) && HeadOf(d.marker, head + tail) == head && TailOf(d.marker, head + tail) == tail
    ensures TailMissing(d) && !AppendOk(d, entry) && TextOnDisk(Appended(d, entry)) == head + entry
  {
    assert "" + entry == entry;
  }

  lemma AccountBreaks(t: State, text: string, entry: string)
    requires text == ['x', 'a', 'b'] && entry == ['a', 'b', 'c'] && t.history == text + entry
    requires TextOnDisk(t.disk) == ['x'] + entry
    ensures !Conserved(t)
  {
    assert t.history == ['x', 'a', 'b', 'a', 'b', 'c'] && TextOnDisk(t.disk) == ['x', 'a', 'b', 'c'];
    assert (Retired(t) + TextOnDisk(t.disk))[2] == 'x';
  }

  /** After the rotation the rest of the entry is missing, and an entry that begins like it is taken for
      it: the append condition fails, and the account of text breaks. */
  lemma RestIsMistaken(s: State, text: string, entry: string)
    requires text == ['x', 'a', 'b'] && entry == ['a', 'b', 'c'] && s.history == text
    requires s.disk.plan.None? && s.disk.snapshots == [text]
    requires s.disk.marker.Some? && s.disk.marker.value.processedContent == Some(['x'])
    ensures TailMissing(s.disk) && !AppendOk(s.disk, entry)
    ensures !Conserved(s.(disk := Appended(s.disk, entry), history := text + entry))
  {
    var head, tail: string := ['x'], ['a', 'b'];
    Remainder(s.disk.marker, text);
    assert text == head + tail && tail <= entry;
    EntryIsTakenForTail(s.disk, head, tail, entry);
    AccountBreaks(s.(disk := Appended(s.disk, entry), history := text + entry), text, entry);
  }

  lemma TurnIsTaken(origin: Origin, s: State, job: Job, t: State)
    requires s.pc == Ingesting(job, 0, ZERO) && |job.turns| == 3
    requires t == IngestStep(s, job, 0, ZERO, GOOD.outcome, true)
    ensures Advance(s, origin, GOOD) == t
    ensures t.disk == s.disk && t.history == s.history
    ensures t.pc == Ingesting(job, 1, Added(ZERO, GOOD.outcome))
  {
  }

  lemma TurnThrows(origin: Origin, text: string, s: State, job: Job, counters: Counters, t: State)
    requires s.pc == Ingesting(job, 1, counters) && counters == Added(ZERO, GOOD.outcome)
    requires text == ['x', 'a', 'b'] && job.content == text && Raws(job.turns) == [['x'], ['a'], ['b']]
    requires t == IngestStep(s, job, 1, counters, BAD.outcome, false)
    ensures Advance(s, origin, BAD) == t
    ensures t.disk == s.disk && t.history == s.history && t.pc == WriteProcessed(job, ['x'], true)
  {
    StopsInside(text, job, counters);
  }

  /** The first turn is taken in, and the second throws. */
  lemma Stops(origin: Origin, text: string, s: State, job: Job) returns (t: State)
    requires Reached(origin, text, s) && s.pc == Ingesting(job, 0, ZERO)
    requires text == ['x', 'a', 'b'] && job.content == text && Raws(job.turns) == [['x'], ['a'], ['b']]
    ensures Reached(origin, text, t) && t.disk == s.disk && t.history == s.history
    ensures t.pc == WriteProcessed(job, ['x'], true)
  {
    var counters := Added(ZERO, GOOD.outcome);
    var next := IngestStep(s, job, 0, ZERO, GOOD.outcome, true);
    TurnIsTaken(origin, s, job, next);
    Onward(origin, text, s, GOOD, next);
    t := IngestStep(next, job, 1, counters, BAD.outcome, false);
    TurnThrows(origin, text, next, job, counters, t);
    Onward(origin, text, next, BAD, t);
  }

  lemma Marked(origin: Origin, s: State, job: Job, m: State)
    requires s.pc == WriteProcessed(job, ['x'], true) && GoodTurns(job.turns)
    requires m == Mark(s, Processed, ['x'], job, Rename(['x']))
    ensures Advance(s, origin, GOOD) == m && m.pc == Rename(['x']) && m.history == s.history
    ensures m.disk.plan == s.disk.plan && m.disk.snapshots == s.disk.snapshots
    ensures m.disk.marker.Some? && m.disk.marker.value.processedContent == Some(['x'])
  {
    ShortTextIsSafe(['x']);
    WrittenMarkerReadsBack(Processed, ['x'], job.processedAt, job.reason, job.turns);
  }

  lemma IsRenamed(origin: Origin, text: string, m: State, t: State)
    requires m.pc == Rename(['x']) && t == RenameStep(m, ['x']) && m.disk.plan == Some(text) && m.disk.snapshots == []
    ensures Advance(m, origin, GOOD) == t && t.history == m.history
    ensures t.disk == Disk(None, [text], m.disk.marker)
  {
    assert [text] + [] == [text];
  }

  lemma Rotates(origin: Origin, text: string, s: State, job: Job) returns (t: State)
    requires Reached(origin, text, s) && s.history == text
    requires s.pc == WriteProcessed(job, ['x'], true) && GoodTurns(job.turns)
    requires s.disk.plan == Some(text) && s.disk.snapshots == []
    ensures Reached(origin, text, t) && t.history == text
    ensures t.disk.plan.None? && t.disk.snapshots == [text]
    ensures t.disk.marker.Some? && t.disk.marker.value.processedContent == Some(['x'])
  {
    var m := Mark(s, Processed, ['x'], job, Rename(['x']));
    Marked(origin, s, job, m);
    Onward(origin, text, s, GOOD, m);
    t := RenameStep(m, ['x']);
    IsRenamed(origin, text, m, t);
    Onward(origin, text, m, GOOD, t);
  }

  lemma PartlyImported(origin: Origin, text: string) returns (s: State)
    requires text == ['x', 'a', 'b']
    ensures Reached(origin, text, s) && s.history == text
    ensures s.disk.plan.None? && s.disk.snapshots == [text]
    ensures s.disk.marker.Some? && s.disk.marker.value.processedContent == Some(['x'])
  {
    var job := FreshJob(text, origin, GOOD);
    ThreeChunks(text);
    FreshRaws(text, origin, Iso(0), "", 1);
    ShortTextIsSafe(text);
    assert !Blank(text) by { assert text[0] == 'x'; }
    FreshTurnsAreGood(text, origin, Iso(0), "", 1);
    s := JobBegins(origin, text, job);
    s := Stops(origin, text, s, job);
    s := Rotates(origin, text, s, job);
  }

  /** Entries of which none is a prefix of another are not enough. From a start with the entry "xab", and
      with no append on the way, an import stops after "x" and the file is rotated; the different entry
      "abc" then completes a copy of what is left, and the text "ab" is lost. */
  lemma PrefixFreeIsNotEnough(origin: Origin) returns (states: seq<State>, events: seq<Event>)
    ensures IsFreeRun(states, origin, events) && AppendedBy(events) == ""
    ensures states[0].history == "xab" && !Alike("xab", "abc")
    ensures
      var last := states[|events|];
      && EventFits(last, Append("abc"))
      && TailMissing(last.disk) && !AppendOk(last.disk, "abc")
      && !Conserved(Step(last, origin, Append("abc")))
  {
    var text: string, entry: string := ['x', 'a', 'b'], ['a', 'b', 'c'];
    var s := PartlyImported(origin, text);
    states, events :| RunsTo(states, origin, events, text, s);
    ShortTextIsSafe(text + entry);
    RestIsMistaken(s, text, entry);
  }
}
