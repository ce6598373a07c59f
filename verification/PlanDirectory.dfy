/** The files around a flush plan, and putting a tail back in front of text that keeps arriving. */
module PlanDirectory {
  import opened Options
  import opened Text
  import opened Marker

  /** What is on disk: the plan file, the cleanup snapshots newest first, and the marker. */
  datatype Disk = Disk(plan: Option<string>, snapshots: seq<string>, marker: Option<Marker>)

  function TextOf(file: Option<string>): string {
    if file.Some? then file.value else ""
  }

  // ---------------------------------------------------------------------------
  // Reconciling contents
  // ---------------------------------------------------------------------------

  /** The new contents, or `None` when nothing has to be written. */
  function Reconcile(existing: string, preserved: string): Option<string> {
    if preserved == "" || preserved <= existing then None else Some(preserved + existing)
  }

  function Reconciled(existing: string, preserved: string): string {
    match Reconcile(existing, preserved)
    case None => existing
    case Some(text) => text
  }

  /** Reconciling twice is reconciling once, and the result keeps both texts at its two ends. */
  lemma ReconcileIsIdempotent(existing: string, preserved: string)
    ensures var r := Reconciled(existing, preserved);
      && Reconciled(r, preserved) == r
      && preserved <= r
      && |existing| <= |r| && r[|r| - |existing|..] == existing
  {
    assert preserved + existing == Reconciled(existing, preserved) || existing == Reconciled(existing, preserved);
  }

  /** The tail is put in front exactly when the file does not already start with it. */
  lemma ReconcileRestoresExactly(existing: string, preserved: string)
    ensures Reconciled(existing, preserved) == preserved + existing <==> preserved == "" || !(preserved <= existing)
  {
    if preserved != "" && preserved <= existing {
      assert |Reconciled(existing, preserved)| < |preserved + existing|;
    } else if preserved == "" {
      assert preserved + existing == existing;
    }
  }

  /** Restoring and appending commute, unless the append completes a copy of the tail. */
  lemma RestoreAndAppendCommute(existing: string, preserved: string, more: string)
    ensures Reconciled(existing + more, preserved) == Reconciled(existing, preserved) + more <==>
            preserved == "" || preserved <= existing || !(preserved <= existing + more)
  {
    if preserved != "" && !(preserved <= existing) {
      assert preserved + (existing + more) == preserved + existing + more;
      if preserved <= existing + more {
        assert |existing + more| < |preserved + existing + more|;
      }
    } else if preserved <= existing {
      assert preserved <= existing + more;
    }
  }

  // ---------------------------------------------------------------------------
  // The file-level routine, with a writer that appends between its file operations
  // ---------------------------------------------------------------------------

  /** `after` is `before` and the first one, two or three of what the writer did. */
  predicate UpToLast(before: string, w2: Option<string>, w3: Option<string>, w4: Option<string>, after: string) {
    var a2 := before + TextOf(w2);
    var a3 := a2 + TextOf(w3);
    after == a2 || after == a3 || after == a3 + TextOf(w4)
  }

  class PlanFile {
    var content: Option<string>
    /** Everything that was in the file or has been appended to it since. */
    ghost var arrived: string

    constructor (initial: Option<string>)
      ensures content == initial && arrived == TextOf(initial)
    {
      content := initial;
      arrived := TextOf(initial);
    }

    /** Whatever the writer does before the next file operation: nothing, or an append by path, which
        creates the file when it is absent. */
    method Arrive(w: Option<string>)
      modifies this
      ensures arrived == old(arrived) + TextOf(w)
      ensures content == if w.None? then old(content) else Some(TextOf(old(content)) + w.value)
    {
      assert w.None? ==> arrived + TextOf(w) == arrived;
      if w.Some? {
        content := Some(TextOf(content) + w.value);
      }
      arrived := arrived + TextOf(w);
    }

    /** Exclusive create: fails when the file exists. */
    method CreateExclusive(text: string) returns (created: bool)
      modifies this`content
      ensures created == old(content).None?
      ensures content == if created then Some(text) else old(content)
    {
      created := content.None?;
      if created {
        content := Some(text);
      }
    }

    /** Put `preserved` back in front while the writer appends `w0`..`w4` before the file operations;
        the last read and the overwrite after it are one operation. The file ends up with exactly
        what had arrived when that read was made, reconciled. */
    method ReconcileReplacement(preserved: string, w0: Option<string>, w1: Option<string>, w2: Option<string>,
        w3: Option<string>, w4: Option<string>)
      returns (result: string)
      requires TextOf(content) == arrived
      modifies this
      ensures result == TextOf(content) == Reconciled(arrived, preserved)
      ensures
        var a0 := old(arrived) + TextOf(w0);
        var a1 := a0 + TextOf(w1);
        arrived == a0 || arrived == a1 || UpToLast(a1, w2, w3, w4, arrived)
    {
      Arrive(w0);
      var initial := TextOf(content);
      if Reconcile(initial, preserved).None? {
        return initial;
      }
      Arrive(w1);
      if initial == "" {
        var created := CreateExclusive(preserved + initial);
        if created {
          assert arrived == "" && preserved + "" == preserved;
          return preserved;
        }
      }
      result := ReconcileLatest(preserved, w2, w3, w4);
    }

    method ReconcileLatest(preserved: string, w2: Option<string>, w3: Option<string>, w4: Option<string>)
      returns (result: string)
      requires TextOf(content) == arrived && preserved != ""
      modifies this
      ensures result == TextOf(content) == Reconciled(arrived, preserved)
      ensures UpToLast(old(arrived), w2, w3, w4, arrived)
    {
      Arrive(w2);
      var latest := TextOf(content);
      if Reconcile(latest, preserved).None? {
        return latest;
      }
      if latest != "" {
        content := Reconcile(latest, preserved);
        return content.value;
      }
      Arrive(w3);
      var created := CreateExclusive(preserved + latest);
      if created {
        assert arrived == "" && preserved + "" == preserved;
        return preserved;
      }
      Arrive(w4);
      var found := TextOf(content);
      if Reconcile(found, preserved).Some? {
        content := Reconcile(found, preserved);
      }
      result := Reconciled(found, preserved);
    }
  }

  // ---------------------------------------------------------------------------
  // Recovering cleanup snapshots
  // ---------------------------------------------------------------------------

  /** Does this marker cover a prefix of the snapshot? */
  predicate Matches(m: Option<Marker>, snapshot: string) {
    && m.Some? && m.value.processedContent.Some? && m.value.processedContent.value != ""
    && m.value.processedContent.value <= snapshot
  }

  /** The part of a snapshot that has to go back into the plan file. */
  function TailOf(m: Option<Marker>, snapshot: string): string {
    if Matches(m, snapshot) then Rest(snapshot, |m.value.processedContent.value|) else snapshot
  }

  function Restore(plan: Option<string>, tail: string): Option<string> {
    if tail == "" then plan else Some(Reconciled(TextOf(plan), tail))
  }

  /** Recovery of the newest snapshot: restore, unlink, and drop the marker if it was used up. */
  function RecoverNewest(d: Disk): Disk
    requires d.snapshots != []
  {
    var newest := d.snapshots[0];
    Disk(
      Restore(d.plan, TailOf(d.marker, newest)),
      d.snapshots[1..],
      if Matches(d.marker, newest) then None else d.marker)
  }

  function RecoverAll(d: Disk): Disk
    decreases |d.snapshots|
  {
    if d.snapshots == [] then d else RecoverAll(RecoverNewest(d))
  }

  class FlushPlanDirectory {
    var plan: Option<string>
    var snapshots: seq<string>
    var marker: Option<Marker>

    function Files(): Disk
      reads this
    {
      Disk(plan, snapshots, marker)
    }

    /** The recovery loop, newest snapshot first, when nobody else writes. */
    method RecoverInterruptedCleanupSnapshots() returns (removedProcessedMarker: bool)
      modifies this
      ensures Files() == RecoverAll(old(Files()))
      ensures removedProcessedMarker <==> marker != old(marker)
    {
      removedProcessedMarker := false;
      while snapshots != []
        invariant RecoverAll(Files()) == RecoverAll(old(Files()))
        invariant marker == (if removedProcessedMarker then None else old(marker))
        invariant removedProcessedMarker ==> old(marker).Some?
        decreases |snapshots|
      {
        var newest := snapshots[0];
        if Matches(marker, newest) {
          plan := Restore(plan, newest[|marker.value.processedContent.value|..]);
          snapshots := snapshots[1..];
          marker, removedProcessedMarker := None, true;
        } else {
          plan := Restore(plan, newest);
          snapshots := snapshots[1..];
        }
      }
    }
  }

  /** The snapshots in the order they were taken, then the file. */
  function InOrder(snapshots: seq<string>, plan: string): string {
    if snapshots == [] then plan else InOrder(snapshots[1..], snapshots[0] + plan)
  }

  /** No snapshot is repeated verbatim by the text that follows it. */
  predicate NoneRepeated(snapshots: seq<string>, plan: string) {
    snapshots != [] ==>
      && (snapshots[0] == "" || !(snapshots[0] <= plan))
      && NoneRepeated(snapshots[1..], snapshots[0] + plan)
  }

  lemma {:induction false} OrderLength(snapshots: seq<string>, a: string, b: string)
    requires |a| <= |b|
    ensures |InOrder(snapshots, a)| <= |InOrder(snapshots, b)|
    ensures |a| < |b| ==> |InOrder(snapshots, a)| < |InOrder(snapshots, b)|
    decreases snapshots
  {
    if snapshots != [] {
      OrderLength(snapshots[1..], snapshots[0] + a, snapshots[0] + b);
    }
  }

  /** `content` stands at the front of the snapshot at `k`, and of none before it, which are newer. */
  predicate FirstMarked(snapshots: seq<string>, content: string, k: nat) {
    k < |snapshots| && content <= snapshots[k] && forall i | 0 <= i < k :: !(content <= snapshots[i])
  }

  /** The marker's text, if the marker has any. */
  function MarkedText(m: Option<Marker>): string {
    if m.Some? && m.value.processedContent.Some? then m.value.processedContent.value else ""
  }

  /** The parts of the snapshots that have not been processed: the newest snapshot that begins with the
      marker's text has lost it, and all others are whole. */
  predicate UnprocessedParts(snapshots: seq<string>, content: string, parts: seq<string>) {
    && |parts| == |snapshots|
    && forall i | 0 <= i < |snapshots| ::
         parts[i] == if content != "" && FirstMarked(snapshots, content, i) then snapshots[i][|content|..] else snapshots[i]
  }

  /** Which snapshot the marker is used for, seen from the next older one. */
  lemma MarkedNext(snapshots: seq<string>, content: string, k: nat)
    requires snapshots != [] && !(content <= snapshots[0]) && k < |snapshots| - 1
    ensures FirstMarked(snapshots, content, k + 1) <==> FirstMarked(snapshots[1..], content, k)
  {
    if FirstMarked(snapshots[1..], content, k) {
      forall i | 0 <= i < k + 1 ensures !(content <= snapshots[i]) {
        if i > 0 { assert snapshots[i] == snapshots[1..][i - 1]; }
      }
    }
    if FirstMarked(snapshots, content, k + 1) {
      forall i | 0 <= i < k ensures !(content <= snapshots[1..][i]) {
        assert snapshots[1..][i] == snapshots[i + 1];
      }
    }
  }

  /** The parts of the older snapshots are those of the directory that recovering the newest leaves. */
  lemma PartsNext(d: Disk, parts: seq<string>)
    requires d.snapshots != [] && UnprocessedParts(d.snapshots, MarkedText(d.marker), parts)
    ensures parts[0] == TailOf(d.marker, d.snapshots[0])
    ensures UnprocessedParts(d.snapshots[1..], MarkedText(RecoverNewest(d).marker), parts[1..])
  {
    var content, rest := MarkedText(d.marker), d.snapshots[1..];
    forall i | 0 <= i < |rest|
      ensures parts[1..][i] ==
        if !Matches(d.marker, d.snapshots[0]) && content != "" && FirstMarked(rest, content, i)
        then rest[i][|content|..] else rest[i]
    {
      if content != "" && !(content <= d.snapshots[0]) {
        MarkedNext(d.snapshots, content, i);
      }
    }
  }

  lemma {:induction false} RecoveredLength(d: Disk, parts: seq<string>)
    requires UnprocessedParts(d.snapshots, MarkedText(d.marker), parts)
    ensures |TextOf(RecoverAll(d).plan)| <= |InOrder(parts, TextOf(d.plan))|
    decreases |d.snapshots|
  {
    if d.snapshots != [] {
      PartsNext(d, parts);
      RecoveredLength(RecoverNewest(d), parts[1..]);
      OrderLength(parts[1..], TextOf(RecoverNewest(d).plan), parts[0] + TextOf(d.plan));
    }
  }

  /** Whatever the marker, recovery leaves oldest through newest followed by the file, without the
      marker's text at the front of the one snapshot it is used for, if and only if no part put back is
      repeated verbatim by what follows it. */
  lemma {:induction false} RecoveryKeepsOrder(d: Disk, parts: seq<string>)
    requires UnprocessedParts(d.snapshots, MarkedText(d.marker), parts)
    ensures RecoverAll(d).snapshots == []
    ensures TextOf(RecoverAll(d).plan) == InOrder(parts, TextOf(d.plan)) <==> NoneRepeated(parts, TextOf(d.plan))
    decreases |d.snapshots|
  {
    if d.snapshots != [] {
      PartsNext(d, parts);
      RecoveryKeepsOrder(RecoverNewest(d), parts[1..]);
      OneMoreInOrder(d, parts);
    }
  }

  lemma OneMoreInOrder(d: Disk, parts: seq<string>)
    requires d.snapshots != [] && UnprocessedParts(d.snapshots, MarkedText(d.marker), parts)
    requires UnprocessedParts(d.snapshots[1..], MarkedText(RecoverNewest(d).marker), parts[1..])
    requires parts[0] == TailOf(d.marker, d.snapshots[0])
    requires var next := RecoverNewest(d);
      TextOf(RecoverAll(next).plan) == InOrder(parts[1..], TextOf(next.plan)) <==>
      NoneRepeated(parts[1..], TextOf(next.plan))
    ensures TextOf(RecoverAll(d).plan) == InOrder(parts, TextOf(d.plan)) <==> NoneRepeated(parts, TextOf(d.plan))
  {
    var p, e := parts[0], TextOf(d.plan);
    if p == "" {
      assert p + e == e;
    } else if p <= e {
      RecoveredLength(RecoverNewest(d), parts[1..]);
      OrderLength(parts[1..], e, p + e);
    }
  }

  /** There is always one list of such parts. */
  lemma PartsExist(snapshots: seq<string>, content: string) returns (parts: seq<string>)
    ensures UnprocessedParts(snapshots, content, parts)
  {
    parts := seq(|snapshots|, i requires 0 <= i < |snapshots| =>
      if content != "" && FirstMarked(snapshots, content, i) then snapshots[i][|content|..] else snapshots[i]);
  }

  /** The marker goes exactly when some snapshot begins with its text. */
  lemma {:induction false} MarkerIsUsedUp(d: Disk)
    ensures var content := MarkedText(d.marker);
      RecoverAll(d).marker ==
        if content != "" && (exists k :: 0 <= k < |d.snapshots| && content <= d.snapshots[k]) then None else d.marker
    decreases |d.snapshots|
  {
    if d.snapshots != [] {
      var content, rest := MarkedText(d.marker), d.snapshots[1..];
      MarkerIsUsedUp(RecoverNewest(d));
      assert forall k | 0 < k < |d.snapshots| :: d.snapshots[k] == rest[k - 1];
      assert forall k | 0 <= k < |rest| :: rest[k] == d.snapshots[k + 1];
    }
  }

  /** A recovery stopped after `k` snapshots, or after restoring the tail of the next one. */
  function Stopped(d: Disk, k: nat, halfway: bool): Disk
    decreases k
  {
    if d.snapshots == [] then d
    else if k > 0 then Stopped(RecoverNewest(d), k - 1, halfway)
    else if halfway then d.(plan := Restore(d.plan, TailOf(d.marker, d.snapshots[0])))
    else d
  }

  /** Stopping anywhere but before a used marker is dropped, and running again, reaches the same directory. */
  lemma {:induction false} RecoveryRestarts(d: Disk, k: nat, halfway: bool)
    ensures RecoverAll(Stopped(d, k, halfway)) == RecoverAll(d)
    decreases k
  {
    if d.snapshots != [] {
      if k > 0 {
        RecoveryRestarts(RecoverNewest(d), k - 1, halfway);
      } else if halfway {
        ReconcileIsIdempotent(TextOf(d.plan), TailOf(d.marker, d.snapshots[0]));
        assert RecoverNewest(Stopped(d, k, halfway)) == RecoverNewest(d);
      }
    }
  }

  /** The newest snapshot is restored and unlinked, and the run stops before it drops the marker. */
  function Unlinked(d: Disk): Disk
    requires d.snapshots != []
  {
    d.(plan := Restore(d.plan, TailOf(d.marker, d.snapshots[0])), snapshots := d.snapshots[1..])
  }

  predicate Covers(content: string, snapshots: seq<string>) {
    exists k :: 0 <= k < |snapshots| && content <= snapshots[k]
  }

  lemma {:induction false} UncoveredRecovery(d: Disk)
    requires d.marker.Some? && !Covers(MarkedText(d.marker), d.snapshots)
    ensures RecoverAll(d) == RecoverAll(d.(marker := None)).(marker := d.marker)
    decreases |d.snapshots|
  {
    if d.snapshots != [] {
      assert !(MarkedText(d.marker) <= d.snapshots[0]);
      forall k | 0 <= k < |d.snapshots[1..]| ensures !(MarkedText(d.marker) <= d.snapshots[1..][k]) {
        assert d.snapshots[1..][k] == d.snapshots[k + 1];
      }
      UncoveredRecovery(RecoverNewest(d));
      assert RecoverNewest(d.(marker := None)) == RecoverNewest(d).(marker := None);
    }
  }

  /** Stopping between the unlink and the removal of the marker: running again reaches the same files,
      with the marker still there, if and only if no older snapshot begins with the marker's text too.
      Otherwise the marker is used a second time. */
  lemma RestartAfterUnlink(d: Disk)
    requires d.snapshots != [] && Matches(d.marker, d.snapshots[0])
    ensures RecoverAll(Unlinked(d)) == RecoverAll(d).(marker := d.marker) <==>
      !Covers(d.marker.value.processedContent.value, d.snapshots[1..])
  {
    var u := Unlinked(d);
    MarkerIsUsedUp(u);
    if !Covers(MarkedText(d.marker), d.snapshots[1..]) {
      UncoveredRecovery(u);
      assert u.(marker := None) == RecoverNewest(d);
    }
  }

  /** The failing input: two snapshots with the same text in front. */
  lemma MarkerIsUsedTwice(m: Marker)
    requires m.processedContent == Some("a")
    ensures var d := Disk(None, ["ab", "ac"], Some(m));
      && RecoverAll(d) == Disk(Some("acb"), [], None)
      && RecoverAll(Unlinked(d)) == Disk(Some("cb"), [], None)
  {
    var d := Disk(None, ["ab", "ac"], Some(m));
    var left := Disk(Some("b"), ["ac"], None);
    assert RecoverNewest(d) == left by {
      assert "ab"[1..] == "b" && "b" + "" == "b";
    }
    assert RecoverNewest(left) == Disk(Some("acb"), [], None) by {
      assert "ac" + "b" == "acb";
    }
    var again := Disk(Some("b"), ["ac"], Some(m));
    assert Unlinked(d) == again;
    assert RecoverNewest(again) == Disk(Some("cb"), [], None) by {
      assert Matches(Some(m), "ac") && TailOf(Some(m), "ac") == "c";
      assert "c"[0] != "b"[0] && "c" + "b" == "cb";
    }
  }
}
