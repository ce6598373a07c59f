/** Swapping in several index artifacts at once, with backups and roll-back.

    Artifact `i` owns three paths: its target, the temporary file holding its new content, and a
    backup whose name is drawn at random and so is taken to be unused. */
module FaissCommit {
  import opened Options

  type Content = string

  datatype Path = Target(i: nat) | Temp(i: nat) | Backup(i: nat) | Other(name: string)

  /** One file-system call of a commit; each is made at most once. */
  datatype Call = BackUp(i: nat) | Swap(i: nat) | Drop(i: nat) | Undo(i: nat) | Restore(i: nat) | Clean(i: nat)

  /** The three files of one artifact. */
  datatype Slot = Slot(target: Option<Content>, temp: Option<Content>, backup: Option<Content>)

  function Read(files: map<Path, Content>, p: Path): Option<Content> {
    if p in files then Some(files[p]) else None
  }

  function SlotOf(files: map<Path, Content>, i: nat): Slot {
    Slot(Read(files, Target(i)), Read(files, Temp(i)), Read(files, Backup(i)))
  }

  function Slots(files: map<Path, Content>, n: nat): (slots: seq<Slot>)
    ensures |slots| == n && forall i | 0 <= i < n :: slots[i] == SlotOf(files, i)
  {
    seq(n, i requires 0 <= i => SlotOf(files, i))
  }

  predicate Owns(p: Path, n: nat) {
    !p.Other? && p.i < n
  }

  ghost predicate SameElsewhere(files: map<Path, Content>, was: map<Path, Content>, n: nat) {
    forall p | !Owns(p, n) :: Read(files, p) == Read(was, p)
  }

  // ---------------------------------------------------------------------------
  // What a commit does to each artifact, for any set of failing calls
  // ---------------------------------------------------------------------------

  /** The swap loop stops here. */
  predicate Stuck(s: Slot, i: nat, faults: set<Call>) {
    (s.target.Some? && BackUp(i) in faults) || Swap(i) in faults || s.temp.None?
  }

  /** The loop that deletes the backups stops here. */
  predicate Undroppable(s: Slot, i: nat, faults: set<Call>) {
    s.target.Some? && Drop(i) in faults
  }

  function FirstStuck(slots: seq<Slot>, faults: set<Call>): (k: nat)
    ensures k <= |slots| && forall i | 0 <= i < k :: !Stuck(slots[i], i, faults)
    ensures k < |slots| ==> Stuck(slots[k], k, faults)
  {
    if slots == [] then 0
    else
      var k := FirstStuck(slots[..|slots| - 1], faults);
      if k < |slots| - 1 || Stuck(slots[|slots| - 1], |slots| - 1, faults) then k else |slots|
  }

  function FirstUndroppable(slots: seq<Slot>, faults: set<Call>): (k: nat)
    ensures k <= |slots| && forall i | 0 <= i < k :: !Undroppable(slots[i], i, faults)
    ensures k < |slots| ==> Undroppable(slots[k], k, faults)
  {
    if slots == [] then 0
    else
      var k := FirstUndroppable(slots[..|slots| - 1], faults);
      if k < |slots| - 1 || Undroppable(slots[|slots| - 1], |slots| - 1, faults) then k else |slots|
  }

  lemma FirstUndroppableIs(slots: seq<Slot>, faults: set<Call>, k: nat)
    requires k <= |slots| && forall i | 0 <= i < k :: !Undroppable(slots[i], i, faults)
    requires k < |slots| ==> Undroppable(slots[k], k, faults)
    ensures FirstUndroppable(slots, faults) == k
  {
  }

  function WithoutBackup(s: Slot, without: bool): Slot {
    if without then s.(backup := None) else s
  }

  function MovedAway(s: Slot): Slot {
    s.(target := None, backup := s.target)
  }

  function Swapped(s: Slot): Slot {
    Slot(s.temp, None, s.target)
  }

  /** Roll-back of one artifact; a failure here is swallowed and leaves this artifact as it is. */
  function Undone(s: Slot, existed: bool, i: nat, faults: set<Call>): Slot {
    if s.target.Some? && Undo(i) in faults then s
    else if existed && s.backup.Some? && Restore(i) !in faults then s.(target := s.backup, backup := None)
    else s.(target := None)
  }

  function AfterSwaps(s: Slot, i: nat, stuck: nat, faults: set<Call>): Slot {
    if i < stuck then Swapped(s)
    else if i == stuck && !(s.target.Some? && BackUp(i) in faults) then MovedAway(s)
    else s
  }

  /** How many artifacts the roll-back visits: the stuck one only if its old file was moved away. */
  function Recorded(slots: seq<Slot>, faults: set<Call>): (n: nat)
    ensures n <= |slots|
  {
    var k := FirstStuck(slots, faults);
    if k < |slots| && !(slots[k].target.Some? && BackUp(k) in faults) then k + 1 else k
  }

  predicate Succeeds(slots: seq<Slot>, faults: set<Call>) {
    FirstStuck(slots, faults) == |slots| && FirstUndroppable(slots, faults) == |slots|
  }

  /** An artifact after the swaps and, if those all succeeded, the deletion of the backups. */
  function Staged(slots: seq<Slot>, i: nat, faults: set<Call>): Slot
    requires i < |slots|
  {
    var swapped := AfterSwaps(slots[i], i, FirstStuck(slots, faults), faults);
    if FirstStuck(slots, faults) == |slots| && i < FirstUndroppable(slots, faults) then swapped.(backup := None)
    else swapped
  }

  /** An artifact after the roll-back, if there was one, and before the temporaries go. */
  function Settled(slots: seq<Slot>, i: nat, faults: set<Call>): Slot
    requires i < |slots|
  {
    if Succeeds(slots, faults) || i >= Recorded(slots, faults) then Staged(slots, i, faults)
    else Undone(Staged(slots, i, faults), slots[i].target.Some?, i, faults)
  }

  // ---------------------------------------------------------------------------
  // All or nothing
  // ---------------------------------------------------------------------------

  /** The roll-back and the deletion of temporaries meet no failing call. */
  predicate RollsBack(faults: set<Call>) {
    forall c | c in faults :: !c.Undo? && !c.Restore? && !c.Clean?
  }

  predicate NoBackups(slots: seq<Slot>) {
    forall i | 0 <= i < |slots| :: slots[i].backup.None?
  }

  /** A commit succeeds exactly when no swap and no deletion fails; then every target is new. */
  lemma SuccessReplacesEverything(slots: seq<Slot>, faults: set<Call>)
    ensures Succeeds(slots, faults) <==>
      forall i | 0 <= i < |slots| :: !Stuck(slots[i], i, faults) && !Undroppable(slots[i], i, faults)
    ensures Succeeds(slots, faults) ==>
      forall i | 0 <= i < |slots| :: slots[i].temp.Some? && Settled(slots, i, faults) == Slot(slots[i].temp, None, None)
  {
  }

  /** A failing swap undoes the whole commit: every artifact has its old content or its old absence,
      and no backup remains. */
  lemma FailedSwapChangesNothing(slots: seq<Slot>, faults: set<Call>, i: nat)
    requires NoBackups(slots) && RollsBack(faults) && i < |slots|
    requires FirstStuck(slots, faults) < |slots|
    ensures Settled(slots, i, faults).target == slots[i].target && Settled(slots, i, faults).backup == None
  {
  }

  /** With failures in the roll-back too, an artifact is restored exactly when it was never moved or
      none of its own roll-back calls fails; the other artifacts have no say in it. */
  lemma RestoredUnlessItsOwnCallsFail(slots: seq<Slot>, faults: set<Call>, i: nat)
    requires NoBackups(slots) && i < |slots| && FirstStuck(slots, faults) < |slots|
    requires slots[i].temp != slots[i].target
    ensures Settled(slots, i, faults).target == slots[i].target <==>
      || i >= Recorded(slots, faults)
      || !((i < FirstStuck(slots, faults) && Undo(i) in faults) || (slots[i].target.Some? && Restore(i) in faults))
  {
  }

  /** After every swap has succeeded, a backup that cannot be deleted loses the artifacts before it
      that had an old file: their backups are gone and roll-back removes their new content. */
  lemma FailedDeletionLosesEarlierArtifacts(slots: seq<Slot>, faults: set<Call>, i: nat)
    requires NoBackups(slots) && RollsBack(faults) && i < |slots|
    requires FirstStuck(slots, faults) == |slots| && FirstUndroppable(slots, faults) < |slots|
    ensures Settled(slots, i, faults).target ==
      if i < FirstUndroppable(slots, faults) && slots[i].target.Some? then None else slots[i].target
    ensures Settled(slots, i, faults).backup == None
  {
  }

  /** Old content outlives a commit that fails, whatever else fails with it: it is the target, or it is in
      the backup. Only after every swap has succeeded is it lost, for exactly the artifacts whose backups
      were deleted before the one that could not be. */
  lemma OldContentOutlivesFailure(slots: seq<Slot>, faults: set<Call>, i: nat)
    requires NoBackups(slots) && i < |slots| && !Succeeds(slots, faults)
    requires slots[i].target.Some? && slots[i].temp != slots[i].target
    ensures Settled(slots, i, faults).target == slots[i].target || Settled(slots, i, faults).backup == slots[i].target
      <==> !(FirstStuck(slots, faults) == |slots| && i < FirstUndroppable(slots, faults))
  {
  }

  /** A commit that fails leaves an artifact with no old file without a backup, and with its new content
      exactly if that had been swapped in and could not be removed. */
  lemma NewArtifactAfterFailure(slots: seq<Slot>, faults: set<Call>, i: nat)
    requires NoBackups(slots) && i < |slots| && !Succeeds(slots, faults) && slots[i].target.None?
    ensures Settled(slots, i, faults).backup == None
    ensures Settled(slots, i, faults).target ==
      if i < FirstStuck(slots, faults) && Undo(i) in faults then slots[i].temp else None
  {
  }

  predicate AllOld(slots: seq<Slot>, faults: set<Call>) {
    forall i | 0 <= i < |slots| :: Settled(slots, i, faults).target == slots[i].target
  }

  predicate AllNew(slots: seq<Slot>, faults: set<Call>) {
    forall i | 0 <= i < |slots| :: Settled(slots, i, faults).target == slots[i].temp
  }

  /** The exact condition for all or nothing when roll-back itself works: no artifact that had an old
      file precedes the first backup that cannot be deleted. */
  lemma AllOrNothing(slots: seq<Slot>, faults: set<Call>)
    requires NoBackups(slots) && RollsBack(faults)
    ensures (AllOld(slots, faults) || AllNew(slots, faults)) <==>
      || FirstStuck(slots, faults) < |slots|
      || FirstUndroppable(slots, faults) == |slots|
      || (forall i | 0 <= i < FirstUndroppable(slots, faults) :: slots[i].target.None?)
  {
  }

  // ---------------------------------------------------------------------------
  // The file system and the commit as the sidecar runs it
  // ---------------------------------------------------------------------------

  class FileSystem {
    var files: map<Path, Content>
    const faults: set<Call>

    constructor (initial: map<Path, Content>, failing: set<Call>)
      ensures files == initial && faults == failing
    {
      files, faults := initial, failing;
    }

    /** Rename, over whatever is there; fails without effect when told to or when the source is missing. */
    method Replace(source: Path, target: Path, call: Call) returns (ok: bool)
      requires source != target
      modifies this`files
      ensures ok == (call !in faults && source in old(files))
      ensures files == if ok then old(files)[target := old(files)[source]] - {source} else old(files)
    {
      ok := call !in faults && source in files;
      if ok {
        files := files[target := files[source]] - {source};
      }
    }

    method Unlink(p: Path, call: Call) returns (ok: bool)
      modifies this`files
      ensures ok == (call !in faults)
      ensures files == if ok then old(files) - {p} else old(files)
    {
      ok := call !in faults;
      if ok {
        files := files - {p};
      }
    }

    method SwapOne(i: nat) returns (recorded: bool, existed: bool, ok: bool)
      requires Backup(i) !in files
      modifies this`files
      ensures existed == SlotOf(old(files), i).target.Some?
      ensures ok == !Stuck(SlotOf(old(files), i), i, faults)
      ensures recorded == !(existed && BackUp(i) in faults)
      ensures SlotOf(files, i) == AfterSwaps(SlotOf(old(files), i), i, if ok then i + 1 else i, faults)
      ensures forall p | p !in {Target(i), Temp(i), Backup(i)} :: Read(files, p) == Read(old(files), p)
    {
      existed := Target(i) in files;
      if existed {
        recorded := Replace(Target(i), Backup(i), BackUp(i));
        if !recorded {
          return recorded, existed, false;
        }
      }
      recorded := true;
      ok := Replace(Temp(i), Target(i), Swap(i));
    }

    method SwapAll(n: nat) returns (recorded: nat, existed: seq<bool>, ok: bool)
      requires NoBackups(Slots(files, n))
      modifies this`files
      ensures var was := Slots(old(files), n);
        && ok == (FirstStuck(was, faults) == n) && recorded == Recorded(was, faults) == |existed|
        && (forall i | 0 <= i < recorded :: existed[i] == was[i].target.Some?)
        && (forall i | 0 <= i < n :: SlotOf(files, i) == AfterSwaps(was[i], i, FirstStuck(was, faults), faults))
      ensures SameElsewhere(files, old(files), n)
    {
      ghost var was := Slots(files, n);
      recorded, existed, ok := 0, [], true;
      for k := 0 to n
        invariant ok && recorded == k == |existed|
        invariant forall i | 0 <= i < k :: existed[i] == was[i].target.Some? && !Stuck(was[i], i, faults)
        invariant forall i | 0 <= i < n :: SlotOf(files, i) == if i < k then Swapped(was[i]) else was[i]
        invariant SameElsewhere(files, old(files), n)
      {
        assert SlotOf(files, k) == was[k];
        var r, e, swapped := SwapOne(k);
        if r {
          recorded, existed := k + 1, existed + [e];
        }
        if !swapped {
          assert FirstStuck(was, faults) == k;
          return recorded, existed, false;
        }
      }
    }

    method DropBackups(n: nat, existed: seq<bool>) returns (dropped: nat)
      requires |existed| == n
      modifies this`files
      ensures dropped <= n && (dropped < n ==> existed[dropped] && Drop(dropped) in faults)
      ensures forall i | 0 <= i < dropped :: !(existed[i] && Drop(i) in faults)
      ensures forall i | 0 <= i < n ::
                SlotOf(files, i) == WithoutBackup(SlotOf(old(files), i), i < dropped && existed[i])
      ensures SameElsewhere(files, old(files), n)
    {
      for k := 0 to n
        invariant forall i | 0 <= i < k :: !(existed[i] && Drop(i) in faults)
        invariant forall i | 0 <= i < n :: SlotOf(files, i) == WithoutBackup(SlotOf(old(files), i), i < k && existed[i])
        invariant SameElsewhere(files, old(files), n)
      {
        if existed[k] {
          var ok := Unlink(Backup(k), Drop(k));
          if !ok {
            return k;
          }
        }
      }
      dropped := n;
    }

    /** The `try` block: all swaps, then all deletions. */
    method Stage(n: nat) returns (recorded: nat, existed: seq<bool>, ok: bool)
      requires NoBackups(Slots(files, n))
      modifies this`files
      ensures var was := Slots(old(files), n);
        && ok == Succeeds(was, faults) && recorded == Recorded(was, faults) == |existed|
        && (forall i | 0 <= i < recorded :: existed[i] == was[i].target.Some?)
        && (forall i | 0 <= i < n :: SlotOf(files, i) == Staged(was, i, faults))
      ensures SameElsewhere(files, old(files), n)
    {
      ghost var was := Slots(files, n);
      recorded, existed, ok := SwapAll(n);
      if ok {
        var dropped := DropBackups(n, existed);
        assert dropped == FirstUndroppable(was, faults) by {
          FirstUndroppableIs(was, faults, dropped);
        }
        ok := dropped == n;
      }
    }

    method UndoOne(i: nat, existed: bool)
      modifies this`files
      ensures SlotOf(files, i) == Undone(SlotOf(old(files), i), existed, i, faults)
      ensures forall p | p !in {Target(i), Backup(i)} :: Read(files, p) == Read(old(files), p)
    {
      if Target(i) in files {
        var ok := Unlink(Target(i), Undo(i));
        if !ok {
          return;
        }
      }
      if existed && Backup(i) in files {
        var _ := Replace(Backup(i), Target(i), Restore(i));
      }
    }

    method RollBack(n: nat, recorded: nat, existed: seq<bool>)
      requires recorded == |existed| <= n
      modifies this`files
      ensures forall i | 0 <= i < n ::
        SlotOf(files, i) == if i < recorded then Undone(SlotOf(old(files), i), existed[i], i, faults)
            else SlotOf(old(files), i)
      ensures SameElsewhere(files, old(files), n)
    {
      for k := recorded downto 0
        invariant forall i | 0 <= i < n ::
          SlotOf(files, i) == if k <= i < recorded then Undone(SlotOf(old(files), i), existed[i], i, faults)
              else SlotOf(old(files), i)
        invariant SameElsewhere(files, old(files), n)
      {
        UndoOne(k, existed[k]);
      }
    }

    method CleanTemps(n: nat) returns (ok: bool)
      modifies this`files
      ensures ok ==> forall i | 0 <= i < n :: SlotOf(files, i) == SlotOf(old(files), i).(temp := None)
      ensures forall i | 0 <= i < n :: SlotOf(files, i).(temp := None) == SlotOf(old(files), i).(temp := None)
      ensures (forall i | 0 <= i < n :: Temp(i) !in old(files) || Clean(i) !in faults) ==> ok
      ensures SameElsewhere(files, old(files), n)
    {
      for k := 0 to n
        invariant forall i | 0 <= i < n ::
          SlotOf(files, i) == if i < k then SlotOf(old(files), i).(temp := None) else SlotOf(old(files), i)
        invariant SameElsewhere(files, old(files), n)
      {
        if Temp(k) in files {
          assert SlotOf(files, k).temp.Some?;
          ok := Unlink(Temp(k), Clean(k));
          if !ok {
            assert Temp(k) in old(files);
            return;
          }
        }
      }
      ok := true;
    }

    method CommitIndexArtifacts(n: nat) returns (ok: bool)
      requires NoBackups(Slots(files, n))
      modifies this`files
      ensures ok == Succeeds(Slots(old(files), n), faults)
      ensures var was := Slots(old(files), n);
        forall i | 0 <= i < n :: SlotOf(files, i).(temp := None) == Settled(was, i, faults).(temp := None)
      ensures ok || RollsBack(faults) ==> forall i | 0 <= i < n :: SlotOf(files, i).temp == None
      ensures ok ==> forall i | 0 <= i < n :: SlotOf(files, i) == Slot(SlotOf(old(files), i).temp, None, None)
      ensures RollsBack(faults) && FirstStuck(Slots(old(files), n), faults) < n ==>
        forall i | 0 <= i < n :: SlotOf(files, i) == SlotOf(old(files), i).(temp := None)
      ensures SameElsewhere(files, old(files), n)
    {
      var recorded, existed;
      recorded, existed, ok := Stage(n);
      if !ok {
        RollBack(n, recorded, existed);
      }
      ghost var settled := files;
      var cleaned := CleanTemps(n);
      SuccessReplacesEverything(Slots(old(files), n), faults);
      assert ok ==> forall i | 0 <= i < n :: SlotOf(settled, i).temp.None? && Temp(i) !in settled;
      ok := ok && cleaned;
      if RollsBack(faults) && FirstStuck(Slots(old(files), n), faults) < n {
        forall i | 0 <= i < n ensures SlotOf(files, i) == SlotOf(old(files), i).(temp := None) {
          FailedSwapChangesNothing(Slots(old(files), n), faults, i);
        }
      }
    }
  }
}
