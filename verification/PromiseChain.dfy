/** The promise chains that serialise flush-plan runs per key.

    A chain map is an object shared through a global; a registration keeps using the map it found or
    made, even after a stop has dropped the global. */
module PromiseChain {
  import opened Options

  datatype Status = Waiting | Running | Settled

  /** A queued run: the map and key it was queued under, the run it chains on, and whether its caller
      has stopped waiting because the deadline passed. */
  datatype Task = Task(home: nat, key: string, prev: Option<nat>, status: Status, callerReleased: bool)

  datatype Host = Host(tasks: seq<Task>, maps: seq<map<string, nat>>, current: Option<nat>)

  predicate Same(a: Task, b: Task) {
    a.home == b.home && a.key == b.key
  }

  function TailOf(h: Host, home: nat, key: string): Option<nat> {
    if home < |h.maps| && key in h.maps[home] then Some(h.maps[home][key]) else None
  }

  function Registered(h: Host): Host {
    if h.current.Some? then h else h.(maps := h.maps + [map[]], current := Some(|h.maps|))
  }

  function Enqueued(h: Host, home: nat, key: string): Host
    requires home < |h.maps|
  {
    var id: nat := |h.tasks|;
    var chains: map<string, nat> := h.maps[home][key := id];
    h.(tasks := h.tasks + [Task(home, key, TailOf(h, home, key), Waiting, false)],
       maps := h.maps[home := chains])
  }

  predicate CanBegin(h: Host, i: nat) {
    && i < |h.tasks| && h.tasks[i].status.Waiting?
    && (h.tasks[i].prev.Some? ==> h.tasks[i].prev.value < |h.tasks| && h.tasks[h.tasks[i].prev.value].status.Settled?)
  }

  function WithStatus(h: Host, i: nat, s: Status): Host
    requires i < |h.tasks|
  {
    h.(tasks := h.tasks[i := h.tasks[i].(status := s)])
  }

  /** The `finally` of a settled run: forget the chain if nothing was queued behind it. */
  function CleanedUp(h: Host, i: nat): Host
    requires i < |h.tasks| && h.tasks[i].home < |h.maps|
  {
    var t := h.tasks[i];
    if TailOf(h, t.home, t.key) == Some(i) then h.(maps := h.maps[t.home := h.maps[t.home] - {t.key}]) else h
  }

  /** A stop by a registration that uses `home`: it looks at its own map and deletes the global. */
  function Stopped(h: Host, home: nat): Host
    requires home < |h.maps|
  {
    if h.maps[home] == map[] then h.(current := None) else h
  }

  function Released(h: Host, i: nat): Host
    requires i < |h.tasks|
  {
    h.(tasks := h.tasks[i := h.tasks[i].(callerReleased := true)])
  }

  datatype Event =
    | Register
    | Enqueue(home: nat, key: string)
    | Begin(id: nat)
    | Settle(id: nat)
    | CleanUp(id: nat)
    | TimeOut(id: nat)
    | Stop(home: nat)

  predicate Enabled(h: Host, e: Event) {
    match e
    case Register => true
    case Enqueue(home, _) => home < |h.maps|
    case Begin(i) => CanBegin(h, i)
    case Settle(i) => i < |h.tasks| && h.tasks[i].status.Running?
    case CleanUp(i) => i < |h.tasks| && h.tasks[i].status.Settled? && h.tasks[i].home < |h.maps|
    case TimeOut(i) => i < |h.tasks|
    case Stop(home) => home < |h.maps|
  }

  function Step(h: Host, e: Event): Host
    requires Enabled(h, e)
  {
    match e
    case Register => Registered(h)
    case Enqueue(home, key) => Enqueued(h, home, key)
    case Begin(i) => WithStatus(h, i, Running)
    case Settle(i) => WithStatus(h, i, Settled)
    case CleanUp(i) => CleanedUp(h, i)
    case TimeOut(i) => Released(h, i)
    case Stop(home) => Stopped(h, home)
  }

  // ---------------------------------------------------------------------------
  // Invariant
  // ---------------------------------------------------------------------------

  /** A run that has begun leaves no earlier run of its key unfinished. */
  predicate InOrder(tasks: seq<Task>) {
    forall i, j | 0 <= i < j < |tasks| && Same(tasks[i], tasks[j]) && !tasks[j].status.Waiting? ::
      tasks[i].status.Settled?
  }

  /** A run chains on the last run queued before it, or found the earlier ones all settled. */
  predicate Chained(tasks: seq<Task>) {
    forall i, j | 0 <= i < j < |tasks| && Same(tasks[i], tasks[j]) ::
      match tasks[j].prev
      case None => tasks[i].status.Settled?
      case Some(p) => i <= p < j && Same(tasks[p], tasks[j])
  }

  /** Every unsettled run is covered by its key's entry, which names the last run queued. */
  predicate TailsOk(h: Host) {
    forall i | 0 <= i < |h.tasks| ::
      match TailOf(h, h.tasks[i].home, h.tasks[i].key)
      case None => h.tasks[i].status.Settled?
      case Some(t) => i <= t < |h.tasks| && Same(h.tasks[t], h.tasks[i])
  }

  predicate HomesOk(h: Host) {
    && (forall i | 0 <= i < |h.tasks| :: h.tasks[i].home < |h.maps|)
    && (h.current.Some? ==> h.current.value < |h.maps|)
  }

  predicate Inv(h: Host) {
    InOrder(h.tasks) && Chained(h.tasks) && TailsOk(h) && HomesOk(h)
  }

  /** Every entry names a run that was queued under it. */
  ghost predicate EntriesOk(h: Host) {
    forall home: nat, key: string | TailOf(h, home, key).Some? ::
      var t := TailOf(h, home, key).value;
      t < |h.tasks| && h.tasks[t].home == home && h.tasks[t].key == key
  }

  ghost predicate Sound(h: Host) {
    Inv(h) && EntriesOk(h)
  }

  lemma EnqueueKeeps(h: Host, home: nat, key: string)
    requires Inv(h) && home < |h.maps|
    ensures Inv(Enqueued(h, home, key))
  {
    var g := Enqueued(h, home, key);
    var n := |h.tasks|;
    assert forall i | 0 <= i < n :: g.tasks[i] == h.tasks[i];
    EnqueueTails(h, home, key);
    assert InOrder(g.tasks);
    forall i, j | 0 <= i < j < |g.tasks| && Same(g.tasks[i], g.tasks[j])
      ensures match g.tasks[j].prev
              case None => g.tasks[i].status.Settled?
              case Some(p) => i <= p < j && Same(g.tasks[p], g.tasks[j])
    {
      if j == n {
        assert TailOf(h, h.tasks[i].home, h.tasks[i].key) == g.tasks[n].prev;
      }
    }
  }

  lemma EnqueueTails(h: Host, home: nat, key: string)
    requires TailsOk(h) && HomesOk(h) && home < |h.maps|
    ensures TailsOk(Enqueued(h, home, key)) && HomesOk(Enqueued(h, home, key))
  {
    var g := Enqueued(h, home, key);
    var n := |h.tasks|;
    forall i | 0 <= i < |g.tasks|
      ensures match TailOf(g, g.tasks[i].home, g.tasks[i].key)
              case None => g.tasks[i].status.Settled?
              case Some(t) => i <= t < |g.tasks| && Same(g.tasks[t], g.tasks[i])
    {
      if Same(g.tasks[i], g.tasks[n]) {
        assert TailOf(g, home, key) == Some(n);
      } else {
        assert g.tasks[i] == h.tasks[i];
        assert TailOf(g, g.tasks[i].home, g.tasks[i].key) == TailOf(h, g.tasks[i].home, g.tasks[i].key);
      }
    }
  }

  lemma BeginKeeps(h: Host, i: nat)
    requires Inv(h) && CanBegin(h, i)
    ensures Inv(WithStatus(h, i, Running))
  {
    var g := WithStatus(h, i, Running);
    forall k | 0 <= k < i && Same(h.tasks[k], h.tasks[i]) ensures h.tasks[k].status.Settled? {
      if h.tasks[i].prev.Some? {
        var p := h.tasks[i].prev.value;
        assert k <= p && Same(h.tasks[p], h.tasks[i]);
      }
    }
    StatusKeepsShape(h, i, Running);
    assert InOrder(g.tasks);
  }

  /** `u` is `t` with a later status, and perhaps without its caller. */
  predicate Later(t: Task, u: Task) {
    u.home == t.home && u.key == t.key && u.prev == t.prev && (t.status.Settled? ==> u.status.Settled?)
  }

  predicate AllLater(a: seq<Task>, b: seq<Task>) {
    |a| == |b| && forall k | 0 <= k < |a| :: Later(a[k], b[k])
  }

  lemma ChainedLater(a: seq<Task>, b: seq<Task>)
    requires Chained(a) && AllLater(a, b)
    ensures Chained(b)
  {
    forall i, j | 0 <= i < j < |b| && Same(b[i], b[j])
      ensures match b[j].prev
              case None => b[i].status.Settled?
              case Some(p) => i <= p < j && Same(b[p], b[j])
    {
      assert Later(a[i], b[i]) && Later(a[j], b[j]) && Same(a[i], a[j]);
    }
  }

  lemma TailsLater(g: Host, h: Host)
    requires TailsOk(g) && AllLater(g.tasks, h.tasks) && h.maps == g.maps
    ensures TailsOk(h)
  {
    forall i | 0 <= i < |h.tasks|
      ensures match TailOf(h, h.tasks[i].home, h.tasks[i].key)
              case None => h.tasks[i].status.Settled?
              case Some(t) => i <= t < |h.tasks| && Same(h.tasks[t], h.tasks[i])
    {
      assert Later(g.tasks[i], h.tasks[i]);
      assert TailOf(h, h.tasks[i].home, h.tasks[i].key) == TailOf(g, g.tasks[i].home, g.tasks[i].key);
    }
  }

  lemma StatusKeepsShape(h: Host, i: nat, s: Status)
    requires Inv(h) && i < |h.tasks| && !h.tasks[i].status.Settled?
    ensures Chained(WithStatus(h, i, s).tasks) && TailsOk(WithStatus(h, i, s)) && HomesOk(WithStatus(h, i, s))
  {
    ChainedLater(h.tasks, WithStatus(h, i, s).tasks);
    TailsLater(h, WithStatus(h, i, s));
  }

  lemma SettleKeeps(h: Host, i: nat)
    requires Inv(h) && i < |h.tasks| && h.tasks[i].status.Running?
    ensures Inv(WithStatus(h, i, Settled))
  {
    StatusKeepsShape(h, i, Settled);
    assert InOrder(WithStatus(h, i, Settled).tasks);
  }

  lemma ReleaseKeeps(h: Host, i: nat)
    requires Inv(h) && i < |h.tasks|
    ensures Inv(Released(h, i))
  {
    var g := Released(h, i);
    ChainedLater(h.tasks, g.tasks);
    TailsLater(h, g);
    assert forall k | 0 <= k < |h.tasks| :: g.tasks[k].status == h.tasks[k].status && Same(g.tasks[k], h.tasks[k]);
  }

  lemma CleanUpKeeps(h: Host, i: nat)
    requires Inv(h) && i < |h.tasks| && h.tasks[i].status.Settled?
    ensures Inv(CleanedUp(h, i))
  {
    var g, t := CleanedUp(h, i), h.tasks[i];
    if TailOf(h, t.home, t.key) == Some(i) {
      forall k | 0 <= k < |g.tasks|
        ensures match TailOf(g, g.tasks[k].home, g.tasks[k].key)
                case None => g.tasks[k].status.Settled?
                case Some(u) => k <= u < |g.tasks| && Same(g.tasks[u], g.tasks[k])
      {
        if !Same(g.tasks[k], t) {
          assert TailOf(g, g.tasks[k].home, g.tasks[k].key) == TailOf(h, g.tasks[k].home, g.tasks[k].key);
        }
      }
    }
  }

  lemma RegisterKeeps(h: Host)
    requires Inv(h)
    ensures Inv(Registered(h))
  {
    var g := Registered(h);
    assert forall home: nat, key | home < |h.maps| :: TailOf(g, home, key) == TailOf(h, home, key);
  }

  lemma StepKeeps(h: Host, e: Event)
    requires Inv(h) && Enabled(h, e)
    ensures Inv(Step(h, e))
  {
    match e
    case Register => RegisterKeeps(h);
    case Enqueue(home, key) => EnqueueKeeps(h, home, key);
    case Begin(i) => BeginKeeps(h, i);
    case Settle(i) => SettleKeeps(h, i);
    case CleanUp(i) => CleanUpKeeps(h, i);
    case TimeOut(i) => ReleaseKeeps(h, i);
    case Stop(_) =>
  }

  lemma StepKeepsEntries(h: Host, e: Event)
    requires EntriesOk(h) && Enabled(h, e)
    ensures EntriesOk(Step(h, e))
  {
    var g := Step(h, e);
    forall home: nat, key: string | TailOf(g, home, key).Some?
      ensures var t := TailOf(g, home, key).value;
              t < |g.tasks| && g.tasks[t].home == home && g.tasks[t].key == key
    {
      assert TailOf(g, home, key) == TailOf(h, home, key)
        || (e == Enqueue(home, key) && TailOf(g, home, key) == Some(|h.tasks|));
    }
  }

  // ---------------------------------------------------------------------------
  // Whole runs
  // ---------------------------------------------------------------------------

  /** `events` lead through `hosts`. */
  predicate Leads(hosts: seq<Host>, events: seq<Event>) {
    && |hosts| == |events| + 1
    && forall i | 0 <= i < |events| :: Enabled(hosts[i], events[i]) && hosts[i + 1] == Step(hosts[i], events[i])
  }

  predicate IsRun(hosts: seq<Host>, events: seq<Event>) {
    Leads(hosts, events) && hosts[0] == Host([], [], None)
  }

  lemma {:induction false} LeadsKeeps(hosts: seq<Host>, events: seq<Event>, n: nat)
    requires Leads(hosts, events) && Inv(hosts[0]) && EntriesOk(hosts[0]) && n <= |events|
    ensures Inv(hosts[n]) && EntriesOk(hosts[n])
  {
    if n > 0 {
      LeadsKeeps(hosts, events, n - 1);
      StepKeeps(hosts[n - 1], events[n - 1]);
      StepKeepsEntries(hosts[n - 1], events[n - 1]);
    }
  }

  lemma RunKeeps(hosts: seq<Host>, events: seq<Event>, n: nat)
    requires IsRun(hosts, events) && n <= |events|
    ensures Inv(hosts[n]) && EntriesOk(hosts[n])
  {
    LeadsKeeps(hosts, events, n);
  }

  /** Runs queued under one key of one map never overlap and begin in the order they were queued,
      whatever their callers' timeouts and however earlier runs ended. */
  lemma RunsAreSerial(hosts: seq<Host>, events: seq<Event>, n: nat, i: nat, j: nat)
    requires IsRun(hosts, events) && n <= |events|
    requires i < j < |hosts[n].tasks| && Same(hosts[n].tasks[i], hosts[n].tasks[j])
    ensures !hosts[n].tasks[j].status.Waiting? ==> hosts[n].tasks[i].status.Settled?
  {
    RunKeeps(hosts, events, n);
  }

  /** An entry disappears only when its run has settled and is the last one queued for its key, so
      all runs of the key are settled then. */
  lemma EntryRemovedByLastRun(hosts: seq<Host>, events: seq<Event>, n: nat, home: nat, key: string)
    requires IsRun(hosts, events) && n < |events|
    requires TailOf(hosts[n], home, key).Some? && TailOf(hosts[n + 1], home, key).None?
    ensures events[n].CleanUp? && TailOf(hosts[n], home, key) == Some(events[n].id)
    ensures forall k | 0 <= k < |hosts[n].tasks| && hosts[n].tasks[k].home == home && hosts[n].tasks[k].key == key ::
              hosts[n].tasks[k].status.Settled? && k <= events[n].id
  {
    RunKeeps(hosts, events, n);
    RunKeeps(hosts, events, n + 1);
    EntryChange(hosts[n], events[n], home, key);
  }

  lemma EntryChange(h: Host, e: Event, home: nat, key: string)
    requires Inv(h) && Enabled(h, e) && TailOf(h, home, key).Some? && TailOf(Step(h, e), home, key).None?
    ensures e.CleanUp? && TailOf(h, home, key) == Some(e.id) && Step(h, e).tasks == h.tasks
  {
  }

  /** Cleaning up after a settled run removes its key's entry if and only if that is the run's own, and
      touches no other entry. */
  lemma CleanUpRemovesOwnEntry(hosts: seq<Host>, events: seq<Event>, n: nat, home: nat, key: string)
    requires IsRun(hosts, events) && n < |events| && events[n].CleanUp?
    ensures
      var h, i := hosts[n], events[n].id;
      TailOf(hosts[n + 1], home, key) == if TailOf(h, home, key) == Some(i) then None else TailOf(h, home, key)
  {
    RunKeeps(hosts, events, n);
    CleanUpTails(hosts[n], events[n].id, home, key);
  }

  lemma CleanUpTails(h: Host, i: nat, home: nat, key: string)
    requires EntriesOk(h) && i < |h.tasks| && h.tasks[i].home < |h.maps|
    ensures TailOf(CleanedUp(h, i), home, key) ==
      if TailOf(h, home, key) == Some(i) then None else TailOf(h, home, key)
  {
  }

  // ---------------------------------------------------------------------------
  // Every run gets its turn
  // ---------------------------------------------------------------------------

  /** A run chains on an earlier run of its key. */
  predicate PrevsOk(tasks: seq<Task>) {
    forall j | 0 <= j < |tasks| && tasks[j].prev.Some? ::
      tasks[j].prev.value < j && Same(tasks[tasks[j].prev.value], tasks[j])
  }

  lemma StepKeepsPrevs(h: Host, e: Event)
    requires EntriesOk(h) && PrevsOk(h.tasks) && Enabled(h, e)
    ensures PrevsOk(Step(h, e).tasks)
  {
    if e.Enqueue? {
      assert TailOf(h, e.home, e.key).Some? ==> TailOf(h, e.home, e.key).value < |h.tasks|;
    }
  }

  lemma {:induction false} RunKeepsPrevs(hosts: seq<Host>, events: seq<Event>, n: nat)
    requires IsRun(hosts, events) && n <= |events|
    ensures PrevsOk(hosts[n].tasks)
  {
    if n > 0 {
      RunKeepsPrevs(hosts, events, n - 1);
      RunKeeps(hosts, events, n - 1);
      StepKeepsPrevs(hosts[n - 1], events[n - 1]);
    }
  }

  /** The first `n` runs have settled and cleaned up. */
  predicate DrainedTo(h: Host, n: nat) {
    n <= |h.tasks| && forall k | 0 <= k < n :: h.tasks[k].status.Settled? && TailOf(h, h.tasks[k].home, h.tasks[k].key) != Some(k)
  }

  /** Only these kinds of events: no caller does anything more. */
  predicate Winds(events: seq<Event>) {
    forall i | 0 <= i < |events| :: events[i].Begin? || events[i].Settle? || events[i].CleanUp?
  }

  ghost predicate Winding(h: Host) {
    Inv(h) && EntriesOk(h) && PrevsOk(h.tasks)
  }

  lemma WindingOn(h: Host, e: Event)
    requires Winding(h) && Enabled(h, e)
    ensures Winding(Step(h, e))
  {
    StepKeeps(h, e);
    StepKeepsEntries(h, e);
    StepKeepsPrevs(h, e);
  }

  lemma WindsOn(hosts: seq<Host>, events: seq<Event>, e: Event) returns (longer: seq<Host>, more: seq<Event>)
    requires Leads(hosts, events) && Winds(events) && Enabled(hosts[|events|], e)
    requires e.Begin? || e.Settle? || e.CleanUp?
    ensures Leads(longer, more) && Winds(more) && longer[0] == hosts[0]
    ensures longer[|more|] == Step(hosts[|events|], e)
  {
    longer, more := hosts + [Step(hosts[|events|], e)], events + [e];
  }

  /** The run at `n` takes its turn, if it has not yet. */
  lemma TakesItsTurn(hosts: seq<Host>, events: seq<Event>, n: nat, h: Host)
      returns (longer: seq<Host>, more: seq<Event>, g: Host)
    requires Leads(hosts, events) && Winds(events) && h == hosts[|events|] && Winding(h)
    requires DrainedTo(h, n) && n < |h.tasks|
    ensures Leads(longer, more) && Winds(more) && longer[0] == hosts[0] && g == longer[|more|] && Winding(g)
    ensures |g.tasks| == |h.tasks| && DrainedTo(g, n) && g.tasks[n].status.Settled?
  {
    longer, more, g := hosts, events, h;
    if g.tasks[n].status.Waiting? {
      TurnHasCome(g, n);
      WindingOn(g, Begin(n));
      longer, more := WindsOn(longer, more, Begin(n));
      g := WithStatus(g, n, Running);
    }
    if g.tasks[n].status.Running? {
      WindingOn(g, Settle(n));
      longer, more := WindsOn(longer, more, Settle(n));
      StatusKeepsDrained(g, n);
      g := WithStatus(g, n, Settled);
    }
  }

  lemma StatusKeepsDrained(h: Host, n: nat)
    requires DrainedTo(h, n) && n < |h.tasks|
    ensures DrainedTo(WithStatus(h, n, Settled), n)
  {
  }

  /** The run at `n` takes its turn and cleans up. */
  lemma DrainNext(hosts: seq<Host>, events: seq<Event>, n: nat) returns (longer: seq<Host>, more: seq<Event>)
    requires Leads(hosts, events) && Winds(events) && Winding(hosts[|events|])
    requires DrainedTo(hosts[|events|], n) && n < |hosts[|events|].tasks|
    ensures Leads(longer, more) && Winds(more) && longer[0] == hosts[0] && Winding(longer[|more|])
    ensures |longer[|more|].tasks| == |hosts[|events|].tasks| && DrainedTo(longer[|more|], n + 1)
  {
    var g;
    longer, more, g := TakesItsTurn(hosts, events, n, hosts[|events|]);
    CleanUpDrains(g, n);
    WindingOn(g, CleanUp(n));
    longer, more := WindsOn(longer, more, CleanUp(n));
  }

  lemma TurnHasCome(h: Host, n: nat)
    requires PrevsOk(h.tasks) && DrainedTo(h, n) && n < |h.tasks| && h.tasks[n].status.Waiting?
    ensures CanBegin(h, n) && DrainedTo(WithStatus(h, n, Running), n)
  {
  }

  lemma CleanUpDrains(h: Host, n: nat)
    requires Winding(h) && DrainedTo(h, n) && n < |h.tasks| && h.tasks[n].status.Settled?
    ensures Enabled(h, CleanUp(n)) && DrainedTo(CleanedUp(h, n), n + 1)
  {
    forall k | 0 <= k < n + 1
      ensures TailOf(CleanedUp(h, n), h.tasks[k].home, h.tasks[k].key) != Some(k)
    {
      CleanUpTails(h, n, h.tasks[k].home, h.tasks[k].key);
    }
  }

  lemma {:induction false} DrainsTo(h: Host, n: nat) returns (hosts: seq<Host>, events: seq<Event>)
    requires Winding(h) && n <= |h.tasks|
    ensures Leads(hosts, events) && Winds(events) && hosts[0] == h && Winding(hosts[|events|])
    ensures |hosts[|events|].tasks| == |h.tasks| && DrainedTo(hosts[|events|], n)
  {
    if n == 0 {
      hosts, events := [h], [];
    } else {
      hosts, events := DrainsTo(h, n - 1);
      hosts, events := DrainNext(hosts, events, n - 1);
    }
  }

  /** From every reachable host all queued runs can take their turns, one after another, without any
      further call; and when they have, every map is empty. */
  lemma ChainsDrain(hosts: seq<Host>, events: seq<Event>, n: nat) returns (later: seq<Host>, more: seq<Event>)
    requires IsRun(hosts, events) && n <= |events|
    ensures Leads(later, more) && Winds(more) && later[0] == hosts[n]
    ensures |later[|more|].tasks| == |hosts[n].tasks|
    ensures forall k | 0 <= k < |later[|more|].tasks| :: later[|more|].tasks[k].status.Settled?
    ensures forall home | 0 <= home < |later[|more|].maps| :: later[|more|].maps[home] == map[]
  {
    RunKeeps(hosts, events, n);
    RunKeepsPrevs(hosts, events, n);
    later, more := DrainsTo(hosts[n], |hosts[n].tasks|);
    var last := later[|more|];
    forall home | 0 <= home < |last.maps| ensures last.maps[home] == map[] {
      EmptyExactlyWhenDone(last, home);
    }
  }

  // ---------------------------------------------------------------------------
  // Dropping the global
  // ---------------------------------------------------------------------------

  predicate AllSettled(h: Host, home: nat) {
    forall k | 0 <= k < |h.tasks| && h.tasks[k].home == home :: h.tasks[k].status.Settled?
  }

  /** No settled run of the map has an entry that its `finally` still has to remove. */
  predicate NonePending(h: Host, home: nat) {
    forall k | 0 <= k < |h.tasks| && h.tasks[k].home == home && h.tasks[k].status.Settled? ::
      TailOf(h, home, h.tasks[k].key) != Some(k)
  }

  /** A map is empty exactly when all its runs are settled and none of them has still to clean up. */
  lemma EmptyExactlyWhenDone(h: Host, home: nat)
    requires Inv(h) && EntriesOk(h) && home < |h.maps|
    ensures h.maps[home] == map[] <==> AllSettled(h, home) && NonePending(h, home)
  {
    if h.maps[home] == map[] {
      forall k | 0 <= k < |h.tasks| && h.tasks[k].home == home
        ensures h.tasks[k].status.Settled? && TailOf(h, home, h.tasks[k].key) != Some(k)
      {
        assert TailOf(h, home, h.tasks[k].key) == None;
      }
    } else {
      var key :| key in h.maps[home];
      var t := TailOf(h, home, key).value;
      assert h.tasks[t].home == home && h.tasks[t].key == key;
    }
  }

  /** A stop drops the global when the stopper's own map is empty, whatever map the global is by then.
      It leaves no run of the dropped map unsettled, and no clean-up of one pending, exactly when the
      dropped map is empty; this is certain when it is the stopper's own. */
  lemma StopLeavesNoRunBehind(hosts: seq<Host>, events: seq<Event>, n: nat)
    requires IsRun(hosts, events) && n < |events| && events[n].Stop?
    requires hosts[n].current.Some? && hosts[n + 1].current.None?
    ensures
      var h, dropped := hosts[n], hosts[n].current.value;
      && dropped < |h.maps|
      && (AllSettled(h, dropped) && NonePending(h, dropped) <==> h.maps[dropped] == map[])
      && (NonePending(h, dropped) ==> (AllSettled(h, dropped) <==> h.maps[dropped] == map[]))
      && AllSettled(h, events[n].home)
      && (events[n].home == dropped ==> h.maps[dropped] == map[])
  {
    RunKeeps(hosts, events, n);
    EmptyExactlyWhenDone(hosts[n], events[n].home);
    EmptyExactlyWhenDone(hosts[n], hosts[n].current.value);
  }

  /** A registration whose own map is empty can drop the map of a later one while a run is under way. */
  lemma StopDropsBusyMap(key: string) returns (hosts: seq<Host>, events: seq<Event>)
    ensures IsRun(hosts, events) && |events| == 6 && events[5] == Stop(0)
    ensures hosts[5].current == Some(1) && hosts[6].current == None
    ensures hosts[5].tasks == [Task(1, key, None, Running, false)]
  {
    var h0 := Host([], [], None);
    var h1 := Registered(h0);
    var h2 := Stopped(h1, 0);
    var h3 := Registered(h2);
    var h4 := Enqueued(h3, 1, key);
    var h5 := WithStatus(h4, 0, Running);
    hosts := [h0, h1, h2, h3, h4, h5, Stopped(h5, 0)];
    events := [Register, Stop(0), Register, Enqueue(1, key), Begin(0), Stop(0)];
  }

  // ---------------------------------------------------------------------------
  // Overlapping runs
  // ---------------------------------------------------------------------------

  /** Two runs of one key are under way at once. */
  predicate Overlaps(h: Host) {
    exists i, j | 0 <= i < j < |h.tasks| ::
      h.tasks[i].key == h.tasks[j].key && h.tasks[i].status.Running? && h.tasks[j].status.Running?
  }

  predicate NoRegister(events: seq<Event>) {
    forall i | 0 <= i < |events| :: !events[i].Register?
  }

  lemma {:induction false} MapsStay(hosts: seq<Host>, events: seq<Event>, n: nat)
    requires Leads(hosts, events) && NoRegister(events) && n <= |events|
    ensures |hosts[n].maps| == |hosts[0].maps|
  {
    if n > 0 {
      MapsStay(hosts, events, n - 1);
      assert hosts[n] == Step(hosts[n - 1], events[n - 1]);
    }
  }

  lemma OneMapIsSerial(hosts: seq<Host>, events: seq<Event>)
    requires Leads(hosts, events) && NoRegister(events)
    requires Inv(hosts[0]) && EntriesOk(hosts[0]) && |hosts[0].maps| <= 1
    ensures !Overlaps(hosts[|events|])
  {
    LeadsKeeps(hosts, events, |events|);
    MapsStay(hosts, events, |events|);
    var h := hosts[|events|];
    forall i, j | 0 <= i < j < |h.tasks| && h.tasks[i].key == h.tasks[j].key && h.tasks[i].status.Running?
      ensures !h.tasks[j].status.Running?
    {
      assert h.tasks[i].home == 0 == h.tasks[j].home;
      assert Same(h.tasks[i], h.tasks[j]);
    }
  }

  /** A text longer than all of some texts. */
  lemma {:induction false} LongerThanAll(texts: set<string>) returns (t: string)
    ensures forall u | u in texts :: |u| < |t|
  {
    t := "k";
    if texts != {} {
      var u :| u in texts;
      var rest := LongerThanAll(texts - {u});
      t := rest + u + "k";
      assert forall v | v in texts :: v == u || v in texts - {u};
    }
  }

  /** A run queued under a key without an entry can begin at once. */
  lemma BeginsAtOnce(h: Host, home: nat, key: string) returns (queued: Host, begun: Host)
    requires home < |h.maps| && TailOf(h, home, key) == None
    ensures queued == Step(h, Enqueue(home, key))
    ensures Enabled(queued, Begin(|h.tasks|)) && begun == Step(queued, Begin(|h.tasks|))
    ensures begun.tasks == h.tasks + [Task(home, key, None, Running, false)]
    ensures |begun.maps| == |h.maps| && forall i | 0 <= i < |h.maps| && i != home :: begun.maps[i] == h.maps[i]
  {
    queued := Enqueued(h, home, key);
    begun := WithStatus(queued, |h.tasks|, Running);
  }

  /** The failing run, for any key: after a stop has dropped the map, a registration that kept it and one
      that made a new one run the key at the same time. */
  lemma DroppedMapLetsRunsOverlap(key: string) returns (hosts: seq<Host>, events: seq<Event>)
    ensures IsRun(hosts, events) && |events| == 7
    ensures hosts[7].tasks == [Task(0, key, None, Running, false), Task(1, key, None, Running, false)]
  {
    var h0 := Host([], [], None);
    var h1 := Registered(h0);
    var h2 := Stopped(h1, 0);
    var h3 := Registered(h2);
    var h4, h5 := BeginsAtOnce(h3, 0, key);
    var h6, h7 := BeginsAtOnce(h5, 1, key);
    hosts := [h0, h1, h2, h3, h4, h5, h6, h7];
    events := [Register, Stop(0), Register, Enqueue(0, key), Begin(0), Enqueue(1, key), Begin(1)];
  }

  lemma TwoMapsOverlap(h: Host) returns (hosts: seq<Host>, events: seq<Event>)
    requires |h.maps| >= 2
    ensures Leads(hosts, events) && hosts[0] == h && NoRegister(events) && Overlaps(hosts[|events|])
  {
    var key := LongerThanAll(h.maps[0].Keys + h.maps[1].Keys);
    var n: nat := |h.tasks|;
    assert TailOf(h, 0, key) == None == TailOf(h, 1, key);
    var h1, h2 := BeginsAtOnce(h, 0, key);
    var h3, h4 := BeginsAtOnce(h2, 1, key);
    hosts := [h, h1, h2, h3, h4];
    events := [Enqueue(0, key), Begin(n), Enqueue(1, key), Begin(n + 1)];
    assert h4.tasks[n] == Task(0, key, None, Running, false) && h4.tasks[n + 1] == Task(1, key, None, Running, false);
  }

  /** From any reachable host, and without a further registration, some key can come to be run twice at
      once exactly when a second map has been made. */
  lemma OverlapNeedsTwoMaps(hosts: seq<Host>, events: seq<Event>, n: nat)
    requires IsRun(hosts, events) && n <= |events|
    ensures |hosts[n].maps| >= 2 <==>
            exists later, more ::
              Leads(later, more) && later[0] == hosts[n] && NoRegister(more) && Overlaps(later[|more|])
  {
    RunKeeps(hosts, events, n);
    if |hosts[n].maps| >= 2 {
      var later, more := TwoMapsOverlap(hosts[n]);
      assert Leads(later, more);
    } else {
      forall later, more | Leads(later, more) && later[0] == hosts[n] && NoRegister(more)
        ensures !Overlaps(later[|more|])
      {
        OneMapIsSerial(later, more);
      }
    }
  }

  // ---------------------------------------------------------------------------
  // The closures that do it
  // ---------------------------------------------------------------------------

  class FlushPlanChains {
    var tasks: seq<Task>
    var maps: seq<map<string, nat>>
    var current: Option<nat>

    function State(): Host
      reads this
    {
      Host(tasks, maps, current)
    }

    constructor ()
      ensures State() == Host([], [], None)
    {
      tasks, maps, current := [], [], None;
    }

    /** Find the shared map or publish a new one. */
    method RegisterPlugin() returns (home: nat)
      requires Sound(State())
      modifies this
      ensures State() == Registered(old(State())) && Sound(State())
      ensures home < |maps| && current == Some(home)
    {
      StepKeepsEntries(State(), Register);
      RegisterKeeps(State());
      if current.Some? {
        home := current.value;
      } else {
        home := |maps|;
        maps := maps + [map[]];
        current := Some(home);
      }
    }

    method QueueProcessing(home: nat, key: string) returns (task: nat)
      requires Sound(State()) && home < |maps|
      modifies this`tasks, this`maps
      ensures State() == Enqueued(old(State()), home, key) && Sound(State())
      ensures task == |old(tasks)|
    {
      StepKeepsEntries(State(), Enqueue(home, key));
      EnqueueKeeps(State(), home, key);
      var chains := maps[home];
      var previousTask := if key in chains then Some(chains[key]) else None;
      task := |tasks|;
      tasks := tasks + [Task(home, key, previousTask, Waiting, false)];
      var extended: map<string, nat> := chains[key := task];
      maps := maps[home := extended];
    }

    method BeginRun(task: nat)
      requires Sound(State()) && CanBegin(State(), task)
      modifies this`tasks
      ensures State() == WithStatus(old(State()), task, Running) && Sound(State())
      ensures forall k | 0 <= k < |tasks| && k != task && Same(tasks[k], tasks[task]) :: !tasks[k].status.Running?
    {
      StepKeepsEntries(State(), Begin(task));
      BeginKeeps(State(), task);
      tasks := tasks[task := tasks[task].(status := Running)];
    }

    /** The run settled and its fence runs `finally`. */
    method SettleRun(task: nat)
      requires Sound(State()) && task < |tasks| && tasks[task].status.Running?
      modifies this`tasks, this`maps
      ensures State() == CleanedUp(WithStatus(old(State()), task, Settled), task) && Sound(State())
    {
      StepKeepsEntries(State(), Settle(task));
      StepKeepsEntries(WithStatus(State(), task, Settled), CleanUp(task));
      SettleKeeps(State(), task);
      CleanUpKeeps(WithStatus(State(), task, Settled), task);
      tasks := tasks[task := tasks[task].(status := Settled)];
      var home, key := tasks[task].home, tasks[task].key;
      if key in maps[home] && maps[home][key] == task {
        maps := maps[home := maps[home] - {key}];
      }
    }

    method StopService(home: nat)
      requires Sound(State()) && home < |maps|
      modifies this`current
      ensures State() == Stopped(old(State()), home) && Sound(State())
      ensures
        old(current).Some? && current.None? ==>
          var dropped := old(current).value;
          && dropped < |maps|
          && (AllSettled(old(State()), dropped) && NonePending(old(State()), dropped) <==> maps[dropped] == map[])
          && (dropped == home ==> maps[dropped] == map[])
    {
      ghost var h := State();
      StepKeepsEntries(h, Stop(home));
      if current.Some? {
        EmptyExactlyWhenDone(h, current.value);
      }
      if maps[home] == map[] {
        current := None;
      }
      assert State().tasks == h.tasks && State().maps == h.maps;
    }
  }
}
