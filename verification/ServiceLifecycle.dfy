/** Starting and stopping one service from many registries: a step is the code between two awaits.

    Tasks are calls to `start` or `stop`; a task waiting on an initialisation names the task that runs
    it, since the promise in the in-flight slot is that task's. */
module ServiceLifecycle {
  import opened Options

  /** A registry belongs to one plugin id, whose globals it shares with other registries. */
  datatype Registry = Registry(service: nat, id: nat)

  type TaskId = nat

  datatype Task =
    | Starting(reg: Registry)
    | AwaitingInit(reg: Registry, on: TaskId)
    | Initializing(reg: Registry)
    | Settled(reg: Registry)
    | AwaitingDeferred(reg: Registry, seen: Option<TaskId>)
    | AwaitingSeen(reg: Registry, on: TaskId, takenOver: bool)
    | Microtask(reg: Registry, takenOver: bool)
    | TearingDown(reg: Registry, takenOver: bool)
    | Done(reg: Registry)

  /** `slot` holds the in-flight initialisation of a service, `claim` the registries whose start has
      been counted (with the call that claimed), `count` is shared by all services. */
  datatype Host = Host(
    tasks: seq<Task>,
    slot: map<nat, TaskId>,
    started: set<nat>,
    claim: map<Registry, TaskId>,
    count: int,
    commandGuard: bool)

  /** How far an initialisation gets in one step: past an await without a check, to an abort check,
      to the final check, or to an exception. */
  datatype InitMove = Continue | AbortCheck | Finish | Throw

  datatype Event =
    | CallStart(reg: Registry)
    | CallStop(reg: Registry)
    | RegisterCommands
    | Resume(id: TaskId, move: InitMove)

  function Decremented(count: int): int {
    if count - 1 < 0 then 0 else count - 1
  }

  predicate HasSettled(t: Task) {
    t.Settled? || t.Done?
  }

  function SlotOf(h: Host, service: nat): Option<TaskId> {
    if service in h.slot then Some(h.slot[service]) else None
  }

  function SetTask(h: Host, i: TaskId, t: Task): Host
    requires i < |h.tasks|
  {
    h.(tasks := h.tasks[i := t])
  }

  /** The loop at the top of `start`: wait, find the service started, or claim. */
  function ResumeStarting(h: Host, i: TaskId, reg: Registry): Host
    requires i < |h.tasks|
  {
    if reg.service in h.slot then SetTask(h, i, AwaitingInit(reg, h.slot[reg.service]))
    else if reg.service in h.started then SetTask(h, i, Done(reg))
    else
      SetTask(h, i, Initializing(reg)).(
        claim := h.claim[reg := i], count := h.count + 1, slot := h.slot[reg.service := i])
  }

  function ResumeInitializing(h: Host, i: TaskId, reg: Registry, move: InitMove): Host
    requires i < |h.tasks|
  {
    match move
    case Continue => h
    case AbortCheck => if reg in h.claim then h else SetTask(h, i, Settled(reg))
    case Finish =>
      if reg in h.claim then SetTask(h, i, Settled(reg)).(started := h.started + {reg.service})
      else SetTask(h, i, Settled(reg))
    case Throw =>
      SetTask(h, i, Settled(reg)).(
        claim := h.claim - {reg},
        count := if reg in h.claim then Decremented(h.count) else h.count,
        started := h.started - {reg.service})
  }

  /** `stop` after `deferredReady`: give the count back, then look for a takeover. */
  function ResumeDeferred(h: Host, i: TaskId, reg: Registry, seen: Option<TaskId>): Host
    requires i < |h.tasks|
  {
    var remaining := Decremented(h.count);
    match seen
    case None =>
      var takenOver := reg.service in h.slot;
      SetTask(h, i, TearingDown(reg, takenOver)).(
        count := remaining,
        commandGuard := if !takenOver && remaining == 0 then false else h.commandGuard)
    case Some(p) =>
      var takenOver := reg.service in h.slot && h.slot[reg.service] != p;
      SetTask(h, i, AwaitingSeen(reg, p, takenOver)).(count := remaining)
  }

  function ResumeTask(h: Host, i: TaskId, move: InitMove): Host
    requires i < |h.tasks|
  {
    match h.tasks[i]
    case Starting(reg) => ResumeStarting(h, i, reg)
    case AwaitingInit(reg, on) =>
      if on < |h.tasks| && HasSettled(h.tasks[on]) then
        SetTask(h, i, if reg.service in h.started then Done(reg) else Starting(reg))
      else h
    case Initializing(reg) => ResumeInitializing(h, i, reg, move)
    case Settled(reg) => SetTask(h, i, Done(reg)).(slot := h.slot - {reg.service})
    case AwaitingDeferred(reg, seen) => ResumeDeferred(h, i, reg, seen)
    case AwaitingSeen(reg, seen, takenOver) =>
      if seen < |h.tasks| && HasSettled(h.tasks[seen]) then SetTask(h, i, Microtask(reg, takenOver)) else h
    case Microtask(reg, takenOver) =>
      SetTask(h, i, TearingDown(reg, takenOver || reg.service in h.slot || reg.service in h.started))
    case TearingDown(reg, takenOver) =>
      SetTask(h, i, Done(reg)).(started := if takenOver then h.started else h.started - {reg.service})
    case Done(_) => h
  }

  /** `stop` up to its first await: only a registry that holds a claim goes on. */
  function CallStopOn(h: Host, reg: Registry): Host {
    if reg !in h.claim then h
    else h.(claim := h.claim - {reg}, tasks := h.tasks + [AwaitingDeferred(reg, SlotOf(h, reg.service))])
  }

  function Step(h: Host, e: Event): Host {
    match e
    case CallStart(reg) => h.(tasks := h.tasks + [Starting(reg)])
    case CallStop(reg) => CallStopOn(h, reg)
    case RegisterCommands => h.(commandGuard := true)
    case Resume(i, move) => if i < |h.tasks| then ResumeTask(h, i, move) else h
  }

  // ---------------------------------------------------------------------------
  // Invariant
  // ---------------------------------------------------------------------------

  predicate InFlight(t: Task) {
    t.Initializing? || t.Settled?
  }

  /** A stop that has withdrawn its claim but not yet given its count back. */
  predicate OwesDecrement(t: Task) {
    t.AwaitingDeferred?
  }

  function Owing(tasks: seq<Task>): nat {
    if tasks == [] then 0
    else Owing(tasks[..|tasks| - 1]) + if OwesDecrement(tasks[|tasks| - 1]) then 1 else 0
  }

  /** The slot names exactly the task that runs the service's initialisation. */
  predicate SlotOk(h: Host) {
    && (forall s | s in h.slot ::
          h.slot[s] < |h.tasks| && InFlight(h.tasks[h.slot[s]]) && h.tasks[h.slot[s]].reg.service == s)
    && (forall i | 0 <= i < |h.tasks| && InFlight(h.tasks[i]) ::
          h.tasks[i].reg.service in h.slot && h.slot[h.tasks[i].reg.service] == i)
  }

  /** A claim held while a registry initialises was made by that very call. */
  predicate ClaimOk(h: Host) {
    forall i | 0 <= i < |h.tasks| && h.tasks[i].Initializing? && h.tasks[i].reg in h.claim ::
      h.claim[h.tasks[i].reg] == i
  }

  predicate CountOk(h: Host) {
    h.count >= |h.claim| + Owing(h.tasks)
  }

  predicate Inv(h: Host) {
    SlotOk(h) && ClaimOk(h) && CountOk(h)
  }

  predicate Initial(h: Host) {
    h.tasks == [] && h.slot == map[] && h.started == {} && h.claim == map[] && h.count == 0
  }

  lemma OwingAppend(tasks: seq<Task>, t: Task)
    ensures Owing(tasks + [t]) == Owing(tasks) + if OwesDecrement(t) then 1 else 0
  {
    assert (tasks + [t])[..|tasks|] == tasks;
  }

  lemma {:induction false} OwingUpdate(tasks: seq<Task>, i: nat, t: Task)
    requires i < |tasks|
    ensures Owing(tasks[i := t]) + (if OwesDecrement(tasks[i]) then 1 else 0) ==
            Owing(tasks) + (if OwesDecrement(t) then 1 else 0)
  {
    var n := |tasks| - 1;
    if i < n {
      OwingUpdate(tasks[..n], i, t);
      assert tasks[i := t][..n] == tasks[..n][i := t];
    } else {
      assert tasks[i := t][..n] == tasks[..n];
    }
  }

  lemma {:induction false} OwingSome(tasks: seq<Task>, i: nat)
    requires i < |tasks| && OwesDecrement(tasks[i])
    ensures Owing(tasks) >= 1
  {
    if i < |tasks| - 1 {
      OwingSome(tasks[..|tasks| - 1], i);
    }
  }

  lemma ClaimSizes(claim: map<Registry, TaskId>, reg: Registry, i: TaskId)
    ensures |claim[reg := i]| <= |claim| + 1
    ensures |claim - {reg}| == |claim| - if reg in claim then 1 else 0
  {
    assert claim[reg := i].Keys == claim.Keys + {reg};
    assert (claim - {reg}).Keys == claim.Keys - {reg};
    assert |claim.Keys| == |claim| && |claim[reg := i].Keys| == |claim[reg := i]|
        && |(claim - {reg}).Keys| == |claim - {reg}|;
  }

  // ---------------------------------------------------------------------------
  // Every step keeps the invariant
  // ---------------------------------------------------------------------------

  /** Changing a task that neither was nor becomes in flight, and owes no more than before. */
  lemma QuietChange(h: Host, i: TaskId, t: Task, g: Host)
    requires Inv(h) && i < |h.tasks| && !InFlight(h.tasks[i]) && !InFlight(t)
    requires g == SetTask(h, i, t).(started := g.started, commandGuard := g.commandGuard, count := g.count)
    requires g.count >= h.count + (if OwesDecrement(t) then 1 else 0) - (if OwesDecrement(h.tasks[i]) then 1 else 0)
    ensures Inv(g)
  {
    OwingUpdate(h.tasks, i, t);
  }

  lemma ClaimKeeps(h: Host, i: TaskId, reg: Registry)
    requires Inv(h) && i < |h.tasks| && h.tasks[i] == Starting(reg)
    requires reg.service !in h.slot && reg.service !in h.started
    ensures Inv(ResumeStarting(h, i, reg))
  {
    var g := ResumeStarting(h, i, reg);
    ClaimKeepsSlot(h, i, reg, g);
    OwingUpdate(h.tasks, i, Initializing(reg));
    ClaimSizes(h.claim, reg, i);
    assert CountOk(g);
  }

  lemma ClaimKeepsSlot(h: Host, i: TaskId, reg: Registry, g: Host)
    requires SlotOk(h) && ClaimOk(h) && i < |h.tasks| && h.tasks[i] == Starting(reg) && reg.service !in h.slot
    requires g.tasks == h.tasks[i := Initializing(reg)]
    requires g.slot == h.slot[reg.service := i] && g.claim == h.claim[reg := i]
    ensures SlotOk(g) && ClaimOk(g)
  {
  }

  lemma StartingKeeps(h: Host, i: TaskId, reg: Registry)
    requires Inv(h) && i < |h.tasks| && h.tasks[i] == Starting(reg)
    ensures Inv(ResumeStarting(h, i, reg))
  {
    if reg.service in h.slot {
      QuietChange(h, i, AwaitingInit(reg, h.slot[reg.service]), ResumeStarting(h, i, reg));
    } else if reg.service in h.started {
      QuietChange(h, i, Done(reg), ResumeStarting(h, i, reg));
    } else {
      ClaimKeeps(h, i, reg);
    }
  }

  lemma SettlingKeeps(h: Host, i: TaskId, reg: Registry, g: Host)
    requires Inv(h) && i < |h.tasks| && h.tasks[i] == Initializing(reg)
    requires g == SetTask(h, i, Settled(reg)).(started := g.started)
    ensures Inv(g)
  {
    OwingUpdate(h.tasks, i, Settled(reg));
  }

  lemma ThrowKeeps(h: Host, i: TaskId, reg: Registry, g: Host)
    requires Inv(h) && i < |h.tasks| && h.tasks[i] == Initializing(reg)
    requires g == SetTask(h, i, Settled(reg)).(claim := h.claim - {reg}, count := g.count, started := g.started)
    requires g.count >= h.count - if reg in h.claim then 1 else 0
    ensures Inv(g)
  {
    OwingUpdate(h.tasks, i, Settled(reg));
    ClaimSizes(h.claim, reg, i);
  }

  lemma InitializingKeeps(h: Host, i: TaskId, reg: Registry, move: InitMove)
    requires Inv(h) && i < |h.tasks| && h.tasks[i] == Initializing(reg)
    ensures Inv(ResumeInitializing(h, i, reg, move))
  {
    match move
    case Continue =>
    case AbortCheck => if reg !in h.claim { SettlingKeeps(h, i, reg, ResumeInitializing(h, i, reg, move)); }
    case Finish => SettlingKeeps(h, i, reg, ResumeInitializing(h, i, reg, move));
    case Throw => ThrowKeeps(h, i, reg, ResumeInitializing(h, i, reg, move));
  }

  lemma ClearingKeeps(h: Host, i: TaskId, reg: Registry)
    requires Inv(h) && i < |h.tasks| && h.tasks[i] == Settled(reg)
    ensures Inv(SetTask(h, i, Done(reg)).(slot := h.slot - {reg.service}))
  {
    OwingUpdate(h.tasks, i, Done(reg));
  }

  lemma DeferredKeeps(h: Host, i: TaskId, reg: Registry, seen: Option<TaskId>)
    requires Inv(h) && i < |h.tasks| && h.tasks[i] == AwaitingDeferred(reg, seen)
    ensures Inv(ResumeDeferred(h, i, reg, seen))
    ensures h.count >= 1
  {
    OwingSome(h.tasks, i);
    var g := ResumeDeferred(h, i, reg, seen);
    QuietChange(h, i, g.tasks[i], g);
  }

  lemma ResumeKeeps(h: Host, i: TaskId, move: InitMove)
    requires Inv(h) && i < |h.tasks|
    ensures Inv(ResumeTask(h, i, move))
  {
    var g := ResumeTask(h, i, move);
    match h.tasks[i]
    case Starting(reg) => StartingKeeps(h, i, reg);
    case Initializing(reg) => InitializingKeeps(h, i, reg, move);
    case Settled(reg) => ClearingKeeps(h, i, reg);
    case AwaitingDeferred(reg, seen) => DeferredKeeps(h, i, reg, seen);
    case AwaitingInit(_, on) => if on < |h.tasks| && HasSettled(h.tasks[on]) { QuietChange(h, i, g.tasks[i], g); }
    case AwaitingSeen(_, on, _) => if on < |h.tasks| && HasSettled(h.tasks[on]) { QuietChange(h, i, g.tasks[i], g); }
    case Microtask(_, _) => QuietChange(h, i, g.tasks[i], g);
    case TearingDown(_, _) => QuietChange(h, i, g.tasks[i], g);
    case Done(_) =>
  }

  lemma StopKeeps(h: Host, reg: Registry)
    requires Inv(h)
    ensures Inv(CallStopOn(h, reg))
  {
    if reg in h.claim {
      WithdrawKeeps(h, reg, AwaitingDeferred(reg, SlotOf(h, reg.service)));
    }
  }

  lemma WithdrawKeeps(h: Host, reg: Registry, t: Task)
    requires Inv(h) && reg in h.claim && t.AwaitingDeferred?
    ensures Inv(h.(claim := h.claim - {reg}, tasks := h.tasks + [t]))
  {
    OwingAppend(h.tasks, t);
    ClaimSizes(h.claim, reg, 0);
  }

  lemma StartKeeps(h: Host, reg: Registry)
    requires Inv(h)
    ensures Inv(h.(tasks := h.tasks + [Starting(reg)]))
  {
    OwingAppend(h.tasks, Starting(reg));
  }

  lemma RegisterKeeps(h: Host)
    requires Inv(h)
    ensures Inv(h.(commandGuard := true))
  {
  }

  lemma StepKeeps(h: Host, e: Event)
    requires Inv(h)
    ensures Inv(Step(h, e))
  {
    match e
    case CallStart(reg) => StartKeeps(h, reg);
    case CallStop(reg) => StopKeeps(h, reg);
    case RegisterCommands => RegisterKeeps(h);
    case Resume(i, move) => if i < |h.tasks| { ResumeKeeps(h, i, move); }
  }

  // ---------------------------------------------------------------------------
  // Whole runs
  // ---------------------------------------------------------------------------

  predicate IsRun(hosts: seq<Host>, events: seq<Event>) {
    && |hosts| == |events| + 1
    && Initial(hosts[0])
    && forall i | 0 <= i < |events| :: hosts[i + 1] == Step(hosts[i], events[i])
  }

  lemma {:induction false} RunKeeps(hosts: seq<Host>, events: seq<Event>, n: nat)
    requires IsRun(hosts, events) && n <= |events|
    ensures Inv(hosts[n])
  {
    if n > 0 {
      RunKeeps(hosts, events, n - 1);
      StepKeeps(hosts[n - 1], events[n - 1]);
    }
  }

  /** At most one initialisation of a service is in flight, under every interleaving. */
  lemma OneInitialisation(hosts: seq<Host>, events: seq<Event>, n: nat, i: TaskId, j: TaskId)
    requires IsRun(hosts, events) && n <= |events|
    requires i < |hosts[n].tasks| && j < |hosts[n].tasks|
    requires InFlight(hosts[n].tasks[i]) && InFlight(hosts[n].tasks[j])
    requires hosts[n].tasks[i].reg.service == hosts[n].tasks[j].reg.service
    ensures i == j
  {
    RunKeeps(hosts, events, n);
  }

  /** Once set, a service's slot changes only when the task in it, having settled, clears it. */
  lemma OnlyOwnerClearsSlot(hosts: seq<Host>, events: seq<Event>, n: nat, service: nat)
    requires IsRun(hosts, events) && n < |events|
    requires service in hosts[n].slot && SlotOf(hosts[n + 1], service) != SlotOf(hosts[n], service)
    ensures service !in hosts[n + 1].slot
    ensures events[n].Resume? && events[n].id == hosts[n].slot[service] && hosts[n].tasks[events[n].id].Settled?
  {
    RunKeeps(hosts, events, n);
    SlotChange(hosts[n], events[n], service);
  }

  lemma SlotChange(h: Host, e: Event, service: nat)
    requires Inv(h) && service in h.slot && SlotOf(Step(h, e), service) != SlotOf(h, service)
    ensures service !in Step(h, e).slot
    ensures e.Resume? && e.id == h.slot[service] && h.tasks[e.id].Settled?
  {
    assert e.Resume? && e.id < |h.tasks|;
    SlotChangeOfTask(h, e.id, e.move, service);
  }

  lemma SlotChangeOfTask(h: Host, i: TaskId, move: InitMove, service: nat)
    requires SlotOk(h) && i < |h.tasks| && service in h.slot
        && SlotOf(ResumeTask(h, i, move), service) != SlotOf(h, service)
    ensures service !in ResumeTask(h, i, move).slot && i == h.slot[service] && h.tasks[i].Settled?
  {
  }

  /** A service becomes started only by the call that owns the slot, and only while the claim which
      that very call made has not been withdrawn. */
  lemma StartedByUnwithdrawnOwner(hosts: seq<Host>, events: seq<Event>, n: nat, service: nat)
    requires IsRun(hosts, events) && n < |events|
    requires service !in hosts[n].started && service in hosts[n + 1].started
    ensures
      && events[n].Resume? && events[n].id < |hosts[n].tasks|
      && hosts[n].tasks[events[n].id].Initializing?
      && var reg := hosts[n].tasks[events[n].id].reg;
         && reg.service == service
         && SlotOf(hosts[n], service) == Some(events[n].id)
         && reg in hosts[n].claim && hosts[n].claim[reg] == events[n].id
  {
    RunKeeps(hosts, events, n);
    StartedChange(hosts[n], events[n], service);
  }

  lemma StartedChange(h: Host, e: Event, service: nat)
    requires Inv(h) && service !in h.started && service in Step(h, e).started
    ensures e.Resume? && e.id < |h.tasks| && h.tasks[e.id].Initializing? && h.tasks[e.id].reg.service == service
    ensures h.tasks[e.id].reg in h.claim
  {
  }

  /** The shared count covers every claimed registry and every stop that still owes its decrement, so
      no decrement is ever clamped at zero. */
  lemma CountCoversClaims(hosts: seq<Host>, events: seq<Event>, n: nat)
    requires IsRun(hosts, events) && n <= |events|
    ensures hosts[n].count >= |hosts[n].claim| + Owing(hosts[n].tasks)
    ensures n < |events| && Decrements(hosts[n], events[n]) ==> hosts[n].count >= 1
  {
    RunKeeps(hosts, events, n);
    if n < |events| && Decrements(hosts[n], events[n]) {
      DecrementIsCovered(hosts[n], events[n]);
    }
  }

  /** The step runs one of the two decrements. */
  predicate Decrements(h: Host, e: Event) {
    && e.Resume? && e.id < |h.tasks|
    && (|| h.tasks[e.id].AwaitingDeferred?
        || (h.tasks[e.id].Initializing? && e.move.Throw? && h.tasks[e.id].reg in h.claim))
  }

  lemma DecrementIsCovered(h: Host, e: Event)
    requires Inv(h) && Decrements(h, e)
    ensures h.count >= 1
  {
    if h.tasks[e.id].AwaitingDeferred? {
      OwingSome(h.tasks, e.id);
    } else {
      ClaimSizes(h.claim, h.tasks[e.id].reg, 0);
    }
  }

  /** The command guard is cleared only when no registry of any service holds a claim and no stop
      still owes its decrement. */
  lemma GuardClearedWhenUnclaimed(hosts: seq<Host>, events: seq<Event>, n: nat)
    requires IsRun(hosts, events) && n < |events|
    requires hosts[n].commandGuard && !hosts[n + 1].commandGuard
    ensures hosts[n + 1].claim == map[] && Owing(hosts[n + 1].tasks) == 0
  {
    RunKeeps(hosts, events, n + 1);
    GuardChange(hosts[n], events[n]);
    assert |hosts[n + 1].claim| == 0;
  }

  lemma GuardChange(h: Host, e: Event)
    requires h.commandGuard && !Step(h, e).commandGuard
    ensures Step(h, e).count == 0
  {
  }

  // ---------------------------------------------------------------------------
  // When the started flag changes
  // ---------------------------------------------------------------------------

  /** The step ends a tear-down that found nobody taking the service over. */
  predicate EndsTearDown(h: Host, e: Event, service: nat) {
    && e.Resume? && e.id < |h.tasks| && h.tasks[e.id].reg.service == service
    && h.tasks[e.id].TearingDown? && !h.tasks[e.id].takenOver
  }

  /** The step is an initialisation of the service that throws. */
  predicate InitThrows(h: Host, e: Event, service: nat) {
    && e.Resume? && e.id < |h.tasks| && h.tasks[e.id].reg.service == service
    && h.tasks[e.id].Initializing? && e.move.Throw?
  }

  /** The step finishes an initialisation of the service whose claim stands. */
  predicate InitFinishes(h: Host, e: Event, service: nat) {
    && e.Resume? && e.id < |h.tasks| && h.tasks[e.id].reg.service == service
    && h.tasks[e.id].Initializing? && e.move.Finish? && h.tasks[e.id].reg in h.claim
  }

  /** After any step a service is started if and only if the step finished its initialisation with the
      claim standing, or it was started and the step neither tore it down nor threw initialising it. */
  lemma StartedExactly(h: Host, e: Event, service: nat)
    ensures service in Step(h, e).started <==>
      || InitFinishes(h, e, service)
      || (service in h.started && !EndsTearDown(h, e, service) && !InitThrows(h, e, service))
  {
    if e.Resume? && e.id < |h.tasks| {
      StartedExactlyOnResume(h, e.id, e.move, service);
    }
  }

  lemma StartedExactlyOnResume(h: Host, i: TaskId, move: InitMove, service: nat)
    requires i < |h.tasks|
    ensures var e := Resume(i, move);
      service in ResumeTask(h, i, move).started <==>
      || InitFinishes(h, e, service)
      || (service in h.started && !EndsTearDown(h, e, service) && !InitThrows(h, e, service))
  {
  }

  // ---------------------------------------------------------------------------
  // Calls that nothing disturbs
  // ---------------------------------------------------------------------------

  function After(h: Host, events: seq<Event>): Host
    decreases events
  {
    if events == [] then h else After(Step(h, events[0]), events[1..])
  }

  lemma {:induction false} AfterJoin(h: Host, a: seq<Event>, b: seq<Event>)
    ensures After(h, a + b) == After(After(h, a), b)
    decreases a
  {
    if a == [] {
      assert a + b == b;
    } else {
      assert (a + b)[1..] == a[1..] + b;
      AfterJoin(Step(h, a[0]), a[1..], b);
    }
  }

  /** The calls of an initialisation that pass its awaits and abort checks. */
  predicate PassesChecks(moves: seq<InitMove>) {
    forall i | 0 <= i < |moves| :: moves[i].Continue? || moves[i].AbortCheck?
  }

  function Resumes(i: TaskId, moves: seq<InitMove>): seq<Event> {
    seq(|moves|, k requires 0 <= k < |moves| => Resume(i, moves[k]))
  }

  lemma {:induction false} ChecksPass(h: Host, i: TaskId, moves: seq<InitMove>)
    requires i < |h.tasks| && h.tasks[i].Initializing? && h.tasks[i].reg in h.claim && PassesChecks(moves)
    ensures After(h, Resumes(i, moves)) == h
    decreases moves
  {
    if moves != [] {
      var events := Resumes(i, moves);
      assert events[0] == Resume(i, moves[0]) && events[1..] == Resumes(i, moves[1..]);
      assert Step(h, events[0]) == h;
      ChecksPass(h, i, moves[1..]);
    }
  }

  /** The events of a call to `start` that is then left alone until it returns. */
  function StartLeftAlone(h: Host, reg: Registry, moves: seq<InitMove>, last: InitMove): seq<Event> {
    var i := |h.tasks|;
    [CallStart(reg), Resume(i, Continue)] + Resumes(i, moves) + [Resume(i, last), Resume(i, Continue)]
  }

  /** A start has claimed the service and is initialising it. */
  function Claimed(h: Host, reg: Registry): Host {
    var i := |h.tasks|;
    h.(tasks := h.tasks + [Initializing(reg)], claim := h.claim[reg := i], count := h.count + 1,
       slot := h.slot[reg.service := i])
  }

  lemma StartClaims(h: Host, reg: Registry)
    requires reg.service !in h.slot && reg.service !in h.started
    ensures After(h, [CallStart(reg), Resume(|h.tasks|, Continue)]) == Claimed(h, reg)
  {
    var called := h.(tasks := h.tasks + [Starting(reg)]);
    assert called.tasks[|h.tasks| := Initializing(reg)] == h.tasks + [Initializing(reg)];
    TwoSteps(h, CallStart(reg), Resume(|h.tasks|, Continue));
  }

  lemma TwoSteps(h: Host, a: Event, b: Event)
    ensures After(h, [a, b]) == Step(Step(h, a), b)
  {
    assert [a, b][1..] == [b] && [b][1..] == [];
    assert After(Step(h, a), [b]) == After(Step(Step(h, a), b), []);
  }

  /** What one registry's call has changed when it is over. */
  function Over(h: Host, reg: Registry): seq<Task> {
    h.tasks + [Done(reg)]
  }

  /** A start of a service that is neither started nor being started, left alone: it initialises the
      service, and leaves it started, claimed and counted, with the slot empty again. */
  lemma StartTakesEffect(h: Host, reg: Registry, moves: seq<InitMove>)
    requires reg.service !in h.slot && reg.service !in h.started && PassesChecks(moves)
    ensures After(h, StartLeftAlone(h, reg, moves, Finish)) ==
      h.(tasks := Over(h, reg), started := h.started + {reg.service}, claim := h.claim[reg := |h.tasks|],
         count := h.count + 1)
  {
    var i, g := |h.tasks|, Claimed(h, reg);
    StartRuns(h, reg, moves, Finish);
    var settled := g.(tasks := h.tasks + [Settled(reg)], started := h.started + {reg.service});
    assert g.tasks[i := Settled(reg)] == settled.tasks;
    SlotEmptied(h, settled, reg);
  }

  lemma StartRuns(h: Host, reg: Registry, moves: seq<InitMove>, last: InitMove)
    requires reg.service !in h.slot && reg.service !in h.started && PassesChecks(moves)
    ensures After(h, StartLeftAlone(h, reg, moves, last)) ==
      Step(Step(Claimed(h, reg), Resume(|h.tasks|, last)), Resume(|h.tasks|, Continue))
  {
    var i, g := |h.tasks|, Claimed(h, reg);
    var begin, ends := [CallStart(reg), Resume(i, Continue)], [Resume(i, last), Resume(i, Continue)];
    StartClaims(h, reg);
    ChecksPass(g, i, moves);
    AfterJoin(h, begin, Resumes(i, moves));
    AfterJoin(h, begin + Resumes(i, moves), ends);
    TwoSteps(g, Resume(i, last), Resume(i, Continue));
  }

  /** The last step of a start. */
  lemma SlotEmptied(h: Host, settled: Host, reg: Registry)
    requires reg.service !in h.slot && settled.slot == h.slot[reg.service := |h.tasks|]
    requires settled.tasks == h.tasks + [Settled(reg)]
    ensures Step(settled, Resume(|h.tasks|, Continue)) == settled.(tasks := Over(h, reg), slot := h.slot)
  {
    assert settled.tasks[|h.tasks| := Done(reg)] == Over(h, reg);
    assert h.slot[reg.service := |h.tasks|] - {reg.service} == h.slot;
  }

  /** A start whose initialisation throws leaves no trace but the call itself. */
  lemma FailedStartIsUndone(h: Host, reg: Registry, moves: seq<InitMove>)
    requires h.count >= 0 && reg !in h.claim
    requires reg.service !in h.slot && reg.service !in h.started && PassesChecks(moves)
    ensures After(h, StartLeftAlone(h, reg, moves, Throw)) == h.(tasks := Over(h, reg))
  {
    var i, g := |h.tasks|, Claimed(h, reg);
    StartRuns(h, reg, moves, Throw);
    var settled := g.(tasks := h.tasks + [Settled(reg)], claim := h.claim, count := h.count);
    ThrowSettles(h, reg, g, settled);
    SlotEmptied(h, settled, reg);
  }

  lemma ThrowSettles(h: Host, reg: Registry, g: Host, t: Host)
    requires h.count >= 0 && reg !in h.claim && reg.service !in h.started && g == Claimed(h, reg)
    requires t == g.(tasks := h.tasks + [Settled(reg)], claim := h.claim, count := h.count)
    ensures Step(g, Resume(|h.tasks|, Throw)) == t
  {
    assert g.tasks[|h.tasks| := Settled(reg)] == t.tasks;
    assert h.claim[reg := |h.tasks|] - {reg} == h.claim;
    assert h.started - {reg.service} == h.started;
  }

  /** A start of a service that is started already does nothing. */
  lemma SecondStartDoesNothing(h: Host, reg: Registry)
    requires reg.service !in h.slot && reg.service in h.started
    ensures After(h, [CallStart(reg), Resume(|h.tasks|, Continue)]) == h.(tasks := Over(h, reg))
  {
    TwoSteps(h, CallStart(reg), Resume(|h.tasks|, Continue));
    assert (h.tasks + [Starting(reg)])[|h.tasks| := Done(reg)] == Over(h, reg);
  }

  /** The events of a call to `stop` that is then left alone until it returns, when no initialisation is
      in flight. */
  function StopLeftAlone(h: Host, reg: Registry): seq<Event> {
    [CallStop(reg), Resume(|h.tasks|, Continue), Resume(|h.tasks|, Continue)]
  }

  lemma ThreeSteps(h: Host, a: Event, b: Event, c: Event)
    ensures After(h, [a, b, c]) == Step(Step(Step(h, a), b), c)
  {
    assert [a, b, c][1..] == [b, c];
    TwoSteps(Step(h, a), b, c);
  }

  /** A stop by a registry that holds a claim, left alone: the service is not started any more, the claim
      and its count are given back, and the command guard goes with the last count. */
  lemma StopTakesEffect(h: Host, reg: Registry)
    requires Inv(h) && reg in h.claim && reg.service !in h.slot
    ensures After(h, StopLeftAlone(h, reg)) ==
      h.(tasks := Over(h, reg), started := h.started - {reg.service}, claim := h.claim - {reg}, count := h.count - 1,
         commandGuard := h.commandGuard && h.count != 1)
  {
    var i := |h.tasks|;
    var called := h.(tasks := h.tasks + [AwaitingDeferred(reg, None)], claim := h.claim - {reg});
    var tearing := h.(tasks := h.tasks + [TearingDown(reg, false)], claim := h.claim - {reg}, count := h.count - 1,
                      commandGuard := h.commandGuard && h.count != 1);
    ThreeSteps(h, CallStop(reg), Resume(i, Continue), Resume(i, Continue));
    ClaimSizes(h.claim, reg, 0);
    StopGivesBack(h, reg, called, tearing);
    TearDownEnds(tearing, reg, h.tasks);
  }

  lemma StopGivesBack(h: Host, reg: Registry, called: Host, t: Host)
    requires h.count >= 1 && reg.service !in h.slot
    requires called == h.(tasks := h.tasks + [AwaitingDeferred(reg, None)], claim := h.claim - {reg})
    requires t == called.(tasks := h.tasks + [TearingDown(reg, false)], count := h.count - 1,
                          commandGuard := h.commandGuard && h.count != 1)
    ensures Step(called, Resume(|h.tasks|, Continue)) == t
  {
    assert called.tasks[|h.tasks| := TearingDown(reg, false)] == t.tasks;
  }

  lemma TearDownEnds(h: Host, reg: Registry, others: seq<Task>)
    requires h.tasks == others + [TearingDown(reg, false)]
    ensures Step(h, Resume(|others|, Continue)) ==
      h.(tasks := others + [Done(reg)], started := h.started - {reg.service})
  {
    assert h.tasks[|others| := Done(reg)] == others + [Done(reg)];
  }

  /** A stop by a registry without a claim does nothing. */
  lemma StopWithoutClaimDoesNothing(h: Host, reg: Registry)
    requires reg !in h.claim
    ensures Step(h, CallStop(reg)) == h
  {
  }

  /** Starting, stopping and starting again, each left alone, from any reachable host: the service is
      started, then stopped with claim and count given back, then initialised and started anew. */
  lemma StopAllowsRestart(hosts: seq<Host>, events: seq<Event>, n: nat, reg: Registry, again: Registry,
      first: seq<InitMove>, second: seq<InitMove>)
    requires IsRun(hosts, events) && n <= |events|
    requires reg.service == again.service && reg !in hosts[n].claim
    requires reg.service !in hosts[n].slot && reg.service !in hosts[n].started
    requires PassesChecks(first) && PassesChecks(second)
    ensures
      var h := hosts[n];
      var up := After(h, StartLeftAlone(h, reg, first, Finish));
      var down := After(up, StopLeftAlone(up, reg));
      var anew := After(down, StartLeftAlone(down, again, second, Finish));
      && reg.service in up.started && reg in up.claim && up.count == h.count + 1 && up.slot == h.slot
      && down.started == h.started && down.claim == h.claim && down.count == h.count && down.slot == h.slot
      && reg.service in anew.started && again in anew.claim && anew.count == h.count + 1 && anew.slot == h.slot
  {
    var h := hosts[n];
    RunKeeps(hosts, events, n);
    StartTakesEffect(h, reg, first);
    var up := After(h, StartLeftAlone(h, reg, first, Finish));
    StartLeftAloneKeeps(h, reg, first, up);
    StopTakesEffect(up, reg);
    assert h.claim[reg := |h.tasks|] - {reg} == h.claim;
    assert h.started + {reg.service} - {reg.service} == h.started;
    StartTakesEffect(After(up, StopLeftAlone(up, reg)), again, second);
  }

  lemma {:induction false} AfterKeeps(h: Host, events: seq<Event>)
    requires Inv(h)
    ensures Inv(After(h, events))
    decreases events
  {
    if events != [] {
      StepKeeps(h, events[0]);
      AfterKeeps(Step(h, events[0]), events[1..]);
    }
  }

  lemma StartLeftAloneKeeps(h: Host, reg: Registry, moves: seq<InitMove>, up: Host)
    requires Inv(h) && up == After(h, StartLeftAlone(h, reg, moves, Finish))
    ensures Inv(up)
  {
    AfterKeeps(h, StartLeftAlone(h, reg, moves, Finish));
  }

  /** A stop that interrupts its own registry's initialisation. The initialisation meets an abort check
      and settles, and the stop then finds nobody taking over. */
  function StopDuringInit(h: Host, reg: Registry, i: TaskId): seq<Event> {
    var j := |h.tasks|;
    [CallStop(reg), Resume(j, Continue)] + [Resume(i, AbortCheck), Resume(i, Continue)]
      + [Resume(j, Continue), Resume(j, Continue)] + [Resume(j, Continue)]
  }

  /** The service then is as before the start: not started, with claim, count and slot given back. */
  lemma InterruptedStartIsUndone(h: Host, reg: Registry)
    requires Inv(h) && reg !in h.claim && reg.service !in h.slot && reg.service !in h.started
    ensures var i, g := |h.tasks|, Claimed(h, reg);
      After(g, StopDuringInit(g, reg, i)) == h.(tasks := h.tasks + [Done(reg), Done(reg)])
  {
    var i, g := |h.tasks|, Claimed(h, reg);
    var j := |g.tasks|;
    var stopping := Withdrawn(h, Initializing(reg), AwaitingSeen(reg, i, false), h.slot[reg.service := i]);
    StopsWaiting(h, reg, g, stopping);
    var aborted := Withdrawn(h, Done(reg), AwaitingSeen(reg, i, false), h.slot);
    InitAborts(h, reg, stopping, aborted);
    var waited := Withdrawn(h, Done(reg), TearingDown(reg, false), h.slot);
    StopFindsNobody(h, reg, aborted, waited);
    assert waited.tasks == h.tasks + [Done(reg)] + [TearingDown(reg, false)];
    TearDownEnds(waited, reg, h.tasks + [Done(reg)]);
    assert h.tasks + [Done(reg)] + [Done(reg)] == h.tasks + [Done(reg), Done(reg)];
    assert h.started - {reg.service} == h.started;
    FourParts(g, [CallStop(reg), Resume(j, Continue)], [Resume(i, AbortCheck), Resume(i, Continue)],
      [Resume(j, Continue), Resume(j, Continue)], Resume(j, Continue));
  }

  lemma FourParts(h: Host, a: seq<Event>, b: seq<Event>, c: seq<Event>, last: Event)
    ensures After(h, a + b + c + [last]) == Step(After(After(After(h, a), b), c), last)
  {
    AfterJoin(h, a, b);
    AfterJoin(h, a + b, c);
    AfterJoin(h, a + b + c, [last]);
    var g := After(h, a + b + c);
    assert After(g, [last]) == After(Step(g, last), []);
  }

  /** A registry's start and stop under way side by side, after the stop has withdrawn claim and count. */
  function Withdrawn(h: Host, start: Task, stop: Task, slot: map<nat, TaskId>): Host {
    h.(tasks := h.tasks + [start, stop], slot := slot)
  }

  lemma StopsWaiting(h: Host, reg: Registry, g: Host, t: Host)
    requires Inv(h) && reg !in h.claim && reg.service !in h.slot && g == Claimed(h, reg)
    requires t == Withdrawn(h, Initializing(reg), AwaitingSeen(reg, |h.tasks|, false), h.slot[reg.service := |h.tasks|])
    ensures After(g, [CallStop(reg), Resume(|g.tasks|, Continue)]) == t
  {
    var i, j := |h.tasks|, |g.tasks|;
    TwoSteps(g, CallStop(reg), Resume(j, Continue));
    assert h.claim[reg := i] - {reg} == h.claim;
    var tasks := g.tasks + [AwaitingDeferred(reg, Some(i))];
    assert tasks[j := AwaitingSeen(reg, i, false)] == t.tasks;
  }

  lemma InitAborts(h: Host, reg: Registry, s: Host, t: Host)
    requires reg !in h.claim && reg.service !in h.slot
    requires s == Withdrawn(h, Initializing(reg), AwaitingSeen(reg, |h.tasks|, false), h.slot[reg.service := |h.tasks|])
    requires t == Withdrawn(h, Done(reg), AwaitingSeen(reg, |h.tasks|, false), h.slot)
    ensures After(s, [Resume(|h.tasks|, AbortCheck), Resume(|h.tasks|, Continue)]) == t
  {
    var i := |h.tasks|;
    TwoSteps(s, Resume(i, AbortCheck), Resume(i, Continue));
    assert s.tasks[i := Settled(reg)][i := Done(reg)] == t.tasks;
    assert h.slot[reg.service := i] - {reg.service} == h.slot;
  }

  lemma StopFindsNobody(h: Host, reg: Registry, s: Host, t: Host)
    requires reg.service !in h.slot && reg.service !in h.started
    requires s == Withdrawn(h, Done(reg), AwaitingSeen(reg, |h.tasks|, false), h.slot)
    requires t == Withdrawn(h, Done(reg), TearingDown(reg, false), h.slot)
    ensures After(s, [Resume(|h.tasks| + 1, Continue), Resume(|h.tasks| + 1, Continue)]) == t
  {
    var j := |h.tasks| + 1;
    TwoSteps(s, Resume(j, Continue), Resume(j, Continue));
    assert s.tasks[j := Microtask(reg, false)][j := TearingDown(reg, false)] == t.tasks;
  }

  /** A second start that comes while a first one initialises the service, until the first has ended with
      `last` and the second has looked again. */
  function StartMeetsStart(h: Host, reg: Registry, other: Registry, last: InitMove): seq<Event> {
    var i, j := |h.tasks|, |h.tasks| + 1;
    [CallStart(reg), Resume(i, Continue)] + [CallStart(other), Resume(j, Continue)]
      + [Resume(i, last), Resume(i, Continue)] + [Resume(j, Continue), Resume(j, Continue)] + [Resume(j, Continue)]
  }

  /** The second start waits. If the first succeeds, it has nothing to do; if the first throws, it claims
      the service and initialises it itself. */
  lemma WaitingStartTakesOver(h: Host, reg: Registry, other: Registry, last: InitMove)
    requires Inv(h) && reg.service == other.service && reg !in h.claim
    requires reg.service !in h.slot && reg.service !in h.started && (last.Finish? || last.Throw?)
    ensures After(h, StartMeetsStart(h, reg, other, last)) ==
      var i, j := |h.tasks|, |h.tasks| + 1;
      if last.Finish? then
        h.(tasks := h.tasks + [Done(reg), Done(other)], started := h.started + {reg.service},
           claim := h.claim[reg := i], count := h.count + 1)
      else
        h.(tasks := h.tasks + [Done(reg), Initializing(other)], claim := h.claim[other := j], count := h.count + 1,
           slot := h.slot[reg.service := j])
  {
    var i, j := |h.tasks|, |h.tasks| + 1;
    StartClaims(h, reg);
    var waiting := Claimed(h, reg).(tasks := h.tasks + [Initializing(reg), AwaitingInit(other, i)]);
    SecondWaits(h, reg, other, waiting);
    var ended := FirstEnded(h, reg, other, last);
    FirstEnds(h, reg, other, last, waiting, ended);
    SecondLooks(h, reg, other, last, ended);
    FiveParts(h, [CallStart(reg), Resume(i, Continue)], [CallStart(other), Resume(j, Continue)],
      [Resume(i, last), Resume(i, Continue)], [Resume(j, Continue), Resume(j, Continue)], Resume(j, Continue));
  }

  lemma FiveParts(h: Host, a: seq<Event>, b: seq<Event>, c: seq<Event>, d: seq<Event>, last: Event)
    ensures After(h, a + b + c + d + [last]) == Step(After(After(After(After(h, a), b), c), d), last)
  {
    AfterJoin(h, a, b);
    FourParts(h, a + b, c, d, last);
  }

  /** The first start is over, and the second still waits. */
  function FirstEnded(h: Host, reg: Registry, other: Registry, last: InitMove): Host {
    var g := h.(tasks := h.tasks + [Done(reg), AwaitingInit(other, |h.tasks|)]);
    if last.Finish? then
      g.(started := h.started + {reg.service}, claim := h.claim[reg := |h.tasks|], count := h.count + 1)
    else g
  }

  lemma SecondWaits(h: Host, reg: Registry, other: Registry, t: Host)
    requires reg.service == other.service
    requires t == Claimed(h, reg).(tasks := h.tasks + [Initializing(reg), AwaitingInit(other, |h.tasks|)])
    ensures After(Claimed(h, reg), [CallStart(other), Resume(|h.tasks| + 1, Continue)]) == t
  {
    var g, j := Claimed(h, reg), |h.tasks| + 1;
    TwoSteps(g, CallStart(other), Resume(j, Continue));
    assert (g.tasks + [Starting(other)])[j := AwaitingInit(other, |h.tasks|)] == t.tasks;
  }

  lemma FirstEnds(h: Host, reg: Registry, other: Registry, last: InitMove, s: Host, t: Host)
    requires h.count >= 0 && reg !in h.claim && reg.service !in h.slot && reg.service !in h.started
    requires last.Finish? || last.Throw?
    requires s == Claimed(h, reg).(tasks := h.tasks + [Initializing(reg), AwaitingInit(other, |h.tasks|)])
    requires t == FirstEnded(h, reg, other, last)
    ensures After(s, [Resume(|h.tasks|, last), Resume(|h.tasks|, Continue)]) == t
  {
    var i := |h.tasks|;
    var settled := t.(tasks := h.tasks + [Settled(reg), AwaitingInit(other, i)], slot := h.slot[reg.service := i]);
    TwoSteps(s, Resume(i, last), Resume(i, Continue));
    FirstSettles(h, reg, other, last, s, settled);
    assert settled.tasks[i := Done(reg)] == t.tasks;
    assert h.slot[reg.service := i] - {reg.service} == h.slot;
  }

  lemma FirstSettles(h: Host, reg: Registry, other: Registry, last: InitMove, s: Host, t: Host)
    requires h.count >= 0 && reg !in h.claim && reg.service !in h.started && (last.Finish? || last.Throw?)
    requires s == Claimed(h, reg).(tasks := h.tasks + [Initializing(reg), AwaitingInit(other, |h.tasks|)])
    requires t == FirstEnded(h, reg, other, last).(
      tasks := h.tasks + [Settled(reg), AwaitingInit(other, |h.tasks|)], slot := h.slot[reg.service := |h.tasks|])
    ensures Step(s, Resume(|h.tasks|, last)) == t
  {
    assert s.tasks[|h.tasks| := Settled(reg)] == t.tasks;
    assert h.claim[reg := |h.tasks|] - {reg} == h.claim;
    assert h.started - {reg.service} == h.started;
  }

  lemma SecondLooks(h: Host, reg: Registry, other: Registry, last: InitMove, s: Host)
    requires reg.service == other.service && reg.service !in h.slot && reg.service !in h.started
    requires (last.Finish? || last.Throw?) && s == FirstEnded(h, reg, other, last)
    ensures var j := |h.tasks| + 1;
      Step(After(s, [Resume(j, Continue), Resume(j, Continue)]), Resume(j, Continue)) ==
      if last.Finish? then s.(tasks := h.tasks + [Done(reg), Done(other)])
      else
        h.(tasks := h.tasks + [Done(reg), Initializing(other)], claim := h.claim[other := j], count := h.count + 1,
           slot := h.slot[reg.service := j])
  {
    var j := |h.tasks| + 1;
    TwoSteps(s, Resume(j, Continue), Resume(j, Continue));
    assert s.tasks[j := Done(other)] == h.tasks + [Done(reg), Done(other)];
    assert s.tasks[j := Starting(other)][j := Initializing(other)] == h.tasks + [Done(reg), Initializing(other)];
  }

  /** A stop that interrupted an initialisation and finds the service taken over, by a start in flight or
      one that is through, leaves it alone. */
  lemma InterruptingStopSparesTakeover(h: Host, k: TaskId, reg: Registry, on: TaskId, takenOver: bool)
    requires k < |h.tasks| && h.tasks[k] == AwaitingSeen(reg, on, takenOver)
    requires on < |h.tasks| && HasSettled(h.tasks[on]) && (reg.service in h.slot || reg.service in h.started)
    ensures After(h, [Resume(k, Continue), Resume(k, Continue), Resume(k, Continue)]) == SetTask(h, k, Done(reg))
  {
    var looking, tearing := SetTask(h, k, Microtask(reg, takenOver)), SetTask(h, k, TearingDown(reg, true));
    ThreeSteps(h, Resume(k, Continue), Resume(k, Continue), Resume(k, Continue));
    assert Step(h, Resume(k, Continue)) == looking;
    StopSeesTakeover(h, k, reg, takenOver);
    TakeoverStays(h, k, reg);
  }

  lemma StopSeesTakeover(h: Host, k: TaskId, reg: Registry, takenOver: bool)
    requires k < |h.tasks| && (reg.service in h.slot || reg.service in h.started)
    ensures Step(SetTask(h, k, Microtask(reg, takenOver)), Resume(k, Continue)) == SetTask(h, k, TearingDown(reg, true))
  {
    assert h.tasks[k := Microtask(reg, takenOver)][k := TearingDown(reg, true)] == h.tasks[k := TearingDown(reg, true)];
  }

  lemma TakeoverStays(h: Host, k: TaskId, reg: Registry)
    requires k < |h.tasks|
    ensures Step(SetTask(h, k, TearingDown(reg, true)), Resume(k, Continue)) == SetTask(h, k, Done(reg))
  {
    assert h.tasks[k := TearingDown(reg, true)][k := Done(reg)] == h.tasks[k := Done(reg)];
  }

  /** A full stop during whose wait another registry has begun to initialise the service gives its count
      back, and leaves the service and the command guard alone. */
  lemma FullStopSparesTakeover(h: Host, k: TaskId, reg: Registry)
    requires Inv(h) && k < |h.tasks| && h.tasks[k] == AwaitingDeferred(reg, None) && reg.service in h.slot
    ensures After(h, [Resume(k, Continue), Resume(k, Continue)]) == SetTask(h, k, Done(reg)).(count := h.count - 1)
  {
    OwingSome(h.tasks, k);
    assert h.count >= 1;
    TakenOverStopEnds(h, k, reg);
  }

  lemma TakenOverStopEnds(h: Host, k: TaskId, reg: Registry)
    requires h.count >= 1 && k < |h.tasks| && h.tasks[k] == AwaitingDeferred(reg, None) && reg.service in h.slot
    ensures After(h, [Resume(k, Continue), Resume(k, Continue)]) == SetTask(h, k, Done(reg)).(count := h.count - 1)
  {
    TwoSteps(h, Resume(k, Continue), Resume(k, Continue));
    assert Step(h, Resume(k, Continue)) == SetTask(h.(count := h.count - 1), k, TearingDown(reg, true));
    TakeoverStays(h.(count := h.count - 1), k, reg);
  }
}
