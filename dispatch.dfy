/** The webhook dispatch pipeline of `webhook_handler` (src/main.rs) as a
    state machine over the per-project "running" flags.

    Concurrent handlers are modelled as interleavings of atomic moves. A
    delivery runs the stages that touch no shared state (resolve the token,
    require a package, apply the filter) together with the check-and-set of
    the flag, which the source does under one lock acquisition. A handler
    that passes the gate becomes a task that then sleeps, runs `pull`, runs
    `restart` and resets the flag, one move at a time; a panic of one of its
    `unwrap()`s ends it with the flag still set. */
module Dispatch {
  import opened Configuration
  import opened Registry

  /** The settling delay before the first command, in seconds. */
  const SettleSeconds: nat := 5

  /** A notification, reduced to the one field the handler reads: the name
      of the published package, absent when the payload lacks one. */
  datatype Notification = Notification(packageName: Option<string>)

  /** Which polarity the package-name filter has: the source's as written,
      or the allow-list its log message describes. */
  datatype FilterMode = AsWritten | AllowList

  /** The filter as written: a name that IS in the configured list is
      turned away. */
  predicate RejectsListedName(packageNames: Option<seq<string>>, name: string) {
    packageNames.Some? && name in packageNames.value
  }

  /** The filter as intended: a configured list is an allow-list, and a
      name outside it is turned away. */
  predicate RejectsUnlistedName(packageNames: Option<seq<string>>, name: string) {
    packageNames.Some? && name !in packageNames.value
  }

  predicate FilterRejects(mode: FilterMode, packageNames: Option<seq<string>>, name: string) {
    match mode
    case AsWritten => RejectsListedName(packageNames, name)
    case AllowList => RejectsUnlistedName(packageNames, name)
  }

  /** Why a notification stopped before the gate. */
  datatype Rejection = UnknownToken | MissingPackage | FilteredOut

  datatype Screened = Pass(project: Project) | Reject(reason: Rejection)

  /** The three stages before the gate, in the source's order. */
  function Screen(projects: Projects, mode: FilterMode, token: string, n: Notification): (r: Screened)
    ensures r == Reject(UnknownToken) <==> token !in projects
    ensures r == Reject(MissingPackage) <==> token in projects && n.packageName.None?
    ensures r == Reject(FilteredOut) <==>
              token in projects && n.packageName.Some? &&
              FilterRejects(mode, projects[token].packageNames, n.packageName.value)
    ensures r.Pass? ==> token in projects && r.project == projects[token]
  {
    if token !in projects then Reject(UnknownToken)
    else if n.packageName.None? then Reject(MissingPackage)
    else if FilterRejects(mode, projects[token].packageNames, n.packageName.value) then Reject(FilteredOut)
    else Pass(projects[token])
  }

  /** An external effect: the settling wait, or one `docker compose -f
      <path> ...` command with the exit status it returned. */
  datatype Action = Wait(seconds: nat) | Pull(path: string, status: int) | Restart(path: string, status: int)

  /** An effect, tagged with the number of the handler that caused it. */
  datatype Event = Event(task: nat, action: Action)

  /** Where an admitted handler is: each phase names the last step done.
      `Aborted(k)` is a panic after `k` effects. */
  datatype Phase = Gated | Slept | Pulled | Restarted | Released | Aborted(emitted: nat)

  /** An admitted handler: its token, the compose path it computed, its phase. */
  datatype Task = Task(token: string, path: string, phase: Phase)

  /** The mutable world: the flags, the admitted handlers (indexed by task
      number) and the effects in the order they happened. */
  datatype State = State(locks: Locks, tasks: seq<Task>, trace: seq<Event>)

  /** What a delivery ends in. `LockMissing` is the panic of the lock lookup,
      which a consistent registry rules out. */
  datatype Outcome = Rejected(reason: Rejection) | LockMissing | AlreadyRunning | Accepted(task: nat)

  function Initial(locks: Locks): State {
    State(locks, [], [])
  }

  /** One delivery up to and including the check-and-set of the flag. */
  function Receive(projects: Projects, mode: FilterMode, s: State, token: string, n: Notification): (r: (State, Outcome))
    ensures !r.1.Accepted? ==> r.0 == s
    ensures r.1.Rejected? <==> Screen(projects, mode, token, n).Reject?
    ensures r.1 == AlreadyRunning <==>
              Screen(projects, mode, token, n).Pass? && token in s.locks && s.locks[token]
    ensures r.1.Accepted? <==>
              Screen(projects, mode, token, n).Pass? && token in s.locks && !s.locks[token]
    ensures r.1.Accepted? ==>
              && r.1.task == |s.tasks|
              && r.0.locks == s.locks[token := true]
              && r.0.tasks == s.tasks + [Task(token, ComposePath(projects[token]), Gated)]
              && r.0.trace == s.trace
  {
    match Screen(projects, mode, token, n)
    case Reject(why) => (s, Rejected(why))
    case Pass(project) =>
      if token !in s.locks then (s, LockMissing)
      else if s.locks[token] then (s, AlreadyRunning)
      else (State(s.locks[token := true], s.tasks + [Task(token, ComposePath(project), Gated)], s.trace),
            Accepted(|s.tasks|))
  }

  /** One atomic step of the system: a new delivery, or the next step of an
      admitted task. */
  datatype Move =
    | Deliver(token: string, n: Notification)
    | Sleep(id: nat)
    | RunPull(id: nat, status: int)
    | RunRestart(id: nat, status: int)
    | Release(id: nat)
    | Panic(id: nat)

  predicate At(s: State, id: nat, p: Phase) {
    id < |s.tasks| && s.tasks[id].phase == p
  }

  /** The phases at which a handler past the gate can end early. An
      `unwrap()` panics at the spawn of `pull`, the decoding of its output
      or the spawn of `restart`, or the decoding of `restart`'s output. The
      handler's future can also be dropped at any of its `.await`s: the
      sleep, the two commands, or the second lock acquisition. */
  predicate CanPanic(p: Phase) {
    p.Gated? || p.Slept? || p.Pulled? || p.Restarted?
  }

  predicate Enabled(s: State, m: Move) {
    match m
    case Deliver(_, _) => true
    case Sleep(id) => At(s, id, Gated)
    case RunPull(id, _) => At(s, id, Slept)
    case RunRestart(id, _) => At(s, id, Pulled)
    case Release(id) => At(s, id, Restarted)
    case Panic(id) => id < |s.tasks| && CanPanic(s.tasks[id].phase)
  }

  /** Number of effects a task in phase `p` has caused. */
  function Emitted(p: Phase): nat {
    match p
    case Gated => 0
    case Slept => 1
    case Pulled => 2
    case Restarted => 3
    case Released => 3
    case Aborted(k) => k
  }

  /** Task `id` moves to phase `p` and causes effect `a`. */
  function Advance(s: State, id: nat, p: Phase, a: Action): State
    requires id < |s.tasks|
  {
    State(s.locks, s.tasks[id := s.tasks[id].(phase := p)], s.trace + [Event(id, a)])
  }

  /** The effect of one move; a move that is not enabled changes nothing. */
  function Next(projects: Projects, mode: FilterMode, s: State, m: Move): State {
    if !Enabled(s, m) then s
    else match m
      case Deliver(token, n) => Receive(projects, mode, s, token, n).0
      case Sleep(id) => Advance(s, id, Slept, Wait(SettleSeconds))
      case RunPull(id, status) => Advance(s, id, Pulled, Pull(s.tasks[id].path, status))
      case RunRestart(id, status) => Advance(s, id, Restarted, Restart(s.tasks[id].path, status))
      case Release(id) =>
        State(s.locks[s.tasks[id].token := false], s.tasks[id := s.tasks[id].(phase := Released)], s.trace)
      case Panic(id) =>
        State(s.locks, s.tasks[id := s.tasks[id].(phase := Aborted(Emitted(s.tasks[id].phase)))], s.trace)
  }

  /** The state after an interleaving of moves. */
  function Run(projects: Projects, mode: FilterMode, s: State, moves: seq<Move>): State
    decreases |moves|
  {
    if moves == [] then s else Run(projects, mode, Next(projects, mode, s, moves[0]), moves[1..])
  }

  /** The effects of task `id`, in order. */
  function Actions(trace: seq<Event>, id: nat): (r: seq<Action>)
    ensures |r| <= |trace|
  {
    if trace == [] then []
    else Actions(trace[..|trace| - 1], id) +
         (if trace[|trace| - 1].task == id then [trace[|trace| - 1].action] else [])
  }

  /** The `k`-th effect of a task deploying from `path`: the wait, then
      `pull`, then `restart`, each with whatever status it returned. */
  predicate Expected(k: nat, a: Action, path: string) {
    || (k == 0 && a == Wait(SettleSeconds))
    || (k == 1 && a.Pull? && a.path == path)
    || (k == 2 && a.Restart? && a.path == path)
  }

  ghost predicate InOrder(acts: seq<Action>, path: string) {
    forall k :: 0 <= k < |acts| ==> Expected(k, acts[k], path)
  }

  /** A task that has set its project's flag and not reset it: in flight,
      or aborted by a panic. */
  predicate Holding(t: Task) {
    !t.phase.Released?
  }

  /** A task between the set of the flag and its reset. */
  predicate InFlight(t: Task) {
    t.phase.Gated? || t.phase.Slept? || t.phase.Pulled? || t.phase.Restarted?
  }

  /** Every admitted task belongs to a registered project and deploys from
      that project's compose path. */
  ghost predicate TasksResolved(projects: Projects, tasks: seq<Task>) {
    forall i :: 0 <= i < |tasks| ==>
      tasks[i].token in projects && tasks[i].path == ComposePath(projects[tasks[i].token])
  }

  /** No two tasks of one project hold its flag at once. */
  ghost predicate HoldersApart(tasks: seq<Task>) {
    forall i, j ::
      0 <= i < |tasks| && 0 <= j < |tasks| && i != j && Holding(tasks[i]) && Holding(tasks[j])
      ==> tasks[i].token != tasks[j].token
  }

  /** A project's flag is set exactly when one of its tasks holds it. */
  ghost predicate FlagsMatchHolders(locks: Locks, tasks: seq<Task>) {
    forall t :: t in locks ==>
      (locks[t] <==> exists i :: 0 <= i < |tasks| && tasks[i].token == t && Holding(tasks[i]))
  }

  /** Every effect was caused by an admitted task, and each task's effects
      are the prefix of wait, `pull`, `restart` that its phase says. */
  ghost predicate TraceFollowsTasks(trace: seq<Event>, tasks: seq<Task>) {
    && (forall e :: e in trace ==> e.task < |tasks|)
    && (forall i :: 0 <= i < |tasks| ==>
          |Actions(trace, i)| == Emitted(tasks[i].phase) && InOrder(Actions(trace, i), tasks[i].path))
  }

  /** The invariant of every reachable state. */
  ghost predicate Inv(projects: Projects, s: State) {
    && Consistent(projects, s.locks)
    && TasksResolved(projects, s.tasks)
    && HoldersApart(s.tasks)
    && FlagsMatchHolders(s.locks, s.tasks)
    && TraceFollowsTasks(s.trace, s.tasks)
  }
}
