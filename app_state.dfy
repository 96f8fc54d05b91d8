/** The shared server state and the handler's steps as in-place updates
    (`AppState` and `webhook_handler`, src/main.rs). Each method is one
    atomic step of one handler; its postcondition ties the new state to the
    corresponding transition of the Dispatch state machine, and `Valid()`
    is that machine's invariant. */
module Server {
  import opened Configuration
  import opened Registry
  import opened Dispatch
  import opened DispatchProofs

  class AppState {
    const projects: Projects
    const mode: FilterMode
    /** The "running" flag of every project. */
    var locks: Locks
    /** The handlers that got past the gate, by task number. */
    var tasks: seq<Task>
    /** The external effects, in the order they happened. */
    var trace: seq<Event>

    function Snapshot(): State
      reads this
    {
      State(locks, tasks, trace)
    }

    ghost predicate Valid()
      reads this
    {
      Inv(projects, Snapshot())
    }

    /** The state handed to the router once the registry is built. */
    constructor (projects: Projects, locks: Locks, mode: FilterMode)
      requires Consistent(projects, locks) && AllFree(locks)
      ensures Valid()
      ensures this.projects == projects && this.mode == mode
      ensures Snapshot() == Initial(locks)
    {
      this.projects := projects;
      this.mode := mode;
      this.locks := locks;
      this.tasks := [];
      this.trace := [];
      new;
      InitialInv(projects, locks);
    }

    /** A delivery: resolve the token, require a package, apply the filter,
        then check and set the flag under one lock acquisition. Every early
        return leaves the state alone. */
    method WebhookHandler(token: string, n: Notification) returns (outcome: Outcome)
      requires Valid()
      modifies this
      ensures Valid()
      ensures (Snapshot(), outcome) == Receive(projects, mode, old(Snapshot()), token, n)
      ensures outcome != LockMissing
    {
      ghost var before := Snapshot();
      if token !in projects {
        assert Screen(projects, mode, token, n) == Reject(UnknownToken);
        return Rejected(UnknownToken);
      }
      var project := projects[token];
      var composePath := ComposePath(project);
      if n.packageName.None? {
        assert Screen(projects, mode, token, n) == Reject(MissingPackage);
        return Rejected(MissingPackage);
      }
      var name := n.packageName.value;
      if FilterRejects(mode, project.packageNames, name) {
        assert Screen(projects, mode, token, n) == Reject(FilteredOut);
        return Rejected(FilteredOut);
      }
      assert Screen(projects, mode, token, n) == Pass(project);
      // the lock lookup cannot fail: the registry and the flags share their keys
      assert token in locks;
      if locks[token] {
        return AlreadyRunning;
      }
      locks := locks[token := true];
      tasks := tasks + [Task(token, composePath, Gated)];
      outcome := Accepted(|tasks| - 1);
      assert Receive(projects, mode, before, token, n) == (Snapshot(), outcome);
      ReceivePreservesInv(projects, mode, before, token, n);
    }

    /** Task `id` waits the settling delay. */
    method Sleep(id: nat)
      requires Valid() && At(Snapshot(), id, Gated)
      modifies this
      ensures Valid()
      ensures Snapshot() == Next(projects, mode, old(Snapshot()), Dispatch.Sleep(id))
    {
      NextPreservesInv(projects, mode, Snapshot(), Dispatch.Sleep(id));
      trace := trace + [Event(id, Wait(SettleSeconds))];
      tasks := tasks[id := tasks[id].(phase := Slept)];
    }

    /** Task `id` runs `docker compose -f <path> pull`, which exits with `status`. */
    method RunPull(id: nat, status: int)
      requires Valid() && At(Snapshot(), id, Slept)
      modifies this
      ensures Valid()
      ensures Snapshot() == Next(projects, mode, old(Snapshot()), Dispatch.RunPull(id, status))
    {
      NextPreservesInv(projects, mode, Snapshot(), Dispatch.RunPull(id, status));
      trace := trace + [Event(id, Pull(tasks[id].path, status))];
      tasks := tasks[id := tasks[id].(phase := Pulled)];
    }

    /** Task `id` runs `docker compose -f <path> restart`, whatever `pull` returned. */
    method RunRestart(id: nat, status: int)
      requires Valid() && At(Snapshot(), id, Pulled)
      modifies this
      ensures Valid()
      ensures Snapshot() == Next(projects, mode, old(Snapshot()), Dispatch.RunRestart(id, status))
    {
      NextPreservesInv(projects, mode, Snapshot(), Dispatch.RunRestart(id, status));
      trace := trace + [Event(id, Restart(tasks[id].path, status))];
      tasks := tasks[id := tasks[id].(phase := Restarted)];
    }

    /** Task `id` takes the lock again and resets the flag. */
    method Release(id: nat)
      requires Valid() && At(Snapshot(), id, Restarted)
      modifies this
      ensures Valid()
      ensures Snapshot() == Next(projects, mode, old(Snapshot()), Dispatch.Release(id))
      ensures !locks[tasks[id].token]
    {
      NextPreservesInv(projects, mode, Snapshot(), Dispatch.Release(id));
      locks := locks[tasks[id].token := false];
      tasks := tasks[id := tasks[id].(phase := Released)];
    }

    /** Task `id` ends early, by a panic of an `unwrap()` or by its future
        being dropped at an `.await`: its flag stays set. */
    method Panic(id: nat)
      requires Valid() && id < |tasks| && CanPanic(tasks[id].phase)
      modifies this
      ensures Valid()
      ensures Snapshot() == Next(projects, mode, old(Snapshot()), Dispatch.Panic(id))
      ensures locks == old(locks) && locks[tasks[id].token]
    {
      NextPreservesInv(projects, mode, Snapshot(), Dispatch.Panic(id));
      tasks := tasks[id := tasks[id].(phase := Aborted(Emitted(tasks[id].phase)))];
      assert tasks[id].token in projects && Holding(tasks[id]);
    }
  }

  /** Start-up: build the registry from the configured projects and hand
      the state to the router, or stop (`exit(1)`) on a repeated token. */
  method Boot(config: Config, mode: FilterMode) returns (state: AppState?)
    ensures state == null <==> DuplicateTokens(config.projects)
    ensures state != null ==>
              && fresh(state) && state.Valid()
              && state.projects.Keys == Tokens(config.projects)
              && (forall i :: 0 <= i < |config.projects| ==>
                    state.projects[config.projects[i].token] == config.projects[i])
              && state.locks.Keys == Tokens(config.projects) && AllFree(state.locks)
              && state.mode == mode
              && state.tasks == [] && state.trace == []
  {
    var startup := BuildRegistry(config.projects);
    match startup
    case Exit(_) =>
      state := null;
    case Ready(projects, locks) =>
      state := new AppState(projects, locks, mode);
  }

  /** Five notifications for the same project arrive before the first
      admitted handler has slept: exactly one gets past the gate. */
  method BurstOfFive() returns (outcomes: seq<Outcome>)
    ensures outcomes == [Accepted(0), AlreadyRunning, AlreadyRunning, AlreadyRunning, AlreadyRunning]
  {
    var entry := ProjectEntry("abc", "/srv/app", None, None);
    var project := LoadProject(entry);
    DefaultComposePath(entry);
    var path := ComposePath(project);
    var state := new AppState(map["abc" := project], map["abc" := false], AsWritten);
    var published := Notification(Some("app"));
    var first := state.WebhookHandler("abc", published);
    outcomes := [first];
    for k := 1 to 5
      invariant state.Valid() && state.projects == map["abc" := project] && state.mode == AsWritten
      invariant state.Snapshot() == State(map["abc" := true], [Task("abc", path, Gated)], [])
      invariant |outcomes| == k && outcomes[0] == Accepted(0)
      invariant forall j :: 1 <= j < k ==> outcomes[j] == AlreadyRunning
    {
      var outcome := state.WebhookHandler("abc", published);
      outcomes := outcomes + [outcome];
    }
  }
}
