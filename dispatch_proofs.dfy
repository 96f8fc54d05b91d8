/** What the dispatch pipeline guarantees, proved over every interleaving
    of deliveries and task steps. */
module DispatchProofs {
  import opened Configuration
  import opened Registry
  import opened Dispatch

  // ---------------------------------------------------------------------
  // The per-task view of the trace

  lemma {:induction false} ActionsAppend(trace: seq<Event>, e: Event, id: nat)
    ensures Actions(trace + [e], id) == Actions(trace, id) + (if e.task == id then [e.action] else [])
  {
    assert (trace + [e])[..|trace|] == trace;
  }

  /** A task that caused no event has no effects. */
  lemma {:induction false} ActionsOfAbsentTask(trace: seq<Event>, id: nat)
    requires forall e :: e in trace ==> e.task != id
    ensures Actions(trace, id) == []
  {
    if trace != [] {
      var init := trace[..|trace| - 1];
      assert forall e :: e in init ==> e in trace;
      ActionsOfAbsentTask(init, id);
    }
  }

  // ---------------------------------------------------------------------
  // The invariant holds initially and every move keeps it

  lemma InitialInv(projects: Projects, locks: Locks)
    requires Consistent(projects, locks) && AllFree(locks)
    ensures Inv(projects, Initial(locks))
  {
  }

  /** `tasks'` differs from `tasks` at most in phases, and not in which
      tasks hold a flag nor in how many effects each has caused. */
  ghost predicate SameHolders(tasks: seq<Task>, tasks': seq<Task>) {
    && |tasks'| == |tasks|
    && forall i :: 0 <= i < |tasks| ==>
         && tasks'[i].token == tasks[i].token && tasks'[i].path == tasks[i].path
         && Holding(tasks'[i]) == Holding(tasks[i])
  }

  lemma SameHoldersKeepFlags(projects: Projects, locks: Locks, tasks: seq<Task>, tasks': seq<Task>)
    requires SameHolders(tasks, tasks')
    requires TasksResolved(projects, tasks) && HoldersApart(tasks) && FlagsMatchHolders(locks, tasks)
    ensures TasksResolved(projects, tasks') && HoldersApart(tasks') && FlagsMatchHolders(locks, tasks')
  {
    forall t | t in locks
      ensures locks[t] <==> exists i :: 0 <= i < |tasks'| && tasks'[i].token == t && Holding(tasks'[i])
    {
      if locks[t] {
        var i :| 0 <= i < |tasks| && tasks[i].token == t && Holding(tasks[i]);
        assert tasks'[i].token == t && Holding(tasks'[i]);
      }
    }
  }

  /** With the trace unchanged, tasks that keep their paths and effect
      counts keep the trace invariant. */
  lemma SameEffectsKeepTrace(trace: seq<Event>, tasks: seq<Task>, tasks': seq<Task>)
    requires TraceFollowsTasks(trace, tasks)
    requires |tasks'| == |tasks|
    requires forall i :: 0 <= i < |tasks| ==>
               tasks'[i].path == tasks[i].path && Emitted(tasks'[i].phase) == Emitted(tasks[i].phase)
    ensures TraceFollowsTasks(trace, tasks')
  {
  }

  lemma AdmitKeepsFlags(locks: Locks, tasks: seq<Task>, t: Task)
    requires HoldersApart(tasks) && FlagsMatchHolders(locks, tasks)
    requires t.token in locks && !locks[t.token] && Holding(t)
    ensures HoldersApart(tasks + [t]) && FlagsMatchHolders(locks[t.token := true], tasks + [t])
  {
    var tasks' := tasks + [t];
    var locks' := locks[t.token := true];
    assert tasks'[|tasks|] == t;
    forall i | 0 <= i < |tasks| && Holding(tasks[i])
      ensures tasks[i].token != t.token
    {
    }
    forall u | u in locks'
      ensures locks'[u] <==> exists i :: 0 <= i < |tasks'| && tasks'[i].token == u && Holding(tasks'[i])
    {
      if u != t.token {
        if locks[u] {
          var i :| 0 <= i < |tasks| && tasks[i].token == u && Holding(tasks[i]);
          assert tasks'[i] == tasks[i];
        }
        if exists i :: 0 <= i < |tasks'| && tasks'[i].token == u && Holding(tasks'[i]) {
          var i :| 0 <= i < |tasks'| && tasks'[i].token == u && Holding(tasks'[i]);
          assert i < |tasks| && tasks[i] == tasks'[i];
        }
      }
    }
  }

  lemma AdmitKeepsTrace(trace: seq<Event>, tasks: seq<Task>, t: Task)
    requires TraceFollowsTasks(trace, tasks) && t.phase == Gated
    ensures TraceFollowsTasks(trace, tasks + [t])
  {
    var tasks' := tasks + [t];
    forall e | e in trace ensures e.task != |tasks| { }
    ActionsOfAbsentTask(trace, |tasks|);
    assert forall i :: 0 <= i < |tasks| ==> tasks'[i] == tasks[i];
  }

  lemma ReceivePreservesInv(projects: Projects, mode: FilterMode, s: State, token: string, n: Notification)
    requires Inv(projects, s)
    ensures Inv(projects, Receive(projects, mode, s, token, n).0)
  {
    if Receive(projects, mode, s, token, n).1.Accepted? {
      var t := Task(token, ComposePath(projects[token]), Gated);
      AdmitKeepsFlags(s.locks, s.tasks, t);
      AdmitKeepsTrace(s.trace, s.tasks, t);
      assert TasksResolved(projects, s.tasks + [t]) by {
        assert forall i :: 0 <= i < |s.tasks| ==> (s.tasks + [t])[i] == s.tasks[i];
      }
    }
  }

  lemma AdvanceKeepsTrace(trace: seq<Event>, tasks: seq<Task>, id: nat, p: Phase, a: Action)
    requires TraceFollowsTasks(trace, tasks) && id < |tasks|
    requires Emitted(p) == Emitted(tasks[id].phase) + 1
    requires Expected(Emitted(tasks[id].phase), a, tasks[id].path)
    ensures TraceFollowsTasks(trace + [Event(id, a)], tasks[id := tasks[id].(phase := p)])
  {
    var trace' := trace + [Event(id, a)];
    var tasks' := tasks[id := tasks[id].(phase := p)];
    forall i | 0 <= i < |tasks'|
      ensures |Actions(trace', i)| == Emitted(tasks'[i].phase) && InOrder(Actions(trace', i), tasks'[i].path)
    {
      ActionsAppend(trace, Event(id, a), i);
    }
  }

  /** A task that causes its next expected effect keeps the invariant. */
  lemma AdvancePreservesInv(projects: Projects, s: State, id: nat, p: Phase, a: Action)
    requires Inv(projects, s) && id < |s.tasks|
    requires InFlight(s.tasks[id]) && !p.Released?
    requires Emitted(p) == Emitted(s.tasks[id].phase) + 1
    requires Expected(Emitted(s.tasks[id].phase), a, s.tasks[id].path)
    ensures Inv(projects, Advance(s, id, p, a))
  {
    var tasks' := s.tasks[id := s.tasks[id].(phase := p)];
    UpdateKeepsHolders(s.tasks, id, p);
    SameHoldersKeepFlags(projects, s.locks, s.tasks, tasks');
    AdvanceKeepsTrace(s.trace, s.tasks, id, p, a);
  }

  lemma ReleaseKeepsFlags(locks: Locks, tasks: seq<Task>, id: nat)
    requires HoldersApart(tasks) && FlagsMatchHolders(locks, tasks)
    requires id < |tasks| && Holding(tasks[id])
    ensures var tasks' := tasks[id := tasks[id].(phase := Released)];
              HoldersApart(tasks') && FlagsMatchHolders(locks[tasks[id].token := false], tasks')
  {
    var tasks' := tasks[id := tasks[id].(phase := Released)];
    var locks' := locks[tasks[id].token := false];
    forall t | t in locks'
      ensures locks'[t] <==> exists i :: 0 <= i < |tasks'| && tasks'[i].token == t && Holding(tasks'[i])
    {
      if t != tasks[id].token && locks'[t] {
        var i :| 0 <= i < |tasks| && tasks[i].token == t && Holding(tasks[i]);
        assert i != id && tasks'[i] == tasks[i];
      }
    }
  }

  lemma ReleasePreservesInv(projects: Projects, mode: FilterMode, s: State, id: nat)
    requires Inv(projects, s) && At(s, id, Restarted)
    ensures Inv(projects, Next(projects, mode, s, Release(id)))
  {
    var tasks' := s.tasks[id := s.tasks[id].(phase := Released)];
    ReleaseKeepsFlags(s.locks, s.tasks, id);
    SameEffectsKeepTrace(s.trace, s.tasks, tasks');
    assert TasksResolved(projects, tasks');
  }

  /** Changing one task's phase to another holding phase keeps who holds
      which flag. */
  lemma UpdateKeepsHolders(tasks: seq<Task>, id: nat, p: Phase)
    requires id < |tasks| && Holding(tasks[id]) && !p.Released?
    ensures SameHolders(tasks, tasks[id := tasks[id].(phase := p)])
  {
    var tasks' := tasks[id := tasks[id].(phase := p)];
    forall i | 0 <= i < |tasks|
      ensures tasks'[i].token == tasks[i].token && tasks'[i].path == tasks[i].path
      ensures Holding(tasks'[i]) == Holding(tasks[i])
    {
    }
  }

  lemma PanicPreservesInv(projects: Projects, mode: FilterMode, s: State, id: nat)
    requires Inv(projects, s) && id < |s.tasks| && CanPanic(s.tasks[id].phase)
    ensures Inv(projects, Next(projects, mode, s, Panic(id)))
  {
    var p := Aborted(Emitted(s.tasks[id].phase));
    var tasks' := s.tasks[id := s.tasks[id].(phase := p)];
    assert Next(projects, mode, s, Panic(id)) == State(s.locks, tasks', s.trace);
    UpdateKeepsHolders(s.tasks, id, p);
    SameHoldersKeepFlags(projects, s.locks, s.tasks, tasks');
    SameEffectsKeepTrace(s.trace, s.tasks, tasks');
  }

  lemma SleepPreservesInv(projects: Projects, mode: FilterMode, s: State, id: nat)
    requires Inv(projects, s) && At(s, id, Gated)
    ensures Inv(projects, Next(projects, mode, s, Sleep(id)))
  {
    AdvancePreservesInv(projects, s, id, Slept, Wait(SettleSeconds));
  }

  lemma PullPreservesInv(projects: Projects, mode: FilterMode, s: State, id: nat, status: int)
    requires Inv(projects, s) && At(s, id, Slept)
    ensures Inv(projects, Next(projects, mode, s, RunPull(id, status)))
  {
    AdvancePreservesInv(projects, s, id, Pulled, Pull(s.tasks[id].path, status));
  }

  lemma RestartPreservesInv(projects: Projects, mode: FilterMode, s: State, id: nat, status: int)
    requires Inv(projects, s) && At(s, id, Pulled)
    ensures Inv(projects, Next(projects, mode, s, RunRestart(id, status)))
  {
    AdvancePreservesInv(projects, s, id, Restarted, Restart(s.tasks[id].path, status));
  }

  lemma NextPreservesInv(projects: Projects, mode: FilterMode, s: State, m: Move)
    requires Inv(projects, s)
    ensures Inv(projects, Next(projects, mode, s, m))
  {
    if Enabled(s, m) {
      match m
      case Deliver(token, n) => ReceivePreservesInv(projects, mode, s, token, n);
      case Sleep(id) => SleepPreservesInv(projects, mode, s, id);
      case RunPull(id, status) => PullPreservesInv(projects, mode, s, id, status);
      case RunRestart(id, status) => RestartPreservesInv(projects, mode, s, id, status);
      case Release(id) => ReleasePreservesInv(projects, mode, s, id);
      case Panic(id) => PanicPreservesInv(projects, mode, s, id);
    }
  }

  lemma {:induction false} RunPreservesInv(projects: Projects, mode: FilterMode, s: State, moves: seq<Move>)
    requires Inv(projects, s)
    ensures Inv(projects, Run(projects, mode, s, moves))
    decreases |moves|
  {
    if moves != [] {
      NextPreservesInv(projects, mode, s, moves[0]);
      RunPreservesInv(projects, mode, Next(projects, mode, s, moves[0]), moves[1..]);
    }
  }

  /** Every state reached from a freshly built registry satisfies the
      invariant. */
  lemma ReachableInv(projects: Projects, mode: FilterMode, locks: Locks, moves: seq<Move>)
    requires Consistent(projects, locks) && AllFree(locks)
    ensures Inv(projects, Run(projects, mode, Initial(locks), moves))
  {
    InitialInv(projects, locks);
    RunPreservesInv(projects, mode, Initial(locks), moves);
  }

  // ---------------------------------------------------------------------
  // The guarantees

  /** In any interleaving, two handlers between the set of the flag and its
      reset belong to different projects. */
  lemma MutualExclusion(projects: Projects, mode: FilterMode, locks: Locks, moves: seq<Move>, i: nat, j: nat)
    requires Consistent(projects, locks) && AllFree(locks)
    requires var s := Run(projects, mode, Initial(locks), moves);
               i < |s.tasks| && j < |s.tasks| && i != j && InFlight(s.tasks[i]) && InFlight(s.tasks[j])
    ensures var s := Run(projects, mode, Initial(locks), moves); s.tasks[i].token != s.tasks[j].token
  {
    ReachableInv(projects, mode, locks, moves);
  }

  /** In any interleaving, a project's flag is set exactly when one of its
      handlers is in flight or has panicked after setting it. */
  lemma FlagMeansHolder(projects: Projects, mode: FilterMode, locks: Locks, moves: seq<Move>, t: string)
    requires Consistent(projects, locks) && AllFree(locks)
    requires t in locks
    ensures var s := Run(projects, mode, Initial(locks), moves);
              t in s.locks &&
              (s.locks[t] <==> exists i :: 0 <= i < |s.tasks| && s.tasks[i].token == t && Holding(s.tasks[i]))
  {
    ReachableInv(projects, mode, locks, moves);
  }

  /** A handler that completed normally caused exactly the wait, `pull` and
      `restart`, in that order, both commands on its project's compose path. */
  lemma ReleasedTaskRanInOrder(projects: Projects, mode: FilterMode, locks: Locks, moves: seq<Move>, id: nat)
    requires Consistent(projects, locks) && AllFree(locks)
    requires var s := Run(projects, mode, Initial(locks), moves); id < |s.tasks| && s.tasks[id].phase.Released?
    ensures var s := Run(projects, mode, Initial(locks), moves);
            var acts := Actions(s.trace, id);
              s.tasks[id].token in projects &&
              var path := ComposePath(projects[s.tasks[id].token]);
              |acts| == 3 && acts[0] == Wait(SettleSeconds) &&
              acts[1].Pull? && acts[1].path == path && acts[2].Restart? && acts[2].path == path
  {
    ReachableInv(projects, mode, locks, moves);
    var s := Run(projects, mode, Initial(locks), moves);
    var acts := Actions(s.trace, id);
    assert Expected(0, acts[0], s.tasks[id].path);
    assert Expected(1, acts[1], s.tasks[id].path);
    assert Expected(2, acts[2], s.tasks[id].path);
  }

  /** With a consistent registry the lock lookup after the filter never
      panics. */
  lemma LockLookupNeverPanics(projects: Projects, mode: FilterMode, s: State, token: string, n: Notification)
    requires Inv(projects, s)
    ensures Receive(projects, mode, s, token, n).1 != LockMissing
  {
  }

  /** `restart` follows `pull` whatever `pull` returned, on the same path. */
  lemma RestartFollowsAnyPull(projects: Projects, mode: FilterMode, s: State, id: nat, pulled: int, restarted: int)
    requires Inv(projects, s) && At(s, id, Slept)
    ensures var s1 := Next(projects, mode, s, RunPull(id, pulled));
            var s2 := Next(projects, mode, s1, RunRestart(id, restarted));
            var path := ComposePath(projects[s.tasks[id].token]);
              At(s2, id, Restarted) &&
              Actions(s2.trace, id) == [Wait(SettleSeconds), Pull(path, pulled), Restart(path, restarted)]
  {
    var path := s.tasks[id].path;
    var s1 := Next(projects, mode, s, RunPull(id, pulled));
    ActionsAppend(s.trace, Event(id, Pull(path, pulled)), id);
    ActionsAppend(s1.trace, Event(id, Restart(path, restarted)), id);
    assert Expected(0, Actions(s.trace, id)[0], path);
  }

  /** After a normal completion the project's flag is clear again, so the
      next notification that passes the filter triggers a new redeploy. */
  lemma ReleaseReopensGate(projects: Projects, mode: FilterMode, s: State, id: nat, n: Notification)
    requires Inv(projects, s) && At(s, id, Restarted)
    requires Screen(projects, mode, s.tasks[id].token, n).Pass?
    ensures var s1 := Next(projects, mode, s, Release(id));
              !s1.locks[s.tasks[id].token] &&
              Receive(projects, mode, s1, s.tasks[id].token, n).1 == Accepted(|s.tasks|)
  {
  }

  /** No move changes a task that has panicked. */
  lemma {:induction false} RunKeepsAbortedTask(projects: Projects, mode: FilterMode, s: State, moves: seq<Move>, id: nat)
    requires id < |s.tasks| && s.tasks[id].phase.Aborted?
    ensures var s' := Run(projects, mode, s, moves); id < |s'.tasks| && s'.tasks[id] == s.tasks[id]
    decreases |moves|
  {
    if moves != [] {
      var s1 := Next(projects, mode, s, moves[0]);
      assert id < |s1.tasks| && s1.tasks[id] == s.tasks[id];
      RunKeepsAbortedTask(projects, mode, s1, moves[1..], id);
    }
  }

  /** A panicked handler leaves its project's flag set for ever: no later
      interleaving clears it, so no later notification for that project is
      accepted. */
  lemma PanicBlocksProjectForever(projects: Projects, mode: FilterMode, s: State, moves: seq<Move>, id: nat, n: Notification)
    requires Inv(projects, s) && id < |s.tasks| && s.tasks[id].phase.Aborted?
    ensures var s' := Run(projects, mode, s, moves);
            var t := s.tasks[id].token;
              t in s'.locks && s'.locks[t] && !Receive(projects, mode, s', t, n).1.Accepted?
  {
    RunKeepsAbortedTask(projects, mode, s, moves, id);
    RunPreservesInv(projects, mode, s, moves);
    var s' := Run(projects, mode, s, moves);
    assert s'.tasks[id].token in projects;
    assert Holding(s'.tasks[id]);
  }

  /** Whether move `m` in state `s` concerns project `t`. */
  predicate Concerns(s: State, m: Move, t: string) {
    match m
    case Deliver(token, _) => token == t
    case Sleep(id) => id < |s.tasks| && s.tasks[id].token == t
    case RunPull(id, _) => id < |s.tasks| && s.tasks[id].token == t
    case RunRestart(id, _) => id < |s.tasks| && s.tasks[id].token == t
    case Release(id) => id < |s.tasks| && s.tasks[id].token == t
    case Panic(id) => id < |s.tasks| && s.tasks[id].token == t
  }

  /** Projects are independent: a move for one project neither reads nor
      writes another project's flag, tasks or effects. */
  lemma NextIsLocal(projects: Projects, mode: FilterMode, s: State, m: Move, t: string)
    requires !Concerns(s, m, t)
    ensures var s' := Next(projects, mode, s, m);
              (t in s'.locks <==> t in s.locks) && (t in s.locks ==> s'.locks[t] == s.locks[t]) &&
              |s.tasks| <= |s'.tasks| &&
              forall i :: 0 <= i < |s.tasks| && s.tasks[i].token == t ==>
                s'.tasks[i] == s.tasks[i] && Actions(s'.trace, i) == Actions(s.trace, i)
  {
    var s' := Next(projects, mode, s, m);
    if Enabled(s, m) && (m.Sleep? || m.RunPull? || m.RunRestart?) {
      var e := s'.trace[|s'.trace| - 1];
      assert s'.trace == s.trace + [e] && e.task == m.id;
      forall i | 0 <= i < |s.tasks| && s.tasks[i].token == t
        ensures Actions(s'.trace, i) == Actions(s.trace, i)
      {
        ActionsAppend(s.trace, e, i);
      }
    }
  }

  /** Two projects whose flags are clear both accept a notification, one
      after the other, without interfering. */
  lemma DistinctProjectsBothProceed(projects: Projects, mode: FilterMode, s: State,
                                    a: string, na: Notification, b: string, nb: Notification)
    requires Inv(projects, s) && a != b
    requires Screen(projects, mode, a, na).Pass? && Screen(projects, mode, b, nb).Pass?
    requires !s.locks[a] && !s.locks[b]
    ensures var s1 := Next(projects, mode, s, Deliver(a, na));
              Receive(projects, mode, s, a, na).1 == Accepted(|s.tasks|) &&
              Receive(projects, mode, s1, b, nb).1 == Accepted(|s.tasks| + 1)
  {
  }

  lemma {:induction false} RunFirst(projects: Projects, mode: FilterMode, s: State, m: Move, rest: seq<Move>)
    ensures Run(projects, mode, s, [m] + rest) == Run(projects, mode, Next(projects, mode, s, m), rest)
  {
    assert ([m] + rest)[1..] == rest;
  }

  /** An admitted handler that meets no panic waits, runs `pull` and
      `restart` on its path and clears its project's flag. */
  lemma CompletedRedeploy(projects: Projects, mode: FilterMode, s: State, id: nat, pulled: int, restarted: int)
    requires At(s, id, Gated)
    ensures var task := s.tasks[id];
              Run(projects, mode, s, [Sleep(id), RunPull(id, pulled), RunRestart(id, restarted), Release(id)]) ==
              State(s.locks[task.token := false], s.tasks[id := task.(phase := Released)],
                    s.trace + [Event(id, Wait(SettleSeconds)), Event(id, Pull(task.path, pulled)),
                               Event(id, Restart(task.path, restarted))])
  {
    var task := s.tasks[id];
    var s1 := Advance(s, id, Slept, Wait(SettleSeconds));
    var s2 := Advance(s1, id, Pulled, Pull(task.path, pulled));
    var s3 := Advance(s2, id, Restarted, Restart(task.path, restarted));
    var s4 := Next(projects, mode, s3, Release(id));
    RunFirst(projects, mode, s3, Release(id), []);
    RunFirst(projects, mode, s2, RunRestart(id, restarted), [Release(id)]);
    RunFirst(projects, mode, s1, RunPull(id, pulled), [RunRestart(id, restarted), Release(id)]);
    RunFirst(projects, mode, s, Sleep(id), [RunPull(id, pulled), RunRestart(id, restarted), Release(id)]);
    assert s4.tasks == s.tasks[id := task.(phase := Released)];
  }

  /** A project with no package filter, a well-formed notification: one
      redeploy runs, waiting, then `pull` and `restart` on the project's
      compose path, and the flag ends clear. */
  lemma EndToEndRedeploy(p: Project, mode: FilterMode, pulled: int, restarted: int)
    requires p.token == "abc" && p.packageNames.None?
    ensures var moves := [Deliver("abc", Notification(Some("app"))), Sleep(0), RunPull(0, pulled),
                          RunRestart(0, restarted), Release(0)];
            var s := Run(map["abc" := p], mode, Initial(map["abc" := false]), moves);
              s.locks == map["abc" := false] &&
              s.trace == [Event(0, Wait(SettleSeconds)), Event(0, Pull(ComposePath(p), pulled)),
                          Event(0, Restart(ComposePath(p), restarted))]
  {
    var projects := map["abc" := p];
    var s0 := Initial(map["abc" := false]);
    var s1 := Next(projects, mode, s0, Deliver("abc", Notification(Some("app"))));
    assert s1 == State(map["abc" := true], [Task("abc", ComposePath(p), Gated)], []);
    var rest := [Sleep(0), RunPull(0, pulled), RunRestart(0, restarted), Release(0)];
    RunFirst(projects, mode, s0, Deliver("abc", Notification(Some("app"))), rest);
    CompletedRedeploy(projects, mode, s1, 0, pulled, restarted);
  }

  // ---------------------------------------------------------------------
  // Bursts

  /** Delivering a burst of notifications for one token back to back, with
      no task step in between: the state after it and the number accepted. */
  function DeliverAll(projects: Projects, mode: FilterMode, s: State, token: string, ns: seq<Notification>): (State, nat)
    decreases |ns|
  {
    if ns == [] then (s, 0)
    else
      var (s1, outcome) := Receive(projects, mode, s, token, ns[0]);
      var (s2, k) := DeliverAll(projects, mode, s1, token, ns[1..]);
      (s2, k + if outcome.Accepted? then 1 else 0)
  }

  /** A burst triggers at most one redeploy: exactly one when the flag was
      clear and some notification in it passes the filter, none otherwise. */
  lemma {:induction false} BurstTriggersAtMostOnce(projects: Projects, mode: FilterMode, s: State, token: string, ns: seq<Notification>)
    ensures DeliverAll(projects, mode, s, token, ns).1 <= 1
    ensures DeliverAll(projects, mode, s, token, ns).1 == 1 <==>
              token in s.locks && !s.locks[token] &&
              exists k :: 0 <= k < |ns| && Screen(projects, mode, token, ns[k]).Pass?
    decreases |ns|
  {
    if ns != [] {
      var (s1, outcome) := Receive(projects, mode, s, token, ns[0]);
      BurstTriggersAtMostOnce(projects, mode, s1, token, ns[1..]);
      if outcome.Accepted? {
        assert s1.locks[token];
        assert DeliverAll(projects, mode, s1, token, ns[1..]).1 == 0;
      } else {
        assert s1 == s;
        if token in s.locks && !s.locks[token] {
          assert Screen(projects, mode, token, ns[0]).Reject?;
          assert (exists k :: 0 <= k < |ns| && Screen(projects, mode, token, ns[k]).Pass?) <==>
                 (exists k :: 0 <= k < |ns[1..]| && Screen(projects, mode, token, ns[1..][k]).Pass?) by {
            forall k | 0 <= k < |ns| && Screen(projects, mode, token, ns[k]).Pass?
              ensures 0 <= k - 1 < |ns[1..]| && Screen(projects, mode, token, ns[1..][k - 1]).Pass?
            {
            }
            forall k | 0 <= k < |ns[1..]| && Screen(projects, mode, token, ns[1..][k]).Pass?
              ensures Screen(projects, mode, token, ns[k + 1]).Pass?
            {
            }
          }
        }
      }
    }
  }

  // ---------------------------------------------------------------------
  // The package-name filter

  /** As written, a listed name is turned away and an unlisted one proceeds:
      the opposite of what "unknown package name" describes. */
  lemma ListedNameRejectedAsWritten(projects: Projects, token: string, name: string)
    requires token in projects && projects[token].packageNames.Some?
    ensures Screen(projects, AsWritten, token, Notification(Some(name))) == Reject(FilteredOut) <==>
              name in projects[token].packageNames.value
  {
  }

  /** A concrete instance: a project that lists exactly its own package
      turns that package's notifications away. */
  lemma AsWrittenTurnsAwayOwnPackage()
    ensures var p := Project("abc", "/srv/app", DefaultComposeFile, Some(["app"]));
            Screen(map["abc" := p], AsWritten, "abc", Notification(Some("app"))) == Reject(FilteredOut) &&
            Screen(map["abc" := p], AsWritten, "abc", Notification(Some("other"))).Pass?
  {
  }

  /** As intended, a configured list admits exactly the names on it. */
  lemma AllowListAdmitsExactlyListed(projects: Projects, token: string, name: string)
    requires token in projects && projects[token].packageNames.Some?
    ensures Screen(projects, AllowList, token, Notification(Some(name))).Pass? <==>
              name in projects[token].packageNames.value
  {
  }

  /** Without a configured list, both polarities let every package through. */
  lemma UnfilteredProjectAdmitsEveryPackage(projects: Projects, mode: FilterMode, token: string, name: string)
    requires token in projects && projects[token].packageNames.None?
    ensures Screen(projects, mode, token, Notification(Some(name))).Pass?
  {
  }
}
