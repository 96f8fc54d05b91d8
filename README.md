# autopilot: the webhook redeploy trigger, modelled in Dafny

autopilot listens for package-registry webhooks. A notification names a
project by its token. If the project is known, the payload names a package
and the package passes the project's filter, autopilot sets that project's
"running" flag. It then waits five seconds, runs
`docker compose -f <compose path> pull`, runs `... restart` and clears the
flag. A notification that finds the flag already set is dropped. A burst of
notifications for one publish therefore triggers one redeploy.

The model has five modules:

- `Configuration` (config.dfy) holds the `Project` record. `LoadProject`
  applies the `docker-compose.yaml` default for a missing `compose_file`.
  `Join` is `Path::join` on Unix and `ComposePath` uses it. `Config` carries
  a `Port` subset type of 0..65535 for the `u16` port. `DefaultConfig` is
  `Config::default()`. All of it is pure.
- `Registry` (registry.dfy) holds the start-up loop of `main` as a method
  with a `for` loop. The loop builds the token-to-project map and the
  token-to-flag map. It stops with exit status 1 at the first repeated token.
- `Dispatch` (dispatch.dfy) specifies `webhook_handler` as a state machine
  over the flags. Concurrency is modelled as interleavings of atomic moves:
  - `Deliver` covers the token lookup, the package check, the filter and
    the check-and-set of the flag, which the source does under one lock
    acquisition.
  - `Sleep`, `RunPull` and `RunRestart` each add one effect, with an
    arbitrary exit status, to a global trace.
  - `Release` is the reset of the flag.
  - `Panic` ends a handler past the gate early: a failed `unwrap()`, or its
    future dropped at an `.await` (the sleep included). The flag stays set.
  - `Inv` is the invariant of every reachable state.
- `DispatchProofs` (dispatch_proofs.dfy) proves that every move keeps
  `Inv`, and states the guarantees over all interleavings.
- `Server` (app_state.dfy) holds the class `AppState`. Its fields are
  updated in place, one method per atomic step of a handler. Each method's
  postcondition equates the new state with the `Dispatch` transition from
  the old one. `Boot` is `main` up to serving, and `BurstOfFive` is a
  client of the class.

The package-name filter exists in two polarities, chosen by `FilterMode`.
`AsWritten` is the source's behaviour: a name that is in `package_names` is
turned away (src/main.rs:72). The log text "Received unknown package name"
on that branch (src/main.rs:73) suggests an allow-list was meant, which is
`AllowList`. The model keeps the code's polarity as `AsWritten`, and every
state-machine theorem is proved for both modes. See "## Findings".

A scoped guard would reset the flag on every exit path. The code resets it
only on the normal path (src/main.rs:126-127), so a handler that ends early
leaves it set, and the model follows the code (`PanicBlocksProjectForever`).

## Model

| member | source | states |
|---|---|---|
| `Configuration.LoadProject` | src/config.rs:9-20 | a missing `compose_file` becomes "docker-compose.yaml"; token, location and package list are copied unchanged |
| `Configuration.Join` | src/config.rs:23-26 | an absolute file replaces the directory; otherwise the result starts with the directory and ends with the file, and a separator is inserted exactly when the directory is non-empty and does not end in one; the result is absolute iff either part is |
| `Configuration.ComposePath` | src/config.rs:22-27 | a relative compose file lies under the location; an absolute one is used as is; being a function of the record, it leaves the project unchanged |
| `Configuration.DefaultComposePath` | src/config.rs:13-26 | a project without `compose_file` under a plain directory deploys from `<location>/docker-compose.yaml` |
| `Configuration.DefaultConfig` | src/config.rs:36-44 | the default configuration is host "localhost", port 5000, no projects |
| `Registry.BuildRegistry` | src/main.rs:152-163 | exits with status 1 iff two configured projects share a token; otherwise both maps have exactly the configured tokens as keys, every flag is clear, and each token maps to the project configured with it |
| `Dispatch.Screen` | src/main.rs:50-78 | the stages before the gate reject an unknown token, then a payload without a package, then a name the filter turns away, each exactly in its case; otherwise the notification passes with the token's project |
| `Dispatch.Receive` | src/main.rs:50-95 | every outcome other than acceptance leaves the whole state unchanged (no flag written, no effect); the flag already set gives "already running"; acceptance happens exactly when the filter passes and the flag was clear, and then sets the flag and admits a task on the project's compose path, with the trace untouched |
| `DispatchProofs.InitialInv` | src/main.rs:152-163 | a consistent registry with all flags clear satisfies the invariant |
| `DispatchProofs.NextPreservesInv` | src/main.rs:85-127 | every atomic move keeps the invariant |
| `DispatchProofs.ReachableInv` | src/main.rs:85-127 | every interleaving from a freshly built registry reaches only states satisfying the invariant |
| `DispatchProofs.MutualExclusion` | src/main.rs:85-127 | in any interleaving, two distinct handlers between the set of the flag and its reset belong to different projects |
| `DispatchProofs.FlagMeansHolder` | src/main.rs:85-127 | in any interleaving, a project's flag is set exactly when one of its handlers is in flight or ended early after setting it |
| `DispatchProofs.ReleasedTaskRanInOrder` | src/main.rs:97-122 | in any interleaving, a handler that completed caused exactly the 5-second wait, then `pull`, then `restart`, both on its project's compose path |
| `DispatchProofs.RestartFollowsAnyPull` | src/main.rs:100-122 | `restart` follows `pull` whatever exit status `pull` returned, on the same path |
| `DispatchProofs.CompletedRedeploy` | src/main.rs:97-127 | an admitted handler that does not end early appends wait, `pull`, `restart` for its path to the trace and clears its project's flag |
| `DispatchProofs.LockLookupNeverPanics` | src/main.rs:85 | under the invariant, the lock lookup of a resolved token never fails |
| `DispatchProofs.ReleaseReopensGate` | src/main.rs:126-127 | after the reset, the next notification that passes the filter is accepted again |
| `DispatchProofs.PanicBlocksProjectForever` | src/main.rs:97-127 | after a handler past the gate ends early, no interleaving clears the project's flag, and no later notification for it is accepted |
| `DispatchProofs.NextIsLocal` | src/main.rs:85-127 | a move for one project leaves every other project's flag, tasks and effects unchanged |
| `DispatchProofs.DistinctProjectsBothProceed` | src/main.rs:85-95 | notifications for two different projects with clear flags are both accepted |
| `DispatchProofs.BurstTriggersAtMostOnce` | src/main.rs:80-95 | a burst of notifications for one token delivered back to back admits at most one handler, and exactly one iff the flag was clear and some notification passes the filter |
| `DispatchProofs.EndToEndRedeploy` | src/main.rs:45-128 | for project "abc" without filter, a well-formed notification runs to completion as wait, `pull`, `restart` on the compose path, and the flag ends clear |
| `DispatchProofs.ListedNameRejectedAsWritten` | src/main.rs:70-78 | as written, with a package list configured, a notification is filtered out iff its name is on the list |
| `DispatchProofs.AsWrittenTurnsAwayOwnPackage` | src/main.rs:70-78 | a project listing "app" turns away "app" and lets "other" through |
| `DispatchProofs.AllowListAdmitsExactlyListed` | src/main.rs:70-78 | with the corrected polarity, a notification passes iff its name is on the list |
| `DispatchProofs.UnfilteredProjectAdmitsEveryPackage` | src/main.rs:70-78 | without a package list, every named package passes, in both polarities |
| `Server.AppState.constructor` | src/main.rs:165-169 | the shared state starts with the built maps, no handlers and no effects, and satisfies the invariant |
| `Server.AppState.WebhookHandler` | src/main.rs:45-95 | the handler's early returns and its check-and-set, updating the flags in place, produce exactly the `Receive` transition; the lock lookup never fails |
| `Server.AppState.Sleep` | src/main.rs:97-98 | the settling wait is the `Sleep` transition and keeps the invariant |
| `Server.AppState.RunPull` | src/main.rs:100-110 | `pull` on that handler's compose path is the `RunPull` transition and keeps the invariant |
| `Server.AppState.RunRestart` | src/main.rs:112-122 | `restart` on that handler's compose path is the `RunRestart` transition and keeps the invariant |
| `Server.AppState.Release` | src/main.rs:124-127 | the reset clears that project's flag, is the `Release` transition and keeps the invariant |
| `Server.AppState.Panic` | src/main.rs:97-127 | ending a handler early (a panic, or its future dropped at an `.await`) leaves every flag as it was, that project's flag set, and keeps the invariant |
| `Server.Boot` | src/main.rs:151-169 | start-up stops iff two projects share a token; otherwise the state serves exactly the configured tokens, each with the project configured under it, uses the chosen filter mode, and has all flags clear, no handlers and no effects |
| `Server.BurstOfFive` | src/main.rs:80-95 | five notifications for one project arriving before the first handler sleeps: the first is accepted, the other four find it running |

## Left out

- HTTP routing, `index_handler` and its version string, and socket binding are framework plumbing. The handler takes the token and the notification as parameters.
- JSON deserialisation of the payload: a notification is only its optional package name.
- `parse_config`, which merges `App.toml` with `APP_` environment variables, is file and environment I/O. The model takes the configured projects as input.
- Logging and the `RUST_LOG` set-up have no effect on behaviour.
- The real duration of the sleep, tokio's scheduling and the fairness of its `Mutex`. The wait is a trace event and handlers interleave at atomic steps. The locks taken at src/main.rs:86 and :126 are held only around the check-and-set and the reset, so those two are atomic moves.
- Running `docker`: each command is an event with an arbitrary exit status, and its standard output and error are not modelled. A failure to spawn it or to decode its output as UTF-8 is the `Panic` move.
- Whether the HTTP framework actually drops a handler's future, for example when the client disconnects, is framework behaviour. The `Panic` move allows an early end at every `.await` past the gate, so every theorem also covers the case where it never happens.
- The `to_str().unwrap()` at src/main.rs:59 cannot fail: `location` and `compose_file` are UTF-8 strings and joining them stays UTF-8. It is therefore not a move.
- `Configuration.Join`: models Unix paths only. Windows drive prefixes and verbatim paths are not modelled.
- The trace and task list of `AppState` are modelling devices that record the world's effects and the in-flight handlers. The source keeps no such record.

## Findings

| source | as written | input that shows it | evidently intended | confidence | as-written member | corrected member |
|---|---|---|---|---|---|---|
| src/main.rs:70-78 | a notification whose package name IS in `package_names` is dropped, and any other name proceeds | `package_names = ["app"]`, notification for package "app": dropped; for "other": redeployed | `package_names` is an allow-list: only listed names proceed (the log line says "unknown package name") | high; not executed | `DispatchProofs.AsWrittenTurnsAwayOwnPackage` | `DispatchProofs.AllowListAdmitsExactlyListed` |
