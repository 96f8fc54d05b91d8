/** Start-up construction of the project registry and of one "running" flag
    per project (the loop in `main`, src/main.rs). */
module Registry {
  import opened Configuration

  /** Token to project: read-only once built. */
  type Projects = map<string, Project>

  /** Token to "a redeploy of this project is running". */
  type Locks = map<string, bool>

  /** What start-up ends in: `exit(1)` on a configuration error, or the two
      maps handed to the server. */
  datatype Startup = Exit(code: int) | Ready(projects: Projects, locks: Locks)

  /** Two configured projects share a token. */
  ghost predicate DuplicateTokens(configured: seq<Project>) {
    exists i, j :: 0 <= i < j < |configured| && configured[i].token == configured[j].token
  }

  function Tokens(configured: seq<Project>): set<string> {
    set i | 0 <= i < |configured| :: configured[i].token
  }

  /** The registry and the flags are indexed by the same tokens, and every
      project is filed under its own token. */
  ghost predicate Consistent(projects: Projects, locks: Locks) {
    && projects.Keys == locks.Keys
    && forall t :: t in projects ==> projects[t].token == t
  }

  ghost predicate AllFree(locks: Locks) {
    forall t :: t in locks ==> !locks[t]
  }

  /** Builds both maps in one pass over the configured projects, stopping
      with exit status 1 at the first token seen twice. */
  method BuildRegistry(configured: seq<Project>) returns (r: Startup)
    ensures r.Exit? <==> DuplicateTokens(configured)
    ensures r.Exit? ==> r.code == 1
    ensures r.Ready? ==> r.projects.Keys == Tokens(configured)
    ensures r.Ready? ==> Consistent(r.projects, r.locks) && AllFree(r.locks)
    ensures r.Ready? ==>
              forall i :: 0 <= i < |configured| ==> r.projects[configured[i].token] == configured[i]
  {
    var projects: Projects := map[];
    var locks: Locks := map[];
    for i := 0 to |configured|
      invariant projects.Keys == set k | 0 <= k < i :: configured[k].token
      invariant Consistent(projects, locks) && AllFree(locks)
      invariant forall k :: 0 <= k < i ==> projects[configured[k].token] == configured[k]
      invariant forall a, b :: 0 <= a < b < i ==> configured[a].token != configured[b].token
    {
      var project := configured[i];
      if project.token in projects {
        var k :| 0 <= k < i && configured[k].token == project.token;
        assert configured[k].token == configured[i].token;
        return Exit(1);
      }
      projects := projects[project.token := project];
      locks := locks[project.token := false];
    }
    return Ready(projects, locks);
  }
}
