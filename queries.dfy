/**
 * The GraphQL queries the action issues, as selectors over the platform's
 * records, and the three query helpers that read their responses:
 * `findRepositoryIdByName`, `getTagsFromGenericTriggerInEnvironment` and
 * `getBranchIdIdForGitBranch`. A query changes nothing.
 */
module Queries {
  import opened Wrappers
  import opened Records

  /** The index of the first element that `keep` accepts, or `|s|` when there is none. */
  function FirstIndex<T>(s: seq<T>, keep: T -> bool): (i: nat)
    ensures i <= |s|
    ensures i < |s| ==> keep(s[i])
    ensures forall j :: 0 <= j < i ==> !keep(s[j])
  {
    if s == [] then 0
    else if keep(s[0]) then 0
    else 1 + FirstIndex(s[1..], keep)
  }

  /** The elements `keep` accepts, in their original order: a `where` filter. */
  function Filter<T>(s: seq<T>, keep: T -> bool): (r: seq<T>)
    ensures |r| <= |s|
    ensures forall i :: 0 <= i < |r| ==> keep(r[i])
    ensures forall i :: 0 <= i < |s| && keep(s[i]) ==> s[i] in r
    ensures r == [] <==> FirstIndex(s, keep) == |s|
    ensures r != [] ==> r[0] == s[FirstIndex(s, keep)]
  {
    if s == [] then []
    else if keep(s[0]) then [s[0]] + Filter(s[1..], keep)
    else Filter(s[1..], keep)
  }

  /** Filtering a list extended at the end extends the filtered list the same way. */
  lemma {:induction false} FilterAppend<T>(s: seq<T>, t: seq<T>, keep: T -> bool)
    ensures Filter(s + t, keep) == Filter(s, keep) + Filter(t, keep)
  {
    if s != [] {
      assert (s + t)[1..] == s[1..] + t;
      FilterAppend(s[1..], t, keep);
    } else {
      assert s + t == t;
    }
  }

  /** A filter keeps at least two elements exactly when it accepts two positions of the list. */
  lemma {:induction false} FilterKeepsTwo<T>(s: seq<T>, keep: T -> bool)
    ensures |Filter(s, keep)| > 1 <==> exists i, j :: 0 <= i < j < |s| && keep(s[i]) && keep(s[j])
  {
    if s != [] {
      var tail := s[1..];
      FilterKeepsTwo(tail, keep);
      if keep(s[0]) {
        if |Filter(s, keep)| > 1 {
          var k := FirstIndex(tail, keep);
          assert s[k + 1] == tail[k];
        }
        if exists i, j :: 0 <= i < j < |s| && keep(s[i]) && keep(s[j]) {
          var i, j :| 0 <= i < j < |s| && keep(s[i]) && keep(s[j]);
          assert tail[j - 1] == s[j];
          assert Filter(tail, keep) != [];
        }
      } else {
        if exists i, j :: 0 <= i < j < |s| && keep(s[i]) && keep(s[j]) {
          var i, j :| 0 <= i < j < |s| && keep(s[i]) && keep(s[j]);
          assert tail[i - 1] == s[i] && tail[j - 1] == s[j];
        }
        if exists i, j :: 0 <= i < j < |tail| && keep(tail[i]) && keep(tail[j]) {
          var i, j :| 0 <= i < j < |tail| && keep(tail[i]) && keep(tail[j]);
          assert s[i + 1] == tail[i] && s[j + 1] == tail[j];
        }
      }
    }
  }

  // ---------------------------------------------------------------------------
  // Selectors

  predicate IsActiveNamed(e: Environment, name: string) {
    !e.deleted && e.name == name
  }

  /** `environments(where: { deletedAt: null, name })` */
  function ActiveEnvironmentsNamed(envs: seq<Environment>, name: string): seq<Environment> {
    Filter(envs, (e: Environment) => IsActiveNamed(e, name))
  }

  /** `environment(where: { id })`: the environment with that id, deleted or not. */
  function EnvironmentWithId(envs: seq<Environment>, id: string): (r: Option<Environment>)
    ensures r.None? <==> forall i :: 0 <= i < |envs| ==> envs[i].id != id
    ensures r.Some? ==> r.value in envs && r.value.id == id
  {
    var i := FirstIndex(envs, (e: Environment) => e.id == id);
    if i == |envs| then None else Some(envs[i])
  }

  predicate IsActiveTriggerNamed(t: Trigger, environmentId: string, name: string) {
    !t.deleted && t.environmentId == environmentId && t.name == name
  }

  /** `triggers(where: { deleted_at: null, environment_id, name })` */
  function ActiveTriggersNamed(triggers: seq<Trigger>, environmentId: string, name: string): seq<Trigger> {
    Filter(triggers, (t: Trigger) => IsActiveTriggerNamed(t, environmentId, name))
  }

  /** `teamBranches(where: { teamId })` */
  function TeamBranchesOf(branches: seq<TeamBranch>, teamId: string): seq<TeamBranch> {
    Filter(branches, (b: TeamBranch) => b.teamId == teamId)
  }

  /** `codeHostingServiceRepositories(where: { externalFullName })` */
  function RepositoriesNamed(repos: seq<Repository>, fullName: string): seq<Repository> {
    Filter(repos, (r: Repository) => r.externalFullName == fullName)
  }

  predicate IsGenericTriggerOf(t: Trigger, environmentId: string) {
    !t.deleted && t.deploymentProvider == "generic" && t.environmentId == environmentId
  }

  /** An environment's `triggers(where: { deleted_at: null, deployment_provider: "generic" })` */
  function GenericTriggersOf(triggers: seq<Trigger>, environmentId: string): seq<Trigger> {
    Filter(triggers, (t: Trigger) => IsGenericTriggerOf(t, environmentId))
  }

  /** `triggers(where: { deployment_branches: { equals } })`: no `deleted_at` filter. */
  function TriggersForGitBranch(triggers: seq<Trigger>, gitBranch: string): seq<Trigger> {
    Filter(triggers, (t: Trigger) => t.deploymentBranches == gitBranch)
  }

  /** The `branchId` of the environment with that id, or `""` when there is none. */
  function EnvironmentBranchId(envs: seq<Environment>, id: string): string {
    match EnvironmentWithId(envs, id)
    case Some(e) => e.branchId
    case None => ""
  }

  // ---------------------------------------------------------------------------
  // Query helpers

  /** `findRepositoryIdByName`: the id of the first repository with exactly this full name, if any. */
  function FindRepositoryIdByName(repos: seq<Repository>, headRepoFullName: string): (r: Option<string>)
    ensures r.None? <==> forall i :: 0 <= i < |repos| ==> repos[i].externalFullName != headRepoFullName
    ensures r.Some? ==> exists i :: (0 <= i < |repos| && repos[i].externalFullName == headRepoFullName
      && r.value == repos[i].id
      && forall j :: 0 <= j < i ==> repos[j].externalFullName != headRepoFullName)
  {
    var found := RepositoriesNamed(repos, headRepoFullName);
    if found == [] then None else Some(found[0].id)
  }

  function EnvironmentNotFound(environmentId: string): string {
    "Environment not found with ID: " + environmentId + ". Please check the environment ID is correct."
  }

  /**
   * `getTagsFromGenericTriggerInEnvironment`: fails when no environment has the id;
   * otherwise the tags of the environment's first non-deleted generic trigger,
   * or nothing when it has none.
   */
  function GetTagsFromGenericTriggerInEnvironment(envs: seq<Environment>, triggers: seq<Trigger>, environmentId: string)
    : (r: Result<Option<seq<Tag>>>)
    ensures r.Err? <==> forall i :: 0 <= i < |envs| ==> envs[i].id != environmentId
    ensures r.Err? ==> r.error == EnvironmentNotFound(environmentId)
    ensures r.Ok? ==> (r.value.None? <==> forall i :: 0 <= i < |triggers| ==> !IsGenericTriggerOf(triggers[i], environmentId))
    ensures r.Ok? && r.value.Some? ==> exists i :: (0 <= i < |triggers| && IsGenericTriggerOf(triggers[i], environmentId)
      && r.value.value == triggers[i].tags
      && forall j :: 0 <= j < i ==> !IsGenericTriggerOf(triggers[j], environmentId))
  {
    if EnvironmentWithId(envs, environmentId).None? then Err(EnvironmentNotFound(environmentId))
    else
      var generic := GenericTriggersOf(triggers, environmentId);
      if generic == [] then Ok(None) else Ok(Some(generic[0].tags))
  }

  function NoTriggerForGitBranch(gitBranch: string): string {
    "No trigger found for git branch " + gitBranch
  }

  /**
   * `getBranchIdIdForGitBranch`: the environment `branchId` of the first trigger
   * whose deployment branches equal `gitBranch`, deleted triggers included;
   * fails when there is none.
   */
  function GetBranchIdForGitBranch(triggers: seq<Trigger>, gitBranch: string): (r: Result<string>)
    ensures r.Err? <==> forall i :: 0 <= i < |triggers| ==> triggers[i].deploymentBranches != gitBranch
    ensures r.Err? ==> r.error == NoTriggerForGitBranch(gitBranch)
    ensures r.Ok? ==> exists i :: (0 <= i < |triggers| && triggers[i].deploymentBranches == gitBranch
      && r.value == triggers[i].environmentBranchId
      && forall j :: 0 <= j < i ==> triggers[j].deploymentBranches != gitBranch)
  {
    var found := TriggersForGitBranch(triggers, gitBranch);
    if found == [] then Err(NoTriggerForGitBranch(gitBranch)) else Ok(found[0].environmentBranchId)
  }
}
