/**
 * Finding or creating the preview environment of a branch or pull request:
 * `getOrCreateEnvironment` (lookup by name, then create) and
 * `findOrCreateEnvironment` (the same, followed by promotion of the team's
 * workflows into the new environment's branch when the team has several
 * branches).
 */
module Environments {
  import opened Wrappers
  import opened Records
  import opened Naming
  import opened Queries
  import opened Store

  const EnvironmentIdMissing := "Environment ID not found in response"
  const BaseBranchIdMissing := "Base branch ID not found in response"
  const PromotionFailed := "Promotion failed"
  /** What reading `branchId` of the `null` base environment throws. */
  const BaseEnvironmentNull := "Cannot read properties of null (reading 'branchId')"

  /** The id the name lookup answers with: that of the first non-deleted environment so named. */
  function ExistingEnvironmentId(envs: seq<Environment>, name: string): (r: Option<string>)
    ensures r.None? <==> forall i :: 0 <= i < |envs| ==> !IsActiveNamed(envs[i], name)
    ensures r.Some? ==> exists i :: (0 <= i < |envs| && IsActiveNamed(envs[i], name) && r.value == envs[i].id
      && forall j :: 0 <= j < i ==> !IsActiveNamed(envs[j], name))
  {
    var found := ActiveEnvironmentsNamed(envs, name);
    if found == [] then None else Some(found[0].id)
  }

  /** The lookup both variants start with, under the name derived from the branch or pull request. */
  function Lookup(envs: seq<Environment>, branch: string, pr: Option<PullRequest>): Option<string> {
    ExistingEnvironmentId(envs, EnvironmentName(branch, pr))
  }

  /** Environments that differ only in their variables answer the name lookup alike. */
  lemma SameShapeLookup(before: seq<Environment>, after: seq<Environment>, name: string)
    requires |after| == |before|
    requires forall i :: 0 <= i < |after| ==>
      after[i].id == before[i].id && after[i].name == before[i].name && after[i].deleted == before[i].deleted
    ensures ExistingEnvironmentId(after, name) == ExistingEnvironmentId(before, name)
  {
    var rb := ExistingEnvironmentId(before, name);
    forall i | 0 <= i < |after|
      ensures IsActiveNamed(after[i], name) == IsActiveNamed(before[i], name)
    {
    }
    if rb.Some? {
      var i :| 0 <= i < |before| && IsActiveNamed(before[i], name) && rb.value == before[i].id
        && forall j :: 0 <= j < i ==> !IsActiveNamed(before[j], name);
      FirstActiveIsFound(after, name, i);
    }
  }

  /** An active environment so named with none before it is the one the lookup finds. */
  lemma FirstActiveIsFound(envs: seq<Environment>, name: string, i: nat)
    requires i < |envs| && IsActiveNamed(envs[i], name)
    requires forall j :: 0 <= j < i ==> !IsActiveNamed(envs[j], name)
    ensures ExistingEnvironmentId(envs, name) == Some(envs[i].id)
  {
    var r := ExistingEnvironmentId(envs, name);
    var k :| 0 <= k < |envs| && IsActiveNamed(envs[k], name) && r.value == envs[k].id
      && forall j :: 0 <= j < k ==> !IsActiveNamed(envs[j], name);
    if k < i {
      assert false;
    } else if i < k {
      assert false;
    }
  }

  /** Environments added after the ones looked up leave a successful lookup as it was. */
  lemma {:induction false} LookupStable(envs: seq<Environment>, more: seq<Environment>, name: string)
    requires ExistingEnvironmentId(envs, name).Some?
    ensures ExistingEnvironmentId(envs + more, name) == ExistingEnvironmentId(envs, name)
  {
    FilterAppend(envs, more, (e: Environment) => IsActiveNamed(e, name));
  }

  /** An environment created because the lookup found none is what the same lookup finds next. */
  lemma {:induction false} CreatedIsFound(envs: seq<Environment>, name: string, teamId: string, answer: CreatedEnvironment)
    requires ExistingEnvironmentId(envs, name).None?
    requires answer.id != ""
    ensures ExistingEnvironmentId(envs + CreatedEnvironments(name, teamId, answer), name) == Some(answer.id)
  {
    var keep := (e: Environment) => IsActiveNamed(e, name);
    var created := CreatedEnvironments(name, teamId, answer);
    FilterAppend(envs, created, keep);
    assert Filter(envs, keep) == [];
    assert Filter(created, keep) == created by {
      assert keep(created[0]);
      assert created[1..] == [];
    }
  }

  /**
   * `getOrCreateEnvironment`: the id of the first non-deleted environment named
   * after the branch or pull request, or else the id of one environment
   * created under that name for the team.
   */
  method GetOrCreateEnvironment(remote: Remote, branch: string, pr: Option<PullRequest>, teamId: string,
                                answer: CreatedEnvironment)
    returns (r: Result<string>)
    modifies remote
    ensures old(Lookup(remote.environments, branch, pr)).Some? ==>
      r == Ok(old(Lookup(remote.environments, branch, pr)).value) && unchanged(remote)
    ensures old(Lookup(remote.environments, branch, pr)).None? ==>
      && remote.received == old(remote.received) + [Request.CreateEnvironment(EnvironmentName(branch, pr), teamId)]
      && remote.environments == old(remote.environments) + CreatedEnvironments(EnvironmentName(branch, pr), teamId, answer)
      && remote.teamBranches == old(remote.teamBranches) + CreatedTeamBranches(old(remote.teamBranches), teamId, answer)
      && r == (if answer.id != "" then Ok(answer.id) else Err(EnvironmentIdMissing))
    ensures remote.triggers == old(remote.triggers) && remote.repositories == old(remote.repositories)
    // a repeated call finds the returned environment and so creates nothing
    ensures r.Ok? ==> Lookup(remote.environments, branch, pr) == Some(r.value)
  {
    var name := EnvironmentName(branch, pr);
    var existing := ExistingEnvironmentId(remote.environments, name);
    if existing.Some? {
      return Ok(existing.value);
    }
    ghost var before := remote.environments;
    remote.CreateEnvironment(name, teamId, answer);
    if answer.id == "" {
      return Err(EnvironmentIdMissing);
    }
    CreatedIsFound(before, name, teamId, answer);
    r := Ok(answer.id);
  }

  /** Whether the team has more than one team branch. */
  predicate HasMultipleBranches(branches: seq<TeamBranch>, teamId: string)
    ensures HasMultipleBranches(branches, teamId) <==>
      exists i, j :: 0 <= i < j < |branches| && branches[i].teamId == teamId && branches[j].teamId == teamId
  {
    FilterKeepsTwo(branches, (b: TeamBranch) => b.teamId == teamId);
    |TeamBranchesOf(branches, teamId)| > 1
  }

  /** The environment `environment(where: { id: baseEnvironmentId })` answers with; none without an id. */
  function BaseEnvironment(envs: seq<Environment>, baseEnvironmentId: Option<string>): (r: Option<Environment>)
    ensures r.Some? ==> baseEnvironmentId.Some? && r.value in envs && r.value.id == baseEnvironmentId.value
    ensures baseEnvironmentId.Some? && r.None? ==> forall i :: 0 <= i < |envs| ==> envs[i].id != baseEnvironmentId.value
  {
    match baseEnvironmentId
    case None => None
    case Some(id) => EnvironmentWithId(envs, id)
  }

  /**
   * The promotion gate, over the store as it is after the creation: an
   * environment was created, the team has several branches and the base
   * environment has a branch.
   */
  predicate PromotionDue(envs: seq<Environment>, branches: seq<TeamBranch>, teamId: string,
                         baseEnvironmentId: Option<string>, answer: CreatedEnvironment)
    // an environment was created, the team has two branches, and the base environment is stored with a branch
    ensures PromotionDue(envs, branches, teamId, baseEnvironmentId, answer) ==>
      && answer.id != ""
      && (exists i, j :: 0 <= i < j < |branches| && branches[i].teamId == teamId && branches[j].teamId == teamId)
      && baseEnvironmentId.Some?
      && exists k :: 0 <= k < |envs| && envs[k].id == baseEnvironmentId.value && envs[k].branchId != ""
  {
    && answer.id != ""
    && HasMultipleBranches(branches, teamId)
    && BaseEnvironment(envs, baseEnvironmentId).Some?
    && BaseEnvironment(envs, baseEnvironmentId).value.branchId != ""
  }

  /**
   * `findOrCreateEnvironment`: as `GetOrCreateEnvironment`, and when it has
   * created the environment of a team with several branches, it promotes the
   * workflows of the base environment's branch into the new environment's
   * branch.
   */
  method FindOrCreateEnvironment(remote: Remote, branch: string, pr: Option<PullRequest>, teamId: string,
                                 baseEnvironmentId: Option<string>, answer: CreatedEnvironment, promotionAnswered: bool)
    returns (r: Result<string>)
    modifies remote
    ensures old(Lookup(remote.environments, branch, pr)).Some? ==>
      r == Ok(old(Lookup(remote.environments, branch, pr)).value) && unchanged(remote)
    ensures old(Lookup(remote.environments, branch, pr)).None? ==>
      && remote.environments == old(remote.environments) + CreatedEnvironments(EnvironmentName(branch, pr), teamId, answer)
      && remote.teamBranches == old(remote.teamBranches) + CreatedTeamBranches(old(remote.teamBranches), teamId, answer)
      && remote.received == old(remote.received) + [Request.CreateEnvironment(EnvironmentName(branch, pr), teamId)]
        + if PromotionDue(remote.environments, remote.teamBranches, teamId, baseEnvironmentId, answer)
          then [PromoteWorkflowsToBranch(BaseEnvironment(remote.environments, baseEnvironmentId).value.branchId, answer.branchId)]
          else []
    ensures remote.triggers == old(remote.triggers) && remote.repositories == old(remote.repositories)
    // the outcome once an environment was created
    ensures old(Lookup(remote.environments, branch, pr)).None? ==>
      r == if answer.id == "" then Err(EnvironmentIdMissing)
        else if !HasMultipleBranches(remote.teamBranches, teamId) then Ok(answer.id)
        else if BaseEnvironment(remote.environments, baseEnvironmentId).None? then Err(BaseEnvironmentNull)
        else if BaseEnvironment(remote.environments, baseEnvironmentId).value.branchId == "" then Err(BaseBranchIdMissing)
        else if !promotionAnswered then Err(PromotionFailed)
        else Ok(answer.id)
    ensures r.Ok? ==> Lookup(remote.environments, branch, pr) == Some(r.value)
  {
    var name := EnvironmentName(branch, pr);
    var existing := ExistingEnvironmentId(remote.environments, name);
    if existing.Some? {
      return Ok(existing.value);
    }
    ghost var before := remote.environments;
    remote.CreateEnvironment(name, teamId, answer);
    if answer.id == "" {
      return Err(EnvironmentIdMissing);
    }
    CreatedIsFound(before, name, teamId, answer);
    if !HasMultipleBranches(remote.teamBranches, teamId) {
      return Ok(answer.id);
    }
    var base := BaseEnvironment(remote.environments, baseEnvironmentId);
    if base.None? {
      return Err(BaseEnvironmentNull);
    }
    var baseBranchId := base.value.branchId;
    if baseBranchId == "" {
      return Err(BaseBranchIdMissing);
    }
    var hasData := remote.PromoteWorkflowsToBranch(baseBranchId, answer.branchId, promotionAnswered);
    if !hasData {
      return Err(PromotionFailed);
    }
    r := Ok(answer.id);
  }

  /**
   * The promotion gate seen from the team branches: when the team had at most
   * one branch and the new environment brings none, no promotion is due.
   */
  lemma NoPromotionWithoutSecondBranch(branches: seq<TeamBranch>, envs: seq<Environment>, teamId: string,
                                         baseEnvironmentId: Option<string>, answer: CreatedEnvironment)
    requires |TeamBranchesOf(branches, teamId)| <= 1
    requires answer.branchId == ""
    ensures !PromotionDue(envs, branches + CreatedTeamBranches(branches, teamId, answer), teamId, baseEnvironmentId, answer)
  {
    assert CreatedTeamBranches(branches, teamId, answer) == [];
    assert branches + [] == branches;
  }

  /**
   * Creating the environment of a team with exactly one branch adds a second
   * one when the new branch is not a team branch yet, so promotion is due when
   * the base has a branch.
   */
  lemma {:induction false} SecondBranchTriggersPromotion(branches: seq<TeamBranch>, envs: seq<Environment>, teamId: string,
                                                        baseEnvironmentId: Option<string>, answer: CreatedEnvironment)
    requires |TeamBranchesOf(branches, teamId)| == 1
    requires answer.id != "" && answer.branchId != ""
    requires forall i :: 0 <= i < |branches| ==> branches[i].id != answer.branchId
    requires BaseEnvironment(envs, baseEnvironmentId).Some? && BaseEnvironment(envs, baseEnvironmentId).value.branchId != ""
    ensures PromotionDue(envs, branches + CreatedTeamBranches(branches, teamId, answer), teamId, baseEnvironmentId, answer)
  {
    var keep := (b: TeamBranch) => b.teamId == teamId;
    var created := CreatedTeamBranches(branches, teamId, answer);
    FilterAppend(branches, created, keep);
    assert Filter(created, keep) == created by {
      assert keep(created[0]);
      assert created[1..] == [];
    }
  }

  /**
   * A new environment whose branch is already the team's only branch adds no
   * team branch, so no promotion is due.
   */
  lemma ReusedBranchAddsNone(branches: seq<TeamBranch>, envs: seq<Environment>, teamId: string,
                             baseEnvironmentId: Option<string>, answer: CreatedEnvironment, i: nat)
    requires |TeamBranchesOf(branches, teamId)| <= 1
    requires i < |branches| && branches[i].id == answer.branchId
    ensures !PromotionDue(envs, branches + CreatedTeamBranches(branches, teamId, answer), teamId, baseEnvironmentId, answer)
  {
    assert CreatedTeamBranches(branches, teamId, answer) == [];
    assert branches + [] == branches;
  }
}
