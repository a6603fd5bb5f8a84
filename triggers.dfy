/**
 * `findOrCreateTrigger`: the deployment trigger that starts the preview
 * environment's runs, looked up by environment and name and created when
 * missing.
 */
module Triggers {
  import opened Wrappers
  import opened Records
  import opened Naming
  import opened Queries
  import opened Store

  const TriggerIdMissing := "Trigger ID not found in response"
  const PreviewDeploymentEnvironment := "qawolf-preview"
  const GenericProvider := "generic"

  /** `tags?.map((tag) => tag.id)` */
  function TagIds(tags: Option<seq<Tag>>): (r: Option<seq<string>>)
    ensures r.None? <==> tags.None?
    ensures r.Some? ==> |r.value| == |tags.value| && forall i :: 0 <= i < |r.value| ==> r.value[i] == tags.value[i].id
  {
    match tags
    case None => None
    case Some(ts) => Some(seq(|ts|, i requires 0 <= i < |ts| => ts[i].id))
  }

  /**
   * The variables of the `createTrigger` request for a branch or pull
   * request. Every created trigger carries the branch itself as deployment
   * branches (with or without a pull request), the preview deployment
   * environment, the generic provider, the given environment, team and
   * repository, and the tag ids in order.
   */
  function TriggerCreation(branch: string, environmentId: string, pr: Option<PullRequest>, teamId: string,
                           repositoryId: Option<string>, tags: Option<seq<Tag>>): (t: TriggerRequest)
    ensures t.name == TriggerName(branch, pr)
    ensures t.deploymentBranches == branch
    ensures t.deploymentEnvironment == "qawolf-preview" && t.deploymentProvider == "generic"
    ensures t.environmentId == environmentId && t.teamId == teamId && t.repositoryId == repositoryId
    ensures t.tagIds.None? <==> tags.None?
    ensures tags.Some? ==>
      |t.tagIds.value| == |tags.value| && forall i :: 0 <= i < |tags.value| ==> t.tagIds.value[i] == tags.value[i].id
  {
    TriggerRequest(repositoryId, branch, PreviewDeploymentEnvironment, GenericProvider, environmentId,
                   TriggerName(branch, pr), teamId, TagIds(tags))
  }

  /** The id the trigger lookup answers with: that of the first non-deleted trigger of the environment so named. */
  function ExistingTriggerId(triggers: seq<Trigger>, environmentId: string, name: string): (r: Option<string>)
    ensures r.None? <==> forall i :: 0 <= i < |triggers| ==> !IsActiveTriggerNamed(triggers[i], environmentId, name)
    ensures r.Some? ==> exists i :: (0 <= i < |triggers| && IsActiveTriggerNamed(triggers[i], environmentId, name)
      && r.value == triggers[i].id
      && forall j :: 0 <= j < i ==> !IsActiveTriggerNamed(triggers[j], environmentId, name))
  {
    var found := ActiveTriggersNamed(triggers, environmentId, name);
    if found == [] then None else Some(found[0].id)
  }

  /** A trigger created because the lookup found none is what the same lookup finds next. */
  lemma {:induction false} CreatedTriggerIsFound(triggers: seq<Trigger>, request: TriggerRequest, tags: seq<Tag>,
                                                 answerId: string, envs: seq<Environment>)
    requires ExistingTriggerId(triggers, request.environmentId, request.name).None?
    requires answerId != ""
    ensures ExistingTriggerId(triggers + CreatedTriggers(request, tags, answerId, envs), request.environmentId, request.name)
      == Some(answerId)
  {
    var keep := (t: Trigger) => IsActiveTriggerNamed(t, request.environmentId, request.name);
    var created := CreatedTriggers(request, tags, answerId, envs);
    FilterAppend(triggers, created, keep);
    assert Filter(triggers, keep) == [];
    assert Filter(created, keep) == created by {
      assert keep(created[0]);
      assert created[1..] == [];
    }
  }

  /**
   * `findOrCreateTrigger`: the id of the first non-deleted trigger of the
   * environment named after the branch or pull request, or else the id of
   * the trigger it creates with `TriggerCreation`'s fields.
   */
  method FindOrCreateTrigger(remote: Remote, branch: string, environmentId: string, pr: Option<PullRequest>,
                             teamId: string, repositoryId: Option<string>, tags: Option<seq<Tag>>, answerId: string)
    returns (r: Result<string>)
    modifies remote
    ensures old(ExistingTriggerId(remote.triggers, environmentId, TriggerName(branch, pr))).Some? ==>
      r == Ok(old(ExistingTriggerId(remote.triggers, environmentId, TriggerName(branch, pr))).value) && unchanged(remote)
    ensures old(ExistingTriggerId(remote.triggers, environmentId, TriggerName(branch, pr))).None? ==>
      && remote.received == old(remote.received)
           + [Request.CreateTrigger(TriggerCreation(branch, environmentId, pr, teamId, repositoryId, tags))]
      && remote.triggers == old(remote.triggers) + CreatedTriggers(
           TriggerCreation(branch, environmentId, pr, teamId, repositoryId, tags), tags.GetOr([]), answerId, remote.environments)
      && r == (if answerId != "" then Ok(answerId) else Err(TriggerIdMissing))
    ensures remote.environments == old(remote.environments) && remote.repositories == old(remote.repositories)
    ensures remote.teamBranches == old(remote.teamBranches)
    // a repeated call finds the returned trigger and so creates nothing
    ensures r.Ok? ==> ExistingTriggerId(remote.triggers, environmentId, TriggerName(branch, pr)) == Some(r.value)
  {
    var name := TriggerName(branch, pr);
    var existing := ExistingTriggerId(remote.triggers, environmentId, name);
    if existing.Some? {
      return Ok(existing.value);
    }
    var request := TriggerCreation(branch, environmentId, pr, teamId, repositoryId, tags);
    ghost var before := remote.triggers;
    remote.CreateTrigger(request, tags.GetOr([]), answerId);
    if answerId == "" {
      return Err(TriggerIdMissing);
    }
    CreatedTriggerIsFound(before, request, tags.GetOr([]), answerId, remote.environments);
    r := Ok(answerId);
  }
}
