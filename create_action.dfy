/**
 * `createEnvironmentAction`: get or create the preview environment, overlay
 * the caller's variables on the base environment's and upsert them, look up
 * the repository and the base environment's tags, then find or create the
 * deployment trigger. The first step that fails ends the action.
 */
module CreateAction {
  import opened Wrappers
  import opened Records
  import opened Naming
  import opened Queries
  import opened Store
  import opened Environments
  import opened Variables
  import opened Triggers

  /**
   * The base environment's variables, or `{}` when no base environment id is
   * given; fails when no environment has that id.
   */
  function BaseVariables(envs: seq<Environment>, baseEnvironmentId: Option<string>): (r: Result<map<string, string>>)
    ensures !Truthy(baseEnvironmentId) ==> r == Ok(map[])
    ensures Truthy(baseEnvironmentId) ==>
      (r.Err? <==> forall i :: 0 <= i < |envs| ==> envs[i].id != baseEnvironmentId.value)
    ensures r.Err? ==> r.error == EnvironmentNotFound(baseEnvironmentId.value)
    ensures Truthy(baseEnvironmentId) && r.Ok? ==>
      exists i :: 0 <= i < |envs| && envs[i].id == baseEnvironmentId.value && r.value == envs[i].variables
  {
    if !Truthy(baseEnvironmentId) then Ok(map[])
    else match EnvironmentWithId(envs, baseEnvironmentId.value)
      case None => Err(EnvironmentNotFound(baseEnvironmentId.value))
      case Some(e) => Ok(e.variables)
  }

  /** The tags of the base environment's first generic trigger, or none without a base environment id. */
  function BaseTags(envs: seq<Environment>, triggers: seq<Trigger>, baseEnvironmentId: Option<string>)
    : (r: Result<Option<seq<Tag>>>)
    ensures !Truthy(baseEnvironmentId) ==> r == Ok(None)
    ensures Truthy(baseEnvironmentId) ==>
      r == GetTagsFromGenericTriggerInEnvironment(envs, triggers, baseEnvironmentId.value)
  {
    if !Truthy(baseEnvironmentId) then Ok(None)
    else GetTagsFromGenericTriggerInEnvironment(envs, triggers, baseEnvironmentId.value)
  }

  /**
   * Once the base variables were found, the tags step cannot fail: upserts
   * keep every environment's id, so the base environment is still there.
   */
  lemma TagsFollowBaseVariables(before: seq<Environment>, after: seq<Environment>, triggers: seq<Trigger>,
                                baseEnvironmentId: Option<string>)
    requires BaseVariables(before, baseEnvironmentId).Ok?
    requires |after| == |before| && forall i :: 0 <= i < |after| ==> after[i].id == before[i].id
    ensures BaseTags(after, triggers, baseEnvironmentId).Ok?
  {
    if Truthy(baseEnvironmentId) {
      var i :| 0 <= i < |before| && before[i].id == baseEnvironmentId.value;
      assert after[i].id == baseEnvironmentId.value;
    }
  }

  /** Upserts change environments' variables only. */
  lemma UpsertsKeepShape(before: seq<Environment>, after: seq<Environment>, environmentId: string,
                         variables: map<string, string>, rejected: set<string>)
    requires EnvironmentsAfter(before, after, environmentId, variables, variables.Keys, rejected)
    ensures |after| == |before|
    ensures forall i :: 0 <= i < |after| ==>
      after[i].id == before[i].id && after[i].name == before[i].name && after[i].deleted == before[i].deleted
  {
  }

  /** The environments once the first step ran: a new one appended when the lookup found none. */
  function EnvironmentsAfterLookup(envs: seq<Environment>, branch: string, pr: Option<PullRequest>, teamId: string,
                                   answer: CreatedEnvironment): seq<Environment>
  {
    envs + if Lookup(envs, branch, pr).None? then CreatedEnvironments(EnvironmentName(branch, pr), teamId, answer) else []
  }

  /** The team branches the first step adds: the new environment's branch when the lookup found none. */
  function TeamBranchesAfterLookup(envs: seq<Environment>, branches: seq<TeamBranch>, branch: string,
                                   pr: Option<PullRequest>, teamId: string, answer: CreatedEnvironment)
    : seq<TeamBranch>
  {
    if Lookup(envs, branch, pr).None? then CreatedTeamBranches(branches, teamId, answer) else []
  }

  /** The request of the first step: a creation when the lookup found none. */
  function EnvironmentRequests(envs: seq<Environment>, branch: string, pr: Option<PullRequest>, teamId: string)
    : seq<Request>
  {
    if Lookup(envs, branch, pr).None? then [Request.CreateEnvironment(EnvironmentName(branch, pr), teamId)] else []
  }

  /** The outcome of the first step. */
  function EnvironmentOutcome(envs: seq<Environment>, branch: string, pr: Option<PullRequest>, answer: CreatedEnvironment)
    : Result<string>
  {
    match Lookup(envs, branch, pr)
    case Some(id) => Ok(id)
    case None => if answer.id != "" then Ok(answer.id) else Err(EnvironmentIdMissing)
  }

  /** Whether a request upserts a variable of, or creates a trigger for, the environment `environmentId`. */
  predicate Targets(q: Request, environmentId: string) {
    || (q.UpsertEnvironmentVariable? && q.environmentId == environmentId)
    || (q.CreateTrigger? && q.trigger.environmentId == environmentId)
  }

  /** Every request of `log` targets the environment `environmentId`. */
  predicate AllTarget(log: seq<Request>, environmentId: string) {
    forall i :: 0 <= i < |log| ==> Targets(log[i], environmentId)
  }

  lemma UpsertsTarget(environmentId: string, variables: map<string, string>, keys: seq<string>)
    requires forall i :: 0 <= i < |keys| ==> keys[i] in variables
    ensures AllTarget(Upserts(environmentId, variables, keys), environmentId)
  {
  }

  lemma AllTargetAppend(first: seq<Request>, second: seq<Request>, environmentId: string)
    requires AllTarget(first, environmentId) && AllTarget(second, environmentId)
    ensures AllTarget(first + second, environmentId)
  {
    forall i | 0 <= i < |first + second|
      ensures Targets((first + second)[i], environmentId)
    {
      if i >= |first| {
        assert (first + second)[i] == second[i - |first|];
      }
    }
  }

  lemma TriggerRequestsTarget(existed: bool, request: TriggerRequest, environmentId: string)
    requires request.environmentId == environmentId
    ensures AllTarget(TriggerRequests(existed, request), environmentId)
  {
  }

  /** The request the trigger step sends: none when the lookup found the trigger. */
  function TriggerRequests(existed: bool, request: TriggerRequest): seq<Request> {
    if existed then [] else [Request.CreateTrigger(request)]
  }

  /** The triggers the trigger step records: none when the lookup found the trigger. */
  function TriggersAdded(existed: bool, request: TriggerRequest, tags: Option<seq<Tag>>, answerId: string,
                         envs: seq<Environment>): seq<Trigger>
  {
    if existed then [] else CreatedTriggers(request, tags.GetOr([]), answerId, envs)
  }

  /**
   * The outcome of the variables step: `merged` overlays `variables` on
   * `base`, each of its keys was upserted once, in `order`, into the
   * environment `environmentId`, and the environments went from `before` to
   * `after` accordingly.
   */
  ghost predicate OverlayUpserted(before: seq<Environment>, after: seq<Environment>, environmentId: string,
                                  base: map<string, string>, variables: map<string, string>, rejected: set<string>,
                            merged: map<string, string>, order: seq<string>, upserts: seq<Request>)
  {
    && merged == MergeVariables(base, variables)
    && Distinct(order) && |order| == |merged| && (forall k :: k in order <==> k in merged)
    && upserts == Upserts(environmentId, merged, order)
    && EnvironmentsAfter(before, after, environmentId, merged, merged.Keys, rejected)
  }

  /**
   * The outcome of the trigger step for the environment `environmentId`:
   * `existed` says whether the lookup found the trigger, `tags` are the base
   * environment's tags, the trigger is created with the repository id found
   * for `headRepoFullName` unless it existed, and `triggers` went from
   * `before` to `after` accordingly.
   */
  ghost predicate TriggerAttached(before: seq<Trigger>, after: seq<Trigger>, envs: seq<Environment>,
                            repositories: seq<Repository>, environmentId: string, branch: string,
                            headRepoFullName: string, teamId: string, pr: Option<PullRequest>,
                            baseEnvironmentId: Option<string>, triggerAnswerId: string, tags: Option<seq<Tag>>,
                            existed: bool, requests: seq<Request>, r: Result<()>)
  {
    var request := TriggerCreation(branch, environmentId, pr, teamId,
                                   FindRepositoryIdByName(repositories, headRepoFullName), tags);
    && existed == ExistingTriggerId(before, environmentId, TriggerName(branch, pr)).Some?
    && BaseTags(envs, before, baseEnvironmentId) == Ok(tags)
    && requests == TriggerRequests(existed, request)
    && after == before + TriggersAdded(existed, request, tags, triggerAnswerId, envs)
    && (r.Ok? <==> existed || triggerAnswerId != "")
    && (r.Err? ==> r.error == TriggerIdMissing)
  }

  /**
   * The variables step of `createEnvironmentAction`: read the base
   * environment's variables, overlay the caller's and upsert the result into
   * the environment `environmentId`. `merged` is the overlay and `order` the
   * order in which its keys were sent.
   */
  method UpsertOverlay(remote: Remote, environmentId: string, variables: map<string, string>,
                       baseEnvironmentId: Option<string>, rejected: set<string>)
    returns (r: Result<()>, ghost merged: map<string, string>, ghost order: seq<string>, ghost sent: seq<Request>)
    modifies remote
    ensures remote.received == old(remote.received) + sent && AllTarget(sent, environmentId)
    // a missing base environment: nothing is upserted
    ensures old(BaseVariables(remote.environments, baseEnvironmentId)).Err? ==>
      r == Err(old(BaseVariables(remote.environments, baseEnvironmentId)).error) && unchanged(remote) && sent == []
    // otherwise the caller's variables, overriding the base ones, are each upserted once
    ensures old(BaseVariables(remote.environments, baseEnvironmentId)).Ok? ==>
      && OverlayUpserted(old(remote.environments), remote.environments, environmentId,
                         old(BaseVariables(remote.environments, baseEnvironmentId)).value, variables, rejected,
                         merged, order, sent)
      && (r.Err? <==> merged.Keys * rejected != {})
      && (r.Err? ==> r.error == UpsertFailed)
    ensures remote.triggers == old(remote.triggers) && remote.repositories == old(remote.repositories)
    ensures remote.teamBranches == old(remote.teamBranches)
  {
    merged, order, sent := map[], [], [];
    var base := BaseVariables(remote.environments, baseEnvironmentId);
    if base.Err? {
      return Err(base.error), merged, order, sent;
    }
    var overlay := MergeVariables(base.value, variables);
    merged := overlay;
    r, order := CreateEnvironmentVariables(remote, environmentId, overlay, rejected);
    sent := Upserts(environmentId, overlay, order);
    UpsertsTarget(environmentId, overlay, order);
  }

  /**
   * The trigger step of `createEnvironmentAction`: look up the repository
   * and the base environment's tags, then find or create the trigger of the
   * environment `environmentId`. `tags` are the tags the trigger is created
   * with and `existed` says whether the lookup found the trigger.
   */
  method AttachTrigger(remote: Remote, environmentId: string, branch: string, headRepoFullName: string,
                       teamId: string, pr: Option<PullRequest>, baseEnvironmentId: Option<string>,
                       triggerAnswerId: string)
    returns (r: Result<()>, ghost tags: Option<seq<Tag>>, ghost existed: bool, ghost sent: seq<Request>)
    modifies remote
    ensures remote.received == old(remote.received) + sent && AllTarget(sent, environmentId)
    ensures existed == old(ExistingTriggerId(remote.triggers, environmentId, TriggerName(branch, pr))).Some?
    // the base environment is gone: no trigger is created
    ensures old(BaseTags(remote.environments, remote.triggers, baseEnvironmentId)).Err? ==>
      r == Err(old(BaseTags(remote.environments, remote.triggers, baseEnvironmentId)).error) && unchanged(remote)
      && sent == []
    // otherwise a trigger carrying the base tags is created unless one exists
    ensures old(BaseTags(remote.environments, remote.triggers, baseEnvironmentId)).Ok? ==>
      TriggerAttached(old(remote.triggers), remote.triggers, remote.environments, old(remote.repositories),
                      environmentId, branch, headRepoFullName, teamId, pr, baseEnvironmentId, triggerAnswerId,
                      tags, existed, sent, r)
    ensures r.Ok? ==> ExistingTriggerId(remote.triggers, environmentId, TriggerName(branch, pr)).Some?
    ensures remote.environments == old(remote.environments) && remote.repositories == old(remote.repositories)
    ensures remote.teamBranches == old(remote.teamBranches)
  {
    tags, sent := None, [];
    existed := ExistingTriggerId(remote.triggers, environmentId, TriggerName(branch, pr)).Some?;
    var repositoryId := FindRepositoryIdByName(remote.repositories, headRepoFullName);
    var found := BaseTags(remote.environments, remote.triggers, baseEnvironmentId);
    if found.Err? {
      return Err(found.error), tags, existed, sent;
    }
    tags := found.value;
    var trigger := FindOrCreateTrigger(remote, branch, environmentId, pr, teamId, repositoryId, found.value,
                                       triggerAnswerId);
    r := if trigger.Ok? then Ok(()) else Err(trigger.error);
    sent := TriggerRequests(existed, TriggerCreation(branch, environmentId, pr, teamId, repositoryId, found.value));
    TriggerRequestsTarget(existed, TriggerCreation(branch, environmentId, pr, teamId, repositoryId, found.value),
                          environmentId);
  }

  /**
   * The steps of `createEnvironmentAction` once the environment
   * `environmentId` exists: upsert the variables overlay into it, then find
   * or create its trigger. The ghost results name the base variables read,
   * the overlay `merged` and the order its keys were sent in, the tags and
   * whether the trigger existed, and the requests of each step.
   */
  method ConfigureEnvironment(remote: Remote, environmentId: string, branch: string, headRepoFullName: string,
                              teamId: string, pr: Option<PullRequest>, variables: map<string, string>,
                              baseEnvironmentId: Option<string>, rejected: set<string>, triggerAnswerId: string)
    returns (r: Result<()>, ghost baseVariables: Result<map<string, string>>, ghost merged: map<string, string>,
             ghost order: seq<string>, ghost tags: Option<seq<Tag>>, ghost existed: bool,
             ghost upserts: seq<Request>, ghost triggerRequests: seq<Request>)
    modifies remote
    // the upserts come first, then the trigger request
    ensures remote.received == old(remote.received) + upserts + triggerRequests
    ensures AllTarget(upserts + triggerRequests, environmentId)
    ensures baseVariables == old(BaseVariables(remote.environments, baseEnvironmentId))
    // a missing base environment stops the action before any request
    ensures baseVariables.Err? ==>
      r == Err(baseVariables.error) && upserts == [] && triggerRequests == [] && unchanged(remote)
    // otherwise each key of the overlay is upserted once into the environment
    ensures baseVariables.Ok? ==>
      OverlayUpserted(old(remote.environments), remote.environments, environmentId, baseVariables.value, variables,
                      rejected, merged, order, upserts)
    // a rejected upsert stops the action before the trigger step
    ensures baseVariables.Ok? && merged.Keys * rejected != {} ==>
      r == Err(UpsertFailed) && triggerRequests == [] && remote.triggers == old(remote.triggers)
    // all upserts accepted: the trigger, carrying the base tags, is created unless it exists
    ensures baseVariables.Ok? && merged.Keys * rejected == {} ==>
      TriggerAttached(old(remote.triggers), remote.triggers, remote.environments, old(remote.repositories),
                      environmentId, branch, headRepoFullName, teamId, pr, baseEnvironmentId, triggerAnswerId,
                      tags, existed, triggerRequests, r)
    ensures r.Ok? ==> ExistingTriggerId(remote.triggers, environmentId, TriggerName(branch, pr)).Some?
    // upserts leave the environment lookup as it was
    ensures Lookup(remote.environments, branch, pr) == old(Lookup(remote.environments, branch, pr))
    ensures remote.repositories == old(remote.repositories) && remote.teamBranches == old(remote.teamBranches)
  {
    ghost var envs0 := remote.environments;
    var base := BaseVariables(remote.environments, baseEnvironmentId);
    baseVariables := base;
    tags, existed, triggerRequests := None, false, [];
    r, merged, order, upserts := UpsertOverlay(remote, environmentId, variables, baseEnvironmentId, rejected);
    ghost var log1 := remote.received;
    if base.Ok? {
      ghost var envs1 := remote.environments;
      UpsertsKeepShape(envs0, envs1, environmentId, merged, rejected);
      SameShapeLookup(envs0, envs1, EnvironmentName(branch, pr));
      if r.Ok? {
        TagsFollowBaseVariables(envs0, envs1, remote.triggers, baseEnvironmentId);
        r, tags, existed, triggerRequests := AttachTrigger(remote, environmentId, branch, headRepoFullName, teamId, pr,
                                                           baseEnvironmentId, triggerAnswerId);
      }
    }
    // no trigger request was sent on the paths that stop early
    assert remote.received == log1 + triggerRequests by {
      if triggerRequests == [] {
        assert log1 + triggerRequests == log1;
      }
    }
    AllTargetAppend(upserts, triggerRequests, environmentId);
  }

  /**
   * `createEnvironmentAction`: get or create the environment, then configure
   * it. The ghost results name the outcome of the environment step and, as
   * `ConfigureEnvironment` names them, what the later steps read and sent.
   */
  method CreateEnvironmentAction(remote: Remote, branch: string, headRepoFullName: string, teamId: string,
                                 pr: Option<PullRequest>, variables: map<string, string>,
                                 baseEnvironmentId: Option<string>, environmentAnswer: CreatedEnvironment,
                                 rejected: set<string>, triggerAnswerId: string)
    returns (r: Result<()>, ghost environment: Result<string>, ghost baseVariables: Result<map<string, string>>,
             ghost merged: map<string, string>, ghost order: seq<string>, ghost tags: Option<seq<Tag>>,
             ghost existed: bool, ghost upserts: seq<Request>, ghost triggerRequests: seq<Request>)
    modifies remote
    ensures environment == old(EnvironmentOutcome(remote.environments, branch, pr, environmentAnswer))
    // the environment request, then the upserts, then the trigger request
    ensures remote.received
      == old(remote.received + EnvironmentRequests(remote.environments, branch, pr, teamId)) + upserts + triggerRequests
    // the environment step fails: nothing after it runs
    ensures environment.Err? ==>
      r == Err(environment.error) && upserts == [] && triggerRequests == [] && remote.triggers == old(remote.triggers)
    // the base environment is looked up in the store as the first step left it, and a missing one stops the action
    ensures environment.Ok? ==>
      baseVariables == old(BaseVariables(EnvironmentsAfterLookup(remote.environments, branch, pr, teamId, environmentAnswer),
                                         baseEnvironmentId))
    ensures environment.Ok? && baseVariables.Err? ==>
      r == Err(baseVariables.error) && upserts == [] && triggerRequests == [] && remote.triggers == old(remote.triggers)
    // each key of the overlay is upserted once into the environment of the first step
    ensures environment.Ok? && baseVariables.Ok? ==>
      OverlayUpserted(old(EnvironmentsAfterLookup(remote.environments, branch, pr, teamId, environmentAnswer)),
                      remote.environments, environment.value, baseVariables.value, variables, rejected,
                      merged, order, upserts)
    // a rejected upsert stops the action before the trigger step
    ensures environment.Ok? && baseVariables.Ok? && merged.Keys * rejected != {} ==>
      r == Err(UpsertFailed) && triggerRequests == [] && remote.triggers == old(remote.triggers)
    // all upserts accepted: the trigger of that environment is created unless it exists
    ensures environment.Ok? && baseVariables.Ok? && merged.Keys * rejected == {} ==>
      TriggerAttached(old(remote.triggers), remote.triggers, remote.environments, old(remote.repositories),
                      environment.value, branch, headRepoFullName, teamId, pr, baseEnvironmentId, triggerAnswerId,
                      tags, existed, triggerRequests, r)
    ensures environment.Ok? ==> AllTarget(upserts + triggerRequests, environment.value)
    // a step that fails before any upsert leaves the environments as the first step left them
    ensures environment.Err? || baseVariables.Err? ==>
      remote.environments == old(EnvironmentsAfterLookup(remote.environments, branch, pr, teamId, environmentAnswer))
    // only the first step may add a team branch
    ensures remote.teamBranches == old(remote.teamBranches + TeamBranchesAfterLookup(remote.environments, remote.teamBranches,
                                                                                     branch, pr, teamId, environmentAnswer))
    // the environment of the first step stays findable by name, even when a later step fails
    ensures r.Ok? ==> environment.Ok?
    ensures environment.Ok? ==> Lookup(remote.environments, branch, pr) == Some(environment.value)
    ensures r.Ok? ==> ExistingTriggerId(remote.triggers, environment.value, TriggerName(branch, pr)).Some?
    ensures remote.repositories == old(remote.repositories)
  {
    baseVariables, merged, order, tags, existed, upserts, triggerRequests := Ok(map[]), map[], [], None, false, [], [];
    ghost var envs0, log0, branches0 := remote.environments, remote.received, remote.teamBranches;
    var found := GetOrCreateEnvironment(remote, branch, pr, teamId, environmentAnswer);
    environment := found;
    ghost var requests := EnvironmentRequests(envs0, branch, pr, teamId);
    if Lookup(envs0, branch, pr).Some? {
      assert log0 + requests == log0;
    }
    assert remote.received == log0 + requests;
    ghost var added := TeamBranchesAfterLookup(envs0, branches0, branch, pr, teamId, environmentAnswer);
    if Lookup(envs0, branch, pr).Some? {
      assert branches0 + added == branches0;
    }
    assert remote.teamBranches == branches0 + added;
    if found.Err? {
      return Err(found.error), environment, baseVariables, merged, order, tags, existed, upserts, triggerRequests;
    }
    assert remote.environments == EnvironmentsAfterLookup(envs0, branch, pr, teamId, environmentAnswer);
    r, baseVariables, merged, order, tags, existed, upserts, triggerRequests :=
      ConfigureEnvironment(remote, found.value, branch, headRepoFullName, teamId, pr, variables, baseEnvironmentId,
                           rejected, triggerAnswerId);
  }
}
