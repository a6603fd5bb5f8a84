/**
 * The remote test platform as a store the action reads and writes through
 * GraphQL. Each mutation is a method that records the request it received
 * in `received` and applies its effect to the records. Values the server
 * chooses (the ids it assigns, whether it accepts a request) are parameters
 * of the mutation.
 */
module Store {
  import opened Wrappers
  import opened Records
  import Queries

  /** The variables of a `createTrigger` mutation. */
  datatype TriggerRequest = TriggerRequest(
    repositoryId: Option<string>,
    deploymentBranches: string,
    deploymentEnvironment: string,
    deploymentProvider: string,
    environmentId: string,
    name: string,
    teamId: string,
    tagIds: Option<seq<string>>)

  /** A mutation the platform received. */
  datatype Request =
    | CreateEnvironment(name: string, teamId: string)
    | UpsertEnvironmentVariable(environmentId: string, variableName: string, value: string)
    | CreateTrigger(trigger: TriggerRequest)
    | PromoteWorkflowsToBranch(sourceTeamBranchId: string, targetTeamBranchId: string)

  /** The ids the platform answers `createEnvironment` with; an empty id stands for an answer without one. */
  datatype CreatedEnvironment = CreatedEnvironment(id: string, branchId: string)

  /** The environment `createEnvironment` records when it answers with an id. */
  function NewEnvironment(name: string, teamId: string, answer: CreatedEnvironment): Environment {
    Environment(answer.id, name, false, answer.branchId, teamId, map[])
  }

  /** The environments a `createEnvironment` call adds: none when the answer carries no id. */
  function CreatedEnvironments(name: string, teamId: string, answer: CreatedEnvironment): seq<Environment> {
    if answer.id != "" then [NewEnvironment(name, teamId, answer)] else []
  }

  /**
   * The team branches a `createEnvironment` call adds to `branches`: the new
   * environment's branch, when it has one that is not a team branch already.
   */
  function CreatedTeamBranches(branches: seq<TeamBranch>, teamId: string, answer: CreatedEnvironment)
    : seq<TeamBranch>
  {
    if answer.id != "" && answer.branchId != "" && forall i :: 0 <= i < |branches| ==> branches[i].id != answer.branchId
    then [TeamBranch(answer.branchId, teamId)]
    else []
  }

  /** `e` after an upsert of `name = value` addressed to `environmentId`. */
  function WithVariable(e: Environment, environmentId: string, name: string, value: string): (r: Environment)
    ensures r.id == e.id && r.name == e.name && r.deleted == e.deleted && r.branchId == e.branchId && r.teamId == e.teamId
    ensures e.id == environmentId ==> r.variables.Keys == e.variables.Keys + {name} && r.variables[name] == value
    ensures e.id == environmentId ==> forall k :: k in e.variables && k != name ==> r.variables[k] == e.variables[k]
    ensures e.id != environmentId ==> r == e
  {
    if e.id == environmentId then e.(variables := e.variables[name := value]) else e
  }

  class Remote {
    var environments: seq<Environment>
    var triggers: seq<Trigger>
    var repositories: seq<Repository>
    var teamBranches: seq<TeamBranch>
    /** Every mutation request received, in order. */
    var received: seq<Request>

    constructor (environments: seq<Environment>, triggers: seq<Trigger>, repositories: seq<Repository>, teamBranches: seq<TeamBranch>)
      ensures this.environments == environments && this.triggers == triggers
      ensures this.repositories == repositories && this.teamBranches == teamBranches
      ensures received == []
    {
      this.environments := environments;
      this.triggers := triggers;
      this.repositories := repositories;
      this.teamBranches := teamBranches;
      received := [];
    }

    /**
     * `createEnvironment(name, team_id)`. When the answer carries an id, the
     * platform records the environment, and the team branch it was grouped
     * under when that id is given too.
     */
    method CreateEnvironment(name: string, teamId: string, answer: CreatedEnvironment)
      modifies this
      ensures received == old(received) + [Request.CreateEnvironment(name, teamId)]
      ensures environments == old(environments) + CreatedEnvironments(name, teamId, answer)
      ensures teamBranches == old(teamBranches) + CreatedTeamBranches(old(teamBranches), teamId, answer)
      ensures triggers == old(triggers) && repositories == old(repositories)
    {
      received := received + [Request.CreateEnvironment(name, teamId)];
      environments := environments + CreatedEnvironments(name, teamId, answer);
      teamBranches := teamBranches + CreatedTeamBranches(teamBranches, teamId, answer);
    }

    /**
     * `upsertEnvironmentVariable(environment_id, value, name)`: when accepted,
     * the variable is created or overwritten in the environment with that id.
     */
    method UpsertEnvironmentVariable(environmentId: string, name: string, value: string, accepted: bool)
      returns (ok: bool)
      modifies this
      ensures ok == accepted
      ensures received == old(received) + [Request.UpsertEnvironmentVariable(environmentId, name, value)]
      ensures |environments| == |old(environments)|
      ensures forall i :: 0 <= i < |environments| ==>
        environments[i] == if accepted then WithVariable(old(environments[i]), environmentId, name, value) else old(environments[i])
      ensures triggers == old(triggers) && repositories == old(repositories) && teamBranches == old(teamBranches)
    {
      received := received + [Request.UpsertEnvironmentVariable(environmentId, name, value)];
      if accepted {
        var envs := environments;
        environments := seq(|envs|, i requires 0 <= i < |envs| => WithVariable(envs[i], environmentId, name, value));
      }
      ok := accepted;
    }

    /**
     * `createTrigger(...)`: when the answer carries an id, the platform records
     * the trigger with the requested fields and the given tags.
     */
    method CreateTrigger(request: TriggerRequest, tags: seq<Tag>, answerId: string)
      modifies this
      ensures received == old(received) + [Request.CreateTrigger(request)]
      ensures triggers == old(triggers) + CreatedTriggers(request, tags, answerId, environments)
      ensures environments == old(environments) && repositories == old(repositories) && teamBranches == old(teamBranches)
    {
      received := received + [Request.CreateTrigger(request)];
      triggers := triggers + CreatedTriggers(request, tags, answerId, environments);
    }

    /** `promoteWorkflowsToBranch(source, target)`; `answered` says whether the response carries data. */
    method PromoteWorkflowsToBranch(source: string, target: string, answered: bool) returns (hasData: bool)
      modifies this
      ensures hasData == answered
      ensures received == old(received) + [Request.PromoteWorkflowsToBranch(source, target)]
      ensures environments == old(environments) && triggers == old(triggers)
      ensures repositories == old(repositories) && teamBranches == old(teamBranches)
    {
      received := received + [Request.PromoteWorkflowsToBranch(source, target)];
      hasData := answered;
    }
  }

  /** The trigger `createTrigger` records. */
  function NewTrigger(request: TriggerRequest, tags: seq<Tag>, answerId: string, envs: seq<Environment>): Trigger {
    Trigger(answerId, request.environmentId, request.name, false, request.deploymentProvider,
            request.deploymentEnvironment, request.deploymentBranches, request.repositoryId,
            request.teamId, tags, Queries.EnvironmentBranchId(envs, request.environmentId))
  }

  /** The triggers a `createTrigger` call adds: none when the answer carries no id. */
  function CreatedTriggers(request: TriggerRequest, tags: seq<Tag>, answerId: string, envs: seq<Environment>): seq<Trigger> {
    if answerId != "" then [NewTrigger(request, tags, answerId, envs)] else []
  }
}
