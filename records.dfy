/** The records the remote test platform holds, as the action's queries see them. */
module Records {
  import opened Wrappers

  /**
   * An environment: `deleted` stands for a set `deletedAt`; `branchId` is the
   * team branch it belongs to; `variables` is its variable table.
   */
  datatype Environment = Environment(
    id: string,
    name: string,
    deleted: bool,
    branchId: string,
    teamId: string,
    variables: map<string, string>)

  datatype Tag = Tag(id: string, name: string)

  /**
   * A deployment trigger. `environmentBranchId` is the `branchId` of its
   * environment, which the trigger query can select through the relation.
   */
  datatype Trigger = Trigger(
    id: string,
    environmentId: string,
    name: string,
    deleted: bool,
    deploymentProvider: string,
    deploymentEnvironment: string,
    deploymentBranches: string,
    repositoryId: Option<string>,
    teamId: string,
    tags: seq<Tag>,
    environmentBranchId: string)

  /** A code-hosting repository integrated with the platform. */
  datatype Repository = Repository(id: string, externalFullName: string)

  /** A team branch: the grouping that workflows are promoted between. */
  datatype TeamBranch = TeamBranch(id: string, teamId: string)
}
