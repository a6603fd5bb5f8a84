/**
 * `handleOperation`: the switch that maps the `operation` input to the one
 * action it runs, or to the error it throws. The action is returned as a
 * value carrying the arguments it is called with.
 */
module Dispatch {
  import opened Wrappers
  import opened Naming
  import opened Deployment

  const CreateEnvironmentOperation := "create-environment"
  const DeleteEnvironmentOperation := "delete-environment"
  const RunTestsOperation := "run-tests"
  const MissingDeploymentUrl := "missing deployment url"

  /** What the entry point hands to `handleOperation`. */
  datatype Options = Options(
    baseEnvironmentId: Option<string>,
    branch: string,
    commitUrl: string,
    deploymentUrl: Option<string>,
    pr: Option<PullRequest>,
    apiKey: string,
    teamId: string,
    repoFullName: string,
    sha: string,
    variables: map<string, string>)

  /** The action `handleOperation` runs, with the arguments it passes. */
  datatype Action =
    | CreateEnvironment(baseEnvironmentId: Option<string>, branch: string, headRepoFullName: string,
                        pr: Option<PullRequest>, teamId: string, apiKey: string, variables: map<string, string>)
    | DeleteTeamBranch(branchId: string, teamId: string, apiKey: string)
    | RunTests(request: DeployRequest)

  function InvalidOperation(operation: string): string {
    "invalid operation: " + operation
  }

  /** The operations the switch knows. */
  predicate KnownOperation(operation: string) {
    operation == CreateEnvironmentOperation || operation == DeleteEnvironmentOperation || operation == RunTestsOperation
  }

  function HandleOperation(operation: string, options: Options): (r: Result<Action>)
    // an action runs exactly for a known operation, and for run-tests only with a deployment URL
    ensures r.Ok? <==> KnownOperation(operation) && (operation == RunTestsOperation ==> Truthy(options.deploymentUrl))
    ensures !KnownOperation(operation) ==> r == Err(InvalidOperation(operation))
    ensures operation == RunTestsOperation && !Truthy(options.deploymentUrl) ==> r == Err(MissingDeploymentUrl)
    // each action belongs to one operation
    ensures r.Ok? && r.value.CreateEnvironment? <==> r.Ok? && operation == CreateEnvironmentOperation
    ensures r.Ok? && r.value.DeleteTeamBranch? <==> r.Ok? && operation == DeleteEnvironmentOperation
    ensures r.Ok? && r.value.RunTests? <==> r.Ok? && operation == RunTestsOperation
    // create-environment: the repository name becomes the head repository name, the rest passes through
    ensures r.Ok? && r.value.CreateEnvironment? ==>
      && r.value.headRepoFullName == options.repoFullName
      && r.value.baseEnvironmentId == options.baseEnvironmentId && r.value.branch == options.branch
      && r.value.pr == options.pr && r.value.teamId == options.teamId && r.value.apiKey == options.apiKey
      && r.value.variables == options.variables
    // delete-environment: the git branch is passed as the branch id
    ensures r.Ok? && r.value.DeleteTeamBranch? ==>
      r.value.branchId == options.branch && r.value.teamId == options.teamId && r.value.apiKey == options.apiKey
    // run-tests: the deploy-success request built from the options, variables unchanged but for `URL`
    ensures r.Ok? && r.value.RunTests? ==>
      r.value.request == TestDeployment(options.apiKey, options.branch, options.commitUrl, options.sha,
                                        options.deploymentUrl.value, options.variables)
  {
    if operation == CreateEnvironmentOperation then
      Ok(CreateEnvironment(options.baseEnvironmentId, options.branch, options.repoFullName, options.pr,
                           options.teamId, options.apiKey, options.variables))
    else if operation == DeleteEnvironmentOperation then
      Ok(DeleteTeamBranch(options.branch, options.teamId, options.apiKey))
    else if operation == RunTestsOperation then
      if !Truthy(options.deploymentUrl) then Err(MissingDeploymentUrl)
      else Ok(RunTests(TestDeployment(options.apiKey, options.branch, options.commitUrl, options.sha,
                                      options.deploymentUrl.value, options.variables)))
    else Err(InvalidOperation(operation))
  }

  /** The error of an unknown operation names it, so two unknown operations fail differently. */
  lemma InvalidOperationNamesIt(op1: string, op2: string, options1: Options, options2: Options)
    requires !KnownOperation(op1) && !KnownOperation(op2)
    requires HandleOperation(op1, options1) == HandleOperation(op2, options2)
    ensures op1 == op2
  {
    var prefix := "invalid operation: ";
    assert InvalidOperation(op1) == prefix + op1 && InvalidOperation(op2) == prefix + op2;
    assert op1 == (prefix + op1)[|prefix|..];
    assert op2 == (prefix + op2)[|prefix|..];
  }

  /** Tests run against the deployment URL whatever `URL` the caller's variables held. */
  lemma RunTestsUrl(options: Options)
    requires HandleOperation(RunTestsOperation, options).Ok?
    ensures var request := HandleOperation(RunTestsOperation, options).value.request;
      request.body.variables[UrlVariable] == request.body.deploymentUrl == options.deploymentUrl.value
  {
  }
}
