/**
 * `testDeployment`: the single deploy-success request that starts a test run
 * against a deployed preview. Only the request is modelled; sending it is I/O.
 */
module Deployment {

  /** The `deployment_type` every deploy-success request carries. */
  const PreviewDeploymentType := "qawolf-preview"

  /** The variable that always holds the deployment URL. */
  const UrlVariable := "URL"

  /** The JSON body of a deploy-success request. */
  datatype DeploySuccess = DeploySuccess(
    branch: string,
    commitUrl: string,
    deploymentType: string,
    deploymentUrl: string,
    sha: string,
    variables: map<string, string>)

  /** A deploy-success request: its body and its `Authorization` header. */
  datatype DeployRequest = DeployRequest(body: DeploySuccess, authorization: string)

  /** The caller's variables with `URL` set to the deployment URL, whatever the caller gave for it. */
  function RunVariables(variables: map<string, string>, deploymentUrl: string): (r: map<string, string>)
    ensures r.Keys == variables.Keys + {UrlVariable}
    ensures r[UrlVariable] == deploymentUrl
    ensures forall k :: k in variables && k != UrlVariable ==> r[k] == variables[k]
  {
    variables[UrlVariable := deploymentUrl]
  }

  /** The one request `testDeployment` sends. */
  function TestDeployment(apiKey: string, branch: string, commitUrl: string, sha: string, deploymentUrl: string,
                          variables: map<string, string>): (r: DeployRequest)
    ensures r.body.deploymentType == PreviewDeploymentType
    ensures r.body.branch == branch && r.body.commitUrl == commitUrl
    ensures r.body.deploymentUrl == deploymentUrl && r.body.sha == sha
    ensures r.body.variables == RunVariables(variables, deploymentUrl)
    // the key is sent as is, with no scheme in front of it
    ensures r.authorization == apiKey
  {
    DeployRequest(DeploySuccess(branch, commitUrl, PreviewDeploymentType, deploymentUrl, sha,
                                RunVariables(variables, deploymentUrl)),
                  apiKey)
  }

  /** A `URL` supplied by the caller makes no difference to the request. */
  lemma CallerUrlIgnored(apiKey: string, branch: string, commitUrl: string, sha: string, deploymentUrl: string,
                         variables: map<string, string>, callerUrl: string)
    ensures TestDeployment(apiKey, branch, commitUrl, sha, deploymentUrl, variables[UrlVariable := callerUrl])
         == TestDeployment(apiKey, branch, commitUrl, sha, deploymentUrl, variables - {UrlVariable})
  {
    var given := RunVariables(variables[UrlVariable := callerUrl], deploymentUrl);
    var absent := RunVariables(variables - {UrlVariable}, deploymentUrl);
    assert given.Keys == absent.Keys;
    forall k | k in given
      ensures given[k] == absent[k]
    {
    }
  }
}
