/**
 * `runGitHubAction`: the entry point. It reads the action's inputs and the
 * `GITHUB_REPOSITORY` variable, splits the repository name, parses the
 * variables input, picks the branch from the commit's pull requests or
 * branches, builds the commit URL and hands everything to `handleOperation`.
 * Any error thrown on the way becomes the action's failure message.
 */
module Entry {
  import opened Wrappers
  import opened Text
  import opened Naming
  import opened EnvVarParser
  import opened Dispatch

  const MissingRepository := "missing GITHUB_REPOSITORY"
  const InvalidRepoFullName := "invalid repo full name"

  /**
   * The inputs as `core.getInput` returns them (an optional input left out
   * reads as the empty string) and the `GITHUB_REPOSITORY` variable, which may
   * be unset.
   */
  datatype Inputs = Inputs(
    operation: string,
    apiKey: string,
    teamId: string,
    sha: string,
    deploymentUrl: string,
    variables: string,
    baseEnvironmentId: string,
    repository: Option<string>)

  /** A pull request listed for the commit: the fields the action reads. */
  datatype ListedPullRequest = ListedPullRequest(number: nat, title: string, headRef: string)

  // ---------------------------------------------------------------------------
  // Repository name

  /**
   * `const [owner, repo] = repoFullName.split("/")`: the first two parts of the
   * split; a missing second part is `undefined`, which fails like an empty one.
   */
  function SplitRepoFullName(repository: Option<string>): (r: Result<(string, string)>)
    ensures !Truthy(repository) ==> r == Err(MissingRepository)
    ensures Truthy(repository) && r.Err? ==> r.error == InvalidRepoFullName
    ensures r.Ok? ==> r.value.0 != "" && r.value.1 != "" && '/' !in r.value.0 && '/' !in r.value.1
  {
    if !Truthy(repository) then Err(MissingRepository)
    else
      var parts := SplitOn(repository.value, '/');
      var owner := parts[0];
      var repo := if |parts| > 1 then parts[1] else "";
      if owner == "" || repo == "" then Err(InvalidRepoFullName) else Ok((owner, repo))
  }

  /** An `owner/repo` name splits back into its owner and repository. */
  lemma RepoFullNameRoundTrip(owner: string, repo: string)
    requires owner != "" && repo != "" && '/' !in owner && '/' !in repo
    ensures SplitRepoFullName(Some(owner + "/" + repo)) == Ok((owner, repo))
  {
    SplitWithoutSeparator(repo, '/');
    SplitCons(owner, repo, '/');
  }

  /** Segments after the second are ignored rather than rejected. */
  lemma ExtraSegmentsIgnored(owner: string, repo: string, rest: string)
    requires owner != "" && repo != "" && '/' !in owner && '/' !in repo
    ensures SplitRepoFullName(Some(owner + "/" + repo + "/" + rest)) == Ok((owner, repo))
  {
    SplitCons(repo, rest, '/');
    assert owner + "/" + repo + "/" + rest == owner + "/" + (repo + "/" + rest);
    SplitCons(owner, repo + "/" + rest, '/');
  }

  /** A name without a `/`, or with nothing before its first `/`, is rejected. */
  lemma OwnerAndRepoRequired(name: string)
    requires name != ""
    requires '/' !in name || name[0] == '/'
    ensures SplitRepoFullName(Some(name)) == Err(InvalidRepoFullName)
  {
    if '/' !in name {
      SplitWithoutSeparator(name, '/');
    } else {
      assert IndexOf(name, '/') == 0;
    }
  }

  /** What the split accepts is a prefix `owner/repo` of the name, ending at its end or at a `/`. */
  lemma AcceptedNameShape(repository: Option<string>)
    requires SplitRepoFullName(repository).Ok?
    ensures var (owner, repo) := SplitRepoFullName(repository).value;
      var n := |owner| + 1 + |repo|;
      n <= |repository.value| && repository.value[..n] == owner + "/" + repo &&
      (n == |repository.value| || repository.value[n] == '/')
  {
    var s := repository.value;
    var (owner, repo) := SplitRepoFullName(repository).value;
    var i := IndexOf(s, '/');
    SplitOnFirst(s, '/');
    if i == |s| {
      assert false;
    }
    var t := s[i + 1..];
    var j := IndexOf(t, '/');
    SplitOnFirst(t, '/');
    assert owner == s[..i];
    assert repo == t[..j];
    PrefixAfterSeparator(s, i, j);
  }

  /** Slicing a text at a separator: the part before it, the separator, then a prefix of the rest. */
  lemma PrefixAfterSeparator(s: string, i: nat, j: nat)
    requires i < |s| && s[i] == '/' && j <= |s| - i - 1
    ensures s[..i + 1 + j] == s[..i] + "/" + s[i + 1..][..j]
    ensures i + 1 + j < |s| ==> s[i + 1 + j] == s[i + 1..][j]
  {
    assert s[..i + 1 + j] == s[..i] + [s[i]] + s[i + 1..i + 1 + j];
  }

  // ---------------------------------------------------------------------------
  // Variables, branch, commit URL

  /**
   * The variables input: an empty input gives no variables without parsing,
   * which is what parsing it would give as well.
   */
  function VariablesInput(input: string): (r: map<string, string>)
    ensures r == ParseEnvironmentVariablesToJson(input).value
  {
    if input == "" then ParseEmpty(); map[] else ParseEnvironmentVariablesToJson(input).value
  }

  function NoBranchFound(sha: string): string {
    "No branch found for SHA or PR ref: " + sha
  }

  /**
   * `pr?.head.ref ?? branches[0]?.name`: the first pull request's head branch
   * when there is a pull request, even an empty one, and only otherwise the
   * first branch; an empty or missing result fails.
   */
  function ResolveBranch(prs: seq<ListedPullRequest>, branches: seq<string>, sha: string): (r: Result<string>)
    ensures |prs| > 0 ==> (r.Ok? <==> prs[0].headRef != "") && (r.Ok? ==> r.value == prs[0].headRef)
    ensures |prs| == 0 ==> (r.Ok? <==> |branches| > 0 && branches[0] != "") && (r.Ok? ==> r.value == branches[0])
    ensures r.Err? ==> r.error == NoBranchFound(sha)
  {
    var candidate := if |prs| > 0 then Some(prs[0].headRef) else if |branches| > 0 then Some(branches[0]) else None;
    if !Truthy(candidate) then Err(NoBranchFound(sha)) else Ok(candidate.value)
  }

  /** The first listed pull request, as the naming of environments and triggers reads it. */
  function SelectedPullRequest(prs: seq<ListedPullRequest>): (pr: Option<PullRequest>)
    ensures pr.Some? <==> |prs| > 0
    ensures pr.Some? ==> pr.value.number == prs[0].number && pr.value.title == prs[0].title
  {
    if |prs| > 0 then Some(PullRequest(prs[0].number, prs[0].title)) else None
  }

  /** The GitHub page of commit `sha` of `owner/repo`. */
  function CommitUrl(owner: string, repo: string, sha: string): (url: string)
    ensures |url| > 19 + |sha| && url[..19] == "https://github.com/"
    ensures url[|url| - |sha|..] == sha
  {
    "https://github.com/" + owner + "/" + repo + "/commit/" + sha
  }

  /** The commit URL is the host followed by the path `owner/repo/commit/sha`. */
  lemma CommitPath(owner: string, repo: string, sha: string)
    ensures CommitUrl(owner, repo, sha) == "https://github.com/" + (owner + "/" + (repo + "/" + ("commit" + "/" + sha)))
  {
    assert "/commit/" == "/" + "commit" + "/";
    assert repo + "/commit/" + sha == repo + "/" + ("commit" + "/" + sha);
    assert owner + "/" + repo + "/commit/" + sha == owner + "/" + (repo + "/" + ("commit" + "/" + sha));
  }

  /** A four-segment path splits at `/` into its segments. */
  lemma PathSegments(owner: string, repo: string, kind: string, sha: string)
    requires '/' !in owner && '/' !in repo && '/' !in kind && '/' !in sha
    ensures SplitOn(owner + "/" + (repo + "/" + (kind + "/" + sha)), '/') == [owner] + ([repo] + ([kind] + [sha]))
  {
    SplitWithoutSeparator(sha, '/');
    SplitOnto(kind, sha, '/', [sha]);
    SplitOnto(repo, kind + "/" + sha, '/', [kind] + [sha]);
    SplitOnto(owner, repo + "/" + (kind + "/" + sha), '/', [repo] + ([kind] + [sha]));
  }

  /** Distinct commits, or commits of distinct repositories, have distinct URLs. */
  lemma CommitUrlInjective(owner1: string, repo1: string, sha1: string, owner2: string, repo2: string, sha2: string)
    requires '/' !in owner1 && '/' !in repo1
    requires '/' !in owner2 && '/' !in repo2
    requires CommitUrl(owner1, repo1, sha1) == CommitUrl(owner2, repo2, sha2)
    ensures owner1 == owner2 && repo1 == repo2 && sha1 == sha2
  {
    var host := "https://github.com/";
    var tail1, tail2 := "commit" + "/" + sha1, "commit" + "/" + sha2;
    var rest1, rest2 := repo1 + "/" + tail1, repo2 + "/" + tail2;
    CommitPath(owner1, repo1, sha1);
    CommitPath(owner2, repo2, sha2);
    assert owner1 + "/" + rest1 == (host + (owner1 + "/" + rest1))[|host|..];
    assert owner2 + "/" + rest2 == (host + (owner2 + "/" + rest2))[|host|..];
    SeparatedPrefixUnique(owner1, rest1, owner2, rest2, '/');
    SeparatedPrefixUnique(repo1, tail1, repo2, tail2, '/');
    assert sha1 == tail1[7..] && sha2 == tail2[7..];
  }

  // ---------------------------------------------------------------------------
  // The whole run

  /**
   * Everything up to and including the choice of action: the `handleOperation`
   * call with the options the entry point builds. The pull requests and
   * branches listed for the commit are the answers of the two GitHub queries.
   */
  function RunGitHubAction(inputs: Inputs, prs: seq<ListedPullRequest>, branches: seq<string>): (r: Result<Action>)
    // the repository is checked first, then the branch; the operation only after both
    ensures SplitRepoFullName(inputs.repository).Err? ==> r == Err(SplitRepoFullName(inputs.repository).error)
    ensures SplitRepoFullName(inputs.repository).Ok? && ResolveBranch(prs, branches, inputs.sha).Err? ==>
      r == Err(NoBranchFound(inputs.sha))
    ensures r.Ok? ==> SplitRepoFullName(inputs.repository).Ok? && ResolveBranch(prs, branches, inputs.sha).Ok?
    // once both pass, the operation decides alone
    ensures SplitRepoFullName(inputs.repository).Ok? && ResolveBranch(prs, branches, inputs.sha).Ok? ==>
      (r.Ok? <==> KnownOperation(inputs.operation) &&
                  (inputs.operation == RunTestsOperation ==> inputs.deploymentUrl != ""))
    // an environment is created for the full repository name and the resolved branch
    ensures r.Ok? && r.value.CreateEnvironment? ==>
      && r.value.headRepoFullName == inputs.repository.value
      && r.value.branch == ResolveBranch(prs, branches, inputs.sha).value
      && r.value.pr == SelectedPullRequest(prs)
      && r.value.baseEnvironmentId == Some(inputs.baseEnvironmentId)
      && r.value.variables == ParseEnvironmentVariablesToJson(inputs.variables).value
    // a test run reports the commit of this repository and the given deployment
    ensures r.Ok? && r.value.RunTests? ==>
      var (owner, repo) := SplitRepoFullName(inputs.repository).value;
      && r.value.request.body.commitUrl == CommitUrl(owner, repo, inputs.sha)
      && r.value.request.body.deploymentUrl == inputs.deploymentUrl
      && r.value.request.body.sha == inputs.sha
      && r.value.request.body.branch == ResolveBranch(prs, branches, inputs.sha).value
  {
    var split := SplitRepoFullName(inputs.repository);
    if split.Err? then Err(split.error)
    else
      var (owner, repo) := split.value;
      var variables := VariablesInput(inputs.variables);
      var branch := ResolveBranch(prs, branches, inputs.sha);
      if branch.Err? then Err(branch.error)
      else
        HandleOperation(inputs.operation,
                        Options(Some(inputs.baseEnvironmentId), branch.value, CommitUrl(owner, repo, inputs.sha),
                                Some(inputs.deploymentUrl), SelectedPullRequest(prs), inputs.apiKey, inputs.teamId,
                                inputs.repository.value, inputs.sha, variables))
  }

  /**
   * The message the action fails with: the thrown error's message, or
   * "Unknown error" for a thrown value that has none.
   */
  function FailureMessage(message: Option<string>): (r: string)
    ensures |r| >= |"Action failed: "| && r[..|"Action failed: "|] == "Action failed: "
    ensures message.Some? ==> r[|"Action failed: "|..] == message.value
    ensures message.None? ==> r[|"Action failed: "|..] == "Unknown error"
  {
    "Action failed: " + message.GetOr("Unknown error")
  }
}
