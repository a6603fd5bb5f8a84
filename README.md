# QA Wolf preview-testing action, modelled in Dafny

The QA Wolf preview-testing GitHub Action runs on a pull request or a branch
push. It does three things:

- It creates a QA Wolf preview environment (`create-environment`).
- It removes a team branch (`delete-environment`).
- It asks QA Wolf to test a deployed preview (`run-tests`).

This project models the logic of the action and proves properties of it.

- **Text** covers the JavaScript string primitives the action relies on: `trim` with the ECMAScript whitespace set, `indexOf`, and `split`/`join` on one character.
- **EnvVarParser** covers `parseEnvironmentVariablesToJSON`. It is the parser of the `KEY=VALUE` block given as the `variables` input. It has two readings:
  - the split / map / filter / reduce chain as the source writes it;
  - a reference reading, line by line.

  Both readings are proved to agree, and the parser's rules are proved on the reference reading.
- **Naming** covers the environment name (`[PR] #n - title` or `[Preview] branch`) and the trigger name (`Deployments of PR #n - title` or `Deployments of branch b`), with the pull request number rendered in decimal.
- **Records, Store, Queries** model the QA Wolf platform.
  - `Store.Remote` is a class. It holds the environments, triggers, repositories and team branches, and a log of every mutation it received.
  - Each GraphQL mutation is a method of `Remote`. Each GraphQL query is a function over its records.
  - Values the server chooses are parameters: the ids it assigns, whether it accepts an upsert, whether a promotion answers with data.
- **Environments** covers `getOrCreateEnvironment` and `findOrCreateEnvironment`. The second adds the promotion of the team's workflows into a new environment's branch.
- **Triggers** covers `findOrCreateTrigger`.
- **Variables** covers the overlay of the caller's variables on the base environment's, and `createEnvironmentVariables`, which sends one upsert per key.
- **CreateAction** covers `createEnvironmentAction`, the sequence of those steps. A failed step stops the action.
- **Deployment** covers the deploy-success request of `testDeployment`.
- **Dispatch** covers the operation switch of `handleOperation`.
- **Entry** covers the pure parts of `runGitHubAction`:
  - splitting and checking the repository name;
  - defaulting the variables input;
  - choosing the branch;
  - the commit URL;
  - the failure message.

## Model

| member | source | states |
|---|---|---|
| Text.Trim | src/parseEnvironmentVariables.ts:26-29 | the result is no longer than the text, neither starts nor ends with whitespace, and is empty exactly when the text is all whitespace |
| Text.TrimPadded | src/parseEnvironmentVariables.ts:26-29 | padding any trimmed text with whitespace on both sides and trimming gives the text back: `trim` removes exactly the surrounding whitespace |
| Text.TrimIdempotent | src/parseEnvironmentVariables.ts:26-29 | trimming twice is trimming once |
| Text.TrimmedIsFixed | src/parseEnvironmentVariables.ts:26-29 | a text without surrounding whitespace is left unchanged |
| Text.IndexOf | src/parseEnvironmentVariables.ts:21 | the index found holds the character and none before it does; "not found" is the length |
| Text.SplitOn | src/index.ts:23 | a split has at least one part and no part contains the separator |
| Text.Join | src/parseEnvironmentVariables.ts:26 | the empty list joins to the empty text, and a join starts with its first part; `JoinSplit`, `SplitJoin` and `SplitAtFirst` pin down the rest: joining is the inverse of splitting |
| Text.JoinSplit | src/parseEnvironmentVariables.ts:21-26 | joining the parts of a split with the separator gives the text back |
| Text.SplitJoin | src/index.ts:23 | splitting parts joined with a separator they do not contain gives the parts back |
| Text.SplitAtFirst | src/parseEnvironmentVariables.ts:23-26 | the first part is the text before the first separator, and the other parts joined with it are the text after it |
| Text.SeparatedPrefixUnique | src/index.ts:70 | a text joined to a rest by a separator it does not contain determines both the text and the rest |
| EnvVarParser.SplitLines | src/parseEnvironmentVariables.ts:20 | at least one line, and no line contains `\n` |
| EnvVarParser.SplitEachLine | src/parseEnvironmentVariables.ts:21 | one row per line, each with at least one segment |
| EnvVarParser.KeepKeyed | src/parseEnvironmentVariables.ts:22 | only rows with a non-empty first segment are kept |
| EnvVarParser.LineEntry | src/parseEnvironmentVariables.ts:21-29 | a line gives no entry exactly when it is empty or starts with `=`; otherwise its key and value are both trimmed |
| EnvVarParser.Collect | src/parseEnvironmentVariables.ts:23-31 | folding entries into a map never loses a key already there |
| EnvVarParser.Reduce | src/parseEnvironmentVariables.ts:23-31 | the reduction succeeds when every row has a key and throws "No key found" when some row has none |
| EnvVarParser.ParseEnvironmentVariablesToJson | src/parseEnvironmentVariables.ts:16-32 | the parser never throws: the filter makes the "No key found" branch unreachable |
| EnvVarParser.Entries | src/parseEnvironmentVariables.ts:21-29 | the line-by-line reference reading gives each line its own entry |
| EnvVarParser.ReduceIsCollect | src/parseEnvironmentVariables.ts:19-31 | the split/filter/reduce chain yields what the line-by-line reference reading yields |
| EnvVarParser.ParseIsCollect | src/parseEnvironmentVariables.ts:19-31 | the parse of any input equals the reference reading of its lines |
| EnvVarParser.CollectKeys | src/parseEnvironmentVariables.ts:26-30 | a key ends up in the map exactly when it was there already or some entry defines it |
| EnvVarParser.CollectLastWins | src/parseEnvironmentVariables.ts:26-30 | an entry with no later entry for its key gives that key's value |
| EnvVarParser.CollectUntouched | src/parseEnvironmentVariables.ts:26-30 | a key no entry defines keeps its value |
| EnvVarParser.CollectSize | src/parseEnvironmentVariables.ts:26-30 | each entry adds at most one key |
| EnvVarParser.ParsedKeys | src/parseEnvironmentVariables.ts:22-29 | a key is in the result exactly when some line defines it |
| EnvVarParser.LastDefinitionWins | src/parseEnvironmentVariables.ts:26-30 | when lines repeat a key, the last of them gives its value |
| EnvVarParser.ParsedSizeBound | src/parseEnvironmentVariables.ts:19-31 | the result has at most as many keys as the input has lines |
| EnvVarParser.ParseEmpty | src/parseEnvironmentVariables.ts:19-31 | the empty input gives the empty map |
| EnvVarParser.SingleLine | src/parseEnvironmentVariables.ts:20 | a text without `\n` is one line, kept whole, a trailing `\r` included |
| EnvVarParser.SplitLinesCrlf | src/parseEnvironmentVariables.ts:20 | lines joined with `\r\n` split back into the same lines |
| EnvVarParser.SplitLinesLf | src/parseEnvironmentVariables.ts:20 | lines joined with `\n` split back into the same lines, when no line but the last ends in `\r` |
| EnvVarParser.KeyValueLine | src/parseEnvironmentVariables.ts:21-29 | the key is the text before the first `=`, trimmed; the value is everything after it, further `=` included, trimmed |
| EnvVarParser.WhitespaceKeyBecomesEmpty | src/parseEnvironmentVariables.ts:22-29 | a whitespace-only key passes the filter and is stored as the empty key |
| EnvVarParser.LineWithoutSeparator | src/parseEnvironmentVariables.ts:21-26 | a line without `=` maps its trimmed text to the empty value |
| Naming.Decimal | src/findOrCreateEnvironment.ts:59-61 | the number renders as decimal digits without a leading zero |
| Naming.DecimalRoundTrip | src/findOrCreateEnvironment.ts:59-61 | reading the rendered digits back gives the number |
| Naming.DecimalInjective | src/findOrCreateEnvironment.ts:59-61 | distinct numbers render differently |
| Naming.EnvironmentName | src/getOrCreateEnvironment.ts:56-58 | an environment name starts with `[`, its third character telling a pull request name (`R`) from a branch name (`r`) |
| Naming.TriggerName | src/findOrCreateTrigger.ts:45-47 | a trigger name starts with `Deployments of `, followed by `P` for a pull request and `b` for a branch |
| Naming.EnvironmentNameInjective | src/getOrCreateEnvironment.ts:55-58 | two calls get the same environment name exactly when they have the same pull request, or no pull request and the same branch |
| Naming.TriggerNameInjective | src/findOrCreateTrigger.ts:45-47 | the same holds for trigger names |
| Naming.EnvironmentAndTriggerNamesDiffer | src/findOrCreateTrigger.ts:45-47 | an environment name is never a trigger name |
| Naming.PullRequestNamesExample | src/findOrCreateEnvironment.ts:59-61 | pull request 42 "Fix bug" gives `[PR] #42 - Fix bug` and `Deployments of PR #42 - Fix bug` |
| Naming.BranchNamesExample | src/findOrCreateTrigger.ts:45-47 | branch `feature-x` gives `[Preview] feature-x` and `Deployments of branch feature-x` |
| Naming.DecimalExample | src/findOrCreateEnvironment.ts:60 | 42 renders as `42` |
| Queries.FirstIndex | src/findRepositoryIdByName.ts:46-51 | the first index whose element is accepted, none before it being accepted |
| Queries.FilterAppend | src/getOrCreateEnvironment.ts:71-75 | filtering a list extended at the end extends the filtered list the same way |
| Queries.FilterKeepsTwo | src/findOrCreateEnvironment.ts:145-146 | a filter keeps more than one element exactly when it accepts two distinct positions of the list |
| Queries.EnvironmentWithId | src/findOrCreateEnvironment.ts:163-174 | the environment with that id, deleted or not, and none exactly when no environment has it |
| Queries.FindRepositoryIdByName | src/findRepositoryIdByName.ts:19-51 | the id of the first repository whose full name equals the given one exactly, and none, not an error, when no repository has it |
| Queries.GetTagsFromGenericTriggerInEnvironment | src/getTagsFromEnvironment.ts:27-65 | an error exactly when no environment has the id; otherwise the unchanged tags of the environment's first non-deleted generic trigger, or none when it has none |
| Queries.GetBranchIdForGitBranch | src/getEnvironmentIdForBranch.ts:15-51 | an error exactly when no trigger's deployment branches equal the branch, deleted triggers included; otherwise the environment branch id of the first such trigger |
| Store.WithVariable | src/createEnvironmentVariables.ts:20-29 | an upsert sets the named variable of the addressed environment, keeps its other variables and fields, and leaves other environments unchanged |
| Store.Remote.CreateEnvironment | src/getOrCreateEnvironment.ts:77-99 | the request is logged; the environment, and its team branch, are recorded when the answer carries an id; nothing else changes |
| Store.Remote.UpsertEnvironmentVariable | src/createEnvironmentVariables.ts:17-37 | the request is logged; when accepted, every environment becomes `WithVariable` of itself; nothing else changes |
| Store.Remote.CreateTrigger | src/findOrCreateTrigger.ts:89-136 | the request is logged; the trigger is recorded with the requested fields when the answer carries an id |
| Store.Remote.PromoteWorkflowsToBranch | src/findOrCreateEnvironment.ts:195-224 | the promotion from source to target branch is logged and answers whether it has data |
| Environments.ExistingEnvironmentId | src/getOrCreateEnvironment.ts:40-75 | the id of the first non-deleted environment with the name, and none exactly when there is none |
| Environments.SameShapeLookup | src/createEnvironmentAction.ts:56-60 | changing environments' variables leaves the name lookup's answer as it was |
| Environments.FirstActiveIsFound | src/getOrCreateEnvironment.ts:71-75 | the first non-deleted environment with the name is the one the lookup returns |
| Environments.LookupStable | src/getOrCreateEnvironment.ts:71-75 | environments added later do not change a lookup that found one |
| Environments.CreatedIsFound | src/getOrCreateEnvironment.ts:77-107 | an environment created after an empty lookup is what the same lookup finds next |
| Environments.GetOrCreateEnvironment | src/getOrCreateEnvironment.ts:33-108 | finds the existing environment and changes nothing; otherwise creates exactly one environment with the same name for the team and returns its id, or fails with "Environment ID not found in response"; a repeated call finds the returned id |
| Environments.BaseEnvironment | src/findOrCreateEnvironment.ts:152-182 | the environment with the base id, or none when no environment has it |
| Environments.HasMultipleBranches | src/findOrCreateEnvironment.ts:145-146 | the team has several branches exactly when two distinct team-branch records belong to it |
| Environments.PromotionDue | src/findOrCreateEnvironment.ts:145-182 | a promotion is due only after a creation, with two branches of the team recorded and the base environment stored with a branch |
| Environments.FindOrCreateEnvironment | src/findOrCreateEnvironment.ts:35-227 | as `GetOrCreateEnvironment`; after a creation it promotes from the base environment's branch to the new branch exactly when the team has several branches and the base has a branch; it fails with the source's messages for a missing id, a missing base branch and an unanswered promotion |
| Environments.NoPromotionWithoutSecondBranch | src/findOrCreateEnvironment.ts:145-150 | with at most one team branch and none added, no promotion is due |
| Environments.SecondBranchTriggersPromotion | src/findOrCreateEnvironment.ts:145-150 | creating an environment on a branch that is not yet a team branch, for a team that had one, makes promotion due when the base has a branch |
| Environments.ReusedBranchAddsNone | src/findOrCreateEnvironment.ts:145-150 | an environment created on a branch the platform already lists adds no team branch, so a team that had at most one branch gets no promotion |
| Triggers.TagIds | src/findOrCreateTrigger.ts:126 | the tag ids in order, absent exactly when the tags are |
| Triggers.TriggerCreation | src/findOrCreateTrigger.ts:119-128 | a creation request has the derived trigger name, the branch itself as deployment branches, `qawolf-preview`, `generic`, and the given environment, team and repository (absent passed through); the tag ids are absent exactly when the tags are, and in their order |
| Triggers.ExistingTriggerId | src/findOrCreateTrigger.ts:48-87 | the id of the first non-deleted trigger of the environment with exactly that name, and none exactly when there is none |
| Triggers.CreatedTriggerIsFound | src/findOrCreateTrigger.ts:80-87 | a trigger created after an empty lookup is what the same lookup finds next |
| Triggers.FindOrCreateTrigger | src/findOrCreateTrigger.ts:34-147 | finds the existing trigger and changes nothing; otherwise sends one creation with `TriggerCreation`'s fields and returns its id, or fails with "Trigger ID not found in response" |
| Variables.MergeVariables | src/createEnvironmentAction.ts:50-53 | the overlay has the keys of both maps and the caller's value wins on a collision |
| Variables.MergeWithoutBase | src/createEnvironmentAction.ts:43-53 | without base variables the overlay is the caller's map |
| Variables.Upserts | src/createEnvironmentVariables.ts:14-39 | one request per key, each with the environment id, the key as name and its value |
| Variables.UpsertStep | src/createEnvironmentVariables.ts:20-29 | one more upsert, applied unless rejected, extends the applied keys by one |
| Variables.UpsertKey | src/createEnvironmentVariables.ts:15-37 | one key's upsert keeps the loop's progress invariant: log, applied keys and failure so far |
| Variables.CreateEnvironmentVariables | src/createEnvironmentVariables.ts:5-42 | exactly one upsert per key, none for the empty map; each non-rejected key takes its value in the environment and its other variables are unchanged; the call fails exactly when some key is rejected |
| Variables.AllAppliedWhenNoneRejected | src/createEnvironmentVariables.ts:20-29 | with nothing rejected, every key holds the given value and every other variable is unchanged |
| CreateAction.BaseVariables | src/createEnvironmentAction.ts:43-48 | `{}` without a base id; the base environment's variables; an error exactly when no environment has the id |
| CreateAction.BaseTags | src/createEnvironmentAction.ts:78-83 | no tags without a base id; otherwise the base environment's generic-trigger tags |
| CreateAction.TagsFollowBaseVariables | src/createEnvironmentAction.ts:43-83 | once the base variables were found, the tags step cannot fail |
| CreateAction.UpsertOverlay | src/createEnvironmentAction.ts:43-60 | a missing base environment stops before any upsert and changes nothing; otherwise the overlay of the caller's variables on the base variables is upserted once per key, in some order of its keys, into the environment, which then holds every accepted key's value; the step fails with `UpsertFailed` exactly when a key was rejected |
| CreateAction.AttachTrigger | src/createEnvironmentAction.ts:65-97 | the trigger request carries the repository id found (or none) and the base tags; no request is sent and the triggers stay as they were when the trigger exists; otherwise exactly one creation is sent and the created trigger is appended; it fails with `TriggerIdMissing` exactly when the answer has no id |
| CreateAction.ConfigureEnvironment | src/createEnvironmentAction.ts:43-97 | the log grows by the upserts and then the trigger requests, all addressed to the environment; a missing base environment sends nothing and changes nothing; a rejected upsert fails with `UpsertFailed` and leaves the triggers as they were; otherwise the environment holds the overlay and the trigger is found or created with the base tags; on success the trigger exists; team branches, repositories and the name lookup stay unchanged |
| CreateAction.CreateEnvironmentAction | src/createEnvironmentAction.ts:23-98 | the steps in source order: the environment request(s), then the upserts, then the trigger requests, all upserts and trigger requests addressed to the environment the first step returned; a failed first step, or a base environment missing from the store that step left, ends the action with nothing more sent, the environments as that step left them and the triggers as they were; otherwise the environments hold the overlay and the triggers the one found or created, as for `ConfigureEnvironment`; only the first step may add a team branch; once the first step returned an environment, it stays findable by name even when a later step fails; on success its trigger is found by name too |
| Deployment.RunVariables | src/testDeployment.ts:33-36 | the caller's keys plus `URL`; `URL` is the deployment URL, and every other caller variable is carried over |
| Deployment.TestDeployment | src/testDeployment.ts:25-44 | one request with type `qawolf-preview`, the given branch, commit URL, deployment URL and sha, and the raw key as `Authorization` |
| Deployment.CallerUrlIgnored | src/testDeployment.ts:33-36 | a `URL` supplied by the caller makes no difference to the request |
| Dispatch.HandleOperation | src/handleOperation.ts:43-80 | one action per known operation, selected by the operation alone; `create-environment` passes the repository name as the head repository; `run-tests` needs a deployment URL or throws "missing deployment url"; other operations throw `invalid operation: <op>` |
| Dispatch.InvalidOperationNamesIt | src/handleOperation.ts:78-79 | the error of an unknown operation determines the operation |
| Dispatch.RunTestsUrl | src/handleOperation.ts:64-76 | a test run's `URL` variable and deployment URL are the given deployment URL |
| Entry.SplitRepoFullName | src/index.ts:17-27 | "missing GITHUB_REPOSITORY" when unset or empty; "invalid repo full name" for any other failure; owner and repository are non-empty and free of `/` |
| Entry.RepoFullNameRoundTrip | src/index.ts:23-27 | `owner/repo` splits back into owner and repository |
| Entry.ExtraSegmentsIgnored | src/index.ts:23-27 | segments after the second are ignored, not rejected |
| Entry.OwnerAndRepoRequired | src/index.ts:25-27 | a name without `/`, or with nothing before the first `/`, is rejected |
| Entry.AcceptedNameShape | src/index.ts:23-27 | what is accepted is a prefix `owner/repo` of the name, ending at its end or at a `/` |
| Entry.VariablesInput | src/index.ts:29-31 | skipping the parse on empty input gives what the parse would give |
| Entry.SelectedPullRequest | src/index.ts:53 | a pull request is selected exactly when the listing is non-empty, and it is the first one listed |
| Entry.ResolveBranch | src/index.ts:53-66 | with a pull request, its head ref, and an empty one fails without falling back; else the first branch; failure is `No branch found for SHA or PR ref: <sha>` |
| Entry.CommitUrl | src/index.ts:70 | the commit URL starts with the GitHub host `https://github.com/` and ends with the commit sha |
| Entry.CommitUrlInjective | src/index.ts:70 | for owners and repositories without `/`, different owners, repositories or commits give different commit URLs (a commit may contain `/`) |
| Entry.RunGitHubAction | src/index.ts:17-84 | repository checks first, then the branch, then the operation; the action receives the full repository name, the chosen branch, the parsed variables and the commit URL of this repository |
| Entry.FailureMessage | src/index.ts:85-92 | `Action failed: ` followed by the error's message, or `Unknown error` when there is none |

## Left out

- HTTP and GraphQL transport are not modelled: axios calls, headers, query text, and the endpoints from `./constants`, which is not part of this model. Each remote call is a `Store.Remote` method, or a query function over its records.
- Octokit and `@actions/core` are not modelled: reading inputs, the two GitHub listings, `setFailed` and all logging. Inputs, pull requests and branches are parameters. `core.getInput` throwing for a missing required input is left out.
- Server behaviour is given as parameters: the ids the platform assigns, which upserts it rejects, and whether a promotion answers with data. Network failures of queries are left out.
- `getEnvironmentVariablesFromEnvironment` is not modelled. Its only logic is `JSON.parse` of a server string. The base environment's variables are read from the store record directly.
- The delete actions (`deleteTeamBranchAction`, `deleteTeamBranch`, `deleteEnvironmentAction`, `deleteEnvironment`) are not modelled. Their argument wiring does not match between caller and callee. Only the selection of the delete action and its arguments in `handleOperation` is modelled.
- `Promise.all` in `createEnvironmentVariables` is modelled as a sequential loop over distinct keys. The loop's order is left unfixed: `order` is any permutation of the keys. All upserts are sent even when one fails. Concurrency and the time at which the rejection surfaces are not modelled.
- Variables.CreateEnvironmentVariables: the failure message `Request failed` stands in for the transport's error message, which is not part of this model.
- Environments.FindOrCreateEnvironment: when the base environment is not found, the source reads `branchId` of `null`. The model fails with the message V8 gives that `TypeError`.
- Environments.FindOrCreateEnvironment: the created environment's `branchId` is taken from the creation answer. The store then lists it as a team branch only when no team branch has that id yet; which team branches the platform records is a choice of the store model.
- Entry.RunGitHubAction stops at the choice of action. The action's own effects are `CreateAction.CreateEnvironmentAction` and `Deployment.TestDeployment`.
- `log.info`/`log.debug` messages are not modelled, and nor is the failure message for thrown values that are not errors, beyond `Entry.FailureMessage`.
- Strings are Dafny `char` sequences. A `char` is a Unicode scalar value, while a JavaScript string is a sequence of UTF-16 code units, so strings holding a lone surrogate cannot be represented, and lengths and indices count characters, not code units.
