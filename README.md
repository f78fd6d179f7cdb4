# approve-pr-action, modelled in Dafny

This project models the GitHub Action `approve-pr-action`. The action lets a pull request be approved by a
GitHub App without letting the requesting repository hold the App's credentials. It runs in one of two
flows:

- **Client flow.** Runs in the pull request's repository. It validates the pull request's commits with the
  workflow's own token. When every commit passes, it creates a label in the *server repository* whose
  description names the pull request (`owner/repo/number`).
- **Server flow.** Runs in the server repository when that label appears. It decodes the pull request from
  the description and mints a read-only App token for its repository. It saves that token and its expiry
  to the job's state store, validates the commits again, and approves the pull request on the last commit
  it saw. A failed approval is answered with one comment on the pull request, and then with the original
  error.

The entry point runs twice per job on one state store. The main invocation writes the `post` marker and
runs one flow. The post invocation finds the marker and only revokes the token the server flow may have
saved.

The model has these modules:

- `Common`: `Option`, `Result`, the errors and the outcome of a flow.
- `Strings`: the JavaScript built-ins the code relies on, written on `seq<char>`: `split`, `trim` and
  `Number`.
- `AllowList`: parsing of the `allowed_committers` input.
- `Validator`: the commit approval policy and the paginated query loop. `Validate` is a method with the
  source's page loop and inner node loop.
- `Trigger`: the label-description encoder and decoder, and their round trip.
- `Runtime`: what the action sees of its surroundings:
  - external calls, recorded in a ghost log of `Effect`s;
  - what the services answer (`Replies`);
  - the inputs and the event context;
  - the cross-phase state store, as the `Runner` class with a `map<string, string>` field.
- `Server`, `Client`, `Run`: the two flows and the entry point. Each is a method that updates the
  `Runner`, proved equal to a specification function that returns the effects and the outcome
  (`ServerRun`, `ClientRun`, `DispatchRun`). The ordering properties are lemmas about those functions.

## Model

| member | source | states |
|---|---|---|
| Strings.Split | src/server.ts:10 | `split` gives at least one part, and no part contains the separator |
| Strings.JoinSplit | src/server.ts:10 | joining the parts of a split with the separator gives back the input |
| Strings.SplitJoin | src/server.ts:10-11 | splitting parts without the separator, once joined, gives back exactly those parts |
| Strings.SplitLength | src/server.ts:10-11 | a string splits into one more part than it has separators |
| Strings.Trim | src/server.ts:57 | `trim` leaves no white space at either end and never grows the string |
| Strings.TrimStrips | src/server.ts:57-59 | `trim` removes exactly the leading and trailing white space: the result is the slice of the input after the leading white-space run, and every character before and after it is white space |
| Strings.TrimBlank | src/server.ts:57-58 | `trim` gives "" exactly when the input is all white space |
| Strings.TrimIdempotent | src/server.ts:59 | trimming twice is trimming once |
| Strings.NumberString | src/client.ts:45 | a number prints as at least one character, and an integer as decimal digits without a leading zero |
| Strings.ToNumber | src/server.ts:19 | `Number`: blank text is 0, decimal digits (after trimming) give their value, and anything else gives NaN |
| Strings.NumberRoundTrip | src/client.ts:18-20 | reading back a printed number with `Number` gives the same number |
| AllowList.ParseAllowedCommitters | src/server.ts:57-60 | the allow-list parser shared by both flows (also src/client.ts:23-26); its properties are stated by `AllowListSpec` |
| AllowList.TrimmedLines | src/server.ts:59 | every entry kept is non-empty and trimmed |
| AllowList.TrimmedLinesComplete | src/server.ts:59 | every line that is not blank is kept, trimmed |
| AllowList.TrimmedLinesSound | src/server.ts:59 | every entry kept is the trim of some line |
| AllowList.AllowListSpec | src/server.ts:57-60 | a blank input gives exactly the two default bots. Otherwise the result has at least one entry, each non-empty, trimmed and on one line. Every non-blank line is in it and nothing else is, so the override replaces the default instead of adding to it |
| Validator.Passes | src/validate.ts:108-141 | the per-commit policy: a valid signature and then the linked committer, or without one the author, on the allow list; its cases are stated by `PolicyCases` |
| Validator.Validation | src/validate.ts:85-152 | the result of `validate` on a sequence of answers, against which `Validate` is proved |
| Validator.AllowedSet | src/validate.ts:86 | allow-list membership is exact membership in the parsed list |
| Validator.FinalPageFrom | src/validate.ts:145-147 | the loop stops at the first page without a next page, and every page before it has one |
| Validator.QueryCursors | src/validate.ts:87-98 | one request per page read: the first with a null cursor, each later one with the previous page's `endCursor` |
| Validator.Validate | src/validate.ts:85-152 | the loop's result is the verdict of the policy on all nodes of the pages read, or a query failure when the answers run out. The cursors it sends are `QueryCursors` |
| Validator.PolicyCases | src/validate.ts:108-141 | a missing or invalid signature fails whatever the identities. A linked committer alone decides, and the author is not consulted. Without a committer the author decides, and a commit with neither fails |
| Validator.ApprovedIffEveryCommitPasses | src/validate.ts:102-142 | approved exactly when every commit on every page read passes the policy |
| Validator.EvaluateConcat | src/validate.ts:102-105 | verdicts compose over concatenation: both parts must pass, and the last sha comes from the second part unless it is empty |
| Validator.RejectionIsFinal | src/validate.ts:108-141 | once a commit is rejected, no later commit restores approval |
| Validator.LastShaOfLastPage | src/validate.ts:88-151 | the last sha is the last oid of the last page read. A pull request without commits is approved with an empty sha |
| Validator.PaginationTransparent | src/validate.ts:92-149 | the result equals the result for one final page holding every node read |
| Validator.LaterAnswersIgnored | src/validate.ts:145-147 | answers after the first final page change neither the result nor the requests sent |
| Trigger.ParseLabelDescription | src/server.ts:6-21 | fails exactly when the description does not contain exactly two '/', with the description in the error. On success, owner and repo are the verbatim text before the first and the second '/', possibly empty, and the number is `Number` of the rest |
| Trigger.Describe | src/client.ts:45 | the description `owner/repo/number` holds exactly two more '/' than owner and repo together |
| Trigger.RoundTrip | src/client.ts:45 | decoding the description the client writes gives back its owner, repo and number, when owner and repo contain no '/' |
| Trigger.SlashBreaksRoundTrip | src/server.ts:10-15 | the condition is needed: for any owner, repo and number, a '/' in owner or repo gives a description that fails to parse |
| Runtime.RequiredInput | src/client.ts:7-8 | a required input is an error naming the input exactly when it is empty |
| Runtime.Runner.GetState | src/run.ts:20-21 | `getState` reads the stored value of a key, and "" for a key never saved |
| Runtime.Runner.SaveState | src/server.ts:51-52 | `saveState` sets one key of the store and logs the write |
| Server.ServerRun | src/server.ts:23-101 | the server flow as a function of inputs, context and replies: its effects, in order, and its outcome |
| Server.PermissionsReadOnly | src/server.ts:32-35 | the token is asked for with read access only, to pull requests and contents |
| Server.Action | src/server.ts:23-101 | the server flow's effects are appended to the log and its outcome is returned. Its state writes are applied to the store |
| Server.Mint | src/server.ts:43-49 | the token request comes first. A failed mint ends the flow with that error |
| Server.Persist | src/server.ts:50-52 | the token and then its expiry are saved before anything else happens |
| Server.ValidateAndApprove | src/server.ts:56-68 | one query per page is sent with the minted token, then the approval stage follows the verdict |
| Server.Approve | src/server.ts:70-100 | no review unless approved. The operator token is required only then. A failed review is followed by one comment and ends with the review's error. The store is not touched |
| Server.DescriptionCheckedFirst | src/server.ts:24-29 | a missing or empty description, or one without exactly two '/', ends the flow with the matching error, before any call or state write |
| Server.EarlyStop | src/server.ts:24-49 | a flow that does not get a token makes at most one call: the token request for the decoded repository |
| Server.EarlyOutcome | src/server.ts:43-49 | a flow that stops after the token request ends with the mint's error. One that stops before any call, with a decoded description, ends with `MissingInput` for the first empty credential, `app_id` before `app_private_key` |
| Server.Stages | src/server.ts:43-68 | once a token is minted the flow is: token request, save token, save expiry, the queries with the minted token, then the approval stage |
| Server.TokenSavedBeforeUse | src/server.ts:51-62 | every query uses the minted token, which was saved, with its expiry, before the first query. Nothing else is written to the store |
| Server.TokenIsReadOnly | src/server.ts:29-49 | any call at all means the description parsed. The only token request is the first effect, for the decoded repository with read permissions |
| Server.ApproveShape | src/server.ts:70-100 | the approval stage has at most two effects. The review exists exactly when approved and the operator token is set, and it approves `lastSha`. The comment exists exactly when the review failed. The outcome is the review's error, or the comment's when posting it fails too. A failed validation ends with its error, a rejected verdict with `Done`, and an approved one without the operator token with `MissingInput("github_token")` |
| Server.ReviewOnlyWhenApproved | src/server.ts:70-89 | every review in a whole run follows an approved verdict and approves, with the operator token, the last sha of the decoded pull request |
| Server.ReviewWhenApproved | src/server.ts:76-89 | conversely, an approved verdict with a minted token and the operator token set leads to that review |
| Server.CommentOnFailure | src/server.ts:90-100 | a successful review ends the run. A failed one is followed by exactly one comment with the same token on the same pull request, and then the error is rethrown |
| Server.ServerStore | src/server.ts:51-52 | the flow leaves the store with the token and its expiry once one is minted, and unchanged otherwise |
| Server.ServerNeverLabels | src/server.ts:23-101 | the server flow never creates a label and never revokes |
| Client.ClientRun | src/client.ts:6-70 | the client flow as a function of inputs, context and replies: its effects, in order, and its outcome |
| Client.Target | src/client.ts:14-20 | owner and repo fall back to the workflow's repository exactly when their inputs are empty |
| Client.ServerOwner | src/client.ts:12-13 | the server owner falls back to the workflow's owner exactly when its input is empty |
| Client.Action | src/client.ts:6-70 | the client flow's effects are appended to the log and its outcome is returned. The store is not touched |
| Client.ValidateAndLabel | src/client.ts:23-41 | the queries with the workflow's token, then the label stage on the verdict |
| Client.CreateLabel | src/client.ts:38-65 | no label unless approved. Otherwise one label in the server repository, described as `owner/repo/number` |
| Client.MissingInputStops | src/client.ts:7-21 | a missing required input ends the flow before any call. The error names one of the five required inputs, that input is empty, and every required input read before it is set |
| Client.ClientOutcome | src/client.ts:29-41 | with every input set, a failed commit query ends the flow with `CommitQueryFailed`, and a rejected verdict ends it with `Done`. Either way the queries are the only calls |
| Client.ClientStages | src/client.ts:21-36 | with every input set, the flow validates the target pull request with the workflow's token |
| Client.LabelStage | src/client.ts:38-65 | the label stage has at most one effect, and has one exactly when approved. That effect is the label with the pull request's description, and its answer is the outcome. A failed validation ends with its error, and a rejected verdict with `Done` |
| Client.LabelFollowsVerdict | src/client.ts:38-65 | a label is only created after an approved verdict, as the last effect, and it is the expected label. Every other effect is a query with the workflow token on the target pull request |
| Client.LabelFollowsVerdictWithInputs | src/client.ts:38-65 | with every input set and an approved verdict, the last effect is that label and its answer is the outcome |
| Client.LabelDecodesToTarget | src/client.ts:45 | the server decodes any label the client creates back to the validated pull request, when owner and repo contain no '/' |
| Client.ClientSavesNothing | src/client.ts:6-70 | the client flow writes nothing to the state store |
| Run.RevokeRun | src/run.ts:6-16 | no call for an empty token, nor for one whose recorded expiry has passed. Otherwise exactly one revocation of that token, whose answer is the outcome |
| Run.Revoke | src/run.ts:6-16 | the method makes the calls `RevokeRun` describes and leaves the store alone |
| Run.FlowRun | src/run.ts:29-34 | routing on `server_repository_name`: the client flow when it is set, the server flow otherwise |
| Run.DispatchRun | src/run.ts:18-35 | `main` as a function of the store: the post branch when the marker is set, else the marker write and then the routed flow |
| Run.Dispatch | src/run.ts:18-35 | `main` appends `DispatchRun`'s effects to the log and applies its writes to the store |
| Run.PostOnlyRevokes | src/run.ts:20-23 | on a marked store, `main` is `revoke` of the stored token and expiry: at most that one revocation, no flow, and the store is unchanged. It ends normally when nothing is revoked, and otherwise with the revocation's answer, so a failed revocation fails the post invocation |
| Run.MarkBeforeFlow | src/run.ts:24-34 | on an unmarked store, the marker is written first. Then exactly one flow runs: the client flow (queries and labels only) when `server_repository_name` is set, the server flow (no labels) otherwise. Nothing is revoked, and the marker stays set whatever the flow's outcome. `main` ends with the outcome of the flow it ran |
| Run.MarkThenClient | src/run.ts:24-31 | the client route leaves only the marker in the store |
| Run.MarkThenServer | src/run.ts:24-33 | the server route leaves the marker in place whatever the server flow writes |
| Run.TwoRuns | src/run.ts:18-35 | main then post, on one store that starts empty. The post run only revokes and leaves the store alone. After the client flow it makes no call. After the server flow it revokes exactly the minted token, unless none was minted, the token is empty, or its expiry has passed |

## Left out

- The GraphQL query text and the network calls are not modelled. That covers the octokit calls, token minting and revocation, `label.create`, `createReview` and `createComment`. Each call is an `Effect` in a ghost log, and what it answers comes from `Replies`. The calls are not executed, and no call is retried.
- `githubAppToken.hasExpired` compares against the wall clock, so it is the `tokenExpired` reply.
- `label.newName` is random, so the generated name is the `labelName` reply. Its uniqueness is not modelled.
- `LabelCreated` does not record the App credentials the label library is given (src/client.ts:59-60).
- Logging, `core.notice`, `core.setSecret` and the texts they print are not modelled. Nor are URLs built from the environment: the workflow URL is a field of the context.
- `core.getInput` is an input map in which a missing key reads as "". `core.getInput` itself trims its result by default, after checking `required` on the untrimmed value; the model reads the untrimmed value everywhere. `RequiredInput` therefore matches the source's required check, but not the value it returns, which the source trims. So a `server_repository_name` of only white space sends `main` to the server flow in the source (src/run.ts:29-30, the trimmed value is "") and to the client flow in the model. Likewise the `||` fallbacks of `server_repository_owner`, `repository_owner` and `repository_name` (src/client.ts:12-17) fall back to the workflow's repository in the source when the input is only white space, while the model keeps the white space.
- `async`/`await`: every step is a sequential call, and a rejected promise is a `Failed` outcome.
- Strings.ToNumber: does not model JavaScript's full `Number` grammar. Floats, signs, exponents, hexadecimal and `Infinity` all become NaN here, and values above 2^53 keep full precision instead of rounding.
- Strings.NumberString: prints every integer in plain digits, but JavaScript prints integers of 1e21 and above in exponent form ("1e+21"). Its digits-only ensures therefore matches JavaScript only below 1e21.
- A failed revocation in the post invocation is not caught: `main` awaits `revoke`, which returns the revocation's promise (src/run.ts:15, 21), so its failure fails the invocation. The model follows the code (`Run.PostOnlyRevokes`).
- `core.saveState` values become visible to `core.getState` only in a later invocation, while `Runtime.Runner.SaveState` updates the store at once. No flow reads back a key it wrote in the same invocation, so nothing observable differs.
- A pull request number that is not numeric is not rejected. `Number` turns it into NaN, and the flows carry it on. The code has no such check, and neither does the model.
- `Strings.Trim` uses ECMAScript's WhiteSpace and LineTerminator characters. No Unicode normalisation is modelled.
- `totalCount` and the first-100 limit of a page are not modelled. A page is whatever nodes the answer holds.
- The post invocation runs whatever the main invocation's outcome was. Whether the job's runner starts it is not modelled.
