/** The client flow: run in the repository of the pull request.  It
    validates the pull request with the workflow's own token and, when the
    commits pass, asks the server to approve it by creating a label in the
    server repository whose description names the pull request. */
module Client {
  import opened Common
  import opened Strings
  import opened AllowList
  import opened Validator
  import opened Trigger
  import opened Runtime

  /** The pull request to validate: owner and repository default to the
      repository the workflow runs in, the number is taken through `Number`. */
  function Target(inputs: map<string, string>, ctx: Context): (r: PullRequestRef)
    ensures Input(inputs, "repository_owner") == "" ==> r.owner == ctx.repoOwner
    ensures Input(inputs, "repository_owner") != "" ==> r.owner == Input(inputs, "repository_owner")
    ensures Input(inputs, "repository_name") == "" ==> r.repo == ctx.repoName
    ensures Input(inputs, "repository_name") != "" ==> r.repo == Input(inputs, "repository_name")
  {
    PullRequestRef(OrElse(Input(inputs, "repository_owner"), ctx.repoOwner),
                   OrElse(Input(inputs, "repository_name"), ctx.repoName),
                   ToNumber(Input(inputs, "pull_request_number")))
  }

  /** The owner of the server repository, by default the current one. */
  function ServerOwner(inputs: map<string, string>, ctx: Context): (r: string)
    ensures Input(inputs, "server_repository_owner") == "" ==> r == ctx.repoOwner
    ensures Input(inputs, "server_repository_owner") != "" ==> r == Input(inputs, "server_repository_owner")
  {
    OrElse(Input(inputs, "server_repository_owner"), ctx.repoOwner)
  }

  /** The effects and the outcome of the client flow.  The required inputs
      are read in order and the first missing one is the error; no call is
      made before all of them are present. */
  function ClientRun(inputs: map<string, string>, ctx: Context, replies: Replies): Step
  {
    if RequiredInput(inputs, "app_id").Failure? then Step([], Failed(MissingInput("app_id")))
    else if RequiredInput(inputs, "app_private_key").Failure? then Step([], Failed(MissingInput("app_private_key")))
    else if RequiredInput(inputs, "server_repository_name").Failure? then
      Step([], Failed(MissingInput("server_repository_name")))
    else if RequiredInput(inputs, "pull_request_number").Failure? then
      Step([], Failed(MissingInput("pull_request_number")))
    else if RequiredInput(inputs, "github_token").Failure? then Step([], Failed(MissingInput("github_token")))
    else
      ValidateAndLabelRun(Target(inputs, ctx), Input(inputs, "github_token"), ServerOwner(inputs, ctx),
                          Input(inputs, "server_repository_name"), inputs, replies)
  }

  /** Validation with the workflow's token sends one query per page, and
      then the label follows the verdict. */
  function ValidateAndLabelRun(pr: PullRequestRef, credential: string, serverOwner: string, serverRepo: string,
                               inputs: map<string, string>, replies: Replies): Step
  {
    Then(Queries(credential, pr, QueryCursors(replies.commitPages)),
         LabelRun(pr, Validation(replies.commitPages, Allowed(inputs)), serverOwner, serverRepo, replies))
  }

  /** One label, in the server repository and describing `pr`, exactly when
      the validation approved. */
  function LabelRun(pr: PullRequestRef, validation: Result<Verdict>, serverOwner: string, serverRepo: string,
                    replies: Replies): Step
  {
    match validation
    case Failure(e) => Step([], Failed(e))
    case Success(v) =>
      if !v.approved then Step([], Done)
      else Step([LabelCreated(serverOwner, serverRepo, replies.labelName, Describe(pr.owner, pr.repo, pr.prNumber))],
                replies.labelReply)
  }

  /** `action` of the client flow: the inputs, read before any call; the
      rest is `ValidateAndLabel`. */
  method Action(rt: Runner, inputs: map<string, string>, ctx: Context, replies: Replies)
    returns (o: Outcome)
    modifies rt
    ensures rt.effects == old(rt.effects) + ClientRun(inputs, ctx, replies).effects
    ensures rt.state == old(rt.state)
    ensures o == ClientRun(inputs, ctx, replies).outcome
  {
    var appId := RequiredInput(inputs, "app_id");
    if appId.Failure? {
      return Failed(appId.error);
    }
    var privateKey := RequiredInput(inputs, "app_private_key");
    if privateKey.Failure? {
      return Failed(privateKey.error);
    }
    var serverRepo := RequiredInput(inputs, "server_repository_name");
    if serverRepo.Failure? {
      return Failed(serverRepo.error);
    }
    var serverOwner := OrElse(Input(inputs, "server_repository_owner"), ctx.repoOwner);
    var owner := OrElse(Input(inputs, "repository_owner"), ctx.repoOwner);
    var repo := OrElse(Input(inputs, "repository_name"), ctx.repoName);
    var number := RequiredInput(inputs, "pull_request_number");
    if number.Failure? {
      return Failed(number.error);
    }
    var pr := PullRequestRef(owner, repo, ToNumber(number.value));
    var githubToken := RequiredInput(inputs, "github_token");
    if githubToken.Failure? {
      return Failed(githubToken.error);
    }
    o := ValidateAndLabel(rt, pr, githubToken.value, serverOwner, serverRepo.value, inputs, replies);
  }

  /** `action` of the client flow from the validation on. */
  method ValidateAndLabel(rt: Runner, pr: PullRequestRef, credential: string, serverOwner: string,
                          serverRepo: string, inputs: map<string, string>, replies: Replies)
    returns (o: Outcome)
    modifies rt
    ensures rt.effects == old(rt.effects) + ValidateAndLabelRun(pr, credential, serverOwner, serverRepo, inputs, replies).effects
    ensures rt.state == old(rt.state)
    ensures o == ValidateAndLabelRun(pr, credential, serverOwner, serverRepo, inputs, replies).outcome
  {
    var allowed := ParseAllowedCommitters(Input(inputs, "allowed_committers"));
    var result, cursors := Validate(replies.commitPages, allowed);
    var queries := Queries(credential, pr, cursors);
    QueriesNoWrites(credential, pr, cursors);
    ghost var before := rt.effects;
    rt.PerformAll(queries);
    o := CreateLabel(rt, pr, result, serverOwner, serverRepo, replies);
    Associative(before, queries, LabelRun(pr, result, serverOwner, serverRepo, replies).effects);
  }

  /** `action` of the client flow after the validation: stop unless it
      approved, otherwise create the trigger label. */
  method CreateLabel(rt: Runner, pr: PullRequestRef, validation: Result<Verdict>, serverOwner: string,
                     serverRepo: string, replies: Replies)
    returns (o: Outcome)
    modifies rt
    ensures rt.effects == old(rt.effects) + LabelRun(pr, validation, serverOwner, serverRepo, replies).effects
    ensures rt.state == old(rt.state)
    ensures o == LabelRun(pr, validation, serverOwner, serverRepo, replies).outcome
  {
    assert rt.effects + [] == rt.effects;
    if validation.Failure? {
      return Failed(validation.error);
    }
    if !validation.value.approved {
      return Done;
    }
    var labelName := replies.labelName;
    var description := pr.owner + "/" + pr.repo + "/" + NumberString(pr.prNumber);
    rt.Perform(LabelCreated(serverOwner, serverRepo, labelName, description));
    o := replies.labelReply;
  }

  /** Every required input of the client flow is set. */
  predicate HasInputs(inputs: map<string, string>)
  {
    && Input(inputs, "app_id") != "" && Input(inputs, "app_private_key") != ""
    && Input(inputs, "server_repository_name") != "" && Input(inputs, "pull_request_number") != ""
    && Input(inputs, "github_token") != ""
  }

  /** The label the flow creates for these inputs. */
  function TriggerLabel(inputs: map<string, string>, ctx: Context, replies: Replies): Effect
  {
    var pr := Target(inputs, ctx);
    LabelCreated(ServerOwner(inputs, ctx), Input(inputs, "server_repository_name"), replies.labelName,
                 Describe(pr.owner, pr.repo, pr.prNumber))
  }

  /** The required inputs of the client flow, in the order it reads them. */
  const ClientRequired: seq<string> :=
    ["app_id", "app_private_key", "server_repository_name", "pull_request_number", "github_token"]

  /** A missing required input stops the flow before any call, and the
      error names the first of them, in reading order, that is empty. */
  lemma MissingInputStops(inputs: map<string, string>, ctx: Context, replies: Replies)
    requires !HasInputs(inputs)
    ensures ClientRun(inputs, ctx, replies).effects == []
    ensures ClientRun(inputs, ctx, replies).outcome.Failed?
    ensures ClientRun(inputs, ctx, replies).outcome.error.MissingInput?
    ensures var name := ClientRun(inputs, ctx, replies).outcome.error.name;
      && name in ClientRequired
      && Input(inputs, name) == ""
      && (forall j :: 0 <= j < |ClientRequired| && ClientRequired[j] == name ==>
            forall k :: 0 <= k < j ==> Input(inputs, ClientRequired[k]) != "")
  {
  }

  /** With all inputs set, the flow ends as the label stage does: a failed
      commit query is fatal, and a rejected verdict ends the flow normally
      after the queries alone. */
  lemma ClientOutcome(inputs: map<string, string>, ctx: Context, replies: Replies)
    requires HasInputs(inputs)
    ensures var s := ClientRun(inputs, ctx, replies);
      var v := Validation(replies.commitPages, Allowed(inputs));
      var q := Queries(Input(inputs, "github_token"), Target(inputs, ctx), QueryCursors(replies.commitPages));
      && (v.Failure? ==> s.outcome == Failed(CommitQueryFailed) && s.effects == q)
      && (v.Success? && !v.value.approved ==> s.outcome == Done && s.effects == q)
  {
    var q := Queries(Input(inputs, "github_token"), Target(inputs, ctx), QueryCursors(replies.commitPages));
    assert q + [] == q;
  }

  /** With all inputs set, the flow is the validation of the target pull
      request with the workflow's token, then the label stage. */
  lemma ClientStages(inputs: map<string, string>, ctx: Context, replies: Replies)
    requires HasInputs(inputs)
    ensures ClientRun(inputs, ctx, replies) ==
      ValidateAndLabelRun(Target(inputs, ctx), Input(inputs, "github_token"), ServerOwner(inputs, ctx),
                          Input(inputs, "server_repository_name"), inputs, replies)
  {
  }

  /** A label is created only as the last effect, after an approved
      verdict, and it is the trigger label of these inputs. */
  predicate LabelsOnlyApproved(s: seq<Effect>, validation: Result<Verdict>, lbl: Effect)
  {
    forall i :: 0 <= i < |s| && s[i].LabelCreated? ==>
      i == |s| - 1 && validation.Success? && validation.value.approved && s[i] == lbl
  }

  /** Queries and label creations only, the queries all made with
      `credential` on `pr`. */
  predicate QueriesThenLabel(s: seq<Effect>, credential: string, pr: PullRequestRef)
  {
    forall i :: 0 <= i < |s| ==>
      (s[i].CommitsQueried? && s[i].credential == credential && s[i].pr == pr) || s[i].LabelCreated?
  }

  lemma LabelStage(pr: PullRequestRef, validation: Result<Verdict>, serverOwner: string, serverRepo: string,
                   replies: Replies)
    ensures var l := LabelRun(pr, validation, serverOwner, serverRepo, replies);
      && |l.effects| <= 1
      && (|l.effects| == 1 <==> validation.Success? && validation.value.approved)
      && (|l.effects| == 1 ==>
            && l.effects[0] == LabelCreated(serverOwner, serverRepo, replies.labelName,
                                            Describe(pr.owner, pr.repo, pr.prNumber))
            && l.outcome == replies.labelReply)
      && (validation.Failure? ==> l.outcome == Failed(validation.error))
      && (validation.Success? && !validation.value.approved ==> l.outcome == Done)
  {
  }

  /** The label stage after queries keeps the label last. */
  lemma AfterQueries(q: seq<Effect>, l: seq<Effect>, validation: Result<Verdict>, lbl: Effect,
                     credential: string, pr: PullRequestRef)
    requires forall k :: 0 <= k < |q| ==> q[k].CommitsQueried? && q[k].credential == credential && q[k].pr == pr
    requires |l| <= 1 && (|l| == 1 ==> validation.Success? && validation.value.approved && l[0] == lbl)
    requires lbl.LabelCreated?
    ensures LabelsOnlyApproved(q + l, validation, lbl)
    ensures QueriesThenLabel(q + l, credential, pr)
    ensures |l| == 1 ==> (q + l)[|q + l| - 1] == lbl
  {
    var s := q + l;
    forall i | 0 <= i < |s|
      ensures (s[i].CommitsQueried? && s[i].credential == credential && s[i].pr == pr) || s[i].LabelCreated?
      ensures s[i].LabelCreated? ==> i == |s| - 1 && s[i] == lbl
    {
      if i < |q| {
        assert s[i] == q[i];
      } else {
        assert s[i] == l[i - |q|];
      }
    }
  }

  /** The label follows the verdict: none unless the verdict approves, and
      then exactly one, last, in the server repository and carrying the
      description of the validated pull request; all queries are made with
      the workflow's token on that pull request. */
  lemma LabelFollowsVerdict(inputs: map<string, string>, ctx: Context, replies: Replies)
    ensures var s := ClientRun(inputs, ctx, replies).effects;
      && LabelsOnlyApproved(s, Validation(replies.commitPages, Allowed(inputs)), TriggerLabel(inputs, ctx, replies))
      && QueriesThenLabel(s, Input(inputs, "github_token"), Target(inputs, ctx))
  {
    if HasInputs(inputs) {
      LabelFollowsVerdictWithInputs(inputs, ctx, replies);
    } else {
      MissingInputStops(inputs, ctx, replies);
      NoEffectsNoLabel(ClientRun(inputs, ctx, replies).effects, Validation(replies.commitPages, Allowed(inputs)),
                       TriggerLabel(inputs, ctx, replies), Input(inputs, "github_token"), Target(inputs, ctx));
    }
  }

  lemma NoEffectsNoLabel(s: seq<Effect>, v: Result<Verdict>, lbl: Effect, credential: string, pr: PullRequestRef)
    requires s == []
    ensures LabelsOnlyApproved(s, v, lbl) && QueriesThenLabel(s, credential, pr)
  {
  }

  lemma LabelFollowsVerdictWithInputs(inputs: map<string, string>, ctx: Context, replies: Replies)
    requires HasInputs(inputs)
    ensures var s := ClientRun(inputs, ctx, replies);
      && LabelsOnlyApproved(s.effects, Validation(replies.commitPages, Allowed(inputs)), TriggerLabel(inputs, ctx, replies))
      && QueriesThenLabel(s.effects, Input(inputs, "github_token"), Target(inputs, ctx))
      && (Validation(replies.commitPages, Allowed(inputs)).Success? &&
          Validation(replies.commitPages, Allowed(inputs)).value.approved ==>
            && s.effects != []
            && s.effects[|s.effects| - 1] == TriggerLabel(inputs, ctx, replies)
            && s.outcome == replies.labelReply)
  {
    ClientStages(inputs, ctx, replies);
    ValidateAndLabelShape(Target(inputs, ctx), Input(inputs, "github_token"), ServerOwner(inputs, ctx),
                          Input(inputs, "server_repository_name"), inputs, replies);
  }

  /** The client flow after its inputs: queries with `credential` on `pr`,
      and the label last, only when approved. */
  lemma ValidateAndLabelShape(pr: PullRequestRef, credential: string, serverOwner: string, serverRepo: string,
                              inputs: map<string, string>, replies: Replies)
    ensures var s := ValidateAndLabelRun(pr, credential, serverOwner, serverRepo, inputs, replies);
      var v := Validation(replies.commitPages, Allowed(inputs));
      var lbl := LabelCreated(serverOwner, serverRepo, replies.labelName, Describe(pr.owner, pr.repo, pr.prNumber));
      && LabelsOnlyApproved(s.effects, v, lbl)
      && QueriesThenLabel(s.effects, credential, pr)
      && (v.Success? && v.value.approved ==>
            s.effects != [] && s.effects[|s.effects| - 1] == lbl && s.outcome == replies.labelReply)
  {
    LabelLayout(pr, credential, QueryCursors(replies.commitPages), Validation(replies.commitPages, Allowed(inputs)),
                serverOwner, serverRepo, replies);
  }

  lemma LabelLayout(pr: PullRequestRef, credential: string, cursors: seq<Option<string>>, v: Result<Verdict>,
                    serverOwner: string, serverRepo: string, replies: Replies)
    ensures var s := Then(Queries(credential, pr, cursors), LabelRun(pr, v, serverOwner, serverRepo, replies));
      var lbl := LabelCreated(serverOwner, serverRepo, replies.labelName, Describe(pr.owner, pr.repo, pr.prNumber));
      && LabelsOnlyApproved(s.effects, v, lbl)
      && QueriesThenLabel(s.effects, credential, pr)
      && (v.Success? && v.value.approved ==>
            s.effects != [] && s.effects[|s.effects| - 1] == lbl && s.outcome == replies.labelReply)
  {
    var q := Queries(credential, pr, cursors);
    var l := LabelRun(pr, v, serverOwner, serverRepo, replies);
    LabelStage(pr, v, serverOwner, serverRepo, replies);
    AfterQueries(q, l.effects, v, LabelCreated(serverOwner, serverRepo, replies.labelName,
                                               Describe(pr.owner, pr.repo, pr.prNumber)), credential, pr);
  }

  /** The server decodes the created label back to the validated pull
      request, when its owner and name contain no '/'. */
  lemma LabelDecodesToTarget(inputs: map<string, string>, ctx: Context, replies: Replies)
    requires '/' !in Target(inputs, ctx).owner && '/' !in Target(inputs, ctx).repo
    ensures var s := ClientRun(inputs, ctx, replies).effects;
      forall i :: 0 <= i < |s| && s[i].LabelCreated? ==>
        ParseLabelDescription(s[i].description) == Success(Target(inputs, ctx))
  {
    LabelFollowsVerdict(inputs, ctx, replies);
    var pr := Target(inputs, ctx);
    RoundTrip(pr.owner, pr.repo, pr.prNumber);
  }

  /** The client flow writes nothing to the state store. */
  lemma ClientSavesNothing(inputs: map<string, string>, ctx: Context, replies: Replies)
    ensures NoWrites(ClientRun(inputs, ctx, replies).effects)
  {
    LabelFollowsVerdict(inputs, ctx, replies);
  }
}
