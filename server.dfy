/** The server flow: run in the privileged repository when a label is
    created.  It decodes the pull request from the label description, mints
    a read-only token for that repository, persists it for the post phase,
    validates the pull request with it, and approves the pull request with
    the operator's own token when validation passes. */
module Server {
  import opened Common
  import opened Strings
  import opened AllowList
  import opened Validator
  import opened Trigger
  import opened Runtime

  /** The only permissions the minted token is asked for. */
  const ValidationPermissions: map<string, string> :=
    map["pull_requests" := "read", "contents" := "read"]

  /** Every permission asked for is a read permission. */
  lemma PermissionsReadOnly()
    ensures forall p :: p in ValidationPermissions ==> ValidationPermissions[p] == "read"
  {
    forall p | p in ValidationPermissions ensures ValidationPermissions[p] == "read" {
      assert p == "pull_requests" || p == "contents";
    }
  }

  /** The comment posted when the approval fails. */
  function FailureComment(workflowUrl: string): string
  {
    "## :x: Failed to approve this pull request\n\n[Workflow](" + workflowUrl + ")"
  }

  /** The effects and the outcome of the server flow.  It fails, before
      touching anything, on a missing or malformed label description and on
      missing app credentials; otherwise it asks for a read-only token. */
  function ServerRun(inputs: map<string, string>, ctx: Context, replies: Replies): Step
  {
    if ctx.labelDescription.None? || ctx.labelDescription.value == "" then
      Step([], Failed(MissingLabelDescription))
    else match ParseLabelDescription(ctx.labelDescription.value)
    case Failure(e) => Step([], Failed(e))
    case Success(pr) =>
      if RequiredInput(inputs, "app_id").Failure? then
        Step([], Failed(MissingInput("app_id")))
      else if RequiredInput(inputs, "app_private_key").Failure? then
        Step([], Failed(MissingInput("app_private_key")))
      else MintRun(pr, inputs, ctx, replies)
  }

  /** A read-only token for the pull request's repository is asked for;
      once minted it is saved, token first, before it is used. */
  function MintRun(pr: PullRequestRef, inputs: map<string, string>, ctx: Context, replies: Replies): Step
  {
    Then([TokenRequested(pr.owner, [pr.repo], ValidationPermissions)],
         match replies.mintReply
         case Failure(e) => Step([], Failed(e))
         case Success(t) => PersistRun(pr, t, inputs, ctx, replies))
  }

  /** The minted token and its expiry are saved, token first, and the
      validation then runs with that token. */
  function PersistRun(pr: PullRequestRef, t: AppToken, inputs: map<string, string>, ctx: Context, replies: Replies): Step
  {
    Then([StateSaved("token", t.token), StateSaved("expires_at", t.expiresAt)],
         ValidateAndApproveRun(pr, t.token, inputs, ctx, replies))
  }

  /** Validation with `credential` sends one query per page; only an
      approved verdict leads to a review, made with the operator's token and
      aimed at the last commit seen. */
  function ValidateAndApproveRun(pr: PullRequestRef, credential: string, inputs: map<string, string>,
                                 ctx: Context, replies: Replies): Step
  {
    Then(Queries(credential, pr, QueryCursors(replies.commitPages)),
         ApproveRun(pr, Validation(replies.commitPages, Allowed(inputs)), inputs, ctx, replies))
  }

  /** What follows the validation: nothing unless it approved, and then a
      review with the operator's token aimed at the last commit seen. */
  function ApproveRun(pr: PullRequestRef, validation: Result<Verdict>, inputs: map<string, string>,
                      ctx: Context, replies: Replies): Step
  {
    match validation
    case Failure(e) => Step([], Failed(e))
    case Success(v) =>
      if !v.approved then Step([], Done)
      else match RequiredInput(inputs, "github_token")
      case Failure(e) => Step([], Failed(e))
      case Success(approver) =>
        Then([ReviewRequested(approver, pr, v.lastSha, "APPROVE")], AfterReview(approver, pr, ctx, replies))
  }

  /** A failed review is answered by one comment on the pull request, after
      which the review's error is thrown again (unless posting the comment
      threw first). */
  function AfterReview(approver: string, pr: PullRequestRef, ctx: Context, replies: Replies): Step
  {
    match replies.reviewReply
    case Done => Step([], Done)
    case Failed(e) =>
      Then([CommentPosted(approver, pr, FailureComment(ctx.workflowUrl))],
           Step([], if replies.commentReply.Failed? then replies.commentReply else Failed(e)))
  }

  /** `action` of the server flow: the checks made before any call; the
      rest is `Mint`. */
  method Action(rt: Runner, inputs: map<string, string>, ctx: Context, replies: Replies)
    returns (o: Outcome)
    modifies rt
    ensures rt.effects == old(rt.effects) + ServerRun(inputs, ctx, replies).effects
    ensures rt.state == Applied(old(rt.state), ServerRun(inputs, ctx, replies).effects)
    ensures o == ServerRun(inputs, ctx, replies).outcome
  {
    ghost var spec := ServerRun(inputs, ctx, replies);
    if ctx.labelDescription.None? || ctx.labelDescription.value == "" {
      assert spec == Step([], Failed(MissingLabelDescription));
      assert rt.effects + [] == rt.effects;
      return Failed(MissingLabelDescription);
    }
    var parsed := ParseLabelDescription(ctx.labelDescription.value);
    if parsed.Failure? {
      assert spec == Step([], Failed(parsed.error));
      assert rt.effects + [] == rt.effects;
      return Failed(parsed.error);
    }
    var pr := parsed.value;

    var appId := RequiredInput(inputs, "app_id");
    if appId.Failure? {
      assert spec == Step([], Failed(appId.error));
      assert rt.effects + [] == rt.effects;
      return Failed(appId.error);
    }
    var privateKey := RequiredInput(inputs, "app_private_key");
    if privateKey.Failure? {
      assert spec == Step([], Failed(privateKey.error));
      assert rt.effects + [] == rt.effects;
      return Failed(privateKey.error);
    }
    assert spec == MintRun(pr, inputs, ctx, replies);
    o := Mint(rt, pr, inputs, ctx, replies);
  }

  /** `action` of the server flow from the token request on. */
  method Mint(rt: Runner, pr: PullRequestRef, inputs: map<string, string>, ctx: Context, replies: Replies)
    returns (o: Outcome)
    modifies rt
    ensures rt.effects == old(rt.effects) + MintRun(pr, inputs, ctx, replies).effects
    ensures rt.state == Applied(old(rt.state), MintRun(pr, inputs, ctx, replies).effects)
    ensures o == MintRun(pr, inputs, ctx, replies).outcome
  {
    ghost var spec := MintRun(pr, inputs, ctx, replies);
    ghost var st0 := rt.state;
    var request := TokenRequested(pr.owner, [pr.repo], ValidationPermissions);
    rt.Perform(request);
    AppliedNoWrites(st0, [request]);
    if replies.mintReply.Failure? {
      assert spec == Step([request] + [], Failed(replies.mintReply.error));
      assert [request] + [] == [request];
      return Failed(replies.mintReply.error);
    }
    var token := replies.mintReply.value;
    o := Persist(rt, pr, token, inputs, ctx, replies);
    ghost var rest := PersistRun(pr, token, inputs, ctx, replies);
    assert spec == Step([request] + rest.effects, rest.outcome);
    AppliedAppend(st0, [request], rest.effects);
    Associative(old(rt.effects), [request], rest.effects);
  }

  /** `action` of the server flow from the saves of the minted token on. */
  method Persist(rt: Runner, pr: PullRequestRef, token: AppToken, inputs: map<string, string>, ctx: Context, replies: Replies)
    returns (o: Outcome)
    modifies rt
    ensures rt.effects == old(rt.effects) + PersistRun(pr, token, inputs, ctx, replies).effects
    ensures rt.state == Applied(old(rt.state), PersistRun(pr, token, inputs, ctx, replies).effects)
    ensures o == PersistRun(pr, token, inputs, ctx, replies).outcome
  {
    ghost var st0 := rt.state;
    ghost var e0 := rt.effects;
    // persist the token before anything else can fail
    rt.SaveState("token", token.token);
    rt.SaveState("expires_at", token.expiresAt);
    ghost var saves := [StateSaved("token", token.token), StateSaved("expires_at", token.expiresAt)];
    assert e0 + [StateSaved("token", token.token)] + [StateSaved("expires_at", token.expiresAt)] == e0 + saves;
    AppliedSnoc(st0, [StateSaved("token", token.token)], StateSaved("expires_at", token.expiresAt));
    assert [StateSaved("token", token.token)] + [StateSaved("expires_at", token.expiresAt)] == saves;
    assert [] + [StateSaved("token", token.token)] == [StateSaved("token", token.token)];
    AppliedSnoc(st0, [], StateSaved("token", token.token));
    assert rt.state == Applied(st0, saves);

    o := ValidateAndApprove(rt, pr, token.token, inputs, ctx, replies);
    ghost var rest := ValidateAndApproveRun(pr, token.token, inputs, ctx, replies);
    AppliedAppend(st0, saves, rest.effects);
    Associative(e0, saves, rest.effects);
    ValidationSavesNothing(pr, token.token, inputs, ctx, replies);
    AppliedNoWrites(rt.state, rest.effects);
  }

  /** `action` of the server flow from the validation on: validate with the
      minted token, stop unless approved, then review with the operator's
      token, commenting and rethrowing when the review fails. */
  method ValidateAndApprove(rt: Runner, pr: PullRequestRef, credential: string,
                            inputs: map<string, string>, ctx: Context, replies: Replies)
    returns (o: Outcome)
    modifies rt
    ensures rt.effects == old(rt.effects) + ValidateAndApproveRun(pr, credential, inputs, ctx, replies).effects
    ensures rt.state == old(rt.state)
    ensures o == ValidateAndApproveRun(pr, credential, inputs, ctx, replies).outcome
  {
    var allowed := ParseAllowedCommitters(Input(inputs, "allowed_committers"));
    var result, cursors := Validate(replies.commitPages, allowed);
    var queries := Queries(credential, pr, cursors);
    QueriesNoWrites(credential, pr, cursors);
    ghost var before := rt.effects;
    rt.PerformAll(queries);
    o := Approve(rt, pr, result, inputs, ctx, replies);
    Associative(before, queries, ApproveRun(pr, result, inputs, ctx, replies).effects);
  }

  /** `action` of the server flow after the validation: stop unless it
      approved, then review with the operator's token, commenting and
      rethrowing when the review fails. */
  method Approve(rt: Runner, pr: PullRequestRef, validation: Result<Verdict>,
                 inputs: map<string, string>, ctx: Context, replies: Replies)
    returns (o: Outcome)
    modifies rt
    ensures rt.effects == old(rt.effects) + ApproveRun(pr, validation, inputs, ctx, replies).effects
    ensures rt.state == old(rt.state)
    ensures o == ApproveRun(pr, validation, inputs, ctx, replies).outcome
  {
    ghost var spec := ApproveRun(pr, validation, inputs, ctx, replies);
    ghost var before := rt.effects;
    assert before + [] == before;
    if validation.Failure? {
      return Failed(validation.error);
    }
    var verdict := validation.value;
    if !verdict.approved {
      return Done;
    }

    // approve with the operator's token, never with the minted one
    var approver := RequiredInput(inputs, "github_token");
    if approver.Failure? {
      return Failed(approver.error);
    }
    var review := ReviewRequested(approver.value, pr, verdict.lastSha, "APPROVE");
    rt.Perform(review);
    ghost var after := AfterReview(approver.value, pr, ctx, replies);
    assert spec == Step([review] + after.effects, after.outcome);
    if replies.reviewReply.Done? {
      assert [review] + [] == [review];
      return Done;
    }
    var comment := CommentPosted(approver.value, pr, FailureComment(ctx.workflowUrl));
    rt.Perform(comment);
    assert after.effects == [comment] + [];
    assert [review] + ([comment] + []) == [review, comment];
    assert before + [review] + [comment] == before + [review, comment];
    if replies.commentReply.Failed? {
      return replies.commentReply;
    }
    o := Failed(replies.reviewReply.error);
  }

  /** Validation and approval write nothing to the state store. */
  lemma ValidationSavesNothing(pr: PullRequestRef, credential: string, inputs: map<string, string>,
                               ctx: Context, replies: Replies)
    ensures NoWrites(ValidateAndApproveRun(pr, credential, inputs, ctx, replies).effects)
  {
    QueriesNoWrites(credential, pr, QueryCursors(replies.commitPages));
    ApproveNoWrites(pr, Validation(replies.commitPages, Allowed(inputs)), inputs, ctx, replies);
    NoWritesConcat(Queries(credential, pr, QueryCursors(replies.commitPages)),
                   ApproveRun(pr, Validation(replies.commitPages, Allowed(inputs)), inputs, ctx, replies).effects);
  }

  lemma ApproveNoWrites(pr: PullRequestRef, validation: Result<Verdict>, inputs: map<string, string>,
                        ctx: Context, replies: Replies)
    ensures NoWrites(ApproveRun(pr, validation, inputs, ctx, replies).effects)
  {
    var approver := RequiredInput(inputs, "github_token");
    if validation.Success? && validation.value.approved && approver.Success? {
      var review := ReviewRequested(approver.value, pr, validation.value.lastSha, "APPROVE");
      AfterReviewNoWrites(approver.value, pr, ctx, replies);
      NoWritesConcat([review], AfterReview(approver.value, pr, ctx, replies).effects);
    }
  }

  lemma AfterReviewNoWrites(approver: string, pr: PullRequestRef, ctx: Context, replies: Replies)
    ensures NoWrites(AfterReview(approver, pr, ctx, replies).effects)
  {
  }

  /** The server flow gets past its checks and the token minting. */
  predicate Reaches(inputs: map<string, string>, ctx: Context, replies: Replies)
  {
    && ctx.labelDescription.Some? && ctx.labelDescription.value != ""
    && ParseLabelDescription(ctx.labelDescription.value).Success?
    && Input(inputs, "app_id") != "" && Input(inputs, "app_private_key") != ""
    && replies.mintReply.Success?
  }

  /** The server flow in stages: at most one token request when it stops
      early; otherwise the request, the two saves, the queries made with
      the minted token and what follows the verdict. */
  lemma EarlyStop(inputs: map<string, string>, ctx: Context, replies: Replies)
    requires !Reaches(inputs, ctx, replies)
    ensures var s := ServerRun(inputs, ctx, replies);
      && |s.effects| <= 1
      && (|s.effects| == 1 ==>
            && Decoded(ctx).Some?
            && Decoded(ctx).value == ParseLabelDescription(ctx.labelDescription.value).value
            && s.effects == [TokenRequested(Decoded(ctx).value.owner, [Decoded(ctx).value.repo], ValidationPermissions)])
  {
    var s := ServerRun(inputs, ctx, replies);
    if s.effects != [] {
      var pr := ParseLabelDescription(ctx.labelDescription.value).value;
      assert s == MintRun(pr, inputs, ctx, replies);
      assert s.effects == [TokenRequested(pr.owner, [pr.repo], ValidationPermissions)] + [];
    }
  }

  /** How a flow that does not get a token ends: a failed mint throws its
      error; with no call at all and a decoded description, the first empty
      app credential, `app_id` before `app_private_key`, is the error. */
  lemma EarlyOutcome(inputs: map<string, string>, ctx: Context, replies: Replies)
    requires !Reaches(inputs, ctx, replies)
    ensures var s := ServerRun(inputs, ctx, replies);
      && (|s.effects| == 1 ==> replies.mintReply.Failure? && s.outcome == Failed(replies.mintReply.error))
      && (s.effects == [] && Decoded(ctx).Some? ==>
            && s.outcome == Failed(MissingInput(if Input(inputs, "app_id") == "" then "app_id" else "app_private_key"))
            && Input(inputs, s.outcome.error.name) == "")
  {
    var s := ServerRun(inputs, ctx, replies);
    if Decoded(ctx).Some? {
      var pr := ParseLabelDescription(ctx.labelDescription.value).value;
      if Input(inputs, "app_id") != "" && Input(inputs, "app_private_key") != "" {
        assert s == MintRun(pr, inputs, ctx, replies);
        assert |s.effects| == 1;
      }
    }
  }

  lemma ReachesMint(inputs: map<string, string>, ctx: Context, replies: Replies)
    requires Reaches(inputs, ctx, replies)
    ensures ServerRun(inputs, ctx, replies) == MintRun(ParseLabelDescription(ctx.labelDescription.value).value, inputs, ctx, replies)
  {
  }

  lemma Stages(inputs: map<string, string>, ctx: Context, replies: Replies)
    requires Reaches(inputs, ctx, replies)
    ensures var s := ServerRun(inputs, ctx, replies);
      var pr := ParseLabelDescription(ctx.labelDescription.value).value;
      var t := replies.mintReply.value;
      var a := ApproveRun(pr, Validation(replies.commitPages, Allowed(inputs)), inputs, ctx, replies);
      && s.effects == [TokenRequested(pr.owner, [pr.repo], ValidationPermissions),
                       StateSaved("token", t.token), StateSaved("expires_at", t.expiresAt)]
                      + Queries(t.token, pr, QueryCursors(replies.commitPages)) + a.effects
      && s.outcome == a.outcome
  {
    var pr := ParseLabelDescription(ctx.labelDescription.value).value;
    assert ServerRun(inputs, ctx, replies) == MintRun(pr, inputs, ctx, replies);
    MintStages(pr, inputs, ctx, replies);
  }

  lemma MintStages(pr: PullRequestRef, inputs: map<string, string>, ctx: Context, replies: Replies)
    requires replies.mintReply.Success?
    ensures var t := replies.mintReply.value;
      var a := ApproveRun(pr, Validation(replies.commitPages, Allowed(inputs)), inputs, ctx, replies);
      && MintRun(pr, inputs, ctx, replies).effects ==
           [TokenRequested(pr.owner, [pr.repo], ValidationPermissions),
            StateSaved("token", t.token), StateSaved("expires_at", t.expiresAt)]
           + Queries(t.token, pr, QueryCursors(replies.commitPages)) + a.effects
      && MintRun(pr, inputs, ctx, replies).outcome == a.outcome
  {
    var t := replies.mintReply.value;
    var q := Queries(t.token, pr, QueryCursors(replies.commitPages));
    var a := ApproveRun(pr, Validation(replies.commitPages, Allowed(inputs)), inputs, ctx, replies);
    var request := TokenRequested(pr.owner, [pr.repo], ValidationPermissions);
    var saves := [StateSaved("token", t.token), StateSaved("expires_at", t.expiresAt)];
    var m := MintRun(pr, inputs, ctx, replies);
    var p := PersistRun(pr, t, inputs, ctx, replies);
    MintThenPersist(pr, inputs, ctx, replies);
    PersistThenValidate(pr, t, inputs, ctx, replies);
    Regroup(m.effects, p.effects, request, saves, q, a.effects);
  }

  /** Proof glue: keeps the solver's context small; it models nothing. */
  lemma Regroup(m: seq<Effect>, p: seq<Effect>, e: Effect, saves: seq<Effect>, q: seq<Effect>, a: seq<Effect>)
    requires m == [e] + p && p == saves + (q + a) && |saves| == 2
    ensures m == [e, saves[0], saves[1]] + q + a
  {
    assert [e] + saves == [e, saves[0], saves[1]];
  }

  lemma MintThenPersist(pr: PullRequestRef, inputs: map<string, string>, ctx: Context, replies: Replies)
    requires replies.mintReply.Success?
    ensures MintRun(pr, inputs, ctx, replies) ==
      Then([TokenRequested(pr.owner, [pr.repo], ValidationPermissions)], PersistRun(pr, replies.mintReply.value, inputs, ctx, replies))
  {
  }

  lemma PersistThenValidate(pr: PullRequestRef, t: AppToken, inputs: map<string, string>, ctx: Context, replies: Replies)
    ensures PersistRun(pr, t, inputs, ctx, replies) ==
      Then([StateSaved("token", t.token), StateSaved("expires_at", t.expiresAt)],
           Then(Queries(t.token, pr, QueryCursors(replies.commitPages)),
                ApproveRun(pr, Validation(replies.commitPages, Allowed(inputs)), inputs, ctx, replies)))
  {
  }

  /** After the validation: a review only on an approved verdict and with
      the operator's token present, aimed at the last commit with event
      APPROVE; a failed review is followed by exactly one comment on the
      same pull request, with the same token, and by the review's error
      (or the comment's, when that fails too). */
  lemma ApproveShape(pr: PullRequestRef, validation: Result<Verdict>, inputs: map<string, string>,
                     ctx: Context, replies: Replies)
    ensures var a := ApproveRun(pr, validation, inputs, ctx, replies);
      && |a.effects| <= 2
      && (|a.effects| >= 1 <==>
            validation.Success? && validation.value.approved && Input(inputs, "github_token") != "")
      && (|a.effects| >= 1 ==>
            a.effects[0] == ReviewRequested(Input(inputs, "github_token"), pr, validation.value.lastSha, "APPROVE"))
      && (|a.effects| == 2 <==> |a.effects| >= 1 && replies.reviewReply.Failed?)
      && (|a.effects| == 2 ==>
            && a.effects[1] == CommentPosted(Input(inputs, "github_token"), pr, FailureComment(ctx.workflowUrl))
            && a.outcome == if replies.commentReply.Failed? then replies.commentReply else replies.reviewReply)
      && (|a.effects| == 1 ==> a.outcome == Done)
      && (validation.Failure? ==> a.outcome == Failed(validation.error))
      && (validation.Success? && !validation.value.approved ==> a.outcome == Done)
      && (validation.Success? && validation.value.approved && Input(inputs, "github_token") == "" ==>
            a.outcome == Failed(MissingInput("github_token")))
  {
  }

  /** What follows the validation is reviews and comments only. */
  lemma ApproveKinds(pr: PullRequestRef, validation: Result<Verdict>, inputs: map<string, string>,
                     ctx: Context, replies: Replies)
    ensures var a := ApproveRun(pr, validation, inputs, ctx, replies).effects;
      forall k :: 0 <= k < |a| ==> a[k].ReviewRequested? || a[k].CommentPosted?
  {
    ApproveShape(pr, validation, inputs, ctx, replies);
  }

  /** Every query of the commits is made with the minted token, saved
      together with its expiry before the first query. */
  predicate QueriesUseSavedToken(s: seq<Effect>, mintReply: Result<AppToken>)
  {
    forall i :: 0 <= i < |s| && s[i].CommitsQueried? ==>
      && 3 <= i
      && s[1] == StateSaved("token", s[i].credential)
      && s[2].StateSaved? && s[2].key == "expires_at"
      && mintReply == Success(AppToken(s[i].credential, s[2].value))
  }

  /** The only state writes are the token, second, and its expiry, third. */
  predicate SavesOnlyTokenAndExpiry(s: seq<Effect>)
  {
    forall i :: 0 <= i < |s| && s[i].StateSaved? ==>
      (i == 1 && s[i].key == "token") || (i == 2 && s[i].key == "expires_at")
  }

  /** Where each kind of effect sits in a run that got past the minting. */
  lemma Layout(pr: PullRequestRef, t: AppToken, cursors: seq<Option<string>>, validation: Result<Verdict>,
               inputs: map<string, string>, ctx: Context, replies: Replies)
    requires replies.mintReply == Success(t)
    ensures var s := [TokenRequested(pr.owner, [pr.repo], ValidationPermissions),
                      StateSaved("token", t.token), StateSaved("expires_at", t.expiresAt)]
                     + Queries(t.token, pr, cursors) + ApproveRun(pr, validation, inputs, ctx, replies).effects;
      && QueriesUseSavedToken(s, replies.mintReply)
      && SavesOnlyTokenAndExpiry(s)
      && RequestsTokenFirst(s, pr)
  {
    var q := Queries(t.token, pr, cursors);
    var a := ApproveRun(pr, validation, inputs, ctx, replies).effects;
    var s := [TokenRequested(pr.owner, [pr.repo], ValidationPermissions),
              StateSaved("token", t.token), StateSaved("expires_at", t.expiresAt)] + q + a;
    ApproveKinds(pr, validation, inputs, ctx, replies);
    forall i | 3 <= i < |s|
      ensures s[i].CommitsQueried? ==> s[i].credential == t.token
      ensures !s[i].StateSaved? && !s[i].TokenRequested?
    {
      if i < 3 + |q| {
        assert s[i] == q[i - 3];
      } else {
        assert s[i] == a[i - 3 - |q|];
      }
    }
  }

  /** The server flow's state writes and queries: see the two predicates. */
  lemma TokenSavedBeforeUse(inputs: map<string, string>, ctx: Context, replies: Replies)
    ensures QueriesUseSavedToken(ServerRun(inputs, ctx, replies).effects, replies.mintReply)
    ensures SavesOnlyTokenAndExpiry(ServerRun(inputs, ctx, replies).effects)
  {
    if !Reaches(inputs, ctx, replies) {
      EarlyStop(inputs, ctx, replies);
      EarlyUnsaved(ServerRun(inputs, ctx, replies).effects, replies.mintReply);
    } else {
      ReachedLayout(inputs, ctx, replies);
    }
  }

  /** Proof glue: keeps the solver's context small; it models nothing. */
  lemma EarlyUnsaved(s: seq<Effect>, mintReply: Result<AppToken>)
    requires |s| <= 1 && (|s| == 1 ==> s[0].TokenRequested?)
    ensures QueriesUseSavedToken(s, mintReply) && SavesOnlyTokenAndExpiry(s)
  {
  }

  /** `Layout` for a run that gets past the minting. */
  lemma ReachedLayout(inputs: map<string, string>, ctx: Context, replies: Replies)
    requires Reaches(inputs, ctx, replies)
    ensures var s := ServerRun(inputs, ctx, replies).effects;
      && QueriesUseSavedToken(s, replies.mintReply)
      && SavesOnlyTokenAndExpiry(s)
      && RequestsTokenFirst(s, ParseLabelDescription(ctx.labelDescription.value).value)
  {
    Stages(inputs, ctx, replies);
    var pr := ParseLabelDescription(ctx.labelDescription.value).value;
    Layout(pr, replies.mintReply.value, QueryCursors(replies.commitPages),
           Validation(replies.commitPages, Allowed(inputs)), inputs, ctx, replies);
  }

  /** The only token request is the first effect, for `pr`'s repository
      with the validation permissions. */
  predicate RequestsTokenFirst(s: seq<Effect>, pr: PullRequestRef)
  {
    forall i :: 0 <= i < |s| && s[i].TokenRequested? ==>
      i == 0 && s[i] == TokenRequested(pr.owner, [pr.repo], ValidationPermissions)
  }

  /** The minted token is asked for once, before anything else and only
      for the repository decoded from the label, with read permissions. */
  lemma TokenIsReadOnly(inputs: map<string, string>, ctx: Context, replies: Replies)
    ensures var s := ServerRun(inputs, ctx, replies).effects;
      s != [] ==>
        && ctx.labelDescription.Some?
        && ParseLabelDescription(ctx.labelDescription.value).Success?
        && RequestsTokenFirst(s, ParseLabelDescription(ctx.labelDescription.value).value)
  {
    if !Reaches(inputs, ctx, replies) {
      EarlyRequest(inputs, ctx, replies);
    } else {
      ReachedLayout(inputs, ctx, replies);
    }
  }

  lemma EarlyRequest(inputs: map<string, string>, ctx: Context, replies: Replies)
    requires !Reaches(inputs, ctx, replies)
    ensures var s := ServerRun(inputs, ctx, replies).effects;
      s != [] ==>
        && ctx.labelDescription.Some?
        && ParseLabelDescription(ctx.labelDescription.value).Success?
        && RequestsTokenFirst(s, ParseLabelDescription(ctx.labelDescription.value).value)
  {
    EarlyStop(inputs, ctx, replies);
    var s := ServerRun(inputs, ctx, replies).effects;
    if s != [] {
      OnlyRequest(s, Decoded(ctx).value);
    }
  }

  /** Proof glue: keeps the solver's context small; it models nothing. */
  lemma OnlyRequest(s: seq<Effect>, pr: PullRequestRef)
    requires s == [TokenRequested(pr.owner, [pr.repo], ValidationPermissions)]
    ensures RequestsTokenFirst(s, pr)
  {
  }

  /** Every review follows an approved verdict and approves, with the
      operator's token `approver`, the last commit the validation saw. */
  predicate ReviewsOnlyApproved(s: seq<Effect>, validation: Result<Verdict>, approver: string, pr: PullRequestRef)
  {
    forall i :: 0 <= i < |s| && s[i].ReviewRequested? ==>
      && validation.Success? && validation.value.approved
      && s[i] == ReviewRequested(approver, pr, validation.value.lastSha, "APPROVE")
  }

  /** A review that succeeds ends the run; one that fails is followed by
      exactly one comment, with the same token on the same pull request,
      which ends the run with the review's error (the comment's, if posting
      it fails too).  No comment is posted otherwise. */
  predicate CommentsOnFailedReview(s: seq<Effect>, outcome: Outcome, replies: Replies, workflowUrl: string)
  {
    && (forall i :: 0 <= i < |s| && s[i].ReviewRequested? ==>
          && (replies.reviewReply.Done? ==> i == |s| - 1 && outcome == Done)
          && (replies.reviewReply.Failed? ==>
                i == |s| - 2 && s[i + 1] == CommentPosted(s[i].credential, s[i].pr, FailureComment(workflowUrl))))
    && (forall i :: 0 <= i < |s| && s[i].CommentPosted? ==>
          && i == |s| - 1 && 1 <= i && s[i - 1].ReviewRequested?
          && replies.reviewReply.Failed?
          && outcome == if replies.commentReply.Failed? then replies.commentReply else replies.reviewReply)
  }

  /** No review and no comment. */
  predicate NoApprovalEffects(s: seq<Effect>)
  {
    forall i :: 0 <= i < |s| ==> !s[i].ReviewRequested? && !s[i].CommentPosted?
  }

  lemma ApproveProperties(pr: PullRequestRef, validation: Result<Verdict>, inputs: map<string, string>,
                          ctx: Context, replies: Replies)
    ensures var a := ApproveRun(pr, validation, inputs, ctx, replies);
      && ReviewsOnlyApproved(a.effects, validation, Input(inputs, "github_token"), pr)
      && CommentsOnFailedReview(a.effects, a.outcome, replies, ctx.workflowUrl)
  {
    ApproveShape(pr, validation, inputs, ctx, replies);
  }

  /** Effects before the approval stage do not disturb its properties. */
  lemma PrefixKeeps(pre: seq<Effect>, a: seq<Effect>, outcome: Outcome, validation: Result<Verdict>,
                    approver: string, pr: PullRequestRef, replies: Replies, workflowUrl: string)
    requires NoApprovalEffects(pre)
    requires ReviewsOnlyApproved(a, validation, approver, pr)
    requires CommentsOnFailedReview(a, outcome, replies, workflowUrl)
    ensures ReviewsOnlyApproved(pre + a, validation, approver, pr)
    ensures CommentsOnFailedReview(pre + a, outcome, replies, workflowUrl)
  {
    var s := pre + a;
    forall i | 0 <= i < |s| && (s[i].ReviewRequested? || s[i].CommentPosted?)
      ensures i >= |pre| && s[i] == a[i - |pre|]
    {
    }
    forall i | 0 <= i < |s| && s[i].ReviewRequested? && replies.reviewReply.Failed?
      ensures i == |s| - 2 && s[i + 1] == CommentPosted(s[i].credential, s[i].pr, FailureComment(workflowUrl))
    {
      assert i >= |pre| && s[i] == a[i - |pre|];
      var k := i - |pre|;
      FailedReviewAt(a, outcome, replies, workflowUrl, k);
      assert s[i + 1] == a[k + 1];
    }
    forall i | 0 <= i < |s| && s[i].CommentPosted?
      ensures 1 <= i && s[i - 1].ReviewRequested?
    {
      assert i >= |pre| && s[i] == a[i - |pre|];
      var k := i - |pre|;
      CommentAt(a, outcome, replies, workflowUrl, k);
      assert s[i - 1] == a[k - 1];
    }
  }

  /** Proof glue: keeps the solver's context small; it models nothing. */
  lemma FailedReviewAt(a: seq<Effect>, outcome: Outcome, replies: Replies, workflowUrl: string, k: int)
    requires CommentsOnFailedReview(a, outcome, replies, workflowUrl)
    requires 0 <= k < |a| && a[k].ReviewRequested? && replies.reviewReply.Failed?
    ensures k == |a| - 2 && a[k + 1] == CommentPosted(a[k].credential, a[k].pr, FailureComment(workflowUrl))
  {
  }

  /** Proof glue: keeps the solver's context small; it models nothing. */
  lemma CommentAt(a: seq<Effect>, outcome: Outcome, replies: Replies, workflowUrl: string, k: int)
    requires CommentsOnFailedReview(a, outcome, replies, workflowUrl)
    requires 0 <= k < |a| && a[k].CommentPosted?
    ensures 1 <= k && a[k - 1].ReviewRequested?
  {
  }

  /** The pull request the label describes, when there is one. */
  function Decoded(ctx: Context): Option<PullRequestRef>
  {
    if ctx.labelDescription.None? || ctx.labelDescription.value == "" then None
    else match ParseLabelDescription(ctx.labelDescription.value)
    case Failure(_) => None
    case Success(pr) => Some(pr)
  }

  lemma DecodedParses(ctx: Context)
    requires ctx.labelDescription.Some? && ctx.labelDescription.value != ""
    requires ParseLabelDescription(ctx.labelDescription.value).Success?
    ensures Decoded(ctx) == Some(ParseLabelDescription(ctx.labelDescription.value).value)
  {
  }

  /** A failed review is answered as `CommentsOnFailedReview` says. */
  lemma CommentOnFailure(inputs: map<string, string>, ctx: Context, replies: Replies)
    ensures var s := ServerRun(inputs, ctx, replies);
      CommentsOnFailedReview(s.effects, s.outcome, replies, ctx.workflowUrl)
  {
    if !Reaches(inputs, ctx, replies) {
      EarlyCommentless(inputs, ctx, replies);
    } else {
      ApprovalAfterPrelude(inputs, ctx, replies);
    }
  }

  lemma EarlyCommentless(inputs: map<string, string>, ctx: Context, replies: Replies)
    requires !Reaches(inputs, ctx, replies)
    ensures var s := ServerRun(inputs, ctx, replies);
      CommentsOnFailedReview(s.effects, s.outcome, replies, ctx.workflowUrl)
  {
    EarlyStop(inputs, ctx, replies);
    var s := ServerRun(inputs, ctx, replies);
    EarlyQuiet(s.effects);
    Quiet(s.effects, s.outcome, Failure(CommitQueryFailed), "", PullRequestRef("", "", NaN), replies, ctx.workflowUrl);
  }

  /** Reviews are made only on an approved verdict, with the operator's
      token, on the decoded pull request, aimed at the last commit seen. */
  lemma ReviewOnlyWhenApproved(inputs: map<string, string>, ctx: Context, replies: Replies)
    ensures var s := ServerRun(inputs, ctx, replies).effects;
      s != [] ==>
        && Decoded(ctx).Some?
        && ReviewsOnlyApproved(s, Validation(replies.commitPages, Allowed(inputs)),
                               Input(inputs, "github_token"), Decoded(ctx).value)
  {
    if !Reaches(inputs, ctx, replies) {
      EarlyReviewless(inputs, ctx, replies);
    } else {
      ApprovalAfterPrelude(inputs, ctx, replies);
    }
  }

  lemma EarlyReviewless(inputs: map<string, string>, ctx: Context, replies: Replies)
    requires !Reaches(inputs, ctx, replies)
    ensures var s := ServerRun(inputs, ctx, replies).effects;
      s != [] ==>
        && Decoded(ctx).Some?
        && ReviewsOnlyApproved(s, Validation(replies.commitPages, Allowed(inputs)),
                               Input(inputs, "github_token"), Decoded(ctx).value)
  {
    EarlyStop(inputs, ctx, replies);
    var s := ServerRun(inputs, ctx, replies);
    EarlyQuiet(s.effects);
    if s.effects != [] {
      Quiet(s.effects, s.outcome, Validation(replies.commitPages, Allowed(inputs)),
            Input(inputs, "github_token"), Decoded(ctx).value, replies, ctx.workflowUrl);
    }
  }

  /** Proof glue: keeps the solver's context small; it models nothing. */
  lemma EarlyQuiet(s: seq<Effect>)
    requires |s| <= 1 && (|s| == 1 ==> s[0].TokenRequested?)
    ensures NoApprovalEffects(s)
  {
  }

  /** Proof glue: keeps the solver's context small; it models nothing. */
  lemma Quiet(s: seq<Effect>, outcome: Outcome, validation: Result<Verdict>, approver: string,
              pr: PullRequestRef, replies: Replies, workflowUrl: string)
    requires NoApprovalEffects(s)
    ensures ReviewsOnlyApproved(s, validation, approver, pr)
    ensures CommentsOnFailedReview(s, outcome, replies, workflowUrl)
  {
  }

  /** Conversely, an approved verdict leads to the review once the flow
      reaches the validation with the operator's token set. */
  lemma ReviewWhenApproved(inputs: map<string, string>, ctx: Context, replies: Replies)
    requires Reaches(inputs, ctx, replies)
    requires Validation(replies.commitPages, Allowed(inputs)).Success?
    requires Validation(replies.commitPages, Allowed(inputs)).value.approved
    requires Input(inputs, "github_token") != ""
    ensures Decoded(ctx).Some?
    ensures ReviewRequested(Input(inputs, "github_token"), Decoded(ctx).value,
                            Validation(replies.commitPages, Allowed(inputs)).value.lastSha, "APPROVE")
            in ServerRun(inputs, ctx, replies).effects
  {
    var pr := ParseLabelDescription(ctx.labelDescription.value).value;
    DecodedParses(ctx);
    ReachesMint(inputs, ctx, replies);
    ReviewInMint(pr, inputs, ctx, replies);
  }

  lemma ReviewInMint(pr: PullRequestRef, inputs: map<string, string>, ctx: Context, replies: Replies)
    requires replies.mintReply.Success?
    requires Validation(replies.commitPages, Allowed(inputs)).Success?
    requires Validation(replies.commitPages, Allowed(inputs)).value.approved
    requires Input(inputs, "github_token") != ""
    ensures ReviewRequested(Input(inputs, "github_token"), pr,
                            Validation(replies.commitPages, Allowed(inputs)).value.lastSha, "APPROVE")
            in MintRun(pr, inputs, ctx, replies).effects
  {
    var t := replies.mintReply.value;
    var v := Validation(replies.commitPages, Allowed(inputs));
    MintStages(pr, inputs, ctx, replies);
    var pre := [TokenRequested(pr.owner, [pr.repo], ValidationPermissions),
                StateSaved("token", t.token), StateSaved("expires_at", t.expiresAt)]
               + Queries(t.token, pr, QueryCursors(replies.commitPages));
    var a := ApproveRun(pr, v, inputs, ctx, replies).effects;
    ApproveShape(pr, v, inputs, ctx, replies);
    InSuffix(pre, a, 0);
  }

  /** Proof glue: keeps the solver's context small; it models nothing. */
  lemma InSuffix(pre: seq<Effect>, a: seq<Effect>, k: int)
    requires 0 <= k < |a|
    ensures a[k] in pre + a
  {
    assert (pre + a)[|pre| + k] == a[k];
  }

  /** The properties of the approval stage hold of the whole run once it
      gets past the minting. */
  lemma ApprovalAfterPrelude(inputs: map<string, string>, ctx: Context, replies: Replies)
    requires Reaches(inputs, ctx, replies)
    ensures var s := ServerRun(inputs, ctx, replies);
      && Decoded(ctx) == Some(ParseLabelDescription(ctx.labelDescription.value).value)
      && ReviewsOnlyApproved(s.effects, Validation(replies.commitPages, Allowed(inputs)),
                             Input(inputs, "github_token"), ParseLabelDescription(ctx.labelDescription.value).value)
      && CommentsOnFailedReview(s.effects, s.outcome, replies, ctx.workflowUrl)
  {
    Stages(inputs, ctx, replies);
    var pr := ParseLabelDescription(ctx.labelDescription.value).value;
    var t := replies.mintReply.value;
    var v := Validation(replies.commitPages, Allowed(inputs));
    var pre := [TokenRequested(pr.owner, [pr.repo], ValidationPermissions),
                StateSaved("token", t.token), StateSaved("expires_at", t.expiresAt)]
               + Queries(t.token, pr, QueryCursors(replies.commitPages));
    var a := ApproveRun(pr, v, inputs, ctx, replies);
    ApproveProperties(pr, v, inputs, ctx, replies);
    PreludeQuiet(pr, t, QueryCursors(replies.commitPages));
    PrefixKeeps(pre, a.effects, a.outcome, v, Input(inputs, "github_token"), pr, replies, ctx.workflowUrl);
  }

  /** The token request, the saves and the queries are neither reviews nor
      comments. */
  lemma PreludeQuiet(pr: PullRequestRef, t: AppToken, cursors: seq<Option<string>>)
    ensures NoApprovalEffects([TokenRequested(pr.owner, [pr.repo], ValidationPermissions),
                               StateSaved("token", t.token), StateSaved("expires_at", t.expiresAt)]
                              + Queries(t.token, pr, cursors))
  {
    var base := [TokenRequested(pr.owner, [pr.repo], ValidationPermissions),
                 StateSaved("token", t.token), StateSaved("expires_at", t.expiresAt)];
    var q := Queries(t.token, pr, cursors);
    forall i | 3 <= i < |base + q| ensures (base + q)[i] == q[i - 3] {
    }
  }

  /** What the server flow leaves in the state store: the minted token and
      its expiry time once the token was minted, and nothing otherwise. */
  lemma ServerStore(store: map<string, string>, inputs: map<string, string>, ctx: Context, replies: Replies)
    ensures Applied(store, ServerRun(inputs, ctx, replies).effects) ==
      if Reaches(inputs, ctx, replies)
      then store["token" := replies.mintReply.value.token]["expires_at" := replies.mintReply.value.expiresAt]
      else store
  {
    if Reaches(inputs, ctx, replies) {
      ReachedStore(store, inputs, ctx, replies);
    } else {
      EarlyStore(store, inputs, ctx, replies);
    }
  }

  lemma EarlyStore(store: map<string, string>, inputs: map<string, string>, ctx: Context, replies: Replies)
    requires !Reaches(inputs, ctx, replies)
    ensures Applied(store, ServerRun(inputs, ctx, replies).effects) == store
  {
    EarlyStop(inputs, ctx, replies);
    AppliedNoWrites(store, ServerRun(inputs, ctx, replies).effects);
  }

  lemma ReachedStore(store: map<string, string>, inputs: map<string, string>, ctx: Context, replies: Replies)
    requires Reaches(inputs, ctx, replies)
    ensures Applied(store, ServerRun(inputs, ctx, replies).effects) ==
      store["token" := replies.mintReply.value.token]["expires_at" := replies.mintReply.value.expiresAt]
  {
    var pr := ParseLabelDescription(ctx.labelDescription.value).value;
    var t := replies.mintReply.value;
    var a := ApproveRun(pr, Validation(replies.commitPages, Allowed(inputs)), inputs, ctx, replies);
    Stages(inputs, ctx, replies);
    ApproveNoWrites(pr, Validation(replies.commitPages, Allowed(inputs)), inputs, ctx, replies);
    QueriesNoWrites(t.token, pr, QueryCursors(replies.commitPages));
    PreludeStore(store, pr, t, Queries(t.token, pr, QueryCursors(replies.commitPages)), a.effects);
  }

  lemma PreludeStore(store: map<string, string>, pr: PullRequestRef, t: AppToken, q: seq<Effect>, a: seq<Effect>)
    requires NoWrites(q) && NoWrites(a)
    ensures Applied(store, [TokenRequested(pr.owner, [pr.repo], ValidationPermissions),
                            StateSaved("token", t.token), StateSaved("expires_at", t.expiresAt)] + q + a) ==
      store["token" := t.token]["expires_at" := t.expiresAt]
  {
    var request := TokenRequested(pr.owner, [pr.repo], ValidationPermissions);
    var base := [request, StateSaved("token", t.token), StateSaved("expires_at", t.expiresAt)];
    AppliedSnoc(store, [], request);
    assert [request] + [StateSaved("token", t.token)] == [request, StateSaved("token", t.token)];
    AppliedSnoc(store, [request], StateSaved("token", t.token));
    assert [request, StateSaved("token", t.token)] + [StateSaved("expires_at", t.expiresAt)] == base;
    AppliedSnoc(store, [request, StateSaved("token", t.token)], StateSaved("expires_at", t.expiresAt));
    AppliedAppend(store, base + q, a);
    AppliedAppend(store, base, q);
    AppliedNoWrites(Applied(store, base), q);
    AppliedNoWrites(Applied(store, base + q), a);
  }

  /** Neither a label nor a revocation. */
  predicate NeitherLabelsNorRevokes(s: seq<Effect>)
  {
    forall i :: 0 <= i < |s| ==> !s[i].LabelCreated? && !s[i].TokenRevoked?
  }

  /** The server flow never creates a label and never revokes a token. */
  lemma ServerNeverLabels(inputs: map<string, string>, ctx: Context, replies: Replies)
    ensures NeitherLabelsNorRevokes(ServerRun(inputs, ctx, replies).effects)
  {
    if !Reaches(inputs, ctx, replies) {
      EarlyStop(inputs, ctx, replies);
      EarlyKinds(ServerRun(inputs, ctx, replies).effects);
    } else {
      ReachedKinds(inputs, ctx, replies);
    }
  }

  /** Proof glue: keeps the solver's context small; it models nothing. */
  lemma EarlyKinds(s: seq<Effect>)
    requires |s| <= 1 && (|s| == 1 ==> s[0].TokenRequested?)
    ensures NeitherLabelsNorRevokes(s)
  {
  }

  lemma ReachedKinds(inputs: map<string, string>, ctx: Context, replies: Replies)
    requires Reaches(inputs, ctx, replies)
    ensures NeitherLabelsNorRevokes(ServerRun(inputs, ctx, replies).effects)
  {
    Stages(inputs, ctx, replies);
    var pr := ParseLabelDescription(ctx.labelDescription.value).value;
    KindsLayout(pr, replies.mintReply.value, QueryCursors(replies.commitPages),
                Validation(replies.commitPages, Allowed(inputs)), inputs, ctx, replies);
  }

  lemma KindsLayout(pr: PullRequestRef, t: AppToken, cursors: seq<Option<string>>, validation: Result<Verdict>,
                    inputs: map<string, string>, ctx: Context, replies: Replies)
    ensures NeitherLabelsNorRevokes([TokenRequested(pr.owner, [pr.repo], ValidationPermissions),
                                     StateSaved("token", t.token), StateSaved("expires_at", t.expiresAt)]
                                    + Queries(t.token, pr, cursors) + ApproveRun(pr, validation, inputs, ctx, replies).effects)
  {
    var q := Queries(t.token, pr, cursors);
    var a := ApproveRun(pr, validation, inputs, ctx, replies).effects;
    var s := [TokenRequested(pr.owner, [pr.repo], ValidationPermissions),
              StateSaved("token", t.token), StateSaved("expires_at", t.expiresAt)] + q + a;
    ApproveKinds(pr, validation, inputs, ctx, replies);
    forall i | 3 <= i < |s| ensures !s[i].LabelCreated? && !s[i].TokenRevoked? {
      if i < 3 + |q| {
        assert s[i] == q[i - 3];
      } else {
        assert s[i] == a[i - 3 - |q|];
      }
    }
  }

  /** The label description is checked before anything else: a missing or
      empty one, and one without exactly two '/', end the flow with no call
      and no state write. */
  lemma DescriptionCheckedFirst(inputs: map<string, string>, ctx: Context, replies: Replies)
    ensures var s := ServerRun(inputs, ctx, replies);
      && (ctx.labelDescription.None? || ctx.labelDescription.value == "" ==>
            s.effects == [] && s.outcome == Failed(MissingLabelDescription))
      && (ctx.labelDescription.Some? && ctx.labelDescription.value != "" &&
          Count(ctx.labelDescription.value, '/') != 2 ==>
            s.effects == [] && s.outcome == Failed(InvalidLabelDescription(ctx.labelDescription.value)))
  {
  }
}
