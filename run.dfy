/** The entry point, run twice per job on one state store: the main
    invocation marks the store and runs one flow; the post invocation, which
    finds the mark, only revokes the token the server flow may have saved. */
module Run {
  import opened Common
  import opened Runtime
  import Server
  import Client

  /** `revoke(token, expiresAt)`: no call for an empty token, nor for one
      whose recorded expiry time has passed; otherwise one revocation of
      exactly that token, whose answer is the outcome. */
  function RevokeRun(token: string, expiresAt: string, replies: Replies): (s: Step)
    ensures s.effects == [] <==> token == "" || (expiresAt != "" && replies.tokenExpired)
    ensures s.effects != [] ==> s.effects == [TokenRevoked(token)] && s.outcome == replies.revokeReply
    ensures s.effects == [] ==> s.outcome == Done
  {
    if token == "" then Step([], Done)
    else if expiresAt != "" && replies.tokenExpired then Step([], Done)
    else Step([TokenRevoked(token)], replies.revokeReply)
  }

  method Revoke(rt: Runner, token: string, expiresAt: string, replies: Replies) returns (o: Outcome)
    modifies rt
    ensures rt.effects == old(rt.effects) + RevokeRun(token, expiresAt, replies).effects
    ensures rt.state == old(rt.state)
    ensures o == RevokeRun(token, expiresAt, replies).outcome
  {
    if token == "" {
      assert rt.effects + [] == rt.effects;
      return Done;
    }
    if expiresAt != "" && replies.tokenExpired {
      assert rt.effects + [] == rt.effects;
      return Done;
    }
    rt.Perform(TokenRevoked(token));
    o := replies.revokeReply;
  }

  /** The flow the main invocation runs: the client flow when
      `server_repository_name` is set, the server flow otherwise. */
  function FlowRun(inputs: map<string, string>, ctx: Context, replies: Replies): Step
  {
    if Input(inputs, "server_repository_name") != "" then Client.ClientRun(inputs, ctx, replies)
    else Server.ServerRun(inputs, ctx, replies)
  }

  /** `main` on the store `store`. */
  function DispatchRun(store: map<string, string>, inputs: map<string, string>, ctx: Context, replies: Replies): Step
  {
    if Get(store, "post") != "" then RevokeRun(Get(store, "token"), Get(store, "expires_at"), replies)
    else Then([StateSaved("post", "true")], FlowRun(inputs, ctx, replies))
  }

  /** `main`. */
  method Dispatch(rt: Runner, inputs: map<string, string>, ctx: Context, replies: Replies) returns (o: Outcome)
    modifies rt
    ensures rt.effects == old(rt.effects) + DispatchRun(old(rt.state), inputs, ctx, replies).effects
    ensures rt.state == Applied(old(rt.state), DispatchRun(old(rt.state), inputs, ctx, replies).effects)
    ensures o == DispatchRun(old(rt.state), inputs, ctx, replies).outcome
  {
    ghost var store := rt.state;
    ghost var before := rt.effects;
    var post := rt.GetState("post");
    if post != "" {
      var token := rt.GetState("token");
      var expiresAt := rt.GetState("expires_at");
      o := Revoke(rt, token, expiresAt, replies);
      AppliedNoWrites(store, RevokeRun(token, expiresAt, replies).effects);
      return;
    }
    var mark := StateSaved("post", "true");
    rt.SaveState("post", "true");
    AppliedSnoc(store, [], mark);
    assert [] + [mark] == [mark];
    var serverRepositoryName := Input(inputs, "server_repository_name");
    if serverRepositoryName != "" {
      o := Client.Action(rt, inputs, ctx, replies);
      Client.ClientSavesNothing(inputs, ctx, replies);
      AppliedNoWrites(store["post" := "true"], Client.ClientRun(inputs, ctx, replies).effects);
    } else {
      o := Server.Action(rt, inputs, ctx, replies);
    }
    AppliedAppend(store, [mark], FlowRun(inputs, ctx, replies).effects);
    Associative(before, [mark], FlowRun(inputs, ctx, replies).effects);
  }

  /** A marked store: the post invocation makes at most one call, the
      revocation of the stored token, runs no flow and leaves the store as
      it is. */
  lemma PostOnlyRevokes(store: map<string, string>, inputs: map<string, string>, ctx: Context, replies: Replies)
    requires Get(store, "post") != ""
    ensures var s := DispatchRun(store, inputs, ctx, replies);
      && (s.effects == [] || s.effects == [TokenRevoked(Get(store, "token"))])
      && (s.effects == [] <==> Get(store, "token") == "" || (Get(store, "expires_at") != "" && replies.tokenExpired))
      && Applied(store, s.effects) == store
    ensures DispatchRun(store, inputs, ctx, replies) == RevokeRun(Get(store, "token"), Get(store, "expires_at"), replies)
    ensures var s := DispatchRun(store, inputs, ctx, replies);
      s.outcome == if s.effects == [] then Done else replies.revokeReply
  {
    var s := DispatchRun(store, inputs, ctx, replies);
    AppliedNoWrites(store, s.effects);
  }

  /** An unmarked store: the main invocation writes the marker first, then
      runs exactly one flow, the client flow (queries and labels only) when
      `server_repository_name` is set and the server flow (no label)
      otherwise; it revokes nothing, and the marker stays set afterwards,
      whatever the flow's outcome. */
  lemma MarkBeforeFlow(store: map<string, string>, inputs: map<string, string>, ctx: Context, replies: Replies)
    requires Get(store, "post") == ""
    ensures var s := DispatchRun(store, inputs, ctx, replies).effects;
      && s != [] && s[0] == StateSaved("post", "true")
      && (forall i :: 0 <= i < |s| ==> !s[i].TokenRevoked?)
      && (Input(inputs, "server_repository_name") != "" ==>
            && s[1..] == Client.ClientRun(inputs, ctx, replies).effects
            && (forall i :: 1 <= i < |s| ==> s[i].CommitsQueried? || s[i].LabelCreated?))
      && (Input(inputs, "server_repository_name") == "" ==>
            && s[1..] == Server.ServerRun(inputs, ctx, replies).effects
            && (forall i :: 1 <= i < |s| ==> !s[i].LabelCreated?))
      && Get(Applied(store, s), "post") == "true"
    ensures DispatchRun(store, inputs, ctx, replies).outcome == FlowRun(inputs, ctx, replies).outcome
  {
    if Input(inputs, "server_repository_name") != "" {
      MarkThenClient(store, inputs, ctx, replies);
    } else {
      MarkThenServer(store, inputs, ctx, replies);
    }
  }

  lemma MarkThenClient(store: map<string, string>, inputs: map<string, string>, ctx: Context, replies: Replies)
    requires Get(store, "post") == "" && Input(inputs, "server_repository_name") != ""
    ensures var s := DispatchRun(store, inputs, ctx, replies).effects;
      && s == [StateSaved("post", "true")] + Client.ClientRun(inputs, ctx, replies).effects
      && (forall i :: 1 <= i < |s| ==> s[i].CommitsQueried? || s[i].LabelCreated?)
      && Applied(store, s) == store["post" := "true"]
  {
    var f := Client.ClientRun(inputs, ctx, replies).effects;
    Client.LabelFollowsVerdict(inputs, ctx, replies);
    Client.ClientSavesNothing(inputs, ctx, replies);
    MarkedStore(store, f);
    AfterMark(f);
  }

  lemma MarkThenServer(store: map<string, string>, inputs: map<string, string>, ctx: Context, replies: Replies)
    requires Get(store, "post") == "" && Input(inputs, "server_repository_name") == ""
    ensures var s := DispatchRun(store, inputs, ctx, replies).effects;
      && s == [StateSaved("post", "true")] + Server.ServerRun(inputs, ctx, replies).effects
      && (forall i :: 1 <= i < |s| ==> !s[i].LabelCreated? && !s[i].TokenRevoked?)
      && Applied(store, s) == Applied(store["post" := "true"], Server.ServerRun(inputs, ctx, replies).effects)
      && Get(Applied(store, s), "post") == "true"
  {
    var f := Server.ServerRun(inputs, ctx, replies).effects;
    Server.ServerNeverLabels(inputs, ctx, replies);
    Server.TokenSavedBeforeUse(inputs, ctx, replies);
    MarkKept(store, f);
    AfterMarkServer(f);
  }

  /** The marker survives effects that write only the token and its expiry. */
  lemma MarkKept(store: map<string, string>, f: seq<Effect>)
    requires Server.SavesOnlyTokenAndExpiry(f)
    ensures Applied(store, [StateSaved("post", "true")] + f) == Applied(store["post" := "true"], f)
    ensures Get(Applied(store, [StateSaved("post", "true")] + f), "post") == "true"
  {
    MarkedApplied(store, f);
    forall k | 0 <= k < |f| && f[k].StateSaved? ensures f[k].key != "post" {
      assert f[k].key == "token" || f[k].key == "expires_at";
    }
    AppliedKeeps(store["post" := "true"], f, "post");
  }

  /** The marker followed by effects without writes. */
  lemma MarkedStore(store: map<string, string>, f: seq<Effect>)
    requires NoWrites(f)
    ensures Applied(store, [StateSaved("post", "true")] + f) == store["post" := "true"]
  {
    MarkedApplied(store, f);
    AppliedNoWrites(store["post" := "true"], f);
  }

  lemma MarkedApplied(store: map<string, string>, f: seq<Effect>)
    ensures Applied(store, [StateSaved("post", "true")] + f) == Applied(store["post" := "true"], f)
  {
    var mark := StateSaved("post", "true");
    AppliedSnoc(store, [], mark);
    assert [] + [mark] == [mark];
    AppliedAppend(store, [mark], f);
  }

  lemma AfterMark(f: seq<Effect>)
    requires forall i :: 0 <= i < |f| ==> f[i].CommitsQueried? || f[i].LabelCreated?
    ensures var s := [StateSaved("post", "true")] + f;
      forall i :: 1 <= i < |s| ==> s[i].CommitsQueried? || s[i].LabelCreated?
  {
    var s := [StateSaved("post", "true")] + f;
    forall i | 1 <= i < |s| ensures s[i] == f[i - 1] { }
  }

  lemma AfterMarkServer(f: seq<Effect>)
    requires Server.NeitherLabelsNorRevokes(f)
    ensures var s := [StateSaved("post", "true")] + f;
      forall i :: 1 <= i < |s| ==> !s[i].LabelCreated? && !s[i].TokenRevoked?
  {
    var s := [StateSaved("post", "true")] + f;
    forall i | 1 <= i < |s| ensures s[i] == f[i - 1] { }
  }

  /** One job: `main`, then the post invocation, on one store that starts
      empty.  The first run sets the marker, so the second only revokes and
      leaves the store alone.  After the client flow, which saves no token,
      it makes no call at all; after the server flow it revokes the token
      minted in the first run, unless none was minted or saved empty, or its
      expiry time has passed. */
  lemma TwoRuns(inputs: map<string, string>, ctx: Context, replies: Replies,
                postInputs: map<string, string>, postCtx: Context, postReplies: Replies)
    ensures var store := Applied(map[], DispatchRun(map[], inputs, ctx, replies).effects);
      var second := DispatchRun(store, postInputs, postCtx, postReplies).effects;
      && Get(store, "post") == "true"
      && (second == [] || second == [TokenRevoked(Get(store, "token"))])
      && Applied(store, second) == store
      && (Input(inputs, "server_repository_name") != "" ==> second == [])
      && (Input(inputs, "server_repository_name") == "" ==>
            && (second != [] <==>
                  && Server.Reaches(inputs, ctx, replies)
                  && replies.mintReply.value.token != ""
                  && !(replies.mintReply.value.expiresAt != "" && postReplies.tokenExpired))
            && (second != [] ==> second == [TokenRevoked(replies.mintReply.value.token)]))
  {
    var store := Applied(map[], DispatchRun(map[], inputs, ctx, replies).effects);
    MarkBeforeFlow(map[], inputs, ctx, replies);
    PostOnlyRevokes(store, postInputs, postCtx, postReplies);
    if Input(inputs, "server_repository_name") != "" {
      ClientThenPost(inputs, ctx, replies, postInputs, postCtx, postReplies);
    } else {
      ServerThenPost(inputs, ctx, replies, postInputs, postCtx, postReplies);
    }
  }

  lemma ClientThenPost(inputs: map<string, string>, ctx: Context, replies: Replies,
                       postInputs: map<string, string>, postCtx: Context, postReplies: Replies)
    requires Input(inputs, "server_repository_name") != ""
    ensures var store := Applied(map[], DispatchRun(map[], inputs, ctx, replies).effects);
      DispatchRun(store, postInputs, postCtx, postReplies).effects == []
  {
    MarkThenClient(map[], inputs, ctx, replies);
    var store: map<string, string> := map["post" := "true"];
    assert Get(store, "token") == "";
  }

  lemma ServerThenPost(inputs: map<string, string>, ctx: Context, replies: Replies,
                       postInputs: map<string, string>, postCtx: Context, postReplies: Replies)
    requires Input(inputs, "server_repository_name") == ""
    ensures var store := Applied(map[], DispatchRun(map[], inputs, ctx, replies).effects);
      var second := DispatchRun(store, postInputs, postCtx, postReplies).effects;
      && (second != [] <==>
            && Server.Reaches(inputs, ctx, replies)
            && replies.mintReply.value.token != ""
            && !(replies.mintReply.value.expiresAt != "" && postReplies.tokenExpired))
      && (second != [] ==> second == [TokenRevoked(replies.mintReply.value.token)])
  {
    MarkThenServer(map[], inputs, ctx, replies);
    Server.ServerStore(map["post" := "true"], inputs, ctx, replies);
    if Server.Reaches(inputs, ctx, replies) {
      SavedToken(Server.ServerRun(inputs, ctx, replies).effects, replies.mintReply.value);
    } else {
      UnsavedToken(Server.ServerRun(inputs, ctx, replies).effects);
    }
  }

  lemma SavedToken(f: seq<Effect>, t: AppToken)
    requires Applied(map["post" := "true"], f) == map["post" := "true"]["token" := t.token]["expires_at" := t.expiresAt]
    ensures var store := Applied(map["post" := "true"], f);
      Get(store, "post") == "true" && Get(store, "token") == t.token && Get(store, "expires_at") == t.expiresAt
  {
    var store := map["post" := "true"]["token" := t.token]["expires_at" := t.expiresAt];
    assert "token" != "expires_at" && "post" != "expires_at" && "post" != "token";
    assert store["post"] == "true" && store["token"] == t.token;
  }

  lemma UnsavedToken(f: seq<Effect>)
    requires Applied(map["post" := "true"], f) == map["post" := "true"]
    ensures Get(Applied(map["post" := "true"], f), "post") == "true"
    ensures Get(Applied(map["post" := "true"], f), "token") == ""
  {
    var store: map<string, string> := map["post" := "true"];
    assert "token" !in store;
  }
}
