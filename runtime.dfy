/** What the action sees of its surroundings: its inputs, the event context,
    the cross-phase state store, and the external services it calls.  The
    services are not modelled; each call is recorded as an `Effect`, and
    what the service answers is taken from `Replies`. */
module Runtime {
  import opened Common
  import opened Validator
  import opened Trigger
  import opened AllowList

  /** A call the action makes to something outside itself, in order. */
  datatype Effect =
    | StateSaved(key: string, value: string)
    | TokenRequested(owner: string, repositories: seq<string>, permissions: map<string, string>)
    | CommitsQueried(credential: string, pr: PullRequestRef, cursor: Option<string>)
    | LabelCreated(owner: string, repo: string, name: string, description: string)
    | ReviewRequested(credential: string, pr: PullRequestRef, commitId: string, event: string)
    | CommentPosted(credential: string, pr: PullRequestRef, body: string)
    | TokenRevoked(token: string)

  /** A minted installation token and its expiry time, as the minting
      service returns them. */
  datatype AppToken = AppToken(token: string, expiresAt: string)

  /** What the external services answer during one invocation. */
  datatype Replies = Replies(
    commitPages: seq<Page>,       // successive answers of the commit query
    mintReply: Result<AppToken>,  // the token minting call
    labelName: string,            // the fresh label name the label library generates
    labelReply: Outcome,          // label creation
    reviewReply: Outcome,         // review creation
    commentReply: Outcome,        // comment creation
    tokenExpired: bool,           // whether the stored expiry time has passed, when asked
    revokeReply: Outcome)         // token revocation

  /** The event context of the run. */
  datatype Context = Context(
    repoOwner: string,                // the repository the workflow runs in
    repoName: string,
    labelDescription: Option<string>, // the description of the label in the event payload
    workflowUrl: string)              // the link to this run, for the failure comment

  /** How a flow ends, with the effects it had. */
  datatype Step = Step(effects: seq<Effect>, outcome: Outcome)

  /** `s` preceded by the effects `pre`. */
  function Then(pre: seq<Effect>, s: Step): Step
  {
    Step(pre + s.effects, s.outcome)
  }

  /** An input as the input reader returns it: "" when it is not set. */
  function Input(inputs: map<string, string>, name: string): string
  {
    if name in inputs then inputs[name] else ""
  }

  /** A required input: an error when it is empty. */
  function RequiredInput(inputs: map<string, string>, name: string): (r: Result<string>)
    ensures r.Success? <==> Input(inputs, name) != ""
    ensures r.Success? ==> r.value == Input(inputs, name)
    ensures r.Failure? ==> r.error == MissingInput(name)
  {
    var v := Input(inputs, name);
    if v == "" then Failure(MissingInput(name)) else Success(v)
  }

  /** `a || b` on strings. */
  function OrElse(a: string, b: string): string
  {
    if a != "" then a else b
  }

  /** The `allowed_committers` input as the set the validation checks
      logins against; both flows build it the same way. */
  function Allowed(inputs: map<string, string>): set<string>
  {
    AllowedSet(ParseAllowedCommitters(Input(inputs, "allowed_committers")))
  }

  /** A state entry as the state reader returns it: "" when it is not set. */
  function Get(store: map<string, string>, key: string): string
  {
    if key in store then store[key] else ""
  }

  /** The store after the state writes among `effects`, in order. */
  function Applied(store: map<string, string>, effects: seq<Effect>): map<string, string>
  {
    if effects == [] then store
    else
      var before := Applied(store, effects[..|effects| - 1]);
      match effects[|effects| - 1]
      case StateSaved(k, v) => before[k := v]
      case _ => before
  }

  lemma {:induction false} AppliedAppend(store: map<string, string>, a: seq<Effect>, b: seq<Effect>)
    ensures Applied(store, a + b) == Applied(Applied(store, a), b)
    decreases |b|
  {
    if b == [] {
      assert a + b == a;
    } else {
      var b' := b[..|b| - 1];
      AppliedAppend(store, a, b');
      assert (a + b)[..|a + b| - 1] == a + b';
    }
  }

  lemma AppliedSnoc(store: map<string, string>, effects: seq<Effect>, e: Effect)
    ensures Applied(store, effects + [e]) ==
      if e.StateSaved? then Applied(store, effects)[e.key := e.value] else Applied(store, effects)
  {
    assert (effects + [e])[..|effects|] == effects;
  }

  /** No state write among `effects`. */
  predicate NoWrites(effects: seq<Effect>)
  {
    forall k :: 0 <= k < |effects| ==> !effects[k].StateSaved?
  }

  lemma NoWritesConcat(a: seq<Effect>, b: seq<Effect>)
    requires NoWrites(a) && NoWrites(b)
    ensures NoWrites(a + b)
  {
    forall k | 0 <= k < |a + b| ensures !(a + b)[k].StateSaved? {
      if k >= |a| {
        assert (a + b)[k] == b[k - |a|];
      }
    }
  }

  /** Effects without state writes leave the store alone. */
  lemma {:induction false} AppliedNoWrites(store: map<string, string>, effects: seq<Effect>)
    requires NoWrites(effects)
    ensures Applied(store, effects) == store
    decreases |effects|
  {
    if effects != [] {
      AppliedNoWrites(store, effects[..|effects| - 1]);
    }
  }

  /** Effects whose state writes all go to keys other than `key` keep its
      entry. */
  lemma {:induction false} AppliedKeeps(store: map<string, string>, effects: seq<Effect>, key: string)
    requires forall k :: 0 <= k < |effects| && effects[k].StateSaved? ==> effects[k].key != key
    ensures Get(Applied(store, effects), key) == Get(store, key)
    decreases |effects|
  {
    if effects != [] {
      AppliedKeeps(store, effects[..|effects| - 1], key);
    }
  }

  /** Proof glue: keeps the solver's context small; it models nothing. */
  lemma Associative(a: seq<Effect>, b: seq<Effect>, c: seq<Effect>)
    ensures a + (b + c) == a + b + c
  {
  }

  /** The commit queries of one validation, one per request sent. */
  function Queries(credential: string, pr: PullRequestRef, cursors: seq<Option<string>>): (r: seq<Effect>)
    ensures |r| == |cursors|
    ensures forall k :: 0 <= k < |r| ==> r[k] == CommitsQueried(credential, pr, cursors[k])
  {
    if cursors == [] then []
    else Queries(credential, pr, cursors[..|cursors| - 1]) + [CommitsQueried(credential, pr, cursors[|cursors| - 1])]
  }

  lemma QueriesNoWrites(credential: string, pr: PullRequestRef, cursors: seq<Option<string>>)
    ensures NoWrites(Queries(credential, pr, cursors))
  {
  }

  /** The action's process: the cross-phase state store, shared by the main
      and the post invocation of one job, and the record of external calls. */
  class Runner {
    var state: map<string, string>
    ghost var effects: seq<Effect>

    constructor (initial: map<string, string>)
      ensures state == initial && effects == []
    {
      state := initial;
      effects := [];
    }

    /** `getState(key)`. */
    function GetState(key: string): (r: string)
      reads this
      ensures key in state ==> r == state[key]
      ensures key !in state ==> r == ""
    {
      Get(state, key)
    }

    /** `saveState(key, value)`. */
    method SaveState(key: string, value: string)
      modifies this
      ensures state == old(state)[key := value]
      ensures effects == old(effects) + [StateSaved(key, value)]
    {
      state := state[key := value];
      effects := effects + [StateSaved(key, value)];
    }

    /** A call to an external service. */
    method Perform(e: Effect)
      requires !e.StateSaved?
      modifies this
      ensures state == old(state)
      ensures effects == old(effects) + [e]
    {
      effects := effects + [e];
    }

    /** Several calls to external services, in order. */
    method PerformAll(es: seq<Effect>)
      requires NoWrites(es)
      modifies this
      ensures state == old(state)
      ensures effects == old(effects) + es
    {
      effects := effects + es;
    }
  }
}
