/** The trigger descriptor: the client asks the server to approve a pull
    request by creating a label whose description is `owner/repo/number`;
    the server reads the pull request back from that description. */
module Trigger {
  import opened Common
  import opened Strings

  datatype PullRequestRef = PullRequestRef(owner: string, repo: string, prNumber: Number)

  /** The label description the client writes. */
  function Describe(owner: string, repo: string, prNumber: Number): (r: string)
    ensures Count(r, '/') == Count(owner, '/') + Count(repo, '/') + 2
  {
    NumberStringHasNo(prNumber, '/');
    CountPositive(NumberString(prNumber), '/');
    CountAppend(owner + "/" + repo + "/", NumberString(prNumber), '/');
    CountAppend(owner + "/" + repo, "/", '/');
    CountAppend(owner + "/", repo, '/');
    CountAppend(owner, "/", '/');
    assert Count("/", '/') == 1 by { assert "/"[1..] == []; }
    owner + "/" + repo + "/" + NumberString(prNumber)
  }

  lemma JoinThree(a: string, b: string, c: string)
    ensures Join([a, b, c], '/') == a + "/" + b + "/" + c
  {
    assert [a, b, c][1..] == [b, c];
    assert [b, c][1..] == [c];
    assert Join([c], '/') == c;
    assert Join([b, c], '/') == b + ['/'] + c;
    assert Join([a, b, c], '/') == a + ['/'] + (b + ['/'] + c);
    assert "/" == ['/'];
  }

  /** `parseLabelDescription`: the description must split on '/' into
      exactly three parts, that is contain exactly two '/'.  Owner and repo
      are taken verbatim (they may be empty) and the third part goes through
      `Number`, which does not reject non-numeric text. */
  function ParseLabelDescription(description: string): (r: Result<PullRequestRef>)
    ensures r.Failure? <==> Count(description, '/') != 2
    ensures r.Failure? ==> r.error == InvalidLabelDescription(description)
    ensures r.Success? ==>
      var rest := |r.value.owner| + |r.value.repo| + 2;
      && '/' !in r.value.owner && '/' !in r.value.repo
      && rest <= |description|
      && description == r.value.owner + "/" + r.value.repo + "/" + description[rest..]
      && '/' !in description[rest..]
      && r.value.prNumber == ToNumber(description[rest..])
  {
    var parts := Split(description, '/');
    SplitLength(description, '/');
    if |parts| != 3 then Failure(InvalidLabelDescription(description))
    else
      JoinSplit(description, '/');
      JoinThree(parts[0], parts[1], parts[2]);
      assert parts == [parts[0], parts[1], parts[2]];
      assert description[|parts[0]| + |parts[1]| + 2..] == parts[2];
      Success(PullRequestRef(parts[0], parts[1], ToNumber(parts[2])))
  }

  /** Round trip: for an owner and a repository without '/', the server
      decodes exactly the pull request the client described. */
  lemma RoundTrip(owner: string, repo: string, prNumber: Number)
    requires '/' !in owner && '/' !in repo
    ensures ParseLabelDescription(Describe(owner, repo, prNumber)) ==
      Success(PullRequestRef(owner, repo, prNumber))
  {
    var num := NumberString(prNumber);
    NumberStringHasNo(prNumber, '/');
    JoinThree(owner, repo, num);
    SplitJoin([owner, repo, num], '/');
    NumberRoundTrip(prNumber);
  }

  /** The condition on owner and repo is needed: when either contains '/',
      the description has more than two '/' and does not parse. */
  lemma SlashBreaksRoundTrip(owner: string, repo: string, prNumber: Number)
    requires '/' in owner || '/' in repo
    ensures ParseLabelDescription(Describe(owner, repo, prNumber)).Failure?
  {
    CountPositive(owner, '/');
    CountPositive(repo, '/');
  }
}
