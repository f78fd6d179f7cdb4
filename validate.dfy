/** The commit approval policy: page through a pull request's commits and
    decide whether every one of them is signed and made by an allowed login. */
module Validator {
  import opened Common

  /** One commit node of the query answer.  `committer` and `author` are the
      logins of the linked platform users (`user` is null when the git
      identity is not linked); `signature` is `isValid` of the signature, or
      None when the commit carries no signature. */
  datatype Commit = Commit(
    oid: string,
    committer: Option<string>,
    author: Option<string>,
    signature: Option<bool>)

  /** One page of the commit query: its nodes, in platform order. */
  datatype Page = Page(nodes: seq<Commit>, hasNextPage: bool, endCursor: Option<string>)

  datatype Verdict = Verdict(approved: bool, lastSha: string)

  /** `new Set(allowedCommitters)`. */
  function AllowedSet(names: seq<string>): (s: set<string>)
    ensures forall x :: x in s <==> x in names
  {
    set x | x in names
  }

  /** The policy for one commit, stated declaratively: a valid signature, and
      an allowed committer when there is one, otherwise an allowed author. */
  predicate Passes(c: Commit, allowed: set<string>)
  {
    && c.signature == Some(true)
    && (c.committer.Some? ==> c.committer.value in allowed)
    && (c.committer.None? ==> c.author.Some? && c.author.value in allowed)
  }

  predicate AllPass(commits: seq<Commit>, allowed: set<string>)
  {
    forall k :: 0 <= k < |commits| ==> Passes(commits[k], allowed)
  }

  /** The oid of the last commit, or "" when there is none. */
  function LastOid(commits: seq<Commit>): string
  {
    if commits == [] then "" else commits[|commits| - 1].oid
  }

  /** The verdict on a whole list of commits. */
  function Evaluate(commits: seq<Commit>, allowed: set<string>): Verdict
  {
    Verdict(AllPass(commits, allowed), LastOid(commits))
  }

  /** The nodes of all pages, concatenated in order. */
  function AllNodes(pages: seq<Page>): seq<Commit>
  {
    if pages == [] then [] else AllNodes(pages[..|pages| - 1]) + pages[|pages| - 1].nodes
  }

  /** The index of the first page, from `i` on, that says there is no next
      page. */
  function FinalPageFrom(pages: seq<Page>, i: nat): (r: Option<nat>)
    requires i <= |pages|
    ensures r.Some? ==>
      && i <= r.value < |pages| && !pages[r.value].hasNextPage
      && forall p :: i <= p < r.value ==> pages[p].hasNextPage
    ensures r.None? ==> forall p :: i <= p < |pages| ==> pages[p].hasNextPage
    decreases |pages| - i
  {
    if i == |pages| then None
    else if !pages[i].hasNextPage then Some(i)
    else FinalPageFrom(pages, i + 1)
  }

  /** The index of the last page the pagination loop reads, if the replies
      reach one. */
  function FinalPage(pages: seq<Page>): Option<nat>
  {
    FinalPageFrom(pages, 0)
  }

  /** What validating a pull request yields when the commit query answers its
      successive requests with `pages`: the verdict on all commits of the
      pages up to and including the first one without a next page, or a query
      failure when the answers run out before such a page. */
  function Validation(pages: seq<Page>, allowed: set<string>): Result<Verdict>
  {
    match FinalPage(pages)
    case None => Failure(CommitQueryFailed)
    case Some(k) => Success(Evaluate(AllNodes(pages[..k + 1]), allowed))
  }

  /** How many requests the pagination loop sends: one per page read, plus
      the request that fails when the answers run out. */
  function QueryCount(pages: seq<Page>): (n: nat)
    ensures 1 <= n <= |pages| + 1
  {
    match FinalPage(pages)
    case None => |pages| + 1
    case Some(k) => k + 1
  }

  /** The `endCursor` argument of each request: null first, then the cursor
      the previous page reported. */
  function QueryCursors(pages: seq<Page>): (r: seq<Option<string>>)
    ensures |r| == QueryCount(pages)
    ensures forall q :: 0 <= q < |r| ==> r[q] == if q == 0 then None else pages[q - 1].endCursor
  {
    CursorsUpTo(pages, QueryCount(pages))
  }

  function CursorsUpTo(pages: seq<Page>, n: nat): (r: seq<Option<string>>)
    requires n <= |pages| + 1
    ensures |r| == n
    ensures forall q :: 0 <= q < n ==> r[q] == if q == 0 then None else pages[q - 1].endCursor
  {
    if n == 0 then [] else CursorsUpTo(pages, n - 1) + [if n == 1 then None else pages[n - 2].endCursor]
  }

  /** `validate`: the paginated loop of the source.  It returns the result
      and the cursors it sent, one per request. */
  method Validate(pages: seq<Page>, allowedCommitters: seq<string>)
    returns (r: Result<Verdict>, cursors: seq<Option<string>>)
    ensures r == Validation(pages, AllowedSet(allowedCommitters))
    ensures cursors == QueryCursors(pages)
  {
    var allowedSet := set x | x in allowedCommitters;
    var endCursor: Option<string> := None;
    var approved := true;
    var lastSha := "";
    var i := 0;  // answers consumed so far
    cursors := [];
    while true
      invariant 0 <= i <= |pages|
      invariant forall p :: 0 <= p < i ==> pages[p].hasNextPage
      invariant approved == AllPass(AllNodes(pages[..i]), allowedSet)
      invariant lastSha == LastOid(AllNodes(pages[..i]))
      invariant endCursor == if i == 0 then None else pages[i - 1].endCursor
      invariant |cursors| == i
      invariant forall q :: 0 <= q < i ==> cursors[q] == if q == 0 then None else pages[q - 1].endCursor
      decreases |pages| - i
    {
      cursors := cursors + [endCursor];
      if i == |pages| {
        // the request is not answered
        assert FinalPage(pages).None?;
        r := Failure(CommitQueryFailed);
        return;
      }
      var page := pages[i];
      ghost var before := AllNodes(pages[..i]);
      assert AllNodes(pages[..i + 1]) == before + page.nodes by {
        assert pages[..i + 1][..i] == pages[..i];
      }
      assert before + page.nodes[..0] == before;
      for j := 0 to |page.nodes|
        invariant approved == AllPass(before + page.nodes[..j], allowedSet)
        invariant lastSha == LastOid(before + page.nodes[..j])
      {
        AllPassSnoc(before + page.nodes[..j], page.nodes[j], allowedSet);
        assert before + page.nodes[..j + 1] == (before + page.nodes[..j]) + [page.nodes[j]];
        var commit := page.nodes[j];
        lastSha := commit.oid;

        // signature first: a missing or invalid one rejects the commit
        if commit.signature.None? || !commit.signature.value {
          approved := false;
          continue;
        }

        // a linked committer is authoritative
        if commit.committer.Some? {
          if commit.committer.value !in allowedSet {
            approved := false;
          }
          continue;
        }

        // otherwise the author decides; neither linked rejects the commit
        if commit.author.None? {
          approved := false;
          continue;
        }
        if commit.author.value !in allowedSet {
          approved := false;
        }
      }
      assert page.nodes[..|page.nodes|] == page.nodes;
      i := i + 1;
      if !page.hasNextPage {
        assert FinalPage(pages) == Some(i - 1);
        r := Success(Verdict(approved, lastSha));
        assert cursors == QueryCursors(pages);
        return;
      }
      endCursor := page.endCursor;
    }
  }

  lemma AllPassSnoc(commits: seq<Commit>, c: Commit, allowed: set<string>)
    ensures AllPass(commits + [c], allowed) == (AllPass(commits, allowed) && Passes(c, allowed))
  {
    assert forall k :: 0 <= k < |commits| ==> (commits + [c])[k] == commits[k];
    assert (commits + [c])[|commits|] == c;
  }

  // ---------------------------------------------------------------------
  // properties of the policy

  /** The per-commit policy, case by case: a missing or invalid signature
      rejects whatever the identities; a linked committer alone decides and
      the author is then never consulted; without a committer the author
      decides, and a commit with neither is rejected. */
  lemma PolicyCases(c: Commit, allowed: set<string>)
    ensures c.signature != Some(true) ==> !Passes(c, allowed)
    ensures c.signature == Some(true) && c.committer.Some? ==>
      (Passes(c, allowed) <==> c.committer.value in allowed)
    ensures c.signature == Some(true) && c.committer.None? && c.author.None? ==> !Passes(c, allowed)
    ensures c.signature == Some(true) && c.committer.None? && c.author.Some? ==>
      (Passes(c, allowed) <==> c.author.value in allowed)
  {
  }

  /** A commit is among the nodes of the pages exactly when it is some node
      of some page. */
  lemma {:induction false} AllNodesIndex(pages: seq<Page>, p: nat, j: nat)
    requires p < |pages| && j < |pages[p].nodes|
    ensures pages[p].nodes[j] in AllNodes(pages)
    decreases |pages|
  {
    var last := |pages| - 1;
    if p < last {
      AllNodesIndex(pages[..last], p, j);
    } else {
      assert AllNodes(pages) == AllNodes(pages[..last]) + pages[last].nodes;
    }
  }

  lemma {:induction false} AllNodesOrigin(pages: seq<Page>, c: Commit)
    requires c in AllNodes(pages)
    ensures exists p, j :: 0 <= p < |pages| && 0 <= j < |pages[p].nodes| && pages[p].nodes[j] == c
    decreases |pages|
  {
    var last := |pages| - 1;
    if c in pages[last].nodes {
      var j :| 0 <= j < |pages[last].nodes| && pages[last].nodes[j] == c;
    } else {
      AllNodesOrigin(pages[..last], c);
      var p, j :| 0 <= p < last && 0 <= j < |pages[..last][p].nodes| && pages[..last][p].nodes[j] == c;
      assert pages[p].nodes[j] == c;
    }
  }

  /** The verdict is approved exactly when every commit on every page read
      passes the policy; no commit is skipped. */
  lemma ApprovedIffEveryCommitPasses(pages: seq<Page>, allowed: set<string>)
    requires FinalPage(pages).Some?
    ensures var k := FinalPage(pages).value;
      Validation(pages, allowed).Success? &&
      (Validation(pages, allowed).value.approved <==>
        forall p, j :: 0 <= p <= k && 0 <= j < |pages[p].nodes| ==> Passes(pages[p].nodes[j], allowed))
  {
    var k := FinalPage(pages).value;
    var read := pages[..k + 1];
    var nodes := AllNodes(read);
    if AllPass(nodes, allowed) {
      forall p, j | 0 <= p <= k && 0 <= j < |pages[p].nodes| ensures Passes(pages[p].nodes[j], allowed) {
        AllNodesIndex(read, p, j);
        assert read[p] == pages[p];
      }
    } else {
      var i :| 0 <= i < |nodes| && !Passes(nodes[i], allowed);
      AllNodesOrigin(read, nodes[i]);
      var p, j :| 0 <= p < |read| && 0 <= j < |read[p].nodes| && read[p].nodes[j] == nodes[i];
      assert pages[p].nodes[j] == nodes[i];
    }
  }

  /** Verdicts compose along concatenation: both parts must pass, and the
      last sha comes from the second part unless it is empty. */
  lemma EvaluateConcat(a: seq<Commit>, b: seq<Commit>, allowed: set<string>)
    ensures Evaluate(a + b, allowed).approved ==
      (Evaluate(a, allowed).approved && Evaluate(b, allowed).approved)
    ensures Evaluate(a + b, allowed).lastSha ==
      if b == [] then Evaluate(a, allowed).lastSha else Evaluate(b, allowed).lastSha
  {
    assert forall k :: 0 <= k < |a| ==> (a + b)[k] == a[k];
    assert forall k :: 0 <= k < |b| ==> (a + b)[|a| + k] == b[k];
    if b == [] { assert a + b == a; }
  }

  /** Once a commit has been rejected, nothing after it restores approval. */
  lemma RejectionIsFinal(a: seq<Commit>, b: seq<Commit>, allowed: set<string>)
    requires !Evaluate(a, allowed).approved
    ensures !Evaluate(a + b, allowed).approved
  {
    EvaluateConcat(a, b, allowed);
  }

  /** The last sha is the oid of the last commit of the last page read when
      that page has commits; a pull request without commits is approved with
      an empty last sha. */
  lemma LastShaOfLastPage(pages: seq<Page>, allowed: set<string>)
    requires FinalPage(pages).Some?
    ensures var k := FinalPage(pages).value; var v := Validation(pages, allowed).value;
      && (pages[k].nodes != [] ==> v.lastSha == pages[k].nodes[|pages[k].nodes| - 1].oid)
      && (AllNodes(pages[..k + 1]) == [] ==> v == Verdict(true, ""))
  {
    var k := FinalPage(pages).value;
    assert pages[..k + 1][..k] == pages[..k];
    assert AllNodes(pages[..k + 1]) == AllNodes(pages[..k]) + pages[k].nodes;
  }

  /** Pagination is transparent: the verdict is the one a single final page
      holding all commits read would give. */
  lemma PaginationTransparent(pages: seq<Page>, allowed: set<string>)
    requires FinalPage(pages).Some?
    ensures var k := FinalPage(pages).value;
      Validation(pages, allowed) == Validation([Page(AllNodes(pages[..k + 1]), false, None)], allowed)
  {
    var k := FinalPage(pages).value;
    var single := [Page(AllNodes(pages[..k + 1]), false, None)];
    assert FinalPage(single) == Some(0);
    assert single[..1] == single;
    assert single[..0] == [];
    assert AllNodes(single) == AllNodes(single[..0]) + single[0].nodes;
    assert AllNodes(single) == AllNodes(pages[..k + 1]);
  }

  /** Answers after the first page without a next page are never requested:
      they change neither the result nor the requests sent. */
  lemma LaterAnswersIgnored(pages: seq<Page>, more: seq<Page>, allowed: set<string>)
    requires FinalPage(pages).Some?
    ensures Validation(pages + more, allowed) == Validation(pages, allowed)
    ensures QueryCursors(pages + more) == QueryCursors(pages)
  {
    var k := FinalPage(pages).value;
    var all := pages + more;
    assert all[k] == pages[k];
    assert forall p :: 0 <= p < k ==> all[p] == pages[p];
    assert FinalPage(all) == Some(k);
    assert all[..k + 1] == pages[..k + 1];
  }
}
