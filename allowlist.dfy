/** The `allowed_committers` input: a newline separated list of logins that
    replaces the default bot list when it is not blank.  The server flow and
    the client flow parse it the same way. */
module AllowList {
  import opened Strings

  /** The logins allowed when the input is blank. */
  const DefaultAllowedCommitters: seq<string> := ["renovate[bot]", "dependabot[bot]"]

  /** `lines.map((s) => s.trim()).filter((s) => s.length > 0)`. */
  function TrimmedLines(lines: seq<string>): (r: seq<string>)
    ensures forall k :: 0 <= k < |r| ==> r[k] != "" && IsTrimmed(r[k])
  {
    if lines == [] then []
    else
      var t := Trim(lines[0]);
      var rest := TrimmedLines(lines[1..]);
      if t == "" then rest else [t] + rest
  }

  /** Every non-blank line, trimmed, is kept. */
  lemma {:induction false} TrimmedLinesComplete(lines: seq<string>)
    ensures forall k :: 0 <= k < |lines| && Trim(lines[k]) != "" ==> Trim(lines[k]) in TrimmedLines(lines)
  {
    if lines != [] {
      TrimmedLinesComplete(lines[1..]);
      forall k | 0 < k < |lines| ensures lines[k] == lines[1..][k - 1] { }
    }
  }

  /** Every line trimmed, blank ones included. */
  function TrimAll(lines: seq<string>): (r: seq<string>)
    ensures |r| == |lines|
  {
    if lines == [] then [] else [Trim(lines[0])] + TrimAll(lines[1..])
  }

  /** Every kept entry is the trim of some line. */
  lemma {:induction false} TrimmedLinesSound(lines: seq<string>)
    ensures forall x :: x in TrimmedLines(lines) ==> x in TrimAll(lines)
  {
    if lines != [] {
      TrimmedLinesSound(lines[1..]);
    }
  }

  /** The allow list built from the raw input (see `AllowListSpec`). */
  function ParseAllowedCommitters(input: string): seq<string>
  {
    var t := Trim(input);
    if t == "" then DefaultAllowedCommitters else TrimmedLines(Split(t, '\n'))
  }

  /** The allow list is the default list when the input is blank.
      Otherwise it holds the trimmed non-blank lines of the input and
      nothing else: at least one entry, each non-empty, trimmed and on one
      line, and the default is dropped rather than extended. */
  lemma AllowListSpec(input: string)
    ensures var r := ParseAllowedCommitters(input);
      && (Trim(input) == "" ==> r == DefaultAllowedCommitters)
      && (Trim(input) != "" ==>
        && |r| >= 1
        && (forall k :: 0 <= k < |r| ==> r[k] != "" && IsTrimmed(r[k]) && '\n' !in r[k])
        && (var lines := Split(Trim(input), '\n');
            && (forall k :: 0 <= k < |lines| && Trim(lines[k]) != "" ==> Trim(lines[k]) in r)
            && (forall k :: 0 <= k < |r| ==> r[k] in TrimAll(lines))))
  {
    var t := Trim(input);
    if t != "" {
      var lines := Split(t, '\n');
      var r := TrimmedLines(lines);
      TrimmedLinesComplete(lines);
      TrimmedLinesSound(lines);
      NonBlankInputKeepsALine(t);
      forall k | 0 <= k < |r| ensures '\n' !in r[k] {
        TrimAllWithin(lines, '\n', r[k]);
      }
    }
  }

  /** Trimming lines that lack `c` gives strings that lack `c`. */
  lemma {:induction false} TrimAllWithin(lines: seq<string>, c: char, x: string)
    requires forall k :: 0 <= k < |lines| ==> c !in lines[k]
    requires x in TrimAll(lines)
    ensures c !in x
  {
    if x == Trim(lines[0]) {
      TrimWithin(lines[0], c);
    } else {
      TrimAllWithin(lines[1..], c, x);
    }
  }

  /** A trimmed, non-empty input has a first line that stays non-blank. */
  lemma NonBlankInputKeepsALine(t: string)
    requires t != "" && IsTrimmed(t)
    ensures |TrimmedLines(Split(t, '\n'))| >= 1
  {
    SplitFirst(t, '\n');
    var first := Split(t, '\n')[0];
    TrimKeepsFirst(first);
  }
}
