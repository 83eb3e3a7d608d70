/**
  The column extraction applied to a MySQL foreign-key violation message:
  the regular expression `FOREIGN KEY \((.*)\) REFERENCES` is searched for in
  the message, the capture group is taken, and every backtick is removed from it.

  The regular expression is modelled with the semantics of the Rust `regex`
  crate: the match that starts leftmost wins, `.` matches any character except
  a line feed, and the greedy `.*` makes the capture run to the LAST
  `) REFERENCES` that can be reached from that start without crossing a line feed.
*/
module ForeignKey {
  import opened Wrappers

  const Prefix: string := "FOREIGN KEY ("
  const Suffix: string := ") REFERENCES"

  predicate PrefixAt(m: string, i: int)
  {
    0 <= i && i + |Prefix| <= |m| && m[i..i + |Prefix|] == Prefix
  }

  predicate SuffixAt(m: string, j: int)
  {
    0 <= j && j + |Suffix| <= |m| && m[j..j + |Suffix|] == Suffix
  }

  predicate NoNewline(s: string)
  {
    forall k :: 0 <= k < |s| ==> s[k] != '\n'
  }

  /** The regular expression matches `m` at start `i` with the capture group `m[i + |Prefix|..j]`. */
  predicate MatchAt(m: string, i: int, j: int)
  {
    PrefixAt(m, i) && i + |Prefix| <= j && SuffixAt(m, j) && NoNewline(m[i + |Prefix|..j])
  }

  /** The match the regex engine reports: leftmost start, then the longest capture from it. */
  ghost predicate LeftmostGreedy(m: string, i: int, j: int)
  {
    && MatchAt(m, i, j)
    && (forall i', j' :: 0 <= i' < i && MatchAt(m, i', j') ==> false)
    && (forall j' :: j < j' && MatchAt(m, i, j') ==> false)
  }

  /** End of the run of non-line-feed characters that starts at `s`. */
  function RunEnd(m: string, s: nat): (e: nat)
    requires s <= |m|
    ensures s <= e <= |m|
    ensures e == |m| || m[e] == '\n'
    ensures NoNewline(m[s..e])
    decreases |m| - s
  {
    if s == |m| || m[s] == '\n' then s else RunEnd(m, s + 1)
  }

  /** The greatest `k` with `s <= k <= j` at which the suffix occurs. */
  function LastSuffix(m: string, s: nat, j: int): (r: Option<nat>)
    ensures r.Some? ==> s <= r.value <= j && SuffixAt(m, r.value)
    ensures r.Some? ==> forall k :: r.value < k <= j ==> !SuffixAt(m, k)
    ensures r.None? ==> forall k :: s <= k <= j ==> !SuffixAt(m, k)
    decreases j - s
  {
    if j < s then None
    else if SuffixAt(m, j) then Some(j)
    else LastSuffix(m, s, j - 1)
  }

  /** The end of the capture for a match starting at `i`, if any match starts there. */
  function CaptureEndAt(m: string, i: nat): (r: Option<nat>)
  {
    if PrefixAt(m, i) then LastSuffix(m, i + |Prefix|, RunEnd(m, i + |Prefix|)) else None
  }

  /** The leftmost match starting at `i` or later, as the pair (start, capture end). */
  function SearchFrom(m: string, i: nat): (r: Option<(nat, nat)>)
    decreases |m| - i
  {
    if |m| < i + |Prefix| then None
    else match CaptureEndAt(m, i)
      case Some(j) => Some((i, j))
      case None => SearchFrom(m, i + 1)
  }

  /** The capture group of the regex search, as `Regex::captures` reports it. */
  function Capture(m: string): (r: Option<string>)
  {
    match SearchFrom(m, 0)
    case None => None
    case Some((i, j)) => if i + |Prefix| <= j <= |m| then Some(m[i + |Prefix|..j]) else None
  }

  /** `m` with every backtick removed, as `str::replace("`", "")` does. */
  function StripBackticks(s: string): (r: string)
    ensures |r| <= |s|
    ensures forall k :: 0 <= k < |r| ==> r[k] != '`'
    ensures (forall k :: 0 <= k < |s| ==> s[k] != '`') ==> r == s
  {
    if s == [] then []
    else if s[0] == '`' then StripBackticks(s[1..])
    else [s[0]] + StripBackticks(s[1..])
  }

  /** The message of the PickUpError produced for a foreign-key violation. */
  function FailureMessage(m: string): (r: string)
  {
    match Capture(m)
    case None => "Foreign key constraint fails at unknown column"
    case Some(column) => "Foreign key constraint fails at " + StripBackticks(column) + " column"
  }

  // ---------------------------------------------------------------------------
  // Properties of the extraction
  // ---------------------------------------------------------------------------

  /** Removing backticks distributes over concatenation: it deletes exactly the backticks, keeping order. */
  lemma {:induction false} StripBackticksAppend(a: string, b: string)
    ensures StripBackticks(a + b) == StripBackticks(a) + StripBackticks(b)
    decreases |a|
  {
    if a == [] {
      assert a + b == b;
    } else {
      assert (a + b)[1..] == a[1..] + b;
      StripBackticksAppend(a[1..], b);
    }
  }

  /** Removing backticks twice is the same as removing them once. */
  lemma StripBackticksIdempotent(s: string)
    ensures StripBackticks(StripBackticks(s)) == StripBackticks(s)
  {
  }

  /** A capture end `j` is reachable from prefix end `s` exactly when `j` lies in the line-feed-free run. */
  lemma NoNewlineIffWithinRun(m: string, s: nat, j: int)
    requires s <= j <= |m|
    ensures NoNewline(m[s..j]) <==> j <= RunEnd(m, s)
  {
    var e := RunEnd(m, s);
    if j <= e {
      forall k | 0 <= k < j - s ensures m[s..j][k] != '\n' {
        assert m[s..j][k] == m[s..e][k];
      }
    } else {
      assert m[s..j][e - s] == m[e];
    }
  }

  /** CaptureEndAt finds exactly the greatest capture end among the matches that start at `i`. */
  lemma CaptureEndAtCorrect(m: string, i: nat)
    ensures CaptureEndAt(m, i).None? <==> forall j :: !MatchAt(m, i, j)
    ensures CaptureEndAt(m, i).Some? ==>
      MatchAt(m, i, CaptureEndAt(m, i).value) &&
      forall j :: CaptureEndAt(m, i).value < j ==> !MatchAt(m, i, j)
  {
    if PrefixAt(m, i) {
      var s := i + |Prefix|;
      var e := RunEnd(m, s);
      forall j | s <= j <= |m| ensures MatchAt(m, i, j) <==> (j <= e && SuffixAt(m, j)) {
        NoNewlineIffWithinRun(m, s, j);
      }
      match CaptureEndAt(m, i)
      case None =>
      case Some(j) =>
        NoNewlineIffWithinRun(m, s, j);
    }
  }

  /** SearchFrom returns the leftmost start at or after `i` that begins a match, with its greedy end. */
  lemma {:induction false} SearchFromCorrect(m: string, i: nat)
    ensures SearchFrom(m, i).None? <==> forall i', j :: i <= i' && MatchAt(m, i', j) ==> false
    ensures SearchFrom(m, i).Some? ==>
      var (i0, j0) := SearchFrom(m, i).value;
      && i <= i0 && MatchAt(m, i0, j0)
      && (forall i', j :: i <= i' < i0 && MatchAt(m, i', j) ==> false)
      && (forall j :: j0 < j && MatchAt(m, i0, j) ==> false)
    decreases |m| - i
  {
    if |m| < i + |Prefix| {
      forall i', j | i <= i' && MatchAt(m, i', j) ensures false {
      }
    } else {
      CaptureEndAtCorrect(m, i);
      match CaptureEndAt(m, i)
      case Some(j0) =>
        assert SearchFrom(m, i) == Some((i, j0));
      case None =>
        SearchFromCorrect(m, i + 1);
        assert SearchFrom(m, i) == SearchFrom(m, i + 1);
        forall i', j | i <= i' && MatchAt(m, i', j) ensures i + 1 <= i' {
        }
    }
  }

  /** Capture is sound and complete for the leftmost-greedy match of the regular expression. */
  lemma CaptureCorrect(m: string)
    ensures Capture(m).None? <==> forall i, j :: !MatchAt(m, i, j)
    ensures Capture(m).Some? ==>
      exists i, j :: LeftmostGreedy(m, i, j) && Capture(m).value == m[i + |Prefix|..j]
  {
    SearchFromCorrect(m, 0);
    match SearchFrom(m, 0)
    case None =>
    case Some((i, j)) =>
      assert LeftmostGreedy(m, i, j);
  }

  /** With no match anywhere, the message names an unknown column. */
  lemma NoMatchMessage(m: string)
    requires forall i, j :: !MatchAt(m, i, j)
    ensures FailureMessage(m) == "Foreign key constraint fails at unknown column"
  {
    CaptureCorrect(m);
  }

  /** The search from the start reports exactly the leftmost-greedy match. */
  lemma SearchFindsLeftmostGreedy(m: string, i: int, j: int)
    requires LeftmostGreedy(m, i, j)
    ensures SearchFrom(m, 0) == Some((i as nat, j as nat))
  {
    SearchFromCorrect(m, 0);
    assert MatchAt(m, i, j);
    var (i0, j0) := SearchFrom(m, 0).value;
    assert i0 == i;
    assert j0 == j;
  }

  /** With a match, the message names the backtick-free leftmost-greedy capture. */
  lemma MatchMessage(m: string, i: int, j: int)
    requires LeftmostGreedy(m, i, j)
    ensures FailureMessage(m) ==
      "Foreign key constraint fails at " + StripBackticks(m[i + |Prefix|..j]) + " column"
  {
    SearchFindsLeftmostGreedy(m, i, j);
  }
}
