/** Eligible-file selection: the completed transfer's paths are placed under the
    session's data directory and every file that cannot be statted, or that already has
    more than one hard link (a previous run organized it), is deleted from the list. The
    file system is a fixed stat state `stat`, and path joining is the opaque `join`. */
module Selection {

  /** What statting a file tells the filter. `NoSys`: no platform information;
      `OtherSys`: information that is not a Unix stat record; `Links(n)`: a Unix stat
      record whose link count is `n`. */
  datatype StatResult = StatErr | NoSys | OtherSys | Links(n: nat)

  /** The predicate handed to `slices.DeleteFunc`: true for a file to drop. */
  predicate Dropped(s: StatResult) {
    match s
    case StatErr => true
    case NoSys => false
    case OtherSys => false
    case Links(n) => n > 1
  }

  /** A file survives the filter. */
  predicate Eligible(s: StatResult) {
    !Dropped(s)
  }

  /** `a` is `b` with some elements left out and the rest in their original order. */
  ghost predicate IsSubsequence<T>(a: seq<T>, b: seq<T>)
    decreases |b|
  {
    a == [] || (b != [] && ((a[0] == b[0] && IsSubsequence(a[1..], b[1..])) || IsSubsequence(a, b[1..])))
  }

  /** Each path placed under `root`, in order. */
  function JoinAll(root: string, ps: seq<string>, join: (string, string) -> string): (r: seq<string>)
    ensures |r| == |ps|
    ensures forall i :: 0 <= i < |ps| ==> r[i] == join(root, ps[i])
    decreases |ps|
  {
    if ps == [] then [] else [join(root, ps[0])] + JoinAll(root, ps[1..], join)
  }

  /** `slices.DeleteFunc` with the hard-link predicate: the result keeps, in order,
      exactly the occurrences of eligible files. */
  function FilterEligible(ps: seq<string>, stat: string -> StatResult): (r: seq<string>)
    ensures IsSubsequence(r, ps)
    ensures forall p {:trigger multiset(r)[p]} {:trigger multiset(ps)[p]} ::
      multiset(r)[p] == if Eligible(stat(p)) then multiset(ps)[p] else 0
    ensures forall i :: 0 <= i < |r| ==> Eligible(stat(r[i]))
    decreases |ps|
  {
    if ps == [] then []
    else
      assert ps == [ps[0]] + ps[1..];
      var rest := FilterEligible(ps[1..], stat);
      if Dropped(stat(ps[0])) then rest else [ps[0]] + rest
  }

  /** A path is kept exactly when it is in the input and eligible. */
  lemma KeptExactlyWhenEligible(ps: seq<string>, stat: string -> StatResult, p: string)
    ensures p in FilterEligible(ps, stat) <==> p in ps && Eligible(stat(p))
  {
  }

  /** Filtering already filtered paths under the same stat state changes nothing. */
  lemma {:induction false} FilterIdempotent(ps: seq<string>, stat: string -> StatResult)
    ensures FilterEligible(FilterEligible(ps, stat), stat) == FilterEligible(ps, stat)
    decreases |ps|
  {
    if ps != [] {
      FilterIdempotent(ps[1..], stat);
      var rest := FilterEligible(ps[1..], stat);
      if !Dropped(stat(ps[0])) {
        assert ([ps[0]] + rest)[0] == ps[0];
        assert ([ps[0]] + rest)[1..] == rest;
      }
    }
  }

  /** When every file is dropped, nothing is left. */
  lemma {:induction false} AllDroppedLeavesNothing(ps: seq<string>, stat: string -> StatResult)
    requires forall i :: 0 <= i < |ps| ==> Dropped(stat(ps[i]))
    ensures FilterEligible(ps, stat) == []
    decreases |ps|
  {
    if ps != [] {
      AllDroppedLeavesNothing(ps[1..], stat);
    }
  }

  /** When every file already has more than one link, nothing is left. */
  lemma AllLinkedLeavesNothing(ps: seq<string>, stat: string -> StatResult)
    requires forall i :: 0 <= i < |ps| ==> stat(ps[i]).Links? && stat(ps[i]).n > 1
    ensures FilterEligible(ps, stat) == []
  {
    AllDroppedLeavesNothing(ps, stat);
  }

  /** The filter looks only at the stat results of the paths it is given. */
  lemma {:induction false} FilterSeesOnlyItsPaths(ps: seq<string>, stat: string -> StatResult, stat': string -> StatResult)
    requires forall p :: p in ps ==> stat'(p) == stat(p)
    ensures FilterEligible(ps, stat') == FilterEligible(ps, stat)
    decreases |ps|
  {
    if ps != [] {
      assert ps[0] in ps;
      FilterSeesOnlyItsPaths(ps[1..], stat, stat');
    }
  }

  /** Re-running is idempotent: if every file the first pass kept has since gained a
      second link, and nothing else about the files changed, a second pass keeps
      nothing. */
  lemma {:induction false} SecondPassEmpty(ps: seq<string>, stat: string -> StatResult, stat': string -> StatResult)
    requires forall i :: 0 <= i < |ps| && Eligible(stat(ps[i])) ==> stat'(ps[i]).Links? && stat'(ps[i]).n > 1
    requires forall i :: 0 <= i < |ps| && Dropped(stat(ps[i])) ==> stat'(ps[i]) == stat(ps[i])
    ensures FilterEligible(ps, stat') == []
    decreases |ps|
  {
    if ps != [] {
      SecondPassEmpty(ps[1..], stat, stat');
    }
  }

  /** Files a (one link), b (two links) and c (stat fails) leave only a. */
  lemma FilterExample(stat: string -> StatResult)
    requires stat("a") == Links(1) && stat("b") == Links(2) && stat("c") == StatErr
    ensures FilterEligible(["a", "b", "c"], stat) == ["a"]
  {
  }
}
