/** The matching stage: each feed's items are scanned in order and the link of the
    first item whose title satisfies the feed's matcher is kept. A failed fetch of any
    feed ends the whole stage. Fetching and matching belong to libraries: the fetched
    feeds are an input aligned with the configuration's feeds, and `matches` stands for
    the compiled matcher's substring test. */
module Matching {
  import opened Results
  import opened Config

  /** A feed item: only its title and link are used. */
  datatype Item = Item(title: string, link: string)

  /** The index of the first item whose title matches, if any. */
  function FirstMatch<M>(items: seq<Item>, m: M, matches: (M, string) -> bool): (r: Option<nat>)
    ensures r.Some? ==> r.value < |items| && matches(m, items[r.value].title)
    ensures r.Some? ==> forall j :: 0 <= j < r.value ==> !matches(m, items[j].title)
    ensures r.None? <==> forall j :: 0 <= j < |items| ==> !matches(m, items[j].title)
    decreases |items|
  {
    if items == [] then None
    else if matches(m, items[0].title) then Some(0)
    else match FirstMatch(items[1..], m, matches)
      case None => None
      case Some(k) => Some(k + 1)
  }

  /** The inner loop for one feed: the link becomes that of the first matching item;
      with no matching item the feed is left as it was. */
  function MatchFeed<M>(f: Feed<M>, items: seq<Item>, matches: (M, string) -> bool): (g: Feed<M>)
    ensures g.(link := f.link) == f
    ensures (exists j :: 0 <= j < |items| && matches(f.regexp, items[j].title)) ==>
      exists k :: 0 <= k < |items| && matches(f.regexp, items[k].title) && g.link == items[k].link &&
        forall j :: 0 <= j < k ==> !matches(f.regexp, items[j].title)
    ensures (forall j :: 0 <= j < |items| ==> !matches(f.regexp, items[j].title)) ==> g == f
  {
    match FirstMatch(items, f.regexp, matches)
    case None => f
    case Some(k) => f.(link := items[k].link)
  }

  /** The outer loop: every feed is fetched and matched in order; the first failed
      fetch ends the stage with its error. */
  function MatchFeeds<M>(feeds: seq<Feed<M>>, fetched: seq<Result<seq<Item>, string>>, matches: (M, string) -> bool): (r: Result<seq<Feed<M>>, Error>)
    requires |fetched| == |feeds|
    ensures r.Ok? <==> forall i :: 0 <= i < |fetched| ==> fetched[i].Ok?
    ensures r.Ok? ==> |r.value| == |feeds|
    ensures r.Ok? ==> forall i :: 0 <= i < |feeds| ==> r.value[i] == MatchFeed(feeds[i], fetched[i].value, matches)
    decreases |feeds|
  {
    if feeds == [] then Ok([])
    else match fetched[0]
      case Err(msg) => Err(Library(msg))
      case Ok(items) =>
        match MatchFeeds(feeds[1..], fetched[1..], matches)
        case Err(e) => Err(e)
        case Ok(rest) => Ok([MatchFeed(feeds[0], items, matches)] + rest)
  }

  /** Fetch `k` is the first one that failed. */
  ghost predicate FetchFailsFirstAt(fetched: seq<Result<seq<Item>, string>>, k: int) {
    0 <= k < |fetched| && fetched[k].Err? && forall j :: 0 <= j < k ==> fetched[j].Ok?
  }

  /** The stage fails with the error of the first failed fetch. */
  lemma {:induction false} MatchFeedsFirstFailure<M>(feeds: seq<Feed<M>>, fetched: seq<Result<seq<Item>, string>>, matches: (M, string) -> bool, k: int)
    requires |fetched| == |feeds|
    requires FetchFailsFirstAt(fetched, k)
    ensures MatchFeeds(feeds, fetched, matches) == Err(Library(fetched[k].error))
    decreases k
  {
    if k > 0 {
      assert FetchFailsFirstAt(fetched[1..], k - 1) by {
        forall j | 0 <= j < k - 1
          ensures fetched[1..][j].Ok?
        {
          assert fetched[1..][j] == fetched[j + 1];
        }
      }
      MatchFeedsFirstFailure(feeds[1..], fetched[1..], matches, k - 1);
    }
  }

  /** No feed after the first failed fetch is processed: whatever the later fetches
      return, the outcome is the same. */
  lemma MatchFeedsStopsAtFailure<M>(feeds: seq<Feed<M>>, fetched: seq<Result<seq<Item>, string>>, fetched': seq<Result<seq<Item>, string>>, matches: (M, string) -> bool, k: int)
    requires |fetched| == |feeds| && |fetched'| == |feeds|
    requires FetchFailsFirstAt(fetched, k)
    requires forall j :: 0 <= j <= k ==> fetched'[j] == fetched[j]
    ensures MatchFeeds(feeds, fetched', matches) == Err(Library(fetched[k].error))
    ensures MatchFeeds(feeds, fetched', matches) == MatchFeeds(feeds, fetched, matches)
  {
    MatchFeedsFirstFailure(feeds, fetched, matches, k);
    MatchFeedsFirstFailure(feeds, fetched', matches, k);
  }

  /** First match wins: once an item matches, items appended after the feed's current
      items can never change which item is selected. */
  lemma {:induction false} FirstMatchStable<M>(items: seq<Item>, more: seq<Item>, m: M, matches: (M, string) -> bool)
    requires FirstMatch(items, m, matches).Some?
    ensures FirstMatch(items + more, m, matches) == FirstMatch(items, m, matches)
    decreases |items|
  {
    assert (items + more)[0] == items[0];
    if !matches(m, items[0].title) {
      assert (items + more)[1..] == items[1..] + more;
      FirstMatchStable(items[1..], more, m, matches);
    }
  }

  /** With items "Show S01E01", "Show S01E02", "Other" and a matcher that accepts the
      episode titles, the first episode's link is chosen. */
  lemma FirstEpisodeChosen(f: Feed<string>)
    requires f.regexp == "Show S01E"
    ensures MatchFeed(f,
      [Item("Show S01E01", "link1"), Item("Show S01E02", "link2"), Item("Other", "link3")],
      (m: string, t: string) => |m| <= |t| && t[..|m|] == m).link == "link1"
  {
  }
}
