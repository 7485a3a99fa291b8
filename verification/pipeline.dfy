/** The whole run: read the configuration, match every feed, submit every link, wait
    for the session (the barrier is not modelled: its return is assumed), then select
    and organize files feed by feed. Configuration and fetch errors end the run; later
    errors only skip a feed. */
module Pipeline {
  import opened Results
  import opened Config
  import opened Matching
  import opened Dispatching
  import opened Selection
  import opened Organize

  /** The external world of one run. `fetched` is aligned with the configured feeds;
      `fs` is the file-system state when organizing starts; the other fields are the
      libraries' functions. */
  datatype World<!M, !S> = World(
    compile: Compiler<M>,
    fetched: seq<Result<seq<Item>, string>>,
    matches: (M, string) -> bool,
    submit: (nat, string) -> Result<Handle, string>,
    join: (string, string) -> string,
    filePaths: Handle -> Result<seq<string>, string>,
    stat: (S, string) -> StatResult,
    organize: (S, Addition) -> (S, Option<string>),
    fs: S)

  /** The world has one fetch result per decoded feed. */
  predicate Aligned<M, S>(decoded: Result<RawConfig, string>, w: World<M, S>) {
    decoded.Ok? ==> |w.fetched| == |decoded.value.feeds|
  }

  /** The configuration after the matching stage. */
  function Matched<M, S>(decoded: Result<RawConfig, string>, w: World<M, S>): (r: Result<Config<M>, Error>)
    requires Aligned(decoded, w)
    ensures ReadConfig<M>(decoded, w.compile).1.Some? ==> r == Err(ReadConfig<M>(decoded, w.compile).1.value)
    ensures r.Ok? <==> ReadConfig<M>(decoded, w.compile).1.None? && forall i :: 0 <= i < |w.fetched| ==> w.fetched[i].Ok?
    ensures r.Ok? ==> r.value.dataDir == ReadConfig<M>(decoded, w.compile).0.dataDir
    ensures r.Ok? ==> |r.value.feeds| == |w.fetched|
  {
    var (cfg, err) := ReadConfig<M>(decoded, w.compile);
    if err.Some? then Err(err.value)
    else match MatchFeeds(cfg.feeds, w.fetched, w.matches)
      case Err(e) => Err(e)
      case Ok(fs) => Ok(Config(cfg.dataDir, fs))
  }

  /** The configuration after the dispatch stage. */
  function Dispatched<M, S>(decoded: Result<RawConfig, string>, w: World<M, S>): (r: Result<Config<M>, Error>)
    requires Aligned(decoded, w)
    ensures r.Ok? <==> Matched(decoded, w).Ok?
    ensures r.Err? ==> r == Matched(decoded, w)
    ensures r.Ok? ==> r.value.dataDir == Matched(decoded, w).value.dataDir
    ensures r.Ok? ==> |r.value.feeds| == |w.fetched|
    ensures r.Ok? ==> forall i :: 0 <= i < |w.fetched| ==>
      (r.value.feeds[i].torr.Some? <==> w.submit(i, Matched(decoded, w).value.feeds[i].link).Ok?) &&
      r.value.feeds[i].(torr := None) == Matched(decoded, w).value.feeds[i]
  {
    match Matched(decoded, w)
    case Err(e) => Err(e)
    case Ok(c) => Ok(Config(c.dataDir, Dispatch(c.feeds, w.submit)))
  }

  /** The organizer call each feed would get if every feed's filter saw the file-system
      state at the start of organizing: the reference for `Run`. */
  function Planned<M, S>(decoded: Result<RawConfig, string>, w: World<M, S>): (r: Result<seq<Option<Addition>>, Error>)
    requires Aligned(decoded, w)
    ensures r.Ok? <==> Dispatched(decoded, w).Ok?
    ensures r.Ok? ==> |r.value| == |w.fetched|
    ensures r.Ok? ==> forall i :: 0 <= i < |r.value| ==>
      (r.value[i].Some? <==>
        && decoded.value.feeds[i].dstDir.Some?
        && w.submit(i, Matched(decoded, w).value.feeds[i].link).Ok?
        && w.filePaths(w.submit(i, Matched(decoded, w).value.feeds[i].link).value).Ok?)
    ensures r.Ok? ==> forall i :: 0 <= i < |r.value| && r.value[i].Some? ==>
      && r.value[i].value.seasonDir == decoded.value.feeds[i].dstDir.value
      && r.value[i].value.episodes == FilterEligible(
           JoinAll(SessionDataDir(decoded.value.dataDir, w.join),
                   w.filePaths(w.submit(i, Matched(decoded, w).value.feeds[i].link).value).value, w.join),
           View(w.stat, w.fs))
  {
    match Dispatched(decoded, w)
    case Err(e) => Err(e)
    case Ok(c) => Ok(Plan(c.feeds, SessionDataDir(c.dataDir, w.join), w.join, w.filePaths, View(w.stat, w.fs)))
  }

  /** The run: either the fatal error, or the organizer calls made, in order, and the
      file-system state they leave. Every feed that reaches the organizer gets its call,
      whatever errors earlier calls reported, with a subsequence of its joined paths. */
  function Run<M, S>(decoded: Result<RawConfig, string>, w: World<M, S>): (r: Result<Outcome<S>, Error>)
    requires Aligned(decoded, w)
    ensures r.Ok? <==> Matched(decoded, w).Ok?
    ensures r.Err? ==> r.error == Matched(decoded, w).error
    ensures r.Ok? ==>
      var c := Dispatched(decoded, w).value;
      var todo := Unfiltered(c.feeds, SessionDataDir(c.dataDir, w.join), w.join, w.filePaths);
      && |r.value.calls| == |todo|
      && forall k :: 0 <= k < |todo| ==>
           r.value.calls[k].addition.seasonDir == todo[k].seasonDir &&
           IsSubsequence(r.value.calls[k].addition.episodes, todo[k].episodes)
  {
    match Dispatched(decoded, w)
    case Err(e) => Err(e)
    case Ok(c) =>
      Ok(OrganizeAll(c.feeds, SessionDataDir(c.dataDir, w.join), w.join, w.filePaths, w.stat, w.organize, w.fs))
  }

  /** A failed fetch ends the run with the error of the first failed fetch. */
  lemma RunStopsAtFirstFetchFailure<M, S>(decoded: Result<RawConfig, string>, w: World<M, S>, k: int)
    requires Aligned(decoded, w)
    requires ReadConfig<M>(decoded, w.compile).1.None?
    requires FetchFailsFirstAt(w.fetched, k)
    ensures Run(decoded, w) == Err(Library(w.fetched[k].error))
  {
    var cfg := ReadConfig<M>(decoded, w.compile).0;
    MatchFeedsFirstFailure(cfg.feeds, w.fetched, w.matches, k);
  }

  /** A feed none of whose items matched keeps the empty link, that empty link is still
      submitted, and the feed holds whatever handle the session gives for it. */
  lemma UnmatchedFeedSubmitsEmptyLink<M, S>(decoded: Result<RawConfig, string>, w: World<M, S>, i: int)
    requires Aligned(decoded, w)
    requires Matched(decoded, w).Ok?
    requires 0 <= i < |w.fetched|
    requires forall j :: 0 <= j < |w.fetched[i].value| ==>
      !w.matches(Matched(decoded, w).value.feeds[i].regexp, w.fetched[i].value[j].title)
    ensures Submissions(Matched(decoded, w).value.feeds)[i] == ""
    ensures Dispatched(decoded, w).value.feeds[i].torr == w.submit(i, "").ToOption()
  {
  }

  /** Under the file-system state at the start of organizing, a dispatch failure for feed
      `x` changes no other feed's organizer call. */
  lemma DispatchFailureIsolated<M, S>(decoded: Result<RawConfig, string>, w: World<M, S>, w': World<M, S>, x: int)
    requires Aligned(decoded, w)
    requires w' == w.(submit := w'.submit)
    requires forall i: nat, l :: i != x ==> w'.submit(i, l) == w.submit(i, l)
    ensures Planned(decoded, w').Ok? == Planned(decoded, w).Ok?
    ensures Planned(decoded, w).Ok? ==> forall i :: 0 <= i < |w.fetched| && i != x ==>
      Planned(decoded, w').value[i] == Planned(decoded, w).value[i]
  {
    assert Matched(decoded, w') == Matched(decoded, w);
  }

  /** When no two feeds share a file and the organizer changes only the files it is
      handed, the run makes exactly the planned calls: each feed's organizer receives the
      filtered list of its own joined paths under the state at the start of organizing. */
  lemma RunWithoutSharedFiles<M, S(!new)>(decoded: Result<RawConfig, string>, w: World<M, S>)
    requires Aligned(decoded, w)
    requires Run(decoded, w).Ok?
    requires OnlyTouchesEpisodes(w.stat, w.organize)
    requires SharesNoFiles(Dispatched(decoded, w).value.feeds, SessionDataDir(Dispatched(decoded, w).value.dataDir, w.join), w.join, w.filePaths)
    ensures Additions(Run(decoded, w).value.calls) == Scheduled(Planned(decoded, w).value)
  {
    var c := Dispatched(decoded, w).value;
    OrganizeAllWithoutSharedFiles(c.feeds, SessionDataDir(c.dataDir, w.join), w.join, w.filePaths, w.stat, w.organize, w.fs, View(w.stat, w.fs));
  }

  /** The file-system state plays no part before organizing. */
  lemma StateOnlyMattersForOrganizing<M, S>(decoded: Result<RawConfig, string>, w: World<M, S>, fs: S)
    requires Aligned(decoded, w)
    ensures Dispatched(decoded, w.(fs := fs)) == Dispatched(decoded, w)
  {
    assert Matched(decoded, w.(fs := fs)) == Matched(decoded, w);
  }

  /** Running twice against the same feeds and session answers: when the organizer links
      every file it is handed and touches nothing else, the second run, starting from the
      state the first left, hands every feed that reaches the organizer an empty list. */
  lemma SecondRunOrganizesNothing<M, S(!new)>(decoded: Result<RawConfig, string>, w: World<M, S>)
    requires Aligned(decoded, w)
    requires OnlyTouchesEpisodes(w.stat, w.organize) && LinksEpisodes(w.stat, w.organize)
    ensures Run(decoded, w).Ok? ==>
      var w' := w.(fs := Run(decoded, w).value.fs);
      Run(decoded, w').Ok? &&
      forall k :: 0 <= k < |Run(decoded, w').value.calls| ==> Run(decoded, w').value.calls[k].addition.episodes == []
  {
    if Run(decoded, w).Ok? {
      var c := Dispatched(decoded, w).value;
      var root := SessionDataDir(c.dataDir, w.join);
      var first := OrganizeAll(c.feeds, root, w.join, w.filePaths, w.stat, w.organize, w.fs);
      assert Run(decoded, w) == Ok(first);
      var w' := w.(fs := first.fs);
      StateOnlyMattersForOrganizing(decoded, w, first.fs);
      var second := OrganizeAll(c.feeds, root, w.join, w.filePaths, w.stat, w.organize, first.fs);
      assert Run(decoded, w') == Ok(second);
      RerunHandsOverNothing(c.feeds, root, w.join, w.filePaths, w.stat, w.organize, w.fs, first.fs);
    }
  }
}
