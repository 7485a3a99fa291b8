/** The organizing stage, run once the completion barrier has returned. Feed by feed:
    a feed goes on only with a destination directory and a transfer handle; its file
    paths are asked of the handle (an error skips only that feed), placed under the
    session's data directory, filtered by their current stat results, and handed to the
    media organizer, whose error is only logged. The organizer hard-links files, so the
    file-system state `fs` it leaves behind is the one the next feed's filter sees:
    `stat(fs, p)` is what statting `p` in state `fs` reports, and `organize(fs, a)` is
    the organizer's new state and error. */
module Organize {
  import opened Results
  import opened Config
  import opened Selection

  /** One call of the media organizer: a season directory and its episode files. */
  datatype Addition = Addition(seasonDir: string, episodes: seq<string>)

  /** One organizer call together with the error it reported, if any. */
  datatype Call = Call(addition: Addition, err: Option<string>)

  /** The organizer calls made, in order, and the file-system state after them. */
  datatype Outcome<S> = Outcome(calls: seq<Call>, fs: S)

  /** The session's data directory, under which the transfers' paths lie. */
  function SessionDataDir(dataDir: string, join: (string, string) -> string): string {
    join(dataDir, "data")
  }

  /** The skip rule: a feed reaches file selection only with both a destination
      directory and a handle. */
  predicate Ready<M>(f: Feed<M>) {
    f.dstDir.Some? && f.torr.Some?
  }

  /** The paths whose stat results a feed's filter consults: its joined file paths when
      it reaches filtering, none otherwise. */
  function Joined<M>(f: Feed<M>, root: string, join: (string, string) -> string, filePaths: Handle -> Result<seq<string>, string>): seq<string> {
    if Ready(f) && filePaths(f.torr.value).Ok? then JoinAll(root, filePaths(f.torr.value).value, join) else []
  }

  /** What statting reads in one file-system state. */
  function View<S>(stat: (S, string) -> StatResult, fs: S): string -> StatResult {
    p => stat(fs, p)
  }

  /** The organizer call made for one feed under the stat results `stat`, if any. */
  function SelectFiles<M>(f: Feed<M>, root: string, join: (string, string) -> string, filePaths: Handle -> Result<seq<string>, string>, stat: string -> StatResult): (r: Option<Addition>)
    ensures r.Some? <==> Ready(f) && filePaths(f.torr.value).Ok?
    ensures r.Some? ==> r.value.seasonDir == f.dstDir.value
    ensures r.Some? ==> r.value.episodes == FilterEligible(JoinAll(root, filePaths(f.torr.value).value, join), stat)
    ensures r.Some? ==> IsSubsequence(r.value.episodes, JoinAll(root, filePaths(f.torr.value).value, join))
    ensures r.Some? ==> forall i :: 0 <= i < |filePaths(f.torr.value).value| ==>
      var p := join(root, filePaths(f.torr.value).value[i]);
      (p in r.value.episodes <==> Eligible(stat(p)))
  {
    if f.dstDir.None? || f.torr.None? then None
    else match filePaths(f.torr.value)
      case Err(_) => None
      case Ok(ps) =>
        var joined := JoinAll(root, ps, join);
        var episodes := FilterEligible(joined, stat);
        assert forall i :: 0 <= i < |ps| ==> joined[i] in joined;
        forall p | p in joined
          ensures p in episodes <==> Eligible(stat(p))
        {
          KeptExactlyWhenEligible(joined, stat, p);
        }
        Some(Addition(f.dstDir.value, episodes))
  }

  /** The calls the feeds would get if every feed's filter saw the same stat results
      `stat`: the reference the organizing loop is compared with. */
  function Plan<M>(feeds: seq<Feed<M>>, root: string, join: (string, string) -> string, filePaths: Handle -> Result<seq<string>, string>, stat: string -> StatResult): (r: seq<Option<Addition>>)
    ensures |r| == |feeds|
    ensures forall i :: 0 <= i < |feeds| ==> r[i] == SelectFiles(feeds[i], root, join, filePaths, stat)
    decreases |feeds|
  {
    if feeds == [] then []
    else [SelectFiles(feeds[0], root, join, filePaths, stat)] + Plan(feeds[1..], root, join, filePaths, stat)
  }

  /** The organizer calls a plan schedules, in order. */
  function Scheduled(plan: seq<Option<Addition>>): (r: seq<Addition>)
    ensures |r| <= |plan|
    decreases |plan|
  {
    if plan == [] then []
    else match plan[0]
      case None => Scheduled(plan[1..])
      case Some(a) => [a] + Scheduled(plan[1..])
  }

  /** The additions of a sequence of calls. */
  function Additions(calls: seq<Call>): (r: seq<Addition>)
    ensures |r| == |calls|
    ensures forall k :: 0 <= k < |calls| ==> r[k] == calls[k].addition
    decreases |calls|
  {
    if calls == [] then [] else [calls[0].addition] + Additions(calls[1..])
  }

  /** The feeds that reach the organizer, each with all of its joined paths (before
      filtering), in feed order. Which feeds these are depends neither on the stat
      results nor on the organizer. */
  function Unfiltered<M>(feeds: seq<Feed<M>>, root: string, join: (string, string) -> string, filePaths: Handle -> Result<seq<string>, string>): seq<Addition>
    decreases |feeds|
  {
    if feeds == [] then []
    else if Ready(feeds[0]) && filePaths(feeds[0].torr.value).Ok? then
      [Addition(feeds[0].dstDir.value, Joined(feeds[0], root, join, filePaths))] + Unfiltered(feeds[1..], root, join, filePaths)
    else Unfiltered(feeds[1..], root, join, filePaths)
  }

  /** The loop over the feeds: each feed is filtered against the state the previous
      feeds' organizer calls left, then handed to the organizer. An organizer error is
      recorded and the loop goes on, so every feed that reaches the organizer gets its
      call, for its own directory, with a subsequence of its own joined paths. */
  function OrganizeAll<M, S>(feeds: seq<Feed<M>>, root: string, join: (string, string) -> string, filePaths: Handle -> Result<seq<string>, string>, stat: (S, string) -> StatResult, organize: (S, Addition) -> (S, Option<string>), fs: S): (r: Outcome<S>)
    ensures |r.calls| == |Unfiltered(feeds, root, join, filePaths)|
    ensures forall k :: 0 <= k < |r.calls| ==>
      && r.calls[k].addition.seasonDir == Unfiltered(feeds, root, join, filePaths)[k].seasonDir
      && IsSubsequence(r.calls[k].addition.episodes, Unfiltered(feeds, root, join, filePaths)[k].episodes)
    decreases |feeds|
  {
    if feeds == [] then Outcome([], fs)
    else match SelectFiles(feeds[0], root, join, filePaths, View(stat, fs))
      case None => OrganizeAll(feeds[1..], root, join, filePaths, stat, organize, fs)
      case Some(a) =>
        var (fs', err) := organize(fs, a);
        var rest := OrganizeAll(feeds[1..], root, join, filePaths, stat, organize, fs');
        Outcome([Call(a, err)] + rest.calls, rest.fs)
  }

  /** The organizer changes the stat results of the episodes it is handed only. */
  ghost predicate OnlyTouchesEpisodes<S(!new)>(stat: (S, string) -> StatResult, organize: (S, Addition) -> (S, Option<string>)) {
    forall fs: S, a: Addition, p: string :: p !in a.episodes ==> stat(organize(fs, a).0, p) == stat(fs, p)
  }

  /** The organizer leaves every episode it is handed with more than one link. */
  ghost predicate LinksEpisodes<S(!new)>(stat: (S, string) -> StatResult, organize: (S, Addition) -> (S, Option<string>)) {
    forall fs: S, a: Addition, p: string :: p in a.episodes ==> stat(organize(fs, a).0, p).Links? && stat(organize(fs, a).0, p).n > 1
  }

  /** No two feeds' filters consult the same path. */
  ghost predicate SharesNoFiles<M>(feeds: seq<Feed<M>>, root: string, join: (string, string) -> string, filePaths: Handle -> Result<seq<string>, string>) {
    forall i, j, p :: 0 <= i < j < |feeds| && p in Joined(feeds[i], root, join, filePaths) ==>
      p !in Joined(feeds[j], root, join, filePaths)
  }

  /** A feed's selection depends only on the stat results of its own joined paths. */
  lemma SelectFilesSeesOnlyItsPaths<M>(f: Feed<M>, root: string, join: (string, string) -> string, filePaths: Handle -> Result<seq<string>, string>, stat: string -> StatResult, stat': string -> StatResult)
    requires forall p :: p in Joined(f, root, join, filePaths) ==> stat'(p) == stat(p)
    ensures SelectFiles(f, root, join, filePaths, stat') == SelectFiles(f, root, join, filePaths, stat)
  {
    if Ready(f) && filePaths(f.torr.value).Ok? {
      FilterSeesOnlyItsPaths(Joined(f, root, join, filePaths), stat, stat');
    }
  }

  /** Every episode handed over for a feed is one of that feed's joined paths. */
  lemma EpisodesAreJoined<M>(f: Feed<M>, root: string, join: (string, string) -> string, filePaths: Handle -> Result<seq<string>, string>, stat: string -> StatResult, p: string)
    requires SelectFiles(f, root, join, filePaths, stat).Some?
    requires p in SelectFiles(f, root, join, filePaths, stat).value.episodes
    ensures p in Joined(f, root, join, filePaths)
  {
    KeptExactlyWhenEligible(Joined(f, root, join, filePaths), stat, p);
  }

  /** When no two feeds share a file and the organizer changes only the files it is
      handed, the loop makes exactly the calls of the plan taken under the stat results
      at its start: no feed's selection is affected by another feed's organizer call. */
  lemma {:induction false} OrganizeAllWithoutSharedFiles<M, S(!new)>(feeds: seq<Feed<M>>, root: string, join: (string, string) -> string, filePaths: Handle -> Result<seq<string>, string>, stat: (S, string) -> StatResult, organize: (S, Addition) -> (S, Option<string>), fs: S, view: string -> StatResult)
    requires OnlyTouchesEpisodes(stat, organize)
    requires SharesNoFiles(feeds, root, join, filePaths)
    requires forall i, p :: 0 <= i < |feeds| && p in Joined(feeds[i], root, join, filePaths) ==> stat(fs, p) == view(p)
    ensures Additions(OrganizeAll(feeds, root, join, filePaths, stat, organize, fs).calls) ==
      Scheduled(Plan(feeds, root, join, filePaths, view))
    decreases |feeds|
  {
    if feeds != [] {
      var f := feeds[0];
      var tail := feeds[1..];
      assert forall i :: 0 <= i < |tail| ==> tail[i] == feeds[i + 1];
      assert SharesNoFiles(tail, root, join, filePaths);
      SelectFilesSeesOnlyItsPaths(f, root, join, filePaths, view, View(stat, fs));
      var plan := Plan(feeds, root, join, filePaths, view);
      assert plan[1..] == Plan(tail, root, join, filePaths, view);
      match SelectFiles(f, root, join, filePaths, View(stat, fs))
      case None =>
        OrganizeAllWithoutSharedFiles(tail, root, join, filePaths, stat, organize, fs, view);
      case Some(a) =>
        var (fs', err) := organize(fs, a);
        forall i, p | 0 <= i < |tail| && p in Joined(tail[i], root, join, filePaths)
          ensures stat(fs', p) == view(p)
        {
          if p in a.episodes {
            EpisodesAreJoined(f, root, join, filePaths, View(stat, fs), p);
            assert false;
          }
        }
        OrganizeAllWithoutSharedFiles(tail, root, join, filePaths, stat, organize, fs', view);
        var rest := OrganizeAll(tail, root, join, filePaths, stat, organize, fs');
        assert Additions([Call(a, err)] + rest.calls) == [a] + Additions(rest.calls);
    }
  }

  /** A dropped file is never handed to the organizer, so it stays dropped. */
  lemma {:induction false} DroppedStaysDropped<M, S(!new)>(feeds: seq<Feed<M>>, root: string, join: (string, string) -> string, filePaths: Handle -> Result<seq<string>, string>, stat: (S, string) -> StatResult, organize: (S, Addition) -> (S, Option<string>), fs: S, p: string)
    requires OnlyTouchesEpisodes(stat, organize)
    requires Dropped(stat(fs, p))
    ensures Dropped(stat(OrganizeAll(feeds, root, join, filePaths, stat, organize, fs).fs, p))
    decreases |feeds|
  {
    if feeds != [] {
      match SelectFiles(feeds[0], root, join, filePaths, View(stat, fs))
      case None =>
        DroppedStaysDropped(feeds[1..], root, join, filePaths, stat, organize, fs, p);
      case Some(a) =>
        var fs' := organize(fs, a).0;
        assert p !in a.episodes;
        DroppedStaysDropped(feeds[1..], root, join, filePaths, stat, organize, fs', p);
    }
  }

  /** After a run whose organizer links what it is handed, every path a feed's filter
      consulted is dropped: it was either organized then, or already dropped. */
  lemma {:induction false} RunLeavesEverythingDropped<M, S(!new)>(feeds: seq<Feed<M>>, root: string, join: (string, string) -> string, filePaths: Handle -> Result<seq<string>, string>, stat: (S, string) -> StatResult, organize: (S, Addition) -> (S, Option<string>), fs: S)
    requires OnlyTouchesEpisodes(stat, organize) && LinksEpisodes(stat, organize)
    ensures forall i, p :: 0 <= i < |feeds| && p in Joined(feeds[i], root, join, filePaths) ==>
      Dropped(stat(OrganizeAll(feeds, root, join, filePaths, stat, organize, fs).fs, p))
    decreases |feeds|
  {
    if feeds != [] {
      var f := feeds[0];
      var tail := feeds[1..];
      assert forall i :: 0 <= i < |tail| ==> tail[i] == feeds[i + 1];
      match SelectFiles(f, root, join, filePaths, View(stat, fs))
      case None =>
        RunLeavesEverythingDropped(tail, root, join, filePaths, stat, organize, fs);
      case Some(a) =>
        var fs' := organize(fs, a).0;
        RunLeavesEverythingDropped(tail, root, join, filePaths, stat, organize, fs');
        forall p | p in Joined(f, root, join, filePaths)
          ensures Dropped(stat(OrganizeAll(feeds, root, join, filePaths, stat, organize, fs).fs, p))
        {
          KeptExactlyWhenEligible(Joined(f, root, join, filePaths), View(stat, fs), p);
          assert Dropped(stat(fs', p));
          DroppedStaysDropped(tail, root, join, filePaths, stat, organize, fs', p);
        }
    }
  }

  /** When every path the feeds' filters consult is dropped, every feed that reaches the
      organizer is handed an empty episode list. */
  lemma {:induction false} NothingLeftToOrganize<M, S(!new)>(feeds: seq<Feed<M>>, root: string, join: (string, string) -> string, filePaths: Handle -> Result<seq<string>, string>, stat: (S, string) -> StatResult, organize: (S, Addition) -> (S, Option<string>), fs: S)
    requires OnlyTouchesEpisodes(stat, organize)
    requires forall i, p :: 0 <= i < |feeds| && p in Joined(feeds[i], root, join, filePaths) ==> Dropped(stat(fs, p))
    ensures forall k :: 0 <= k < |OrganizeAll(feeds, root, join, filePaths, stat, organize, fs).calls| ==>
      OrganizeAll(feeds, root, join, filePaths, stat, organize, fs).calls[k].addition.episodes == []
    decreases |feeds|
  {
    if feeds != [] {
      var f := feeds[0];
      var tail := feeds[1..];
      assert forall i :: 0 <= i < |tail| ==> tail[i] == feeds[i + 1];
      match SelectFiles(f, root, join, filePaths, View(stat, fs))
      case None =>
        NothingLeftToOrganize(tail, root, join, filePaths, stat, organize, fs);
      case Some(a) =>
        var joined := Joined(f, root, join, filePaths);
        assert forall i :: 0 <= i < |joined| ==> joined[i] in joined;
        AllDroppedLeavesNothing(joined, View(stat, fs));
        var fs' := organize(fs, a).0;
        assert forall p :: stat(fs', p) == stat(fs, p);
        NothingLeftToOrganize(tail, root, join, filePaths, stat, organize, fs');
    }
  }

  /** Re-running is idempotent: when the organizer links what it is handed and touches
      nothing else, a second run from the state the first one left hands every feed that
      reaches the organizer an empty episode list. */
  lemma RerunHandsOverNothing<M, S(!new)>(feeds: seq<Feed<M>>, root: string, join: (string, string) -> string, filePaths: Handle -> Result<seq<string>, string>, stat: (S, string) -> StatResult, organize: (S, Addition) -> (S, Option<string>), fs: S, fs': S)
    requires OnlyTouchesEpisodes(stat, organize) && LinksEpisodes(stat, organize)
    requires fs' == OrganizeAll(feeds, root, join, filePaths, stat, organize, fs).fs
    ensures forall k :: 0 <= k < |OrganizeAll(feeds, root, join, filePaths, stat, organize, fs').calls| ==>
      OrganizeAll(feeds, root, join, filePaths, stat, organize, fs').calls[k].addition.episodes == []
  {
    RunLeavesEverythingDropped(feeds, root, join, filePaths, stat, organize, fs);
    NothingLeftToOrganize(feeds, root, join, filePaths, stat, organize, fs');
  }

  /** Two ready feeds whose transfers both report "ep.mkv" (one file on disk, starting
      with one link): the first feed's call links it, so the second feed's filter drops
      it and the second feed is handed an empty list. */
  lemma SharedFileGoesToFirstFeedOnly()
    ensures OrganizeAll<int, nat>(
      [Feed("u1", "p", Some("d1"), 0, "l", Some(Handle(0))), Feed("u2", "p", Some("d2"), 0, "l", Some(Handle(1)))],
      "data", (a: string, b: string) => a + "/" + b, (h: Handle) => Ok(["ep.mkv"]),
      (n: nat, p: string) => Links(n), (n: nat, a: Addition) => (n + |a.episodes|, None), 1).calls
      == [Call(Addition("d1", ["data/ep.mkv"]), None), Call(Addition("d2", []), None)]
  {
    var feeds := [Feed("u1", "p", Some("d1"), 0, "l", Some(Handle(0))), Feed("u2", "p", Some("d2"), 0, "l", Some(Handle(1)))];
    var join := (a: string, b: string) => a + "/" + b;
    var filePaths: Handle -> Result<seq<string>, string> := (h: Handle) => Ok(["ep.mkv"]);
    var stat := (n: nat, p: string) => Links(n);
    var organize: (nat, Addition) -> (nat, Option<string>) := (n: nat, a: Addition) => (n + |a.episodes|, None);
    assert join("data", "ep.mkv") == "data/ep.mkv";
    assert ["ep.mkv"][1..] == [];
    assert JoinAll("data", ["ep.mkv"], join) == ["data/ep.mkv"];
    assert FilterEligible(["data/ep.mkv"], View(stat, 1)) == ["data/ep.mkv"];
    assert FilterEligible(["data/ep.mkv"], View(stat, 2)) == [];
    assert SelectFiles(feeds[0], "data", join, filePaths, View(stat, 1)) == Some(Addition("d1", ["data/ep.mkv"]));
    assert SelectFiles(feeds[1], "data", join, filePaths, View(stat, 2)) == Some(Addition("d2", []));
    assert feeds[1..][1..] == [];
  }

  /** Under one stat view, a failed `FilePaths` skips only its own feed: every other
      feed's call is the same whatever that handle reports. */
  lemma FilePathsFailureIsolated<M>(feeds: seq<Feed<M>>, root: string, join: (string, string) -> string, filePaths: Handle -> Result<seq<string>, string>, filePaths': Handle -> Result<seq<string>, string>, stat: string -> StatResult, x: int)
    requires 0 <= x < |feeds| && Ready(feeds[x])
    requires forall i :: 0 <= i < |feeds| && i != x && Ready(feeds[i]) ==>
      filePaths'(feeds[i].torr.value) == filePaths(feeds[i].torr.value)
    ensures Plan(feeds, root, join, filePaths', stat)[x].None? <==> filePaths'(feeds[x].torr.value).Err?
    ensures forall i :: 0 <= i < |feeds| && i != x ==>
      Plan(feeds, root, join, filePaths', stat)[i] == Plan(feeds, root, join, filePaths, stat)[i]
  {
  }

  /** The organizer is called even when no file is eligible: a ready feed whose files
      all have more than one link is handed an empty episode list. */
  lemma EmptyListStillHandedOver<M>(f: Feed<M>, root: string, join: (string, string) -> string, filePaths: Handle -> Result<seq<string>, string>, stat: string -> StatResult)
    requires Ready(f) && filePaths(f.torr.value).Ok?
    requires forall p :: p in JoinAll(root, filePaths(f.torr.value).value, join) ==> stat(p).Links? && stat(p).n > 1
    ensures SelectFiles(f, root, join, filePaths, stat) == Some(Addition(f.dstDir.value, []))
  {
    AllLinkedLeavesNothing(JoinAll(root, filePaths(f.torr.value).value, join), stat);
  }
}
