# mooch, modelled in Dafny

mooch is a batch job. It reads a list of RSS feed subscriptions. For each feed it
picks the first item whose title matches the feed's regular expression and adds that
item's link to a rain torrent session. It waits for the session's torrents to
complete. Then, for every feed with a destination directory, it hands the completed
files that are not already hard-linked elsewhere to the epify media organizer.

This project models the decision logic of `main.go`, stage by stage. It states and
proves the properties of each stage over abstract inputs.

- `Config` (`config.dfy`) models `readConfig` and `config.validate`. The rules run in
  a fixed order and stop at the first failure: data directory, feed list, then for
  each feed its URL, its pattern, and whether the pattern compiles.
- `Matching` (`matching.dfy`) models the match loop. It keeps the link of the first
  matching item of each feed. A failed fetch ends the run.
- `Dispatching` (`dispatch.dfy`) models the `AddURI` loop. Every feed is submitted,
  and a failure leaves that feed without a handle.
- `Selection` (`selection.dfy`) models the stat rule and the `slices.DeleteFunc`
  hard-link filter.
- `Organize` (`organize.dfy`) models the organizing loop: the skip rule, the
  `FilePaths` query, the filter and the hand-off to `media.AddEpisodes`, one feed after
  the other. The organizer hard-links files, so each feed's filter sees the file-system
  state the earlier feeds' organizer calls left behind.
- `Pipeline` (`pipeline.dfy`) puts the stages together: configuration, matching,
  dispatch, then the organizing loop.
- `Results` (`results.dfy`) holds `Option` and `Result`.

The libraries are parameters of the model:

- `compile` stands for `regexp.Compile`.
- `matches` stands for `MatchString`.
- `join` stands for `filepath.Join`.
- `filePaths` stands for `Torrent.FilePaths`.
- `submit(i, link)` stands for the session's `AddURI` answer for the `i`-th feed.
- `stat(fs, p)` stands for `os.Stat` followed by the `Sys()` inspection, in the
  file-system state `fs`. It gives a four-way `StatResult`: stat error, no system
  information, information that is not a `Stat_t`, or a link count.
- `organize(fs, a)` stands for `media.AddEpisodes`. It gives the file-system state
  after the call and the error, if any.

Some library calls can give different answers for the same argument. The fetched
feeds (`gofeed` `ParseURL`) are therefore an input: a sequence with one entry per
configured feed. For the same reason the session's answer is indexed by the feed's
position as well as by the link. The JSON decoder's output is
an input `Result<RawConfig, string>`. `RawFeed` has only the JSON fields, so every
feed starts with link `""` and no handle, as in the program.

The link count `Nlink` is an unsigned machine integer in Go, and the model uses `nat`
for it. The count is only compared with 1, so no wrap-around can arise.

Three behaviours of the code are easy to misread:

- Every feed is submitted to the session, including a feed whose link is still
  `""` because nothing matched (`main.go:88-93`). `UnmatchedFeedSubmitsEmptyLink`
  shows this. `EmptyLinkKeepsAcceptedHandle` shows that such a feed holds a handle
  whenever the session accepts the empty link. `HandleImpliesLinkWhenEmptyRejected`
  shows that "a handle implies a link" holds when the session rejects it.
- The organizer is called even when no file is eligible (`main.go:124-127` has no
  emptiness check). `EmptyListStillHandedOver` states this.
- The skip rule tests the handle, not the link (`main.go:98`).

## Model

| member | source | states |
|---|---|---|
| Config.CompileFeeds | main.go:170-182 | The per-feed loop succeeds exactly when every feed passes its URL, pattern and compile rules. On success each feed holds the matcher compiled from its own pattern, with its JSON fields unchanged, no link and no handle. |
| Config.Validate | main.go:163-184 | An empty data directory always gives `errDataDir`, whatever the feeds hold. A non-empty data directory with no feeds gives `errFeeds`. Success happens exactly when both are present and every feed passes. It keeps `DataDir`, URL, pattern and `DstDir`, and stores each feed's compiled matcher. |
| Config.ReadConfig | main.go:145-154 | Any error, from decoding or from validation, returns the zero config together with that error. Success returns the validated config. |
| Config.CompileFeedsFirstFailure | main.go:170-181 | The loop fails with the error of the first feed, in list order, that breaks a rule. |
| Config.ValidateFirstFailure | main.go:163-181 | With a data directory present, validation reports the first failing feed's error. For that feed, an empty URL is reported before an empty pattern, and an empty pattern before a compile error. |
| Config.ValidateIgnoresLaterFeeds | main.go:170-181 | Feeds after the first failing one are never compiled. Any compiler that agrees on the earlier patterns gives the same result. |
| Config.ValidateIgnoresDstDir | main.go:163-184 | `DstDir` is never checked. Configurations that differ only in destination directories validate to the same outcome and the same error. |
| Matching.FirstMatch | main.go:71-77 | Gives the index of an item whose title matches, with no earlier title matching. Gives none exactly when no title matches. |
| Matching.MatchFeed | main.go:71-77 | The feed's link becomes the link of the first matching item. With no match the feed is unchanged, so its link stays `""`. No other field changes. |
| Matching.MatchFeeds | main.go:65-78 | The stage succeeds exactly when every fetch succeeds. Each feed is then matched against its own items only. |
| Matching.MatchFeedsFirstFailure | main.go:65-70 | A failed fetch ends the stage with the error of the first fetch that failed. |
| Matching.MatchFeedsStopsAtFailure | main.go:65-70 | No feed after the first failed fetch is processed. Changing later fetch results changes nothing. |
| Matching.FirstMatchStable | main.go:71-76 | First match wins. Once an item matches, appended items cannot change the selection. |
| Matching.FirstEpisodeChosen | main.go:71-77 | Given "Show S01E01", "Show S01E02", "Other" and a matcher that accepts episode titles, the first episode's link is chosen. |
| Dispatching.Submissions | main.go:88-89 | One submission per feed, in feed order, with the feed's link, even when that link is `""`. |
| Dispatching.Dispatch | main.go:88-93 | Feed `i` holds a handle exactly when the session accepted its submission, `Submissions(feeds)[i]`, and then holds the handle the session gave. Nothing else in any feed changes. |
| Dispatching.DispatchIsolated | main.go:88-93 | Changing the session's answer for one feed changes no other feed. |
| Dispatching.EmptyLinkKeepsAcceptedHandle | main.go:88-93 | A feed whose link is `""` still gets a handle when the session accepts the empty link. Its link stays `""`. |
| Dispatching.HandleImpliesLinkWhenEmptyRejected | main.go:88-93 | When the session rejects the empty link, every feed holding a handle has a non-empty link. |
| Selection.JoinAll | main.go:106-108 | Each path is placed under the session data directory, keeping its position. |
| Selection.FilterEligible | main.go:109-123 | The result is an order-preserving subsequence of the input. It keeps every occurrence of an eligible file and none of an ineligible one. Eligible means the stat succeeded and either no `Stat_t` is available or `Nlink <= 1`. |
| Selection.KeptExactlyWhenEligible | main.go:109-123 | A path is kept exactly when it is in the input and eligible. |
| Selection.FilterIdempotent | main.go:109-123 | Filtering the filtered list under the same stat results changes nothing. |
| Selection.AllDroppedLeavesNothing | main.go:109-123 | When every path is dropped, the result is empty. |
| Selection.AllLinkedLeavesNothing | main.go:118-122 | When every file has more than one link, the result is empty. |
| Selection.FilterSeesOnlyItsPaths | main.go:109-123 | The result depends only on the stat results of the listed paths. |
| Selection.SecondPassEmpty | main.go:109-123 | Suppose every file kept by one pass has since gained a second link, and nothing else changed. Then a second pass keeps nothing. |
| Selection.FilterExample | main.go:109-123 | a (1 link), b (2 links), c (stat fails) gives exactly [a]. |
| Organize.SelectFiles | main.go:97-124 | A feed gets an organizer call exactly when it has a `DstDir`, a handle, and file paths without error. The call targets `DstDir`. Its episodes are the eligible joined paths, in order, with every occurrence of each. |
| Organize.Plan | main.go:97-124 | The reference selection: every feed's call under one set of stat results, each call depending only on its own feed. |
| Organize.OrganizeAll | main.go:97-128 | The loop hands over, in feed order, one call for each feed that has a `DstDir`, a handle and file paths, whatever errors earlier calls reported. Each call targets its `DstDir` and carries a subsequence of its own joined paths. |
| Organize.SelectFilesSeesOnlyItsPaths | main.go:97-123 | A feed's selection depends only on the stat results of its own joined paths. |
| Organize.EpisodesAreJoined | main.go:106-124 | Every episode handed over is one of the feed's joined paths. |
| Organize.OrganizeAllWithoutSharedFiles | main.go:97-128 | Suppose no two feeds share a file and the organizer changes only the files it is handed. Then the loop makes exactly the reference calls taken under the state at its start. |
| Organize.SharedFileGoesToFirstFeedOnly | main.go:97-128 | Two ready feeds both report "ep.mkv", which starts with one link. The first feed is handed it, and the second feed is handed an empty list. |
| Organize.DroppedStaysDropped | main.go:109-125 | A file the filter drops is never handed over, so an organizer that changes only the files it is handed leaves it dropped. |
| Organize.RunLeavesEverythingDropped | main.go:97-128 | Suppose the organizer links every file it is handed and changes nothing else. Then after the loop every path any feed's filter consulted is dropped. |
| Organize.NothingLeftToOrganize | main.go:97-128 | When every path the filters consult is dropped, every call carries an empty episode list. |
| Organize.RerunHandsOverNothing | main.go:97-128 | Under the same organizer assumptions, a second loop from the state the first left hands every feed an empty list. |
| Organize.FilePathsFailureIsolated | main.go:101-105 | Under one set of stat results, a `FilePaths` error skips only its own feed. Every other feed's call is unchanged. |
| Organize.EmptyListStillHandedOver | main.go:109-125 | A ready feed whose files all have more than one link is still handed to the organizer, with an empty episode list. |
| Pipeline.Matched | main.go:60-78 | A configuration error ends the run with that error. Otherwise the run gets past matching exactly when every fetch succeeds. |
| Pipeline.Dispatched | main.go:79-93 | After dispatch, feed `i` holds a handle exactly when the session accepted its matched link. It is otherwise the matched feed. |
| Pipeline.Planned | main.go:94-124 | Under the state at the start of organizing, a feed gets a call exactly when its decoded `dst_dir` is set, its submission succeeded, and that handle's file paths were obtained. The call targets that `dst_dir` and carries the eligible paths under the session data directory. |
| Pipeline.Run | main.go:48-128 | The run fails exactly when reading the configuration or matching fails, and then with that error. Otherwise every feed that reaches the organizer gets one call, in order, for its `DstDir`, with a subsequence of its joined paths. |
| Pipeline.RunStopsAtFirstFetchFailure | main.go:65-70 | The run fails with the error of the first failed fetch. |
| Pipeline.UnmatchedFeedSubmitsEmptyLink | main.go:71-89 | A feed with no matching item keeps link `""`. `""` is still submitted for it, and the feed holds whatever handle the session gives for it. |
| Pipeline.DispatchFailureIsolated | main.go:88-124 | Under the state at the start of organizing, a dispatch failure for one feed does not change any other feed's organizer call. |
| Pipeline.RunWithoutSharedFiles | main.go:94-128 | Suppose no two feeds share a file and the organizer changes only the files it is handed. Then the run's calls are exactly the reference calls. |
| Pipeline.StateOnlyMattersForOrganizing | main.go:60-93 | The file-system state plays no part in configuration, matching or dispatch. |
| Pipeline.SecondRunOrganizesNothing | main.go:48-128 | Suppose the organizer links every file it is handed and changes nothing else. Then a second run with the same inputs, from the state the first run left, hands every feed an empty episode list. |

## Left out

- JSON decoding (`main.go:147`) and locating and opening the configuration file (`main.go:51-59`). These are library I/O. The model starts from the decoder's output.
- Regular-expression compilation and matching semantics (`main.go:72`, `main.go:178`). These are foreign code. They are the parameters `compile` and `matches`.
- RSS fetching and parsing (`main.go:64-67`). This is network access and a foreign parser. The fetch results are an input.
- Setting up the rain session (`main.go:79-87`). Its error is fatal in the program. The model assumes the setup succeeded.
- The completion barrier (`main.go:94-96`). It is channel blocking over every torrent in the persisted session, not only this run's torrents. The model assumes it has returned.
- `os.Stat` and `syscall.Stat_t` (`main.go:110-122`). These are platform file-system access. They are the four-way `StatResult` of an abstract file-system state.
- `filepath.Join` path cleaning (`main.go:107`). It is the opaque `join`.
- The internals of `media.AddEpisodes` (`main.go:124-125`). It is the opaque `organize`, which gives a new file-system state and an error. The error is only logged. The rerun theorems assume that it links every file it is handed and changes no other file's stat result.
- Organize.Plan: it selects every feed under the stat results at the start of organizing. The program filters each feed after the earlier feeds' organizer calls. `OrganizeAll` and `Run` model that order. The two agree when no two feeds share a file (`OrganizeAllWithoutSharedFiles`, `RunWithoutSharedFiles`).
- Organize.FilePathsFailureIsolated: it is stated for the reference selection under one set of stat results. Through a shared file, a skipped feed can change what a later feed is handed in the program.
- Pipeline.DispatchFailureIsolated: it is stated for `Planned`, under the state at the start of organizing. Through a shared file, a feed without a handle can change what a later feed is handed in the program.
- Pipeline.Planned: like `Organize.Plan`, it is the reference selection under the state at the start of organizing, not the calls the program makes.
- Organize.OrganizeAll and Pipeline.Run: their contracts say which feeds are handed over, for which directory, and that each list is a subsequence of the feed's joined paths. Which paths are kept depends on the state earlier calls left. That is stated exactly only when no files are shared, and for the shared-file example.
- Logging and exit codes. `log.Fatal` becomes an `Err` result of the run. `log.Print` is dropped.
