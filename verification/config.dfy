/** Reading and validating the configuration: the decoded JSON record is checked by an
    ordered, fail-fast list of rules, and every feed's pattern is compiled into a
    matcher. `M` is the type of compiled matchers, which belong to a library outside
    this model. */
module Config {
  import opened Results

  /** The errors that end a run: the four sentinels of `validate` ("data directory not
      found", "feeds not found", "URL cannot be empty", "pattern cannot be empty") and the
      errors of the libraries (JSON decoder, regular-expression compiler, feed parser). */
  datatype Error =
    | DataDirNotFound
    | FeedsNotFound
    | EmptyURL
    | EmptyPattern
    | Library(msg: string)

  /** A torrent handle of the download session, known only by its identity. */
  datatype Handle = Handle(id: nat)

  /** A feed as the JSON decoder produces it: only the exported fields. */
  datatype RawFeed = RawFeed(url: string, pattern: string, dstDir: Option<string>)

  /** The configuration as the JSON decoder produces it. */
  datatype RawConfig = RawConfig(dataDir: string, feeds: seq<RawFeed>)

  /** A validated feed: its JSON fields, the compiled matcher, the link chosen by the
      matching stage ("" until then) and the transfer handle (absent until dispatch). */
  datatype Feed<M> = Feed(
    url: string,
    pattern: string,
    dstDir: Option<string>,
    regexp: M,
    link: string,
    torr: Option<Handle>)

  /** A validated configuration. */
  datatype Config<M> = Config(dataDir: string, feeds: seq<Feed<M>>)

  /** The zero value `config{}` that `readConfig` returns with an error. */
  function ZeroConfig<M>(): Config<M> {
    Config("", [])
  }

  /** The abstract compiler: `regexp.Compile` applied to a pattern. */
  type Compiler<M> = string -> Result<M, string>

  /** The rules one feed must pass, in the order they are checked: URL, pattern,
      compilation. `None` means the feed passes. */
  function FeedError<M>(f: RawFeed, compile: Compiler<M>): Option<Error> {
    if f.url == "" then Some(EmptyURL)
    else if f.pattern == "" then Some(EmptyPattern)
    else match compile(f.pattern)
      case Err(msg) => Some(Library(msg))
      case Ok(_) => None
  }

  /** The feed that a passing raw feed becomes: same JSON fields, holding matcher `m`,
      with no link and no handle yet. */
  function WithMatcher<M>(f: RawFeed, m: M): Feed<M> {
    Feed(f.url, f.pattern, f.dstDir, m, "", None)
  }

  /** Feed `k` is the first feed, in list order, that breaks a rule. */
  ghost predicate FailsFirstAt<M>(feeds: seq<RawFeed>, compile: Compiler<M>, k: int) {
    && 0 <= k < |feeds|
    && FeedError(feeds[k], compile).Some?
    && forall j :: 0 <= j < k ==> FeedError(feeds[j], compile).None?
  }

  /** The per-feed loop of `validate`: checks and compiles the feeds in order and stops
      at the first one that breaks a rule. */
  function CompileFeeds<M>(feeds: seq<RawFeed>, compile: Compiler<M>): (r: Result<seq<Feed<M>>, Error>)
    ensures r.Ok? <==> forall i :: 0 <= i < |feeds| ==> FeedError(feeds[i], compile).None?
    ensures r.Ok? ==> |r.value| == |feeds|
    ensures r.Ok? ==> forall i :: 0 <= i < |feeds| ==>
      compile(feeds[i].pattern).Ok? && r.value[i] == WithMatcher(feeds[i], compile(feeds[i].pattern).value)
    decreases |feeds|
  {
    if feeds == [] then Ok([])
    else match FeedError(feeds[0], compile)
      case Some(e) => Err(e)
      case None =>
        match CompileFeeds(feeds[1..], compile)
        case Err(e) => Err(e)
        case Ok(rest) =>
          Ok([WithMatcher(feeds[0], compile(feeds[0].pattern).value)] + rest)
  }

  /** `config.validate`: the data directory, then the feed list, then each feed in order. */
  function Validate<M>(raw: RawConfig, compile: Compiler<M>): (r: Result<Config<M>, Error>)
    ensures raw.dataDir == "" ==> r == Err(DataDirNotFound)
    ensures raw.dataDir != "" && raw.feeds == [] ==> r == Err(FeedsNotFound)
    ensures r.Ok? <==>
      raw.dataDir != "" && raw.feeds != [] &&
      forall i :: 0 <= i < |raw.feeds| ==> FeedError(raw.feeds[i], compile).None?
    ensures r.Ok? ==> r.value.dataDir == raw.dataDir && |r.value.feeds| == |raw.feeds|
    ensures r.Ok? ==> forall i :: 0 <= i < |raw.feeds| ==>
      && compile(raw.feeds[i].pattern).Ok?
      && r.value.feeds[i].regexp == compile(raw.feeds[i].pattern).value
      && r.value.feeds[i].url == raw.feeds[i].url
      && r.value.feeds[i].pattern == raw.feeds[i].pattern
      && r.value.feeds[i].dstDir == raw.feeds[i].dstDir
      && r.value.feeds[i].link == ""
      && r.value.feeds[i].torr.None?
  {
    if raw.dataDir == "" then Err(DataDirNotFound)
    else if |raw.feeds| == 0 then Err(FeedsNotFound)
    else match CompileFeeds(raw.feeds, compile)
      case Err(e) => Err(e)
      case Ok(fs) => Ok(Config(raw.dataDir, fs))
  }

  /** `readConfig`: decode, then validate; on any error the zero configuration is
      returned together with the error. */
  function ReadConfig<M>(decoded: Result<RawConfig, string>, compile: Compiler<M>): (r: (Config<M>, Option<Error>))
    ensures r.1.Some? ==> r.0 == ZeroConfig()
    ensures decoded.Err? ==> r.1 == Some(Library(decoded.error))
    ensures decoded.Ok? && Validate<M>(decoded.value, compile).Err? ==>
      r.1 == Some(Validate<M>(decoded.value, compile).error)
    ensures r.1.None? <==> decoded.Ok? && Validate<M>(decoded.value, compile).Ok?
    ensures r.1.None? ==> r.0 == Validate<M>(decoded.value, compile).value
  {
    match decoded
    case Err(msg) => (ZeroConfig(), Some(Library(msg)))
    case Ok(raw) =>
      match Validate<M>(raw, compile)
      case Err(e) => (ZeroConfig(), Some(e))
      case Ok(c) => (c, None)
  }

  /** Validation reports the error of the first failing feed. */
  lemma {:induction false} CompileFeedsFirstFailure<M>(feeds: seq<RawFeed>, compile: Compiler<M>, k: int)
    requires FailsFirstAt(feeds, compile, k)
    ensures CompileFeeds<M>(feeds, compile) == Err(FeedError(feeds[k], compile).value)
    decreases k
  {
    if k > 0 {
      assert FeedError(feeds[0], compile).None?;
      assert FailsFirstAt(feeds[1..], compile, k - 1) by {
        forall j | 0 <= j < k - 1
          ensures FeedError(feeds[1..][j], compile).None?
        {
          assert feeds[1..][j] == feeds[j + 1];
        }
      }
      CompileFeedsFirstFailure<M>(feeds[1..], compile, k - 1);
    }
  }

  /** Some feed breaks a rule exactly when a first such feed exists. */
  lemma FirstFailureExists<M>(feeds: seq<RawFeed>, compile: Compiler<M>) returns (k: int)
    requires exists i :: 0 <= i < |feeds| && FeedError(feeds[i], compile).Some?
    ensures FailsFirstAt(feeds, compile, k)
  {
    var i :| 0 <= i < |feeds| && FeedError(feeds[i], compile).Some?;
    k := 0;
    while FeedError(feeds[k], compile).None?
      invariant 0 <= k <= i
      invariant forall j :: 0 <= j < k ==> FeedError(feeds[j], compile).None?
      decreases i - k
    {
      k := k + 1;
    }
  }

  /** With a non-empty data directory and feed list, the error is that of the first
      feed in list order that breaks a rule, URL before pattern before compilation. */
  lemma ValidateFirstFailure<M>(raw: RawConfig, compile: Compiler<M>, k: int)
    requires raw.dataDir != ""
    requires FailsFirstAt(raw.feeds, compile, k)
    ensures Validate<M>(raw, compile) == Err(FeedError(raw.feeds[k], compile).value)
  {
    CompileFeedsFirstFailure<M>(raw.feeds, compile, k);
  }

  /** Feeds after the first failing one are never compiled: any compiler that agrees on
      the patterns up to and including that feed gives the same result. */
  lemma ValidateIgnoresLaterFeeds<M>(raw: RawConfig, compile: Compiler<M>, compile': Compiler<M>, k: int)
    requires raw.dataDir != ""
    requires FailsFirstAt(raw.feeds, compile, k)
    requires forall j :: 0 <= j <= k ==> compile'(raw.feeds[j].pattern) == compile(raw.feeds[j].pattern)
    ensures Validate<M>(raw, compile') == Validate<M>(raw, compile)
  {
    assert forall j :: 0 <= j <= k ==> FeedError(raw.feeds[j], compile') == FeedError(raw.feeds[j], compile);
    ValidateFirstFailure<M>(raw, compile, k);
    ValidateFirstFailure<M>(raw, compile', k);
  }

  /** The destination directory is never checked: configurations that differ only in
      their feeds' destination directories validate to the same outcome and error. */
  lemma ValidateIgnoresDstDir<M>(raw: RawConfig, raw': RawConfig, compile: Compiler<M>)
    requires raw'.dataDir == raw.dataDir && |raw'.feeds| == |raw.feeds|
    requires forall i :: 0 <= i < |raw.feeds| ==>
      raw'.feeds[i].url == raw.feeds[i].url && raw'.feeds[i].pattern == raw.feeds[i].pattern
    ensures Validate<M>(raw', compile).Ok? == Validate<M>(raw, compile).Ok?
    ensures Validate<M>(raw, compile).Err? ==>
      Validate<M>(raw', compile) == Validate<M>(raw, compile)
  {
    assert forall i :: 0 <= i < |raw.feeds| ==> FeedError(raw'.feeds[i], compile) == FeedError(raw.feeds[i], compile);
    if raw.dataDir != "" && raw.feeds != [] && Validate<M>(raw, compile).Err? {
      var k := FirstFailureExists(raw.feeds, compile);
      assert FailsFirstAt(raw'.feeds, compile, k);
      ValidateFirstFailure<M>(raw, compile, k);
      ValidateFirstFailure<M>(raw', compile, k);
    }
  }
}
