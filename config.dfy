/** The link checker's configuration value (`struct Config`): its defaults,
    the exclusion query used by the checker, the hand-written equality, and
    the derived serialisation of the whole struct at the level of its fields. */
module LinkConfig {
  import opened Wrappers
  import opened Pattern
  import opened RegexSerde

  /** Rust's `u64`. */
  type u64 = x: int | 0 <= x < 0x1_0000_0000_0000_0000

  /** The configuration options of the link checker. */
  datatype Config = Config(
    followWebLinks: bool,
    traverseParentDirectories: bool,
    exclude: seq<Regex>,
    userAgent: string,
    cacheTimeout: u64)

  /** `Config::DEFAULT_CACHE_TIMEOUT`, in seconds: twelve hours. */
  const DEFAULT_CACHE_TIMEOUT_SECS: u64 := 60 * 60 * 12

  /** The build's package name and version, fixed when the tool is built and
      left opaque here. */
  const CARGO_PKG_NAME: string
  const CARGO_PKG_VERSION: string

  /** `Config::DEFAULT_USER_AGENT`: "<name>-<version>". */
  const DEFAULT_USER_AGENT: string := CARGO_PKG_NAME + "-" + CARGO_PKG_VERSION

  /** The per-field fallback used when `cache-timeout` is absent. */
  function DefaultCacheTimeout(): (t: u64)
    ensures t == 43200
  {
    DEFAULT_CACHE_TIMEOUT_SECS
  }

  /** The per-field fallback used when `user-agent` is absent. */
  function DefaultUserAgent(): (ua: string)
    ensures ua == CARGO_PKG_NAME + "-" + CARGO_PKG_VERSION
  {
    DEFAULT_USER_AGENT
  }

  /** `Default::default`: web links are not followed, parent directories may
      not be traversed, nothing is excluded, the user agent is the build's
      "<name>-<version>" and cached results stay valid for twelve hours. */
  function Default(): (c: Config)
    ensures !c.followWebLinks && !c.traverseParentDirectories
    ensures c.exclude == []
    ensures c.userAgent == CARGO_PKG_NAME + "-" + CARGO_PKG_VERSION
    ensures c.cacheTimeout == 43200
  {
    Config(
      followWebLinks := false,
      traverseParentDirectories := false,
      exclude := [],
      userAgent := DefaultUserAgent(),
      cacheTimeout := DEFAULT_CACHE_TIMEOUT_SECS)
  }

  /** The serde fallbacks of the two fields that have one agree with
      `Default::default`, so both ways of defaulting give the same values. */
  lemma FallbacksAgreeWithDefault()
    ensures DefaultCacheTimeout() == Default().cacheTimeout == 60 * 60 * 12
    ensures DefaultUserAgent() == Default().userAgent == DEFAULT_USER_AGENT
  {
  }

  /** A configuration as it exists in memory: every exclusion pattern was
      compiled successfully. */
  predicate WellFormed(engine: Engine, c: Config) {
    AllCompiled(engine, c.exclude)
  }

  /** `Iterator::any` over the patterns: does some pattern match `link`? */
  function AnyMatches(engine: Engine, patterns: seq<Regex>, link: string): (found: bool)
    ensures found <==> exists i | 0 <= i < |patterns| :: IsMatch(engine, patterns[i], link)
  {
    if patterns == [] then false
    else if IsMatch(engine, patterns[0], link) then true
    else
      var found := AnyMatches(engine, patterns[1..], link);
      assert found ==> exists i | 0 <= i < |patterns| :: IsMatch(engine, patterns[i], link) by {
        if found {
          var j :| 0 <= j < |patterns| - 1 && IsMatch(engine, patterns[1..][j], link);
          assert IsMatch(engine, patterns[j + 1], link);
        }
      }
      found
  }

  /** `Config::should_skip`: a link is skipped when some exclusion pattern
      matches it. */
  function ShouldSkip(engine: Engine, c: Config, link: string): (skip: bool)
    ensures skip <==> exists i | 0 <= i < |c.exclude| :: IsMatch(engine, c.exclude[i], link)
  {
    AnyMatches(engine, c.exclude, link)
  }

  /** With no exclusion patterns (as in the default configuration) nothing is
      skipped. */
  lemma NothingSkippedWithoutPatterns(engine: Engine, c: Config, link: string)
    requires c.exclude == []
    ensures !ShouldSkip(engine, c, link)
  {
  }

  /** Whether a link is skipped does not depend on the order of the patterns,
      nor on how often each occurs: only on which patterns there are. */
  lemma ShouldSkipOrderIndependent(engine: Engine, a: Config, b: Config, link: string)
    requires forall re :: re in a.exclude <==> re in b.exclude
    ensures ShouldSkip(engine, a, link) == ShouldSkip(engine, b, link)
  {
    if ShouldSkip(engine, a, link) {
      var i :| 0 <= i < |a.exclude| && IsMatch(engine, a.exclude[i], link);
      assert a.exclude[i] in b.exclude;
    }
    if ShouldSkip(engine, b, link) {
      var i :| 0 <= i < |b.exclude| && IsMatch(engine, b.exclude[i], link);
      assert b.exclude[i] in a.exclude;
    }
  }

  /** `iter().zip(..).all(..)` comparing source texts: pairs up the two lists
      front to back, as far as the shorter one goes. */
  function SameSources(xs: seq<Regex>, ys: seq<Regex>): (same: bool)
    ensures same <==> forall i | 0 <= i < |xs| && i < |ys| :: xs[i].source == ys[i].source
  {
    if xs == [] || ys == [] then true
    else
      var same := xs[0].source == ys[0].source && SameSources(xs[1..], ys[1..]);
      assert (forall i | 0 <= i < |xs| && i < |ys| :: xs[i].source == ys[i].source) ==> same by {
        if forall i | 0 <= i < |xs| && i < |ys| :: xs[i].source == ys[i].source {
          forall i | 0 <= i < |xs| - 1 && i < |ys| - 1
            ensures xs[1..][i].source == ys[1..][i].source
          {
            assert xs[i + 1].source == ys[i + 1].source;
          }
        }
      }
      same
  }

  /** The hand-written `PartialEq::eq`: two configurations are equal exactly
      when their four scalar fields are equal and their pattern lists have the
      same length and the same source text at every position. */
  function ConfigEq(a: Config, b: Config): (eq: bool)
    ensures eq <==>
      && a.followWebLinks == b.followWebLinks
      && a.traverseParentDirectories == b.traverseParentDirectories
      && a.userAgent == b.userAgent
      && a.cacheTimeout == b.cacheTimeout
      && |a.exclude| == |b.exclude|
      && forall i | 0 <= i < |a.exclude| :: a.exclude[i].source == b.exclude[i].source
  {
    && a.followWebLinks == b.followWebLinks
    && a.traverseParentDirectories == b.traverseParentDirectories
    && |a.exclude| == |b.exclude|
    && a.userAgent == b.userAgent
    && a.cacheTimeout == b.cacheTimeout
    && SameSources(a.exclude, b.exclude)
  }

  /** In the model a pattern is its source text, so equality by source text
      is plain value equality. */
  lemma ConfigEqIsValueEquality(a: Config, b: Config)
    ensures ConfigEq(a, b) <==> a == b
  {
  }

  /** `eq` is an equivalence relation. */
  lemma ConfigEqIsEquivalence(a: Config, b: Config, c: Config)
    ensures ConfigEq(a, a)
    ensures ConfigEq(a, b) ==> ConfigEq(b, a)
    ensures ConfigEq(a, b) && ConfigEq(b, c) ==> ConfigEq(a, c)
  {
  }

  /** Equal configurations skip the same links. */
  lemma ConfigEqSkipsAlike(engine: Engine, a: Config, b: Config, link: string)
    requires ConfigEq(a, b)
    ensures ShouldSkip(engine, a, link) == ShouldSkip(engine, b, link)
  {
  }

  /** Pattern order matters to equality although it does not matter to
      `should_skip`: swapping the patterns at two positions whose source texts
      differ gives a configuration that skips the same links but is not equal. */
  lemma PatternOrderMatters(engine: Engine, a: Config, i: nat, j: nat, link: string)
    requires i < |a.exclude| && j < |a.exclude|
    requires a.exclude[i].source != a.exclude[j].source
    ensures var b := a.(exclude := a.exclude[i := a.exclude[j]][j := a.exclude[i]]);
      && !ConfigEq(a, b)
      && ShouldSkip(engine, a, link) == ShouldSkip(engine, b, link)
  {
  }

  /** The configuration document, field by field, as the TOML table holds it
      under the kebab-case keys `follow-web-links`, `traverse-parent-directories`,
      `exclude`, `user-agent` and `cache-timeout`; `None` is an absent key. */
  datatype Document = Document(
    followWebLinks: Option<bool>,
    traverseParentDirectories: Option<bool>,
    exclude: Option<seq<string>>,
    userAgent: Option<string>,
    cacheTimeout: Option<u64>)

  /** Every key of the document is present. */
  predicate Explicit(doc: Document) {
    && doc.followWebLinks.Some?
    && doc.traverseParentDirectories.Some?
    && doc.exclude.Some?
    && doc.userAgent.Some?
    && doc.cacheTimeout.Some?
  }

  /** The derived `Deserialize`: absent keys take the struct default (or the
      field's own fallback, for `user-agent` and `cache-timeout`), and the
      `exclude` strings go through the pattern codec. Loading fails exactly
      when a present `exclude` list holds a string that does not compile, and
      then reports the first such string; otherwise every field holds the
      document's value when the key is present and the default when not, and
      every pattern is compiled. */
  function DeserializeConfig(engine: Engine, doc: Document): (r: Result<Config, ConfigError>)
    ensures r.Ok? <==> (doc.exclude.Some? ==> AllValid(engine, doc.exclude.value))
    ensures r.Err? ==> (&& doc.exclude.Some?
                        && exists k :: && IsFirstInvalid(engine, doc.exclude.value, k)
                                       && r.error == InvalidExcludePattern(doc.exclude.value[k]))
    ensures r.Ok? ==> WellFormed(engine, r.value)
    ensures r.Ok? ==> Sources(r.value.exclude) == doc.exclude.GetOr([])
    ensures r.Ok? ==> r.value.followWebLinks == doc.followWebLinks.GetOr(false)
    ensures r.Ok? ==> r.value.traverseParentDirectories == doc.traverseParentDirectories.GetOr(false)
    ensures r.Ok? ==> r.value.userAgent == doc.userAgent.GetOr(DEFAULT_USER_AGENT)
    ensures r.Ok? ==> r.value.cacheTimeout == doc.cacheTimeout.GetOr(43200)
  {
    var defaults := Default();
    var exclude := if doc.exclude.Some? then CompileAll(engine, doc.exclude.value) else Ok(defaults.exclude);
    match exclude
    case Err(e) => Err(e)
    case Ok(patterns) =>
      Ok(Config(
        followWebLinks := doc.followWebLinks.GetOr(defaults.followWebLinks),
        traverseParentDirectories := doc.traverseParentDirectories.GetOr(defaults.traverseParentDirectories),
        exclude := patterns,
        userAgent := doc.userAgent.GetOr(DefaultUserAgent()),
        cacheTimeout := doc.cacheTimeout.GetOr(DefaultCacheTimeout())))
  }

  /** The derived `Serialize`: every key is written, each scalar with its
      field's value and `exclude` as the source texts of its patterns, in
      order. */
  function SerializeConfig(c: Config): (doc: Document)
    ensures Explicit(doc)
    ensures doc.followWebLinks == Some(c.followWebLinks)
    ensures doc.traverseParentDirectories == Some(c.traverseParentDirectories)
    ensures doc.userAgent == Some(c.userAgent) && doc.cacheTimeout == Some(c.cacheTimeout)
    ensures |doc.exclude.value| == |c.exclude|
    ensures forall i | 0 <= i < |c.exclude| :: doc.exclude.value[i] == c.exclude[i].source
  {
    Document(
      followWebLinks := Some(c.followWebLinks),
      traverseParentDirectories := Some(c.traverseParentDirectories),
      exclude := Some(Sources(c.exclude)),
      userAgent := Some(c.userAgent),
      cacheTimeout := Some(c.cacheTimeout))
  }

  /** The document with every absent key written out with its default. */
  function WithDefaults(doc: Document): (full: Document)
    ensures Explicit(full)
    ensures Explicit(doc) ==> full == doc
  {
    Document(
      followWebLinks := Some(doc.followWebLinks.GetOr(false)),
      traverseParentDirectories := Some(doc.traverseParentDirectories.GetOr(false)),
      exclude := Some(doc.exclude.GetOr([])),
      userAgent := Some(doc.userAgent.GetOr(DEFAULT_USER_AGENT)),
      cacheTimeout := Some(doc.cacheTimeout.GetOr(43200)))
  }

  /** An empty document loads as the default configuration. */
  lemma EmptyDocumentIsDefault(engine: Engine)
    ensures DeserializeConfig(engine, Document(None, None, None, None, None)) == Ok(Default())
  {
  }

  /** Round trip, configuration first: serialising a configuration and loading
      the result succeeds and gives a configuration equal to the original
      (indeed the very same value). */
  lemma SerializeThenDeserialize(engine: Engine, c: Config)
    requires WellFormed(engine, c)
    ensures DeserializeConfig(engine, SerializeConfig(c)) == Ok(c)
    ensures ConfigEq(DeserializeConfig(engine, SerializeConfig(c)).value, c)
  {
    DecodeEncode(engine, c.exclude);
    ConfigEqIsValueEquality(c, c);
  }

  /** Round trip, document first: a configuration loaded from a document
      serialises back to that document with its absent keys filled in by their
      defaults, hence to the document itself when every key was present. */
  lemma DeserializeThenSerialize(engine: Engine, doc: Document, c: Config)
    requires DeserializeConfig(engine, doc) == Ok(c)
    ensures SerializeConfig(c) == WithDefaults(doc)
    ensures Explicit(doc) ==> SerializeConfig(c) == doc
  {
  }
}
