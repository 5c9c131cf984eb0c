/** The configuration's unit tests, restated as lemmas over any regular
    expression engine that accepts the pattern they use. */
module ConfigTests {
  import opened Wrappers
  import opened Pattern
  import opened RegexSerde
  import opened LinkConfig

  /** The one exclusion pattern of the test document: `google\.com`. */
  const GooglePattern: string := @"google\.com"

  /** The test document, field by field:
      follow-web-links = true, traverse-parent-directories = true,
      exclude = ["google\\.com"], user-agent = "Internet Explorer",
      cache-timeout = 3600. */
  function TestDocument(): (doc: Document)
    ensures Explicit(doc)
  {
    Document(
      followWebLinks := Some(true),
      traverseParentDirectories := Some(true),
      exclude := Some([GooglePattern]),
      userAgent := Some("Internet Explorer"),
      cacheTimeout := Some(3600))
  }

  /** `deserialize_a_config`: loading the test document gives a configuration
      equal to the one built directly from the same values and
      `Regex::new(r"google\.com")`. */
  lemma DeserializeAConfig(engine: Engine)
    requires engine.valid(GooglePattern)
    ensures Compile(engine, GooglePattern).Some?
    ensures DeserializeConfig(engine, TestDocument()).Ok?
    ensures ConfigEq(
      DeserializeConfig(engine, TestDocument()).value,
      Config(
        followWebLinks := true,
        traverseParentDirectories := true,
        exclude := [Compile(engine, GooglePattern).value],
        userAgent := "Internet Explorer",
        cacheTimeout := 3600))
  {
  }

  /** `round_trip_config`: reserialising the loaded test document writes back
      the test document. */
  lemma RoundTripConfig(engine: Engine)
    requires engine.valid(GooglePattern)
    ensures DeserializeConfig(engine, TestDocument()).Ok?
    ensures SerializeConfig(DeserializeConfig(engine, TestDocument()).value) == TestDocument()
  {
  }

  /** A pattern that does not compile makes the whole load fail, naming it,
      even when it follows one that compiles. */
  lemma InvalidPatternRejected(engine: Engine)
    requires engine.valid(GooglePattern) && !engine.valid("(")
    ensures DeserializeConfig(engine, TestDocument().(exclude := Some(["("]))) == Err(InvalidExcludePattern("("))
    ensures DeserializeConfig(engine, TestDocument().(exclude := Some([GooglePattern, "("]))) == Err(InvalidExcludePattern("("))
  {
  }

  /** With `exclude = ["google\\.com"]`, a link is skipped exactly when the
      engine finds the pattern in it. */
  lemma SkipsLinksMatchingTheTestPattern(engine: Engine, c: Config, link: string)
    requires c.exclude == [Regex(GooglePattern)]
    ensures ShouldSkip(engine, c, link) == engine.matches(GooglePattern, link)
  {
  }
}
