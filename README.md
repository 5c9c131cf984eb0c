# mdbook-linkcheck configuration, modelled in Dafny

This project models the configuration value of the mdbook-linkcheck
backend (`Config` in `src/config.rs`). It covers:

- its options and their defaults;
- `should_skip`, the exclusion query the link checker asks of every link;
- the hand-written equality;
- the custom `regex_serde` codec, which writes each compiled exclusion
  pattern as its source text and recompiles the text on load, failing on
  the first string that does not compile;
- the derived serialisation of the whole struct, at the level of its fields.

The regular-expression engine is foreign code. The model does not interpret
it: an `Engine` value carries two uninterpreted questions, `valid(s)` ("does
`Regex::new(s)` succeed?") and `matches(s, link)` ("does the pattern compiled
from `s` match somewhere in `link`?"). Every operation takes the engine as a
parameter, so every lemma holds for any engine. A compiled pattern is
`Regex(source)`: a pattern built by `Regex::new` with default options.
`Regex::as_str` returns the source text unchanged. For such a pattern, what
it matches is determined by that text, so the source is all the model needs
to keep. Patterns built with other options (for example through
`RegexBuilder`) are not modelled; see "## Left out".

Files and modules:

- `wrappers.dfy` (`Wrappers`): `Option` and `Result`.
- `pattern.dfy` (`Pattern`): the engine abstraction. `Compile` is
  `Regex::new`; `IsMatch` is `Regex::is_match`.
- `regex_serde.dfy` (`RegexSerde`): `mod regex_serde`. `Serialize` and
  `Deserialize` are loops, as in the source. Each is proved equal to a
  specification function (`Sources`, `CompileAll`), and the codec's laws
  are proved about those functions.
- `config.dfy` (`LinkConfig`): the struct as a datatype, with its defaults,
  `should_skip`, `PartialEq::eq`, and the derived `Serialize`/`Deserialize`
  over a field-level `Document`. A `None` field in a `Document` is an absent
  key.
- `config_tests.dfy` (`ConfigTests`): the two unit tests of `src/config.rs`,
  plus the invalid-pattern case, stated as lemmas.

The model assumes that every pattern in `exclude` is what a successful
`Regex::new` of its source text would produce. It states this as
`WellFormed(engine, c)`. Loading establishes it (`DeserializeConfig`). The
serialise-then-load round trip requires it.

## Model

| member | source | states |
|---|---|---|
| Pattern.Compile | src/config.rs:79 | `Regex::new(s)` succeeds exactly when the engine accepts `s`, and the pattern it returns has source text `s` (what `as_str` gives back) |
| LinkConfig.Default | src/config.rs:36-45 | the default configuration does not follow web links, does not traverse parent directories, excludes nothing, has user agent "<pkg-name>-<pkg-version>" and a cache timeout of 43200 seconds (12 hours) |
| LinkConfig.DefaultCacheTimeout | src/config.rs:48 | the serde fallback for an absent `cache-timeout` is 43200 seconds |
| LinkConfig.DefaultUserAgent | src/config.rs:49 | the serde fallback for an absent `user-agent` is "<pkg-name>-<pkg-version>" |
| LinkConfig.FallbacksAgreeWithDefault | src/config.rs:26-49 | the serde fallbacks `default_cache_timeout` and `default_user_agent` return exactly `Default::default()`'s cache timeout (60*60*12) and user agent (`DEFAULT_USER_AGENT`) |
| Pattern.IsMatch | src/config.rs:32 | `is_match` holds exactly when the engine finds the pattern compiled from the regex's source text in the link |
| LinkConfig.AnyMatches | src/config.rs:32 | `iter().any(is_match)` over the patterns is true iff some pattern at some index matches the link |
| LinkConfig.ShouldSkip | src/config.rs:31-33 | a link is skipped iff there is an index `i` such that `exclude[i]` matches it |
| LinkConfig.NothingSkippedWithoutPatterns | src/config.rs:31-33 | with an empty `exclude`, as in the default configuration, no link is skipped |
| LinkConfig.ShouldSkipOrderIndependent | src/config.rs:31-33 | two configurations whose `exclude` lists hold the same patterns, in any order and with any repetition, skip exactly the same links |
| LinkConfig.SameSources | src/config.rs:102-105 | `zip(..).all(as_str ==)` holds iff the source texts agree at every index below the shorter length |
| LinkConfig.ConfigEq | src/config.rs:87-106 | `eq` holds iff the four scalar fields are equal, the `exclude` lists have equal length, and `exclude[i].source == other.exclude[i].source` for every `i` (both directions) |
| LinkConfig.ConfigEqIsValueEquality | src/config.rs:87-106 | for patterns built by `Regex::new` with default options, which the model identifies with their source text, `eq` coincides with equality of configuration values |
| LinkConfig.ConfigEqIsEquivalence | src/config.rs:87-106 | `eq` is reflexive, symmetric and transitive |
| LinkConfig.ConfigEqSkipsAlike | src/config.rs:87-106 | configurations equal under `eq` skip exactly the same links |
| LinkConfig.PatternOrderMatters | src/config.rs:99-105 | in any pattern list, swapping the patterns at two positions whose source texts differ gives a configuration that is not `eq` to the original but skips exactly the same links |
| LinkConfig.DeserializeConfig | src/config.rs:6-22 | loading fails iff a present `exclude` list holds a string that does not compile, and then names the first such string; on success every pattern is compiled, `exclude` keeps the strings' text and order, and every other field holds the document's value if the key is present and its default (false, false, `DEFAULT_USER_AGENT`, 43200) otherwise |
| LinkConfig.SerializeConfig | src/config.rs:6-22 | serialising writes every key: each scalar with its field's value, and `exclude` as a list of the same length whose i-th string is `exclude[i]`'s source text |
| LinkConfig.EmptyDocumentIsDefault | src/config.rs:7-21 | a document with no keys loads as `Default::default()` |
| LinkConfig.SerializeThenDeserialize | src/config.rs:59-84 | loading the serialised form of any well-formed configuration succeeds and gives a configuration `eq` to it (indeed the same value) |
| LinkConfig.DeserializeThenSerialize | src/config.rs:59-84 | a loaded configuration serialises back to its document with absent keys filled in by their defaults; if every key was present, it serialises back to the document itself |
| RegexSerde.Sources | src/config.rs:63-68 | the serialised pattern list has the same length as `exclude`, and its i-th string is `exclude[i]`'s source text |
| RegexSerde.CompileAll | src/config.rs:75-83 | compiling a string list succeeds iff every string compiles; on success the patterns' source texts are exactly the input strings, in order; on failure the error names the first string that does not compile, whatever valid strings come before or after it |
| RegexSerde.Serialize | src/config.rs:59-69 | the loop that feeds `as_str()` of each pattern to the sequence serialiser produces exactly `Sources(exclude)` |
| RegexSerde.Deserialize | src/config.rs:71-84 | the loop that compiles and pushes each string, returning at the first error, produces exactly `CompileAll(raw)`: no partial list is ever returned |
| RegexSerde.DecodeEncode | src/config.rs:59-84 | deserialising the serialised form of a list of compiled patterns gives back the same list |
| RegexSerde.EncodeDecode | src/config.rs:71-84 | patterns produced by a successful deserialisation serialise back to exactly the input strings, and every one of them is compiled |
| ConfigTests.DeserializeAConfig | src/config.rs:113-133 | the test document loads successfully, and the result is `eq` to the configuration built from the same values and `Regex::new(r"google\.com")` |
| ConfigTests.RoundTripConfig | src/config.rs:135-141 | reserialising the loaded test document gives back the test document, field by field |
| ConfigTests.InvalidPatternRejected | src/config.rs:78-79 | `exclude = ["("]` (with an engine that rejects `(`) fails with an error naming `(`, and so does `["google\\.com", "("]`, where the bad pattern comes after a good one |
| ConfigTests.SkipsLinksMatchingTheTestPattern | src/config.rs:31-33 | with `exclude = ["google\\.com"]`, a link is skipped exactly when the engine finds that pattern in it |

## Left out

- LinkConfig.ConfigEqIsValueEquality: holds only for patterns built by `Regex::new` with default options. `exclude` is a public `Vec<Regex>`, so a caller can store a pattern built with other options (such as case-insensitive matching through `RegexBuilder`). Such a pattern has the same `as_str()` as the default-built one, but it is a different value.
- LinkConfig.ConfigEqSkipsAlike: holds only for patterns built by `Regex::new` with default options. Two configurations that are `eq` but hold patterns built with different options can skip different links.
- LinkConfig.SerializeThenDeserialize: holds only for patterns built by `Regex::new` with default options. A pattern built with a raised size limit can be rejected by `Regex::new` when it is reloaded.
- Regular-expression semantics: which strings compile and what a pattern matches belong to the `regex` crate. They are the uninterpreted `Engine.valid` and `Engine.matches`.
- TOML and serde framing: kebab-case key renaming, how absent or unknown keys are detected, and the byte-exact TOML text. The document is modelled field by field, so `round_trip_config` is proved field by field and not as text.
- Format-level failures: a malformed boolean or integer, or a value out of `u64` range, is rejected by the format library. So are errors returned by the serializer (the `?` on `serialize_seq` and `serialize_element`). The model's serializer cannot fail.
- The error payload: `D::Error::custom` carries the engine's message. The model's `InvalidExcludePattern` carries only the offending string.
- `std::time::Duration`: the default cache timeout is the number of seconds, 43200, and `cache_timeout` is an integer below 2^64.
- Build metadata: `CARGO_PKG_NAME` and `CARGO_PKG_VERSION` are opaque constant strings. Only the shape "<name>-<version>" of the default user agent is modelled.
- `SerializeSeq`: the stateful sequence serialiser is a local sequence that the `Serialize` loop appends to, because its internals belong to serde.
- The `Debug` and `Clone` derives: they have no behaviour to verify.
