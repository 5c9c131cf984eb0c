/** The part of the `regex` crate that the configuration relies on.

    The engine itself is foreign code, so the model leaves its two questions
    uninterpreted: which strings compile (`Regex::new` succeeds) and whether a
    pattern matches somewhere in a link (`Regex::is_match`). Every operation and
    lemma of the model takes the engine as a parameter, so everything proved
    holds for any engine whatsoever. */
module Pattern {
  import opened Wrappers

  /** An uninterpreted regular-expression engine: `valid(s)` says that `s`
      compiles, `matches(s, link)` that the pattern compiled from `s` matches
      `link`. */
  datatype Engine = Engine(valid: string -> bool, matches: (string, string) -> bool)

  /** A compiled pattern, as `Regex::new` builds it: with default options,
      what it matches is determined by its source text, so the source is all
      the model keeps; `Regex::as_str` gives back exactly this text. */
  datatype Regex = Regex(source: string)

  /** `Regex::new`: a partial function that succeeds exactly on the strings
      the engine accepts, and keeps the text it was given. */
  function Compile(engine: Engine, s: string): (r: Option<Regex>)
    ensures r.Some? <==> engine.valid(s)
    ensures r.Some? ==> r.value.source == s
  {
    if engine.valid(s) then Some(Regex(s)) else None
  }

  /** `Regex::is_match`: the engine finds the pattern compiled from `re`'s
      source text somewhere in `link`. */
  function IsMatch(engine: Engine, re: Regex, link: string): (found: bool)
    ensures found <==> engine.matches(re.source, link)
  {
    engine.matches(re.source, link)
  }

  /** `re` is what a successful `Regex::new` of its source text produces,
      which is the kind of pattern this model covers. */
  predicate Compiled(engine: Engine, re: Regex) {
    engine.valid(re.source)
  }
}
