/** The custom codec for the `exclude` field (`mod regex_serde`): patterns are
    written as their source strings and recompiled, one by one, when loaded. */
module RegexSerde {
  import opened Wrappers
  import opened Pattern

  /** The only failure of this core: an `exclude` entry that does not compile.
      It names the offending text; the engine's own message is not modelled. */
  datatype ConfigError = InvalidExcludePattern(pattern: string)

  /** Every string of `raw` compiles. */
  predicate AllValid(engine: Engine, raw: seq<string>) {
    forall i | 0 <= i < |raw| :: engine.valid(raw[i])
  }

  /** Every pattern of `re` came from a successful compilation. */
  predicate AllCompiled(engine: Engine, re: seq<Regex>) {
    forall i | 0 <= i < |re| :: Compiled(engine, re[i])
  }

  /** `k` is the first index of `raw` whose string does not compile. */
  predicate IsFirstInvalid(engine: Engine, raw: seq<string>, k: int) {
    && 0 <= k < |raw|
    && !engine.valid(raw[k])
    && forall j | 0 <= j < k :: engine.valid(raw[j])
  }

  /** What serialising a pattern list produces: each pattern's source text,
      in order. */
  function Sources(re: seq<Regex>): (out: seq<string>)
    ensures |out| == |re|
    ensures forall i | 0 <= i < |re| :: out[i] == re[i].source
  {
    if re == [] then [] else [re[0].source] + Sources(re[1..])
  }

  /** What deserialising a string list produces: the strings compiled front to
      back, stopping at the first one that does not compile. It succeeds
      exactly when every string compiles, keeps every source text, and
      otherwise reports the first bad string, whatever follows it. */
  function CompileAll(engine: Engine, raw: seq<string>): (r: Result<seq<Regex>, ConfigError>)
    ensures r.Ok? <==> AllValid(engine, raw)
    ensures r.Ok? ==> Sources(r.value) == raw
    ensures r.Err? ==> exists k :: IsFirstInvalid(engine, raw, k) && r.error == InvalidExcludePattern(raw[k])
  {
    if raw == [] then Ok([])
    else
      match Compile(engine, raw[0])
      case None =>
        assert IsFirstInvalid(engine, raw, 0);
        Err(InvalidExcludePattern(raw[0]))
      case Some(re) =>
        match CompileAll(engine, raw[1..])
        case Err(e) =>
          assert forall k :: IsFirstInvalid(engine, raw[1..], k) ==> IsFirstInvalid(engine, raw, k + 1);
          Err(e)
        case Ok(rest) =>
          assert Sources([re] + rest) == [raw[0]] + raw[1..];
          Ok([re] + rest)
  }

  /** `regex_serde::serialize`: feeds the source text of each pattern, in
      order, into the output sequence. */
  method Serialize(re: seq<Regex>) returns (out: seq<string>)
    ensures out == Sources(re)
  {
    out := [];
    var i := 0;
    while i < |re|
      invariant 0 <= i <= |re|
      invariant out == Sources(re[..i])
    {
      assert re[..i + 1] == re[..i] + [re[i]];
      SourcesAppend(re[..i], re[i]);
      out := out + [re[i].source];
      i := i + 1;
    }
    assert re[..i] == re;
  }

  /** `regex_serde::deserialize`: compiles each string in turn into the growing
      `patterns` list and returns at the first one that fails to compile. */
  method Deserialize(engine: Engine, raw: seq<string>) returns (r: Result<seq<Regex>, ConfigError>)
    ensures r == CompileAll(engine, raw)
  {
    var patterns: seq<Regex> := [];
    var i := 0;
    while i < |raw|
      invariant 0 <= i <= |raw|
      invariant |patterns| == i
      invariant forall j | 0 <= j < i :: engine.valid(raw[j]) && patterns[j] == Regex(raw[j])
    {
      var compiled := Compile(engine, raw[i]);
      if compiled.None? {
        assert IsFirstInvalid(engine, raw, i);
        FirstInvalidUnique(engine, raw, i);
        return Err(InvalidExcludePattern(raw[i]));
      }
      patterns := patterns + [compiled.value];
      i := i + 1;
    }
    var expected := CompileAll(engine, raw);
    assert expected.Ok?;
    assert expected.value == patterns by {
      forall j | 0 <= j < |raw| ensures expected.value[j] == patterns[j] {
        assert Sources(expected.value)[j] == raw[j];
      }
    }
    r := Ok(patterns);
  }

  /** Appending one pattern appends its source text. */
  lemma SourcesAppend(re: seq<Regex>, x: Regex)
    ensures Sources(re + [x]) == Sources(re) + [x.source]
  {
  }

  /** There is only one first invalid index. */
  lemma FirstInvalidUnique(engine: Engine, raw: seq<string>, k: int)
    requires IsFirstInvalid(engine, raw, k)
    ensures forall m :: IsFirstInvalid(engine, raw, m) ==> m == k
  {
  }

  /** Two pattern lists with the same source texts are the same list: in the
      model a pattern is its source text. */
  lemma SourcesInjective(a: seq<Regex>, b: seq<Regex>)
    requires Sources(a) == Sources(b)
    ensures a == b
  {
  }

  /** Round trip, pattern list first: deserialising what was serialised gives
      back the same patterns, in the same order. */
  lemma {:induction false} DecodeEncode(engine: Engine, re: seq<Regex>)
    requires AllCompiled(engine, re)
    ensures CompileAll(engine, Sources(re)) == Ok(re)
  {
    var raw := Sources(re);
    assert AllValid(engine, raw) by {
      forall i | 0 <= i < |raw| ensures engine.valid(raw[i]) {
        assert raw[i] == re[i].source;
        assert Compiled(engine, re[i]);
      }
    }
    var r := CompileAll(engine, raw);
    SourcesInjective(r.value, re);
  }

  /** Round trip, string list first: the patterns that a successful load
      produces serialise back to the very strings that were loaded, and every
      one of them is a compiled pattern. */
  lemma EncodeDecode(engine: Engine, raw: seq<string>, re: seq<Regex>)
    requires CompileAll(engine, raw) == Ok(re)
    ensures Sources(re) == raw
    ensures AllCompiled(engine, re)
  {
  }
}
