/** `Encoder` and `NumpyLikeEncoder` of `dafact/encoders/_encoders.py` as one
    class: the table and the stored names, and the three cache fields the
    two encoding methods update. */
module Encoders {
  import opened Wrappers
  import opened Facts
  import opened Lines
  import opened Encoding
  import opened Cache

  class Encoder {
    const data: Table
    const featureNames: seq<string>
    var factsCache: Option<seq<Fact>>
    var textCache: Option<string>
    var lastCall: Option<CallKey>

    /** The three cache fields as one value. */
    ghost function State(): CacheState
      reads this
    {
      CacheState(factsCache, textCache, lastCall)
    }

    /** One name per column, a rectangular table, and a cached fact list
        that is the encoding for the key stored beside it. */
    ghost predicate Valid()
      reads this
    {
      Rectangular(data) && |featureNames| == data.cols && FactsCoherent(data, featureNames, State())
    }

    /** The body of `Encoder.__init__` once the names are settled: both caches
        empty and no call remembered. */
    constructor (data: Table, featureNames: seq<string>)
      requires Rectangular(data) && |featureNames| == data.cols
      ensures Valid()
      ensures this.data == data && this.featureNames == featureNames && State() == Empty
    {
      this.data := data;
      this.featureNames := featureNames;
      factsCache := None;
      textCache := None;
      lastCall := None;
    }

    /** `NumpyLikeEncoder(data, feature_names)`: raises when the given names
        (or, without them, the table's column labels) do not have one entry
        per column, and stores `f1`, ..., `fC` when there are no names at all. */
    static method New(data: Table, names: Option<seq<string>>) returns (r: Result<Encoder, Error>)
      requires Rectangular(data)
      ensures r.Err? <==> InitialNames(data, names).Err?
      ensures r.Ok? ==> fresh(r.value) && r.value.Valid() && r.value.data == data &&
                        r.value.featureNames == InitialNames(data, names).value && r.value.State() == Empty
    {
      var stored := InitialNames(data, names);
      if stored.Err? {
        return Err(stored.error);
      }
      var e := new Encoder(data, stored.value);
      return Ok(e);
    }

    /** `as_clingo_facts`. */
    method AsClingoFacts(names: Option<seq<string>>, tags: Tags) returns (r: Result<seq<Fact>, Error>)
      requires Valid()
      modifies this
      ensures Valid()
      ensures Call(State(), r) == FactsCall(data, featureNames, old(State()), names, tags)
      ensures r.Ok? ==> r.value == Encode(data, featureNames, tags)
    {
      var resolved := ResolveNames(data.cols, featureNames, names);
      if resolved.Err? {
        return Err(resolved.error);
      }
      var key := CallKey(resolved.value, tags);
      if factsCache.Some? && lastCall == Some(key) {
        return Ok(factsCache.value);
      }
      ghost var blocks := Blocks(data, featureNames, tags);
      var facts := FeatureFacts(tags.feature, featureNames);
      var i := 0;
      while i < |data.rows|
        invariant 0 <= i <= |data.rows|
        invariant facts == FeatureFacts(tags.feature, featureNames) + Flatten(blocks[..i])
        invariant unchanged(this)
      {
        FlattenPrefix(blocks, i);
        facts := facts + [Instance(tags.instance, i)];
        facts := facts + RowValues(tags.value, i, featureNames, data.rows[i]);
        i := i + 1;
      }
      assert blocks[..i] == blocks;
      assert facts == Encode(data, featureNames, tags);
      factsCache := Some(facts);
      lastCall := Some(key);
      return Ok(facts);
    }

    /** `as_program_string`. */
    method AsProgramString(names: Option<seq<string>>, tags: Tags) returns (r: Result<string, Error>)
      requires Valid()
      modifies this
      ensures Valid()
      ensures Call(State(), r) == TextCall(data, featureNames, old(State()), names, tags)
    {
      var resolved := ResolveNames(data.cols, featureNames, names);
      if resolved.Err? {
        return Err(resolved.error);
      }
      var key := CallKey(resolved.value, tags);
      if textCache.Some? && lastCall == Some(key) {
        return Ok(textCache.value);
      }
      var facts := AsClingoFacts(Some(resolved.value), tags);
      var text := ProgramText(|resolved.value|, facts.value);
      textCache := Some(text);
      return Ok(text);
    }
  }
}
