/** The one-slot memo behind `as_clingo_facts` and `as_program_string`, as
    transitions over the three cache fields. `FactsCall` and `TextCall`
    follow the source as written; `FactsCallFixed` and `TextCallFixed` are
    the corrected pair, in which a recomputed fact list also drops the
    cached text. */
module Cache {
  import opened Wrappers
  import opened Facts
  import opened Lines
  import opened Encoding

  /** The memo key of a call: the resolved names and the three fact names,
      the source's `(feature_names, instance_func, feature_func, value_func)`. */
  datatype CallKey = CallKey(names: seq<string>, tags: Tags)

  /** `_facts_cache`, `_text_cache` and `_last_call`. The initial key
      `(None, None, None, None)` equals no key a call builds, so it is `None`
      here. */
  datatype CacheState = CacheState(facts: Option<seq<Fact>>, text: Option<string>, lastCall: Option<CallKey>)

  const Empty := CacheState(None, None, None)

  /** A call's new cache state and what it returns (or raises). */
  datatype Call<T> = Call(state: CacheState, result: Result<T, Error>)

  /** `_check_facts_cache`. */
  predicate FactsHit(st: CacheState, key: CallKey)
  {
    st.facts.Some? && st.lastCall == Some(key)
  }

  /** `_check_text_cache`: it consults the same `_last_call` as the facts. */
  predicate TextHit(st: CacheState, key: CallKey)
  {
    st.text.Some? && st.lastCall == Some(key)
  }

  /** `as_clingo_facts(names, *tags)` on an encoder of table `t` whose stored
      names are `stored`, from cache state `st`. */
  function FactsCall(t: Table, stored: seq<string>, st: CacheState, names: Option<seq<string>>, tags: Tags): Call<seq<Fact>>
    requires |stored| == t.cols
  {
    match ResolveNames(t.cols, stored, names)
    case Err(e) => Call(st, Err(e))
    case Ok(n) =>
      var key := CallKey(n, tags);
      if FactsHit(st, key) then Call(st, Ok(st.facts.value))
      else
        var fs := Encode(t, stored, tags);
        Call(st.(facts := Some(fs), lastCall := Some(key)), Ok(fs))
  }

  /** `as_program_string(names, *tags)`; on a miss it goes through
      `as_clingo_facts` with the resolved names. */
  function TextCall(t: Table, stored: seq<string>, st: CacheState, names: Option<seq<string>>, tags: Tags): Call<string>
    requires |stored| == t.cols
  {
    match ResolveNames(t.cols, stored, names)
    case Err(e) => Call(st, Err(e))
    case Ok(n) =>
      var key := CallKey(n, tags);
      if TextHit(st, key) then Call(st, Ok(st.text.value))
      else
        var c := FactsCall(t, stored, st, Some(n), tags);
        var txt := ProgramText(|n|, c.result.value);
        Call(c.state.(text := Some(txt)), Ok(txt))
  }

  /** A cached fact list is the encoding for the key it was stored under. */
  ghost predicate FactsCoherent(t: Table, stored: seq<string>, st: CacheState)
  {
    st.facts.Some? ==> st.lastCall.Some? && st.facts.value == Encode(t, stored, st.lastCall.value.tags)
  }

  /** `as_clingo_facts`: an override of the wrong length raises and changes
      nothing; otherwise the result is the encoding of the STORED names (an
      override only enters the key), a hit changes nothing, a miss stores the
      result and the key and leaves the text cache alone. */
  lemma FactsCallSpec(t: Table, stored: seq<string>, st: CacheState, names: Option<seq<string>>, tags: Tags)
    requires |stored| == t.cols && FactsCoherent(t, stored, st)
    ensures var c := FactsCall(t, stored, st, names, tags);
            FactsCoherent(t, stored, c.state) &&
            (c.result.Err? <==> names.Some? && |names.value| != t.cols) &&
            (c.result.Err? ==> c.state == st) &&
            (c.result.Ok? ==>
               var key := CallKey(ResolveNames(t.cols, stored, names).value, tags);
               c.result.value == Encode(t, stored, tags) &&
               c.state.lastCall == Some(key) && c.state.facts == Some(c.result.value) &&
               c.state.text == st.text &&
               (FactsHit(st, key) ==> c.state == st))
  {
  }

  /** Asking twice with the same arguments: the second call hits, returns the
      very list the first returned and changes no field. */
  lemma FactsCallTwice(t: Table, stored: seq<string>, st: CacheState, names: Option<seq<string>>, tags: Tags)
    requires |stored| == t.cols
    ensures var c1 := FactsCall(t, stored, st, names, tags);
            var c2 := FactsCall(t, stored, c1.state, names, tags);
            c2.state == c1.state && c2.result == c1.result
  {
  }

  /** Two overrides of the right length yield the same facts: the names in
      the facts are always the stored ones. */
  lemma OverrideOnlyKey(t: Table, stored: seq<string>, st1: CacheState, st2: CacheState,
                        n1: seq<string>, n2: seq<string>, tags: Tags)
    requires |stored| == t.cols && |n1| == t.cols && |n2| == t.cols
    requires FactsCoherent(t, stored, st1) && FactsCoherent(t, stored, st2)
    ensures FactsCall(t, stored, st1, Some(n1), tags).result == FactsCall(t, stored, st2, Some(n2), tags).result
    ensures FactsCall(t, stored, st1, Some(n1), tags).state.lastCall == Some(CallKey(n1, tags))
  {
    FactsCallSpec(t, stored, st1, Some(n1), tags);
    FactsCallSpec(t, stored, st2, Some(n2), tags);
  }

  /** `as_program_string`: a wrong-length override raises and changes
      nothing; otherwise the text cache hits exactly when it is filled and the
      shared key equals this call's key, and after the call both the key and
      the text cache hold this call's key and result. On a miss the text is
      the program text of the encoding, and the fact cache holds that
      encoding, so a following fact call with the same key hits. */
  lemma TextCallSpec(t: Table, stored: seq<string>, st: CacheState, names: Option<seq<string>>, tags: Tags)
    requires |stored| == t.cols && FactsCoherent(t, stored, st)
    ensures var c := TextCall(t, stored, st, names, tags);
            FactsCoherent(t, stored, c.state) &&
            (c.result.Err? <==> names.Some? && |names.value| != t.cols) &&
            (c.result.Err? ==> c.state == st) &&
            (c.result.Ok? ==>
               var key := CallKey(ResolveNames(t.cols, stored, names).value, tags);
               c.state.lastCall == Some(key) && c.state.text == Some(c.result.value) &&
               (TextHit(st, key) ==> c.state == st && c.result.value == st.text.value) &&
               (!TextHit(st, key) ==> c.result.value == ProgramText(t.cols, Encode(t, stored, tags))) &&
               (!TextHit(st, key) ==> c.state.facts == Some(Encode(t, stored, tags))))
  {
    match ResolveNames(t.cols, stored, names)
    case Err(_) =>
    case Ok(n) =>
      FactsCallSpec(t, stored, st, Some(n), tags);
  }

  lemma TextCallTwice(t: Table, stored: seq<string>, st: CacheState, names: Option<seq<string>>, tags: Tags)
    requires |stored| == t.cols
    ensures var c1 := TextCall(t, stored, st, names, tags);
            var c2 := TextCall(t, stored, c1.state, names, tags);
            c2.state == c1.state && c2.result == c1.result
  {
  }

  /** As written, the text cache goes stale: once `as_clingo_facts` has
      stored a new key, `as_program_string` with that key hits the text left
      by an earlier call with another key. */
  lemma StaleText(t: Table, stored: seq<string>, st: CacheState, tags1: Tags, tags2: Tags)
    requires |stored| == t.cols && tags1 != tags2
    ensures var c1 := TextCall(t, stored, st, None, tags1);
            var c2 := FactsCall(t, stored, c1.state, None, tags2);
            TextCall(t, stored, c2.state, None, tags2).result == c1.result
  {
  }

  /** A concrete case: one column `f1`, no rows. The program text first
      printed with the default tags is returned again after the feature tag
      changed to `attr`, though the text for `attr` starts with an `a`. */
  lemma StaleTextExample()
    ensures var t, stored, attr := Table(1, [], None), ["f1"], Tags("instance", "attr", "value");
            var c1 := TextCall(t, stored, Empty, None, DefaultTags);
            var c2 := FactsCall(t, stored, c1.state, None, attr);
            var c3 := TextCall(t, stored, c2.state, None, attr);
            c3.result.Ok? && c3.result.value != ProgramText(1, Encode(t, stored, attr))
  {
    StaleText(Table(1, [], None), ["f1"], Empty, DefaultTags, Tags("instance", "attr", "value"));
  }

  /** Corrected `as_clingo_facts`: a miss also empties `_text_cache`. */
  function FactsCallFixed(t: Table, stored: seq<string>, st: CacheState, names: Option<seq<string>>, tags: Tags): Call<seq<Fact>>
    requires |stored| == t.cols
  {
    var c := FactsCall(t, stored, st, names, tags);
    match ResolveNames(t.cols, stored, names)
    case Err(_) => c
    case Ok(n) => if FactsHit(st, CallKey(n, tags)) then c else Call(c.state.(text := None), c.result)
  }

  /** Corrected `as_program_string`: as written, but through `FactsCallFixed`. */
  function TextCallFixed(t: Table, stored: seq<string>, st: CacheState, names: Option<seq<string>>, tags: Tags): Call<string>
    requires |stored| == t.cols
  {
    match ResolveNames(t.cols, stored, names)
    case Err(e) => Call(st, Err(e))
    case Ok(n) =>
      var key := CallKey(n, tags);
      if TextHit(st, key) then Call(st, Ok(st.text.value))
      else
        var c := FactsCallFixed(t, stored, st, Some(n), tags);
        var txt := ProgramText(|n|, c.result.value);
        Call(c.state.(text := Some(txt)), Ok(txt))
  }

  /** Both caches hold what the shared key says they should. */
  ghost predicate Coherent(t: Table, stored: seq<string>, st: CacheState)
  {
    FactsCoherent(t, stored, st) &&
    (st.text.Some? ==> st.facts.Some? && st.text.value == ProgramText(t.cols, st.facts.value))
  }

  /** The corrected fact call keeps both caches coherent and returns the
      encoding for its key. */
  lemma FactsCallFixedCorrect(t: Table, stored: seq<string>, st: CacheState, names: Option<seq<string>>, tags: Tags)
    requires |stored| == t.cols && Coherent(t, stored, st)
    ensures var c := FactsCallFixed(t, stored, st, names, tags);
            Coherent(t, stored, c.state) &&
            (c.result.Err? <==> names.Some? && |names.value| != t.cols) &&
            (c.result.Ok? ==> c.result.value == Encode(t, stored, tags) &&
                              c.state.lastCall == Some(CallKey(ResolveNames(t.cols, stored, names).value, tags)))
  {
    FactsCallSpec(t, stored, st, names, tags);
  }

  /** With the correction, every text `as_program_string` returns, hit or
      miss, is the program text of the encoding it was asked for. */
  lemma TextCallFixedCorrect(t: Table, stored: seq<string>, st: CacheState, names: Option<seq<string>>, tags: Tags)
    requires |stored| == t.cols && Coherent(t, stored, st)
    ensures var c := TextCallFixed(t, stored, st, names, tags);
            Coherent(t, stored, c.state) &&
            (c.result.Err? <==> names.Some? && |names.value| != t.cols) &&
            (c.result.Ok? ==> c.result.value == ProgramText(t.cols, Encode(t, stored, tags)))
  {
    match ResolveNames(t.cols, stored, names)
    case Err(_) =>
    case Ok(n) =>
      FactsCallFixedCorrect(t, stored, st, Some(n), tags);
  }
}
