/** The table-to-facts encoding: the names an encoder starts with, the
    resolution of an overriding name list, and the fact list
    `as_clingo_facts` computes on a cache miss. */
module Encoding {
  import opened Wrappers
  import opened Text
  import opened Facts
  import opened Lines

  /** The only error the encoder raises: a name list whose length is not the
      number of columns (a `ValueError` in the source). */
  datatype Error = CardinalityError

  /** The data an encoder holds: `cols` is `data.shape[1]`, `rows` the rows
      in order, `columns` the column labels of a pandas-like table, if any. */
  datatype Table = Table(cols: nat, rows: seq<seq<Cell>>, columns: Option<seq<string>>)

  /** Every row has one cell per column, as in a 2-D numpy array. */
  ghost predicate Rectangular(t: Table)
  {
    forall i :: 0 <= i < |t.rows| ==> |t.rows[i]| == t.cols
  }

  /** The three fact names a call passes: `instance_func`, `feature_func`
      and `value_func`. */
  datatype Tags = Tags(instance: string, feature: string, value: string)

  const DefaultTags := Tags("instance", "feature", "value")

  /** The names used when none are given: `f1`, ..., `fC`. */
  function DefaultNames(c: nat): (r: seq<string>)
    ensures |r| == c
  {
    seq(c, j requires 0 <= j < c => "f" + NatToString(j + 1))
  }

  /** Column `j` (0-based) is called `f` followed by `j + 1` in decimal, and
      no two default names are equal. */
  lemma DefaultNamesSpec(c: nat)
    ensures forall j :: 0 <= j < c ==> DefaultNames(c)[j] == "f" + NatToString(j + 1)
    ensures forall i, j :: 0 <= i < j < c ==> DefaultNames(c)[i] != DefaultNames(c)[j]
  {
    var r := DefaultNames(c);
    forall i, j | 0 <= i < j < c ensures r[i] != r[j] {
      if r[i] == r[j] {
        assert r[i][1..] == NatToString(i + 1);
        assert r[j][1..] == NatToString(j + 1);
        NatToStringInjective(i + 1, j + 1);
      }
    }
  }

  /** Three columns are named `f1`, `f2`, `f3`: the default numbering starts
      at one, not at zero. */
  lemma DefaultNamesOfThree()
    ensures DefaultNames(3) == ["f1", "f2", "f3"]
    ensures DefaultNames(3)[0] != "f0"
  {
    assert Digit(1) == '1' && Digit(2) == '2' && Digit(3) == '3';
    var r := DefaultNames(3);
    assert r[0] == "f1" && r[1] == "f2" && r[2] == "f3";
  }

  /** `_get_feature_names`: no override gives the stored names, an override
      of the right length is returned as it is, any other is an error. */
  function ResolveNames(cols: nat, stored: seq<string>, names: Option<seq<string>>): (r: Result<seq<string>, Error>)
    requires |stored| == cols
    ensures r.Ok? ==> |r.value| == cols
    ensures r.Err? <==> names.Some? && |names.value| != cols
    ensures names.None? ==> r == Ok(stored)
    ensures names.Some? && r.Ok? ==> r.value == names.value
  {
    match names
    case None => Ok(stored)
    case Some(n) => if |n| != cols then Err(CardinalityError) else Ok(n)
  }

  /** The names `Encoder.__init__` stores, or the error it raises; before it,
      `NumpyLikeEncoder.__init__` falls back to the table's column labels. */
  function InitialNames(t: Table, names: Option<seq<string>>): (r: Result<seq<string>, Error>)
    ensures r.Ok? ==> |r.value| == t.cols
    ensures r.Err? <==> (if names.Some? then names else t.columns).Some? && |(if names.Some? then names else t.columns).value| != t.cols
    ensures names.None? && t.columns.None? ==> r == Ok(DefaultNames(t.cols))
    ensures names.Some? && r.Ok? ==> r.value == names.value
    ensures names.None? && t.columns.Some? && r.Ok? ==> r.value == t.columns.value
  {
    var given := if names.None? && t.columns.Some? then t.columns else names;
    ResolveNames(t.cols, DefaultNames(t.cols), given)
  }

  /** The feature facts: one per name, in column order. */
  function FeatureFacts(tag: string, names: seq<string>): seq<Fact>
  {
    seq(|names|, j requires 0 <= j < |names| => Feature(tag, names[j]))
  }

  /** The value facts of row `i`: `zip(names, row)` turned into
      `value(i, name, cell)` facts. */
  function RowValues(tag: string, i: nat, names: seq<string>, row: seq<Cell>): seq<Fact>
  {
    var n := Min(|names|, |row|);
    seq(n, j requires 0 <= j < n => Value(tag, i, names[j], ValueArg(row[j])))
  }

  /** The block of row `i`: its instance fact, then its value facts. */
  function RowFacts(tags: Tags, i: nat, names: seq<string>, row: seq<Cell>): seq<Fact>
  {
    [Instance(tags.instance, i)] + RowValues(tags.value, i, names, row)
  }

  function Blocks(t: Table, names: seq<string>, tags: Tags): seq<seq<Fact>>
  {
    seq(|t.rows|, i requires 0 <= i < |t.rows| => RowFacts(tags, i, names, t.rows[i]))
  }

  /** The fact list of a table: the feature facts, then each row's block, rows
      in order. */
  function Encode(t: Table, names: seq<string>, tags: Tags): seq<Fact>
  {
    FeatureFacts(tags.feature, names) + Flatten(Blocks(t, names, tags))
  }

  lemma BlocksUniform(t: Table, names: seq<string>, tags: Tags)
    requires Rectangular(t) && |names| == t.cols
    ensures Uniform(Blocks(t, names, tags), t.cols + 1)
  {
  }

  /** Where the block of row `i` starts in the encoding of a table with `c`
      columns: after the `c` feature facts and `i` blocks of `c + 1` facts. */
  function RowStart(c: nat, i: nat): nat
  {
    c + i * (c + 1)
  }

  /** Where the value fact of row `i`, column `j` sits: just after the row's
      instance fact, `j` places on. */
  function ValuePos(c: nat, i: nat, j: nat): nat
  {
    RowStart(c, i) + 1 + j
  }

  /** Position `c + x` of the encoding is position `x` of the row blocks. */
  lemma EncodeTail(t: Table, names: seq<string>, tags: Tags, x: nat)
    requires |names| == t.cols && x < |Flatten(Blocks(t, names, tags))|
    ensures |Encode(t, names, tags)| == t.cols + |Flatten(Blocks(t, names, tags))|
    ensures Encode(t, names, tags)[t.cols + x] == Flatten(Blocks(t, names, tags))[x]
  {
  }

  lemma EncodeInstanceAt(t: Table, names: seq<string>, tags: Tags, i: nat)
    requires Rectangular(t) && |names| == t.cols && i < |t.rows|
    ensures RowStart(t.cols, i) < |Encode(t, names, tags)|
    ensures Encode(t, names, tags)[RowStart(t.cols, i)] == Instance(tags.instance, i)
  {
    var bs := Blocks(t, names, tags);
    BlocksUniform(t, names, tags);
    FlattenUniformAt(bs, t.cols + 1, i, 0);
    EncodeTail(t, names, tags, i * (t.cols + 1));
  }

  lemma EncodeValueAt(t: Table, names: seq<string>, tags: Tags, i: nat, j: nat)
    requires Rectangular(t) && |names| == t.cols && i < |t.rows| && j < t.cols
    ensures ValuePos(t.cols, i, j) < |Encode(t, names, tags)|
    ensures Encode(t, names, tags)[ValuePos(t.cols, i, j)]
         == Value(tags.value, i, names[j], ValueArg(t.rows[i][j]))
  {
    var bs := Blocks(t, names, tags);
    BlocksUniform(t, names, tags);
    FlattenUniformAt(bs, t.cols + 1, i, j + 1);
    assert bs[i][j + 1] == Value(tags.value, i, names[j], ValueArg(t.rows[i][j]));
    EncodeTail(t, names, tags, i * (t.cols + 1) + (j + 1));
  }

  lemma EncodeInstances(t: Table, names: seq<string>, tags: Tags)
    requires Rectangular(t) && |names| == t.cols
    ensures forall i :: 0 <= i < |t.rows| ==>
              RowStart(t.cols, i) < |Encode(t, names, tags)| &&
              Encode(t, names, tags)[RowStart(t.cols, i)] == Instance(tags.instance, i)
  {
    forall i | 0 <= i < |t.rows|
      ensures RowStart(t.cols, i) < |Encode(t, names, tags)|
      ensures Encode(t, names, tags)[RowStart(t.cols, i)] == Instance(tags.instance, i)
    {
      EncodeInstanceAt(t, names, tags, i);
    }
  }

  lemma EncodeValues(t: Table, names: seq<string>, tags: Tags)
    requires Rectangular(t) && |names| == t.cols
    ensures forall i, j :: 0 <= i < |t.rows| && 0 <= j < t.cols ==>
              ValuePos(t.cols, i, j) < |Encode(t, names, tags)| &&
              Encode(t, names, tags)[ValuePos(t.cols, i, j)]
              == Value(tags.value, i, names[j], ValueArg(t.rows[i][j]))
  {
    forall i, j | 0 <= i < |t.rows| && 0 <= j < t.cols
      ensures ValuePos(t.cols, i, j) < |Encode(t, names, tags)|
      ensures Encode(t, names, tags)[ValuePos(t.cols, i, j)]
           == Value(tags.value, i, names[j], ValueArg(t.rows[i][j]))
    {
      EncodeValueAt(t, names, tags, i, j);
    }
  }

  /** Count and order of the encoding: `C + R * (C + 1)` facts; the first `C`
      declare the features; row `i` starts at `C + i * (C + 1)` with its
      instance fact, followed by its `C` value facts in column order. */
  lemma EncodeLayout(t: Table, names: seq<string>, tags: Tags)
    requires Rectangular(t) && |names| == t.cols
    ensures |Encode(t, names, tags)| == t.cols + |t.rows| * (t.cols + 1)
    ensures forall j :: 0 <= j < t.cols ==> Encode(t, names, tags)[j] == Feature(tags.feature, names[j])
    ensures forall i :: 0 <= i < |t.rows| ==>
              RowStart(t.cols, i) < |Encode(t, names, tags)| &&
              Encode(t, names, tags)[RowStart(t.cols, i)] == Instance(tags.instance, i)
    ensures forall i, j :: 0 <= i < |t.rows| && 0 <= j < t.cols ==>
              ValuePos(t.cols, i, j) < |Encode(t, names, tags)| &&
              Encode(t, names, tags)[ValuePos(t.cols, i, j)]
              == Value(tags.value, i, names[j], ValueArg(t.rows[i][j]))
  {
    BlocksUniform(t, names, tags);
    FlattenLength(Blocks(t, names, tags), t.cols + 1);
    EncodeInstances(t, names, tags);
    EncodeValues(t, names, tags);
  }

  /** `fact_lines` cuts a full encoding into `R + 1` groups: the feature facts,
      then one block per row. */
  lemma EncodeLines(t: Table, names: seq<string>, tags: Tags)
    requires Rectangular(t) && |names| == t.cols
    ensures FactLines(t.cols, Encode(t, names, tags)) == [FeatureFacts(tags.feature, names)] + Blocks(t, names, tags)
    ensures |FactLines(t.cols, Encode(t, names, tags))| == |t.rows| + 1
  {
    BlocksUniform(t, names, tags);
    FactLinesOfBlocks(t.cols, FeatureFacts(tags.feature, names), Blocks(t, names, tags));
  }

  lemma {:induction false} FlattenTagsOneLine(bs: seq<seq<Fact>>)
    requires forall i :: 0 <= i < |bs| ==> TagsOneLine(bs[i])
    ensures TagsOneLine(Flatten(bs))
    decreases |bs|
  {
    if |bs| > 0 {
      FlattenTagsOneLine(bs[1..]);
    }
  }

  predicate TagsFree(tags: Tags)
  {
    Free('\n', tags.instance) && Free('\n', tags.feature) && Free('\n', tags.value)
  }

  /** The program text of a table has `R + 1` lines: the first prints the
      feature facts, line `i + 1` prints row `i`'s block. */
  lemma ProgramLines(t: Table, names: seq<string>, tags: Tags)
    requires Rectangular(t) && |names| == t.cols && TagsFree(tags)
    ensures var ls := Split(ProgramText(t.cols, Encode(t, names, tags)), '\n');
            |ls| == |t.rows| + 1 &&
            ls[0] == LineText(FeatureFacts(tags.feature, names)) &&
            forall i :: 0 <= i < |t.rows| ==> ls[i + 1] == LineText(RowFacts(tags, i, names, t.rows[i]))
  {
    var fs := Encode(t, names, tags);
    var bs := Blocks(t, names, tags);
    EncodeLines(t, names, tags);
    forall i | 0 <= i < |bs| ensures TagsOneLine(bs[i]) {
    }
    FlattenTagsOneLine(bs);
    assert TagsOneLine(fs);
    ProgramTextLines(t.cols, fs);
  }
}
