/** The `fact_lines` grouping of `as_program_string` and the text built from
    the groups: the first group is the first `c` facts, every later group the
    next `c + 1` facts (the last one possibly shorter), as Python slicing
    gives them. */
module Lines {
  import opened Text
  import opened Facts

  function Flatten<T>(bs: seq<seq<T>>): seq<T>
    decreases |bs|
  {
    if |bs| == 0 then [] else bs[0] + Flatten(bs[1..])
  }

  function Min(a: nat, b: nat): nat
  {
    if a < b then a else b
  }

  /** Consecutive slices `s[i:i+k]` for `i` in `range(0, len(s), k)`. */
  function Chunks<T>(s: seq<T>, k: nat): seq<seq<T>>
    requires k > 0
    decreases |s|
  {
    if |s| == 0 then [] else [s[..Min(k, |s|)]] + Chunks(s[Min(k, |s|)..], k)
  }

  /** `fact_lines(names, facts)` with `c == len(names)`: `facts[0:c]`, then
      `facts[i:i+c+1]` for `i` in `range(c, len(facts), c+1)`. */
  function FactLines<T>(c: nat, facts: seq<T>): seq<seq<T>>
  {
    [facts[..Min(c, |facts|)]] + (if |facts| > c then Chunks(facts[c..], c + 1) else [])
  }

  lemma FlattenAppend<T>(a: seq<seq<T>>, b: seq<seq<T>>)
    ensures Flatten(a + b) == Flatten(a) + Flatten(b)
    decreases |a|
  {
    if a == [] {
      assert a + b == b;
    } else {
      assert (a + b)[1..] == a[1..] + b;
      FlattenAppend(a[1..], b);
    }
  }

  /** Growing a list of blocks by one block grows its concatenation by it. */
  lemma FlattenPrefix<T>(bs: seq<seq<T>>, i: nat)
    requires i < |bs|
    ensures Flatten(bs[..i + 1]) == Flatten(bs[..i]) + bs[i]
  {
    assert bs[..i + 1] == bs[..i] + [bs[i]];
    FlattenAppend(bs[..i], [bs[i]]);
    assert Flatten([bs[i]]) == bs[i] + Flatten([bs[i]][1..]);
  }

  /** The slices cover the list exactly, in order. */
  lemma {:induction false} FlattenChunks<T>(s: seq<T>, k: nat)
    requires k > 0
    ensures Flatten(Chunks(s, k)) == s
    decreases |s|
  {
    if |s| > 0 {
      var m := Min(k, |s|);
      FlattenChunks(s[m..], k);
      assert s[..m] + s[m..] == s;
    }
  }

  /** Every slice is non-empty and holds at most `k` elements; all but the
      last hold exactly `k`. */
  lemma {:induction false} ChunksSizes<T>(s: seq<T>, k: nat)
    requires k > 0
    ensures forall j :: 0 <= j < |Chunks(s, k)| ==> 1 <= |Chunks(s, k)[j]| <= k
    ensures forall j :: 0 <= j < |Chunks(s, k)| - 1 ==> |Chunks(s, k)[j]| == k
    decreases |s|
  {
    if |s| > 0 {
      ChunksSizes(s[Min(k, |s|)..], k);
    }
  }

  /** The line groups, concatenated, are the fact list they were cut from. */
  lemma FlattenFactLines<T>(c: nat, facts: seq<T>)
    ensures Flatten(FactLines(c, facts)) == facts
  {
    var m := Min(c, |facts|);
    if |facts| > c {
      FlattenChunks(facts[c..], c + 1);
      FlattenAppend([facts[..m]], Chunks(facts[c..], c + 1));
      assert facts[..m] + facts[c..] == facts;
    } else {
      assert facts[..m] == facts;
      FlattenAppend([facts[..m]], []);
    }
  }

  predicate Uniform<T>(bs: seq<seq<T>>, k: nat)
  {
    forall j :: 0 <= j < |bs| ==> |bs[j]| == k
  }

  /** Cutting a concatenation of blocks of size `k` into slices of size `k`
      gives back the blocks. */
  lemma {:induction false} ChunksFlatten<T>(bs: seq<seq<T>>, k: nat)
    requires k > 0 && Uniform(bs, k)
    ensures Chunks(Flatten(bs), k) == bs
    decreases |bs|
  {
    if |bs| > 0 {
      var s := Flatten(bs);
      assert s[..k] == bs[0];
      assert s[k..] == Flatten(bs[1..]);
      ChunksFlatten(bs[1..], k);
    }
  }

  /** Length and positions of a concatenation of blocks of size `k`. */
  lemma {:induction false} FlattenUniformAt<T>(bs: seq<seq<T>>, k: nat, i: nat, j: nat)
    requires Uniform(bs, k) && i < |bs| && j < k
    ensures |Flatten(bs)| == |bs| * k
    ensures i * k + j < |Flatten(bs)| && Flatten(bs)[i * k + j] == bs[i][j]
    decreases |bs|
  {
    if i == 0 {
      FlattenLength(bs[1..], k);
    } else {
      FlattenUniformAt(bs[1..], k, i - 1, j);
      assert i * k + j == k + ((i - 1) * k + j);
    }
  }

  lemma {:induction false} FlattenLength<T>(bs: seq<seq<T>>, k: nat)
    requires Uniform(bs, k)
    ensures |Flatten(bs)| == |bs| * k
    decreases |bs|
  {
    if |bs| > 0 {
      FlattenLength(bs[1..], k);
    }
  }

  /** A list made of a head of `c` elements and blocks of `c + 1` elements is
      grouped into exactly the head and those blocks. */
  lemma FactLinesOfBlocks<T>(c: nat, head: seq<T>, bs: seq<seq<T>>)
    requires |head| == c && Uniform(bs, c + 1)
    ensures FactLines(c, head + Flatten(bs)) == [head] + bs
  {
    var facts := head + Flatten(bs);
    assert facts[..c] == head;
    if |facts| > c {
      assert facts[c..] == Flatten(bs);
      ChunksFlatten(bs, c + 1);
    } else {
      FlattenLength(bs, c + 1);
    }
  }

  /** One line of the program text: each fact printed with a period
      appended, joined by single spaces. */
  function LineText(g: seq<Fact>): string
  {
    Join(" ", seq(|g|, k requires 0 <= k < |g| => Render(g[k]) + "."))
  }

  /** The program text: the line groups, each as `LineText`, joined by
      newlines, with no newline at the end. */
  function ProgramText(c: nat, facts: seq<Fact>): string
  {
    var lines := FactLines(c, facts);
    Join("\n", seq(|lines|, i requires 0 <= i < |lines| => LineText(lines[i])))
  }

  predicate TagsOneLine(facts: seq<Fact>)
  {
    forall k :: 0 <= k < |facts| ==> Free('\n', facts[k].tag)
  }

  lemma LineTextOneLine(g: seq<Fact>)
    requires TagsOneLine(g)
    ensures Free('\n', LineText(g))
  {
    var parts := seq(|g|, k requires 0 <= k < |g| => Render(g[k]) + ".");
    forall k | 0 <= k < |g| ensures Free('\n', parts[k]) {
      RenderOneLine(g[k]);
    }
    JoinFree('\n', " ", parts);
  }

  lemma TagsOneLineSlice(facts: seq<Fact>, lo: nat, hi: nat)
    requires TagsOneLine(facts) && lo <= hi <= |facts|
    ensures TagsOneLine(facts[lo..hi])
  {
    assert forall k :: 0 <= k < hi - lo ==> facts[lo..hi][k] == facts[lo + k];
  }

  lemma {:induction false} ChunksTagsOneLine(s: seq<Fact>, k: nat)
    requires k > 0 && TagsOneLine(s)
    ensures forall j :: 0 <= j < |Chunks(s, k)| ==> TagsOneLine(Chunks(s, k)[j])
    decreases |s|
  {
    if |s| > 0 {
      var m := Min(k, |s|);
      TagsOneLineSlice(s, 0, m);
      TagsOneLineSlice(s, m, |s|);
      ChunksTagsOneLine(s[m..], k);
    }
  }

  /** Reading the program text back line by line recovers the printed
      groups, one line per group, in order. */
  lemma ProgramTextLines(c: nat, facts: seq<Fact>)
    requires TagsOneLine(facts)
    ensures var lines := FactLines(c, facts);
            Split(ProgramText(c, facts), '\n') == seq(|lines|, i requires 0 <= i < |lines| => LineText(lines[i]))
  {
    var lines := FactLines(c, facts);
    var texts := seq(|lines|, i requires 0 <= i < |lines| => LineText(lines[i]));
    TagsOneLineSlice(facts, 0, Min(c, |facts|));
    if |facts| > c {
      TagsOneLineSlice(facts, c, |facts|);
      ChunksTagsOneLine(facts[c..], c + 1);
    }
    forall i | 0 <= i < |lines| ensures Free('\n', texts[i]) {
      LineTextOneLine(lines[i]);
    }
    SplitJoin(texts, '\n');
  }
}
