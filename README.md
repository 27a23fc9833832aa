# dafact table encoder, modelled in Dafny

dafact turns a table (rows of cells, one name per column) into ground facts
for the clingo answer-set solver. The core is the encoder in
`dafact/encoders/_encoders.py`: `Encoder` validates and stores the names,
and `NumpyLikeEncoder` produces

* the fact list (`as_clingo_facts`): one `feature(name)` fact per column,
  then for every row `i` an `instance(i)` fact followed by one
  `value(i, name, cell)` fact per column;
* the program text (`as_program_string`): the feature facts on the first
  line, each row's block on a line of its own, every fact printed with a
  trailing period, facts separated by spaces and lines by newlines.

Both results sit behind a one-slot memo made of three fields: the cached
facts, the cached text and the key of the last call
`(feature_names, instance_func, feature_func, value_func)`.

Modules:

* `Wrappers` (`wrappers.dfy`): `Option` (Python's `None`) and `Result`
  (the raised `ValueError`).
* `Text` (`text.dfy`): decimal numerals, clingo's quoting of strings,
  `str.join` and splitting at a character, each with its inverse.
* `Facts` (`facts.dfy`): cells, symbols, facts, and how clingo prints a fact.
* `Lines` (`lines.dfy`): the `fact_lines` grouping and the program text.
* `Encoding` (`encoding.dfy`): default and overriding names, the encoding of
  a table, and its count, order and line structure.
* `Cache` (`cache.dfy`): the memo as transitions over the three fields, as
  written and corrected.
* `Encoders` (`encoder.dfy`): the `Encoder` class, whose fields are the
  table, the stored names and the three cache fields; its methods are
  proved to follow the `Cache` transitions, and the encoding loop is proved
  to build exactly `Encoding.Encode`.

Where the tests and the code disagree, the model follows the code:

* default names are `f1`..`fC` (the tests expect `f0`..);
* facts always carry the stored names, an overriding name list only enters
  the cache key (the tests expect the override in the text);
* a feature fact has the single argument `String(name)` and a value fact the
  arguments `Number(i), String(name), cell` (the tests expect a column index
  in both);
* the value argument is a `Number` for a scalar cell and a `String`
  otherwise, with no rounding or integer coercion.

## Model

| member | source | states |
|---|---|---|
| Text.ParseNatToString | dafact/encoders/_encoders.py:9 | reading back the decimal numeral of a number gives the number |
| Text.NatToStringInjective | dafact/encoders/_encoders.py:9 | different numbers have different numerals |
| Text.IntToStringRoundTrip | dafact/encoders/_encoders.py:95 | a printed Number, sign included, reads back as the same integer |
| Text.UnescapeEscape | dafact/encoders/_encoders.py:95 | escaping a String symbol's text loses nothing: unescaping restores it |
| Text.Quote | dafact/encoders/_encoders.py:95 | a printed String is enclosed in double quotes, holds no newline, and the text between the quotes unescapes to the string |
| Text.JoinFree | dafact/encoders/_encoders.py:93-98 | a character absent from the separator and from every part is absent from the joined text |
| Text.SplitJoin | dafact/encoders/_encoders.py:93 | splitting a newline-joined text at newlines gives back the lines when none holds a newline |
| Facts.RenderOneLine | dafact/encoders/_encoders.py:95 | a printed fact holds no newline when its tag holds none |
| Lines.FlattenChunks | dafact/encoders/_encoders.py:84-85 | the slices of length k taken by the loop, concatenated, are the list sliced |
| Lines.ChunksSizes | dafact/encoders/_encoders.py:84-85 | every slice is non-empty and at most k long, and all but the last are exactly k long |
| Lines.FlattenFactLines | dafact/encoders/_encoders.py:80-85 | for any fact list the groups `fact_lines` yields, concatenated, are that list |
| Lines.ChunksFlatten | dafact/encoders/_encoders.py:84-85 | slicing a concatenation of k-long blocks into k-long slices gives back the blocks |
| Lines.FactLinesOfBlocks | dafact/encoders/_encoders.py:80-85 | a list of a C-long head and (C+1)-long blocks is grouped into exactly the head and the blocks |
| Lines.ProgramTextLines | dafact/encoders/_encoders.py:93-98 | splitting the program text at newlines gives one line per group, each the group's facts printed with a period and joined by spaces |
| Encoding.DefaultNamesSpec | dafact/encoders/_encoders.py:8-9 | without names, column j is named `f` followed by j+1, and no two default names are equal |
| Encoding.DefaultNamesOfThree | dafact/encoders/_encoders.py:9 | three columns are named `f1`, `f2`, `f3`; the first name is not `f0` |
| Encoding.ResolveNames | dafact/encoders/_encoders.py:28-34 | no override gives the stored names; an override of length C is returned unchanged; any other length is an error; an accepted result always has C names |
| Encoding.InitialNames | dafact/encoders/_encoders.py:7-14 | construction fails exactly when the given names (or the table's column labels) do not have C entries; success stores the given names unchanged, else the column labels unchanged, else `f1`..`fC`; always C of them |
| Encoding.EncodeLayout | dafact/encoders/_encoders.py:58-71 | the encoding has C + R(C+1) facts; position j < C is `feature(names[j])`; row i's block starts at C + i(C+1) with `instance(i)`, followed by `value(i, names[j], arg)` for j = 0..C-1 in order, with arg a Number for a scalar cell and a String otherwise; each fact carries its caller-supplied tag |
| Encoding.EncodeInstances | dafact/encoders/_encoders.py:61-63 | for every row i, position C + i(C+1) of the encoding exists and is `instance(i)` with the instance tag |
| Encoding.EncodeValues | dafact/encoders/_encoders.py:64-70 | for every row i and column j, the fact just after row i's instance fact, j places on, is `value(i, names[j], arg)` with the value tag and arg a Number for a scalar cell, a String otherwise |
| Encoding.EncodeLines | dafact/encoders/_encoders.py:80-85 | `fact_lines` cuts a full encoding into R+1 groups: the C feature facts, then each row's C+1-fact block |
| Encoding.ProgramLines | dafact/encoders/_encoders.py:89-98 | the program text of a table has R+1 lines: line 0 prints the feature facts and line i+1 row i's block |
| Cache.FactsCallSpec | dafact/encoders/_encoders.py:51-77 | a wrong-length override raises and changes nothing; otherwise the result is the encoding of the stored names, the key and fact cache hold this call's key and result, the text cache is untouched and a hit changes nothing |
| Cache.FactsCallTwice | dafact/encoders/_encoders.py:54-56 | a second call with the same arguments returns the first call's list and changes no field |
| Cache.OverrideOnlyKey | dafact/encoders/_encoders.py:52-75 | two overrides of length C give the same facts; the override only appears in the stored key |
| Cache.TextCallSpec | dafact/encoders/_encoders.py:87-99 | a wrong-length override raises and changes nothing; the text cache hits when the text is filled and the shared key matches; after a call the key and the text cache hold this call's key and text; on a miss the text is the program text of the encoding and the fact cache holds that encoding |
| Cache.TextCallTwice | dafact/encoders/_encoders.py:89-90 | a second text call with the same arguments returns the same text and changes no field |
| Cache.StaleText | dafact/encoders/_encoders.py:24-26 | after a text call and a facts call with other tags, a text call with those tags returns the earlier text |
| Cache.StaleTextExample | dafact/encoders/_encoders.py:89-99 | for one column and no rows, the text returned after changing the feature tag is not the text of the new encoding |
| Cache.FactsCallFixedCorrect | dafact/encoders/_encoders.py:73-77 | with the text cache emptied on a miss, both caches stay coherent with the key and the result is the encoding |
| Cache.TextCallFixedCorrect | dafact/encoders/_encoders.py:87-99 | with the correction, every returned text, hit or miss, is the program text of the requested encoding, and an error arises exactly for a wrong-length override |
| Encoders.Encoder.constructor | dafact/encoders/_encoders.py:13-18 | stores the table and names, both caches empty and no call remembered |
| Encoders.Encoder.New | dafact/encoders/_encoders.py:45-49 | fails exactly when the names (or the column labels) have the wrong length; otherwise a fresh encoder with the initial names and empty caches |
| Encoders.Encoder.AsClingoFacts | dafact/encoders/_encoders.py:51-77 | new cache fields and result are those of `Cache.FactsCall`; every returned list is the encoding of the stored names |
| Encoders.Encoder.AsProgramString | dafact/encoders/_encoders.py:79-99 | new cache fields and result are those of `Cache.TextCall` |

## Findings

| source | as written | input that shows it | evidently intended | confidence | as-written member | corrected member |
|---|---|---|---|---|---|---|
| dafact/encoders/_encoders.py:24-26 | the text cache is checked against `_last_call`, which `as_clingo_facts` also overwrites, so the text can belong to an older key | one column `f1`, no rows: `as_program_string()`, then `as_clingo_facts(feature_func='attr')`, then `as_program_string(feature_func='attr')` returns `feature("f1").` instead of `attr("f1").` | the cached text is returned only for the key it was computed for (fixed here by emptying the text cache whenever the fact list is recomputed) | medium; not executed | Cache.StaleTextExample | Cache.TextCallFixedCorrect |

The `Encoder` class follows the code as written (`Cache.FactsCall`,
`Cache.TextCall`); the corrected pair `Cache.FactsCallFixed` and
`Cache.TextCallFixed` is stated beside it with its coherence proof.

## Left out

* The abstract base `Encoder`: only `NumpyLikeEncoder` is modelled, as the class `Encoders.Encoder` that merges the base's validation and caches with the subclass's column-label fallback and encoding; the base's own `as_clingo_facts` and `as_program_string`, which raise `NotImplementedError`, are not.
* `CsvEncoder` and CSV loading (`have_names`, `omit_names`, `delimiter`): file I/O, and the class has no code of its own.
* `Dafacter` (`dafact/_main.py`): a facade that dispatches on whether the data is a path; no logic of its own.
* The command line (`dafact/__main__.py`), `setup.py` and the example scripts: argument parsing, file writing, packaging.
* numpy and pandas: `asarray` and the 2-D shape are the `Table` value with its column count and rectangular rows; the pandas `columns` labels are an optional name list.
* `isscalar` is modelled as "the cell is an integer": float cells, numpy string scalars (which `isscalar` accepts and clingo's `Number` rejects) and clingo's 32-bit range for `Number` are not modelled.
* clingo's `Function`, `Number`, `String` and `str()` are the `Fact` and `Symbol` datatypes and `Facts.Render`; the validity of a tag as a clingo name is not checked, and an empty tag, which clingo turns into a tuple printed `("f1",)`, is printed by `Facts.Render` as `("f1")`.
* A cell that is neither a scalar nor a string (`None`, a list) makes clingo's `String` raise; the model has no such cell, since `Str` stands for a non-scalar cell given by its text.
* The table and the stored names are values: a caller changing the array or the name list in place after construction is not modelled. The source keeps references to both (`__init__` stores them as given and `asarray` does not copy an array), and its memo key leaves out the data, so after such a change it would still hit and return the facts, and then the text, of the old contents.
* Identity of the returned cached list, and callers mutating it, are not modelled: lists are values, so "the same object" is modelled as an equal value with no field changed.
* Key comparison is on values: a numpy or pandas name array compared element-wise by `==` is not modelled.
* The numeric scaling by `10^factor` with rounding and the `numerical_columns` mask that the tests exercise: floating point, and absent from this encoder.
* Lines.ProgramTextLines: stated for tags without a newline; a tag holding a newline would break the one-line-per-group reading.
* Encoding.ProgramLines: stated for tags without a newline, for the same reason.
