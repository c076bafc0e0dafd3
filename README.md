# qbi-dataform-utils in Dafny

qbi-dataform-utils is a small JavaScript library of SQL-fragment generators for
Dataform. Its single module, `index.js`, exports three generators:

- `deduplicate(relation, partition_by, order_by)` fills a fixed
  `select * … qualify row_number() over (partition by … order by …) = 1`
  template.
- `generate_surrogate_key(fields, default_null_value)` builds
  `to_hex(md5(…))` around one `coalesce(cast(<field> as string), '<sentinel>')`
  term per field. It uses an index loop that appends `|| '-' ||` after every
  term except the last.
- `union_relations(relations_dict, fields, key_column_name, source_column_name)`
  pushes one `select … from <relation>` branch per entry of the mapping into an
  array. It then joins the array with `\nunion all\n`.

The project has two modules:

- `Strings` (`strings.dfy`): `Join`, the model of JavaScript's
  `Array.prototype.join`. It also has `Lines`, which splits a string at its
  newlines and is proved to be the inverse of joining newline-free lines with
  `"\n"`. The rest are facts about joins: where each element sits, the length,
  how often a character occurs, and what an interspersed line gives.
- `DataformUtils` (`dataform_utils.dfy`): the three generators. `deduplicate`
  is a pure function. The other two generators loop: a counted `for` loop
  (index.js:18) and a `for…in` loop (index.js:29). Both become methods with
  `while` loops. Each method is proved equal to a pure map-then-join specification
  function (`SurrogateKey`, `UnionAll`), and the source's promises are proved
  as lemmas about those functions. The default parameters become wrapper
  methods that pass the constants of index.js:16 and index.js:27.

Strings are `seq<char>`. The relations mapping is an ordered
`seq<(string, string)>` of (alias, relation) pairs, so branch order is the
sequence order.

Two details of the generated text:

- In `deduplicate` the closing `) = 1` is on its own line, after a newline
  and eight spaces (index.js:12). It does not follow `order by` on the same line.
- An empty field list is handled: `generate_surrogate_key([])` is exactly
  `to_hex(md5())` (index.js:17, index.js:24).

## Model

| member | source | states |
|---|---|---|
| `DataformUtils.Deduplicate` | index.js:4-14 | The query is the template's nine lines (held by `DeduplicateLines`) joined by newlines: a leading empty line, then `select`, `*`, `from <relation>`, `qualify row_number() over (`, `partition by <partition_by>`, `order by <order_by>`, `) = 1` and a closing indentation line. |
| `DataformUtils.ParseDeduplicate` | index.js:5-13 | Any string it accepts is exactly the deduplication query of the three arguments it reads back. |
| `DataformUtils.DeduplicateRoundTrip` | index.js:5-13 | For newline-free arguments, the query gives back relation, partition and order expressions, each substituted once and in that order. |
| `DataformUtils.DeduplicateInjective` | index.js:5-13 | Distinct newline-free argument triples give distinct queries. |
| `DataformUtils.CoalesceTerm` | index.js:19 | A field's term begins with `coalesce(cast(` followed by the field, and ends with the sentinel quoted and the closing `')`. |
| `DataformUtils.CoalesceTerms` | index.js:18-19 | There is one term per field, and term i is built from `fields[i]` with the same sentinel in every term. |
| `DataformUtils.SurrogateKey` | index.js:17-24 | The key always begins with `to_hex(md5(` and ends with `))`. It is `to_hex(md5())` exactly when there are no fields. |
| `DataformUtils.GenerateSurrogateKey` | index.js:16-25 | The append loop computes the map-then-join specification: each field's term, with the dash separator `KeySeparator` between consecutive terms, inside the hash call. The loop invariant says that after i fields the accumulator holds the join of the first i terms, plus one trailing separator while fields remain. |
| `DataformUtils.GenerateSurrogateKeyWithDefault` | index.js:16 | With no sentinel given, the key uses `_qbi_dataform_utils_surrogate_key_null`. |
| `DataformUtils.SurrogateKeyTermAt` | index.js:18-22 | Term i comes after the earlier fields' terms and exactly one separator, and before exactly one separator and the later fields' terms. After the last term comes only the closing `))`. |
| `DataformUtils.SurrogateKeySingleField` | index.js:20-21 | One field gives exactly `to_hex(md5(coalesce(cast(<f> as string), '<sentinel>')))`: one term and no separator. |
| `DataformUtils.SurrogateKeySeparatorCount` | index.js:20-21 | When neither the fields nor the sentinel contain a pipe character, the key has exactly 4·(n−1) pipe characters for n ≥ 1 fields, none for n = 0. These are the four of each of the n−1 separators. |
| `DataformUtils.SelectBranch` | index.js:30 | A branch begins with `select ` and the fields joined by `, `, and ends with ` from <relation>`. |
| `DataformUtils.SelectBranches` | index.js:29-31 | There is one branch per entry, and branch i is built from entry i's alias and relation. |
| `DataformUtils.UnionAll` | index.js:32 | The union is the empty string exactly when there are no entries. |
| `DataformUtils.UnionRelations` | index.js:27-33 | The push loop computes the map-then-join specification. Its invariant: after i entries the array holds the branches of the first i entries, in order. |
| `DataformUtils.UnionRelationsWithDefaults` | index.js:27 | With only the relations given, fields are `['*']` and the tag columns are `_dataform_source_key` and `_dataform_source_relation`. |
| `DataformUtils.DefaultSelectBranch` | index.js:27-30 | With the defaults, a branch is `select *, '<alias>' as _dataform_source_key, '<relation>' as _dataform_source_relation from <relation>`. |
| `DataformUtils.UnionBranchAt` | index.js:29-32 | Branch i comes after the union of the earlier entries and one separator, and before one separator and the union of the later entries. |
| `DataformUtils.UnionLines` | index.js:28-32 | Assume no alias, relation, field or column name contains a newline. Then the union's lines are the n branches in entry order with a `union all` line between each two: 2n−1 lines, n−1 of them `union all`. |
| `Strings.Join` | index.js:30-32 | The join of no elements is the empty string, and the join of one element is that element with no separator. Otherwise neighbours are separated by `sep` (see `Strings.JoinAround`) and nothing follows the last element (see `Strings.JoinEnds`). |
| `Strings.JoinEnds` | index.js:32 | A join begins with the first element and ends with the last: no separator follows the last element. |
| `Strings.JoinLength` | index.js:32 | A join of n ≥ 1 elements is as long as the elements together plus n−1 separators. |
| `Strings.JoinAround` | index.js:32 | In a join, element i sits between the join of the elements before it plus one separator and one separator plus the join of the elements after it. |
| `Strings.JoinOccurrences` | index.js:32 | A character's count in a join is its count in the elements plus n−1 times its count in the separator. |

## Left out

- SQL meaning: `md5`, `to_hex`, `qualify row_number()` and `union all` are evaluated by the warehouse, not by this library, so the model only builds their text.
- JavaScript `for…in` enumeration over `relations_dict` (its key order and any inherited enumerable properties): the mapping is an explicit ordered sequence of pairs instead.
- Duplicate aliases: a JavaScript object cannot hold them. The model accepts any sequence of pairs, duplicates included, and makes one branch per pair.
- Conversion of non-string values: the template literals and `Array.prototype.join` turn numbers, `null` and `undefined` into strings. The model takes strings only.
- Default parameters when a caller passes `undefined` or an explicit empty array: the defaults are modelled only as the two wrapper methods with the literal constants.
- Quoting and escaping: the source performs none, so there is nothing to model. Arguments are substituted verbatim, and the newline-free and `|`-free conditions of some lemmas exist only so the lemmas can read the output back.
- `module.exports` (index.js:35): there is no module system to model.
