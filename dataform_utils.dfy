/**
  The three SQL-fragment generators of qbi-dataform-utils (index.js):
  `deduplicate`, `generate_surrogate_key` and `union_relations`. Each one only
  builds a string; what the SQL does when the warehouse runs it is not modelled.
 */
module DataformUtils {
  import opened Strings

  datatype Option<T> = None | Some(value: T)

  // ---------------------------------------------------------------------------
  // deduplicate(relation, partition_by, order_by)
  // ---------------------------------------------------------------------------

  /**
    The deduplication template as its nine lines: the template literal opens
    with a newline and closes with four spaces of indentation.
   */
  function DeduplicateLines(relation: string, partitionBy: string, orderBy: string): seq<string> {
    [ "",
      "        select",
      "            *",
      "        from " + relation,
      "        qualify row_number() over (",
      "            partition by " + partitionBy,
      "            order by " + orderBy,
      "        ) = 1",
      "    " ]
  }

  /**
    The query that keeps one row per `partitionBy` group of `relation`, the
    first by `orderBy`. The arguments are substituted verbatim; the result is
    the template's nine lines joined by newlines. The body spells the template
    literal out line by line, each line followed by the rest of the template.
   */
  function Deduplicate(relation: string, partitionBy: string, orderBy: string): (r: string)
    ensures r == Join(DeduplicateLines(relation, partitionBy, orderBy), "\n")
  {
    var nl := "\n";
    var l := DeduplicateLines(relation, partitionBy, orderBy);
    assert Join(l, nl) == l[0] + nl + (l[1] + nl + (l[2] + nl + (l[3] + nl + (l[4] + nl
      + (l[5] + nl + (l[6] + nl + (l[7] + nl + l[8]))))))) by {
      forall i | 0 <= i < 8 ensures Join(l[i..], nl) == l[i] + nl + Join(l[i + 1..], nl) {
        assert l[i..][1..] == l[i + 1..];
      }
      assert l[8..] == [l[8]];
    }
    "" + nl
      + ("        select" + nl
      + ("            *" + nl
      + ("        from " + relation + nl
      + ("        qualify row_number() over (" + nl
      + ("            partition by " + partitionBy + nl
      + ("            order by " + orderBy + nl
      + ("        ) = 1" + nl
      + "    ")))))))
  }

  /** The three arguments read back from a query shaped like the deduplication template. */
  function ParseDeduplicate(s: string): (r: Option<(string, string, string)>)
    ensures r.Some? ==> s == Deduplicate(r.value.0, r.value.1, r.value.2)
  {
    var l := Lines(s);
    var from, partition, order := "        from ", "            partition by ", "            order by ";
    if |l| == 9 && from <= l[3] && partition <= l[5] && order <= l[6]
      && l == DeduplicateLines(l[3][|from|..], l[5][|partition|..], l[6][|order|..])
    then Some((l[3][|from|..], l[5][|partition|..], l[6][|order|..]))
    else None
  }

  /**
    Arguments without a newline can be read back from the query: the template
    substitutes each of them, once, in the order relation, partition, order.
   */
  lemma DeduplicateRoundTrip(relation: string, partitionBy: string, orderBy: string)
    requires '\n' !in relation && '\n' !in partitionBy && '\n' !in orderBy
    ensures ParseDeduplicate(Deduplicate(relation, partitionBy, orderBy)) == Some((relation, partitionBy, orderBy))
  {
    var lines := DeduplicateLines(relation, partitionBy, orderBy);
    forall j | 0 <= j < |lines| ensures '\n' !in lines[j] {
    }
    LinesOfJoin(lines);
  }

  /** On newline-free arguments `Deduplicate` is injective. */
  lemma DeduplicateInjective(r1: string, p1: string, o1: string, r2: string, p2: string, o2: string)
    requires '\n' !in r1 && '\n' !in p1 && '\n' !in o1
    requires '\n' !in r2 && '\n' !in p2 && '\n' !in o2
    requires Deduplicate(r1, p1, o1) == Deduplicate(r2, p2, o2)
    ensures r1 == r2 && p1 == p2 && o1 == o2
  {
    DeduplicateRoundTrip(r1, p1, o1);
    DeduplicateRoundTrip(r2, p2, o2);
  }

  // ---------------------------------------------------------------------------
  // generate_surrogate_key(fields, default_null_value)
  // ---------------------------------------------------------------------------

  /** The sentinel hashed in place of a null field when the caller gives none. */
  const DefaultNullValue := "_qbi_dataform_utils_surrogate_key_null"

  /** What goes between two consecutive coalesce terms. */
  const KeySeparator := " || '-' || "

  /** The opening and the closing of the hashed expression. */
  const KeyOpen := "to_hex(md5("
  const KeyClose := "))"

  /**
    One field's term: the field cast to a string, with `nullValue` quoted as
    its replacement for null. The term begins with the cast of the field and
    ends with the quoted sentinel.
   */
  function CoalesceTerm(field: string, nullValue: string): (t: string)
    ensures "coalesce(cast(" + field <= t
    ensures EndsWith(t, "'" + nullValue + "')")
  {
    var head := "coalesce(cast(" + field;
    var tail := "'" + nullValue + "')";
    assert "coalesce(cast(" + field + " as string), '" + nullValue + "')" == head + " as string), " + tail;
    "coalesce(cast(" + field + " as string), '" + nullValue + "')"
  }

  /** The terms of `fields`, in field order, all with the same sentinel. */
  function CoalesceTerms(fields: seq<string>, nullValue: string): (ts: seq<string>)
    ensures |ts| == |fields|
    ensures forall i :: 0 <= i < |fields| ==> ts[i] == CoalesceTerm(fields[i], nullValue)
  {
    seq(|fields|, i requires 0 <= i < |fields| => CoalesceTerm(fields[i], nullValue))
  }

  /**
    The surrogate-key expression: the coalesce terms joined by
    `KeySeparator`, hashed and rendered as hex.
   */
  function SurrogateKey(fields: seq<string>, nullValue: string): (r: string)
    ensures KeyOpen <= r && EndsWith(r, KeyClose)
    ensures |fields| == 0 <==> r == "to_hex(md5())"
  {
    KeyOpen + Join(CoalesceTerms(fields, nullValue), KeySeparator) + KeyClose
  }

  /**
    generate_surrogate_key: appends each field's term to `sql`, and the
    separator after every term but the last, then wraps `sql` in the hash.
   */
  method GenerateSurrogateKey(fields: seq<string>, nullValue: string) returns (key: string)
    ensures key == SurrogateKey(fields, nullValue)
  {
    ghost var terms := CoalesceTerms(fields, nullValue);
    var sql := "";
    var i := 0;
    while i < |fields|
      invariant 0 <= i <= |fields|
      invariant i == 0 ==> sql == ""
      invariant 0 < i < |fields| ==> sql == Join(terms[..i], KeySeparator) + KeySeparator
      invariant 0 < i == |fields| ==> sql == Join(terms[..i], KeySeparator)
    {
      var term := CoalesceTerm(fields[i], nullValue);
      sql := sql + term;
      if i > 0 {
        assert terms[..i + 1] == terms[..i] + [term];
        JoinAppend(terms[..i], [term], KeySeparator);
        assert sql == Join(terms[..i + 1], KeySeparator) by {
          assert Join(terms[..i + 1], KeySeparator) == Join(terms[..i], KeySeparator) + KeySeparator + term;
        }
      } else {
        assert terms[..1] == [term];
      }
      if i < |fields| - 1 {
        sql := sql + KeySeparator;
      }
      i := i + 1;
    }
    assert terms[..|fields|] == terms;
    key := KeyOpen + sql + KeyClose;
  }

  /** generate_surrogate_key called without a sentinel. */
  method GenerateSurrogateKeyWithDefault(fields: seq<string>) returns (key: string)
    ensures key == SurrogateKey(fields, DefaultNullValue)
  {
    key := GenerateSurrogateKey(fields, DefaultNullValue);
  }

  /**
    Term `i` of the key is built from `fields[i]` and sits after the terms of
    the earlier fields and one separator, and before one separator and the
    terms of the later fields: no separator follows the last term.
   */
  lemma SurrogateKeyTermAt(fields: seq<string>, nullValue: string, i: nat)
    requires i < |fields|
    ensures SurrogateKey(fields, nullValue) ==
      KeyOpen
      + ((if i == 0 then "" else Join(CoalesceTerms(fields[..i], nullValue), KeySeparator) + KeySeparator)
         + CoalesceTerm(fields[i], nullValue)
         + (if i == |fields| - 1 then "" else KeySeparator + Join(CoalesceTerms(fields[i + 1..], nullValue), KeySeparator)))
      + KeyClose
  {
    var terms := CoalesceTerms(fields, nullValue);
    var before := if i == 0 then "" else Join(CoalesceTerms(fields[..i], nullValue), KeySeparator) + KeySeparator;
    var after := if i == |fields| - 1 then "" else KeySeparator + Join(CoalesceTerms(fields[i + 1..], nullValue), KeySeparator);
    assert Join(terms, KeySeparator) == before + CoalesceTerm(fields[i], nullValue) + after by {
      JoinAround(terms, KeySeparator, i);
      CoalesceTermsSlice(fields, nullValue, 0, i);
      CoalesceTermsSlice(fields, nullValue, i + 1, |fields|);
      assert fields[0..i] == fields[..i] && terms[0..i] == terms[..i];
      assert fields[i + 1..|fields|] == fields[i + 1..] && terms[i + 1..|terms|] == terms[i + 1..];
    }
  }

  /** The terms of a slice of the fields are that slice of the terms. */
  lemma CoalesceTermsSlice(fields: seq<string>, nullValue: string, lo: nat, hi: nat)
    requires lo <= hi <= |fields|
    ensures CoalesceTerms(fields[lo..hi], nullValue) == CoalesceTerms(fields, nullValue)[lo..hi]
  {
  }

  /** A single field gives exactly one coalesce term and no separator. */
  lemma SurrogateKeySingleField(field: string, nullValue: string)
    ensures SurrogateKey([field], nullValue) ==
      "to_hex(md5(coalesce(cast(" + field + " as string), '" + nullValue + "')))"
  {
    var terms := CoalesceTerms([field], nullValue);
    assert terms == [CoalesceTerm(field, nullValue)];
  }

  /**
    When neither the fields nor the sentinel contain '|', the key has exactly
    four '|' per separator: n fields give n - 1 separators.
   */
  lemma SurrogateKeySeparatorCount(fields: seq<string>, nullValue: string)
    requires '|' !in nullValue
    requires forall i :: 0 <= i < |fields| ==> '|' !in fields[i]
    ensures Occurrences(SurrogateKey(fields, nullValue), '|') == if |fields| == 0 then 0 else 4 * (|fields| - 1)
  {
    var terms := CoalesceTerms(fields, nullValue);
    forall i | 0 <= i < |terms| ensures '|' !in terms[i] {
      CoalesceTermAvoidsPipe(fields[i], nullValue);
    }
    SeparatorPipes();
    WrapperPipes();
    FramedJoinOccurrences(KeyOpen, terms, KeySeparator, KeyClose, '|', 4);
  }

  /** The template text of a term has no '|'. */
  lemma CoalesceTermAvoidsPipe(field: string, nullValue: string)
    requires '|' !in field && '|' !in nullValue
    ensures '|' !in CoalesceTerm(field, nullValue)
  {
    assert '|' !in "coalesce(cast(" && '|' !in " as string), '" && '|' !in "')";
  }

  /** The separator has four '|'. */
  lemma SeparatorPipes()
    ensures Occurrences(KeySeparator, '|') == 4
  {
  }

  /** The hash call around the terms has no '|'. */
  lemma WrapperPipes()
    ensures '|' !in KeyOpen && '|' !in KeyClose
  {
  }

  // ---------------------------------------------------------------------------
  // union_relations(relations_dict, fields, key_column_name, source_column_name)
  // ---------------------------------------------------------------------------

  /** The defaults of union_relations: every column, and the two tag columns' names. */
  const DefaultFields: seq<string> := ["*"]
  const DefaultKeyColumnName := "_dataform_source_key"
  const DefaultSourceColumnName := "_dataform_source_relation"

  /** The line placed between two branches. */
  const UnionLine := "union all"

  /** What goes between two branches: "union all" on a line of its own. */
  const UnionSeparator := "\nunion all\n"

  /**
    The branch for one entry: `fields` joined by ", ", then the alias quoted
    as the key column and the relation quoted as the source column, selected
    from the relation itself.
   */
  function SelectBranch(alias: string, relation: string, fields: seq<string>,
                        keyColumnName: string, sourceColumnName: string): (b: string)
    ensures "select " + Join(fields, ", ") <= b
    ensures EndsWith(b, " from " + relation)
  {
    "select " + Join(fields, ", ") + ", '" + alias + "' as " + keyColumnName
      + ", '" + relation + "' as " + sourceColumnName + " from " + relation
  }

  /** One branch per entry of `relations`, in the same order. */
  function SelectBranches(relations: seq<(string, string)>, fields: seq<string>,
                          keyColumnName: string, sourceColumnName: string): (bs: seq<string>)
    ensures |bs| == |relations|
    ensures forall i :: 0 <= i < |relations| ==>
      bs[i] == SelectBranch(relations[i].0, relations[i].1, fields, keyColumnName, sourceColumnName)
  {
    seq(|relations|, i requires 0 <= i < |relations| =>
      SelectBranch(relations[i].0, relations[i].1, fields, keyColumnName, sourceColumnName))
  }

  /**
    The union of all branches. It is empty exactly when there are no
    entries, since every branch starts with "select ".
   */
  function UnionAll(relations: seq<(string, string)>, fields: seq<string>,
                    keyColumnName: string, sourceColumnName: string): (r: string)
    ensures r == "" <==> |relations| == 0
  {
    var branches := SelectBranches(relations, fields, keyColumnName, sourceColumnName);
    var r := Join(branches, UnionSeparator);
    if |branches| > 0 then JoinEnds(branches, UnionSeparator); r else r
  }

  /**
    union_relations: pushes one branch per entry, in iteration order, onto
    `selectStatements`, then joins them with `UnionSeparator`.
   */
  method UnionRelations(relations: seq<(string, string)>, fields: seq<string>,
                        keyColumnName: string, sourceColumnName: string) returns (sql: string)
    ensures sql == UnionAll(relations, fields, keyColumnName, sourceColumnName)
  {
    var selectStatements: seq<string> := [];
    var i := 0;
    while i < |relations|
      invariant 0 <= i <= |relations|
      invariant selectStatements == SelectBranches(relations[..i], fields, keyColumnName, sourceColumnName)
    {
      var (alias, relation) := relations[i];
      selectStatements := selectStatements + [SelectBranch(alias, relation, fields, keyColumnName, sourceColumnName)];
      i := i + 1;
    }
    assert relations[..|relations|] == relations;
    sql := Join(selectStatements, UnionSeparator);
  }

  /** union_relations called with only the relations. */
  method UnionRelationsWithDefaults(relations: seq<(string, string)>) returns (sql: string)
    ensures sql == UnionAll(relations, DefaultFields, DefaultKeyColumnName, DefaultSourceColumnName)
  {
    sql := UnionRelations(relations, DefaultFields, DefaultKeyColumnName, DefaultSourceColumnName);
  }

  /** With the defaults a branch selects every column and appends the two tag columns. */
  lemma DefaultSelectBranch(alias: string, relation: string)
    ensures SelectBranch(alias, relation, DefaultFields, DefaultKeyColumnName, DefaultSourceColumnName) ==
      "select " + "*" + ", '" + alias + "' as " + "_dataform_source_key"
      + ", '" + relation + "' as " + "_dataform_source_relation" + " from " + relation
  {
  }

  /**
    Branch `i` is built from entry `i` and sits after the earlier branches and
    one separator, and before one separator and the later branches.
   */
  lemma UnionBranchAt(relations: seq<(string, string)>, fields: seq<string>,
                      keyColumnName: string, sourceColumnName: string, i: nat)
    requires i < |relations|
    ensures UnionAll(relations, fields, keyColumnName, sourceColumnName) ==
      (if i == 0 then "" else UnionAll(relations[..i], fields, keyColumnName, sourceColumnName) + UnionSeparator)
      + SelectBranch(relations[i].0, relations[i].1, fields, keyColumnName, sourceColumnName)
      + (if i == |relations| - 1 then "" else UnionSeparator + UnionAll(relations[i + 1..], fields, keyColumnName, sourceColumnName))
  {
    var branches := SelectBranches(relations, fields, keyColumnName, sourceColumnName);
    JoinAround(branches, UnionSeparator, i);
    assert branches[..i] == SelectBranches(relations[..i], fields, keyColumnName, sourceColumnName);
    assert branches[i + 1..] == SelectBranches(relations[i + 1..], fields, keyColumnName, sourceColumnName);
  }

  /**
    When no alias, relation, field or column name contains a newline, the
    lines of the union are the branches in entry order with a "union all"
    line between every two: n entries give n branch lines and n - 1
    "union all" lines.
   */
  lemma UnionLines(relations: seq<(string, string)>, fields: seq<string>,
                   keyColumnName: string, sourceColumnName: string)
    requires |relations| > 0
    requires forall i :: 0 <= i < |relations| ==> '\n' !in relations[i].0 && '\n' !in relations[i].1
    requires forall j :: 0 <= j < |fields| ==> '\n' !in fields[j]
    requires '\n' !in keyColumnName && '\n' !in sourceColumnName
    ensures Lines(UnionAll(relations, fields, keyColumnName, sourceColumnName)) ==
      Intersperse(SelectBranches(relations, fields, keyColumnName, sourceColumnName), UnionLine)
  {
    var branches := SelectBranches(relations, fields, keyColumnName, sourceColumnName);
    var lines := Intersperse(branches, UnionLine);
    assert UnionSeparator == "\n" + UnionLine + "\n";
    JoinThroughLine(branches, UnionLine);
    forall j | 0 <= j < |lines| ensures '\n' !in lines[j] {
      IntersperseAt(branches, UnionLine, j);
      if j % 2 == 0 {
        SelectBranchAvoidsNewline(relations[j / 2].0, relations[j / 2].1, fields, keyColumnName, sourceColumnName);
      }
    }
    LinesOfJoin(lines);
  }

  /** A branch built from newline-free parts is a single line. */
  lemma SelectBranchAvoidsNewline(alias: string, relation: string, fields: seq<string>,
                                  keyColumnName: string, sourceColumnName: string)
    requires '\n' !in alias && '\n' !in relation
    requires forall j :: 0 <= j < |fields| ==> '\n' !in fields[j]
    requires '\n' !in keyColumnName && '\n' !in sourceColumnName
    ensures '\n' !in SelectBranch(alias, relation, fields, keyColumnName, sourceColumnName)
  {
    assert '\n' !in ", ";
    JoinAvoids(fields, ", ", '\n');
    assert '\n' !in "select " && '\n' !in ", '" && '\n' !in "' as " && '\n' !in " from ";
  }
}
