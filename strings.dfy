/**
  String helpers shared by the SQL generators: `Join` (JavaScript's
  `Array.prototype.join`), its inverse for the newline separator (`Lines`),
  and the facts about them that the generators' properties rest on.
 */
module Strings {

  /** True when `suffix` is a suffix of `s`. */
  predicate EndsWith(s: string, suffix: string) {
    |suffix| <= |s| && s[|s| - |suffix|..] == suffix
  }

  /** The sum of the lengths of `parts`. */
  function TotalLength(parts: seq<string>): nat {
    if |parts| == 0 then 0 else |parts[0]| + TotalLength(parts[1..])
  }

  /** How often `c` occurs in `s`. */
  function Occurrences(s: string, c: char): nat {
    multiset(s)[c]
  }

  /** How often `c` occurs in all of `parts` together. */
  function SumOccurrences(parts: seq<string>, c: char): (n: nat)
    ensures n == 0 <==> forall j :: 0 <= j < |parts| ==> c !in parts[j]
  {
    if |parts| == 0 then 0 else Occurrences(parts[0], c) + SumOccurrences(parts[1..], c)
  }

  /**
    `parts` in order with `sep` between neighbours and after none of them:
    the empty list gives "", one element gives that element.
   */
  function Join(parts: seq<string>, sep: string): (r: string)
    ensures |parts| == 0 ==> r == ""
    ensures |parts| == 1 ==> r == parts[0]
  {
    if |parts| == 0 then ""
    else if |parts| == 1 then parts[0]
    else parts[0] + sep + Join(parts[1..], sep)
  }

  /** A join starts with the first element and ends with the last: nothing follows it. */
  lemma {:induction false} JoinEnds(parts: seq<string>, sep: string)
    requires |parts| > 0
    ensures parts[0] <= Join(parts, sep)
    ensures EndsWith(Join(parts, sep), parts[|parts| - 1])
  {
    if |parts| > 1 {
      JoinEnds(parts[1..], sep);
    }
  }

  /** A join is as long as its elements together plus |parts| - 1 separators. */
  lemma {:induction false} JoinLength(parts: seq<string>, sep: string)
    requires |parts| > 0
    ensures |Join(parts, sep)| == TotalLength(parts) + (|parts| - 1) * |sep|
  {
    if |parts| > 1 {
      JoinLength(parts[1..], sep);
      var n, k := |parts| - 2, |sep|;
      assert (n + 1) * k == n * k + k;
    }
  }

  /** Joining two non-empty lists puts exactly one separator between them. */
  lemma {:induction false} JoinAppend(a: seq<string>, b: seq<string>, sep: string)
    requires |a| > 0 && |b| > 0
    ensures Join(a + b, sep) == Join(a, sep) + sep + Join(b, sep)
  {
    if |a| == 1 {
      assert (a + b)[1..] == b;
    } else {
      assert (a + b)[1..] == a[1..] + b;
      JoinAppend(a[1..], b, sep);
    }
  }

  /**
    Element `i` of a joined list sits between the join of the elements before
    it (followed by one separator, if there are any) and the join of the
    elements after it (preceded by one separator, if there are any).
   */
  lemma JoinAround(parts: seq<string>, sep: string, i: nat)
    requires i < |parts|
    ensures Join(parts, sep) ==
      (if i == 0 then "" else Join(parts[..i], sep) + sep)
      + parts[i]
      + (if i == |parts| - 1 then "" else sep + Join(parts[i + 1..], sep))
  {
    var rest := Join(parts[i..], sep);
    if i < |parts| - 1 {
      assert parts[i..] == [parts[i]] + parts[i + 1..];
      JoinAppend([parts[i]], parts[i + 1..], sep);
      assert rest == parts[i] + sep + Join(parts[i + 1..], sep);
    } else {
      assert parts[i..] == [parts[i]];
      assert rest == parts[i];
    }
    if i > 0 {
      assert parts == parts[..i] + parts[i..];
      JoinAppend(parts[..i], parts[i..], sep);
      assert Join(parts, sep) == Join(parts[..i], sep) + sep + rest;
    } else {
      assert parts[i..] == parts;
    }
  }

  /**
    Counting a character in a join: its occurrences in the elements plus one
    share for each of the |parts| - 1 separators.
   */
  lemma {:induction false} JoinOccurrences(parts: seq<string>, sep: string, c: char)
    ensures Occurrences(Join(parts, sep), c) ==
      SumOccurrences(parts, c) + (if |parts| == 0 then 0 else (|parts| - 1) * Occurrences(sep, c))
  {
    if |parts| > 1 {
      JoinOccurrences(parts[1..], sep, c);
      var rest := Join(parts[1..], sep);
      assert Join(parts, sep) == parts[0] + sep + rest;
      assert multiset(parts[0] + sep + rest) == multiset(parts[0]) + multiset(sep) + multiset(rest);
      var n, k := |parts| - 2, Occurrences(sep, c);
      assert (n + 1) * k == n * k + k;
    } else if |parts| == 1 {
      assert parts[1..] == [];
    }
  }

  /** A character in neither the elements nor the separator is not in their join. */
  lemma {:induction false} JoinAvoids(parts: seq<string>, sep: string, c: char)
    requires forall j :: 0 <= j < |parts| ==> c !in parts[j]
    requires c !in sep
    ensures c !in Join(parts, sep)
  {
    if |parts| > 1 {
      JoinAvoids(parts[1..], sep, c);
    }
  }

  /**
    When only the separator has `c`, a join framed by `open` and `close` has
    `k` occurrences of `c` for each of its |parts| - 1 separators.
   */
  lemma FramedJoinOccurrences(open: string, parts: seq<string>, sep: string, close: string, c: char, k: nat)
    requires c !in open && c !in close
    requires forall j :: 0 <= j < |parts| ==> c !in parts[j]
    requires Occurrences(sep, c) == k
    ensures Occurrences(open + Join(parts, sep) + close, c) == if |parts| == 0 then 0 else (|parts| - 1) * k
  {
    JoinOccurrences(parts, sep, c);
    var inner := Join(parts, sep);
    assert multiset(open + inner + close) == multiset(open) + multiset(inner) + multiset(close);
  }

  /** `parts` with the line `x` inserted between every two neighbours. */
  function Intersperse(parts: seq<string>, x: string): (r: seq<string>)
    ensures |r| == if |parts| == 0 then 0 else 2 * |parts| - 1
  {
    if |parts| <= 1 then parts
    else [parts[0], x] + Intersperse(parts[1..], x)
  }

  /** Even positions of an interspersed list hold the elements in order, odd ones hold `x`. */
  lemma {:induction false} IntersperseAt(parts: seq<string>, x: string, j: nat)
    requires j < |Intersperse(parts, x)|
    ensures j / 2 < |parts|
    ensures Intersperse(parts, x)[j] == if j % 2 == 0 then parts[j / 2] else x
  {
    if j >= 2 {
      IntersperseAt(parts[1..], x, j - 2);
      assert (j - 2) / 2 == j / 2 - 1 && (j - 2) % 2 == j % 2;
    }
  }

  /** A separator "\n" + x + "\n" is the same as putting `x` on a line of its own. */
  lemma {:induction false} JoinThroughLine(parts: seq<string>, x: string)
    ensures Join(parts, "\n" + x + "\n") == Join(Intersperse(parts, x), "\n")
  {
    if |parts| > 1 {
      var sep, a, tail := "\n" + x + "\n", parts[0], parts[1..];
      JoinThroughLine(tail, x);
      var inner := Intersperse(tail, x);
      var j := Join(inner, "\n");
      assert Intersperse(parts, x) == [a] + ([x] + inner);
      JoinAppend([a], [x] + inner, "\n");
      JoinAppend([x], inner, "\n");
      calc {
        Join(parts, sep);
        a + sep + Join(tail, sep);
        a + sep + j;
        a + "\n" + (x + "\n" + j);
        Join([a], "\n") + "\n" + Join([x] + inner, "\n");
      }
    }
  }

  /**
    The lines of `s`: the maximal pieces between newlines. There is always at
    least one, none contains a newline, and joining them with "\n" gives back
    `s` exactly.
   */
  function Lines(s: string): (r: seq<string>)
    ensures |r| > 0
    ensures forall j :: 0 <= j < |r| ==> '\n' !in r[j]
    ensures Join(r, "\n") == s
  {
    if |s| == 0 then [""]
    else if s[0] == '\n' then
      var rest := Lines(s[1..]);
      JoinAppend([""], rest, "\n");
      [""] + rest
    else
      var rest := Lines(s[1..]);
      var r := [[s[0]] + rest[0]] + rest[1..];
      assert s == [s[0]] + s[1..];
      if |rest| > 1 then
        assert rest == [rest[0]] + rest[1..];
        JoinAppend([rest[0]], rest[1..], "\n");
        JoinAppend([[s[0]] + rest[0]], rest[1..], "\n");
        r
      else
        r
  }

  /** A string without a newline is a single line. */
  lemma {:induction false} LinesOfLine(a: string)
    requires '\n' !in a
    ensures Lines(a) == [a]
  {
    if |a| > 0 {
      LinesOfLine(a[1..]);
      assert [a[0]] + a[1..] == a;
    }
  }

  /** Splitting a line off the front of a string. */
  lemma {:induction false} LinesCons(a: string, b: string)
    requires '\n' !in a
    ensures Lines(a + "\n" + b) == [a] + Lines(b)
  {
    var s := a + "\n" + b;
    if |a| > 0 {
      assert s[0] == a[0] && a[0] in a;
      assert s[1..] == a[1..] + "\n" + b;
      LinesCons(a[1..], b);
      var rest := Lines(s[1..]);
      assert rest[0] == a[1..] && rest[1..] == Lines(b);
      assert [a[0]] + a[1..] == a;
    } else {
      assert s[0] == '\n';
      assert s[1..] == b;
    }
  }

  /** Lines inverts Join: newline-free lines joined by "\n" split back into themselves. */
  lemma {:induction false} LinesOfJoin(parts: seq<string>)
    requires |parts| > 0
    requires forall j :: 0 <= j < |parts| ==> '\n' !in parts[j]
    ensures Lines(Join(parts, "\n")) == parts
  {
    if |parts| == 1 {
      LinesOfLine(parts[0]);
    } else {
      LinesOfJoin(parts[1..]);
      LinesCons(parts[0], Join(parts[1..], "\n"));
      assert parts == [parts[0]] + parts[1..];
    }
  }
}
