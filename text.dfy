/** String helpers. `Join` is `Array.prototype.join`, which the SQL builders
    use. `Split` (with the semantics of `String.prototype.split` on one
    character) and `Occurrences` are not used by the builders: the lemmas use
    them to read statement text back and to count its placeholders. */
module Text {

  /** `parts.join(sep)`: the empty array joins to "", one part joins to itself. */
  function Join(parts: seq<string>, sep: string): string
    decreases |parts|
  {
    if |parts| == 0 then ""
    else if |parts| == 1 then parts[0]
    else parts[0] + sep + Join(parts[1..], sep)
  }

  /** `s.split(c)` for a one-character separator: always at least one piece. */
  function Split(s: string, c: char): (r: seq<string>)
    ensures |r| > 0
    decreases |s|
  {
    if |s| == 0 then [""]
    else
      var rest := Split(s[1..], c);
      if s[0] == c then [""] + rest else [[s[0]] + rest[0]] + rest[1..]
  }

  /** How often character `c` occurs in `s`. */
  function Occurrences(c: char, s: string): nat
    decreases |s|
  {
    if |s| == 0 then 0 else (if s[0] == c then 1 else 0) + Occurrences(c, s[1..])
  }

  predicate StartsWith(s: string, prefix: string)
  {
    |prefix| <= |s| && s[..|prefix|] == prefix
  }

  predicate EndsWith(s: string, suffix: string)
  {
    |suffix| <= |s| && s[|s| - |suffix|..] == suffix
  }

  /** Total number of occurrences of `c` over all `parts`. */
  function OccurrencesIn(c: char, parts: seq<string>): nat
    decreases |parts|
  {
    if |parts| == 0 then 0 else Occurrences(c, parts[0]) + OccurrencesIn(c, parts[1..])
  }

  /** Every part with one leading space added. */
  function Indent(parts: seq<string>): (r: seq<string>)
    ensures |r| == |parts|
    ensures forall i :: 0 <= i < |parts| ==> r[i] == " " + parts[i]
    decreases |parts|
  {
    if |parts| == 0 then [] else [" " + parts[0]] + Indent(parts[1..])
  }

  /** Every part with its first character dropped, when it is a space. */
  function Unindent(parts: seq<string>): (r: seq<string>)
    ensures |r| == |parts|
    ensures forall i :: 0 <= i < |parts| ==>
      r[i] == if |parts[i]| > 0 && parts[i][0] == ' ' then parts[i][1..] else parts[i]
    decreases |parts|
  {
    if |parts| == 0 then []
    else
      var p := parts[0];
      [if |p| > 0 && p[0] == ' ' then p[1..] else p] + Unindent(parts[1..])
  }

  /** Reads back a list written with `join(', ')`: the inverse of
      `Join(_, ", ")` on lists of non-empty parts without commas. */
  function ParseList(s: string): seq<string>
  {
    if s == "" then []
    else
      var pieces := Split(s, ',');
      [pieces[0]] + Unindent(pieces[1..])
  }

  // ---------------------------------------------------------------------
  // Lemmas

  lemma {:induction false} OccurrencesConcat(c: char, a: string, b: string)
    ensures Occurrences(c, a + b) == Occurrences(c, a) + Occurrences(c, b)
    decreases |a|
  {
    if |a| == 0 {
      assert a + b == b;
    } else {
      OccurrencesConcat(c, a[1..], b);
      assert (a + b)[1..] == a[1..] + b;
    }
  }

  lemma {:induction false} OccurrencesAbsent(c: char, s: string)
    requires c !in s
    ensures Occurrences(c, s) == 0
    decreases |s|
  {
    if |s| > 0 {
      OccurrencesAbsent(c, s[1..]);
    }
  }

  /** A prefix without `c` adds no occurrence of it. */
  lemma AbsentPrefix(c: char, p: string, s: string)
    requires c !in p
    ensures Occurrences(c, p + s) == Occurrences(c, s)
  {
    OccurrencesConcat(c, p, s);
    OccurrencesAbsent(c, p);
  }

  /** A suffix without `c` adds no occurrence of it. */
  lemma AbsentSuffix(c: char, s: string, p: string)
    requires c !in p
    ensures Occurrences(c, s + p) == Occurrences(c, s)
  {
    OccurrencesConcat(c, s, p);
    OccurrencesAbsent(c, p);
  }

  /** A suffix ending in its only `c` adds one occurrence. */
  lemma MarkSuffix(c: char, s: string, p: string)
    requires c !in p
    ensures Occurrences(c, s + (p + [c])) == Occurrences(c, s) + 1
  {
    OccurrencesConcat(c, s, p + [c]);
    OccurrencesLast(c, p);
  }

  /** A suffix holding `c` once, between two parts without it, adds one occurrence. */
  lemma MarkInside(c: char, s: string, p: string, q: string)
    requires c !in p && c !in q
    ensures Occurrences(c, s + (p + [c] + q)) == Occurrences(c, s) + 1
  {
    OccurrencesConcat(c, s, p + [c] + q);
    OccurrencesConcat(c, p + [c], q);
    OccurrencesLast(c, p);
    OccurrencesAbsent(c, q);
  }

  /** A character occurs in a string exactly when it is counted there. */
  lemma {:induction false} OccurrencesPresent(c: char, s: string)
    ensures c in s <==> Occurrences(c, s) > 0
    decreases |s|
  {
    if |s| > 0 {
      OccurrencesPresent(c, s[1..]);
      assert s == [s[0]] + s[1..];
    }
  }

  /** `s` followed by one `c`, where `s` has none, holds exactly one `c`. */
  lemma OccurrencesLast(c: char, s: string)
    requires c !in s
    ensures Occurrences(c, s + [c]) == 1
  {
    OccurrencesConcat(c, s, [c]);
    OccurrencesAbsent(c, s);
  }

  lemma {:induction false} OccurrencesJoin(c: char, parts: seq<string>, sep: string)
    requires c !in sep
    ensures Occurrences(c, Join(parts, sep)) == OccurrencesIn(c, parts)
    decreases |parts|
  {
    if |parts| == 0 {
    } else if |parts| == 1 {
      assert parts[1..] == [];
    } else {
      OccurrencesJoin(c, parts[1..], sep);
      OccurrencesAbsent(c, sep);
      var rest := Join(parts[1..], sep);
      assert Join(parts, sep) == parts[0] + sep + rest;
      OccurrencesConcat(c, parts[0], sep);
      OccurrencesConcat(c, parts[0] + sep, rest);
    }
  }

  lemma {:induction false} SplitWithout(s: string, c: char)
    requires c !in s
    ensures Split(s, c) == [s]
    decreases |s|
  {
    if |s| > 0 {
      SplitWithout(s[1..], c);
      assert [s[0]] + s[1..] == s;
    }
  }

  /** Splitting `p + t`, where `p` has no separator, extends the first piece of `t`. */
  lemma {:induction false} SplitPrepend(p: string, t: string, c: char)
    requires c !in p
    ensures Split(p + t, c) == [p + Split(t, c)[0]] + Split(t, c)[1..]
    decreases |p|
  {
    if |p| == 0 {
      assert p + t == t;
      assert p + Split(t, c)[0] == Split(t, c)[0];
      assert [Split(t, c)[0]] + Split(t, c)[1..] == Split(t, c);
    } else {
      var q := p[1..];
      assert (p + t)[0] == p[0];
      assert (p + t)[1..] == q + t;
      SplitPrepend(q, t, c);
      assert [p[0]] + (q + Split(t, c)[0]) == p + Split(t, c)[0];
    }
  }

  /** Splitting at the separator undoes joining with it. */
  lemma {:induction false} SplitJoin(parts: seq<string>, c: char)
    requires |parts| > 0
    requires forall i :: 0 <= i < |parts| ==> c !in parts[i]
    ensures Split(Join(parts, [c]), c) == parts
    decreases |parts|
  {
    if |parts| == 1 {
      SplitWithout(parts[0], c);
    } else {
      var rest := Join(parts[1..], [c]);
      SplitJoin(parts[1..], c);
      var t := [c] + rest;
      assert t[0] == c && t[1..] == rest;
      assert Split(t, c) == [""] + Split(rest, c);
      assert Join(parts, [c]) == parts[0] + t;
      SplitPrepend(parts[0], t, c);
      assert parts[0] + "" == parts[0];
      assert [parts[0]] + parts[1..] == parts;
    }
  }

  lemma JoinPrefixFirst(a: string, x: string, rest: seq<string>, sep: string)
    ensures Join([a + x] + rest, sep) == a + Join([x] + rest, sep)
  {
  }

  /** Joining with ", " is joining with "," after indenting all parts but the first. */
  lemma {:induction false} JoinCommaSpace(parts: seq<string>)
    requires |parts| > 0
    ensures Join(parts, ", ") == Join([parts[0]] + Indent(parts[1..]), ",")
    decreases |parts|
  {
    if |parts| == 1 {
      assert [parts[0]] + Indent(parts[1..]) == [parts[0]];
    } else {
      var tail := parts[1..];
      JoinCommaSpace(tail);
      assert Indent(tail) == [" " + tail[0]] + Indent(tail[1..]);
      JoinPrefixFirst(" ", tail[0], Indent(tail[1..]), ",");
      var lhsParts := [parts[0]] + Indent(tail);
      assert lhsParts[1..] == Indent(tail);
      assert Join(lhsParts, ",") == parts[0] + "," + Join(Indent(tail), ",");
      assert Join(parts, ", ") == parts[0] + ", " + Join(tail, ", ");
    }
  }

  lemma UnindentIndent(parts: seq<string>)
    ensures Unindent(Indent(parts)) == parts
  {
  }

  lemma IndentFree(c: char, parts: seq<string>)
    requires c != ' '
    requires forall i :: 0 <= i < |parts| ==> c !in parts[i]
    ensures forall i :: 0 <= i < |parts| ==> c !in Indent(parts)[i]
  {
  }

  lemma JoinNonEmpty(parts: seq<string>, sep: string)
    requires |parts| > 0 && |parts[0]| > 0
    ensures |Join(parts, sep)| > 0
  {
  }

  /** A list of non-empty, comma-free parts written with `join(', ')` reads
      back as exactly those parts, in the same order. */
  lemma ParseListJoin(parts: seq<string>)
    requires forall i :: 0 <= i < |parts| ==> |parts[i]| > 0 && ',' !in parts[i]
    ensures ParseList(Join(parts, ", ")) == parts
  {
    if |parts| > 0 {
      var tail := parts[1..];
      JoinCommaSpace(parts);
      IndentFree(',', tail);
      var spaced := [parts[0]] + Indent(tail);
      assert forall i :: 0 <= i < |spaced| ==> ',' !in spaced[i] by {
        assert forall i :: 1 <= i < |spaced| ==> spaced[i] == Indent(tail)[i - 1];
      }
      SplitJoin(spaced, ',');
      JoinNonEmpty(parts, ", ");
      assert spaced[1..] == Indent(tail);
      UnindentIndent(tail);
    }
  }
}
