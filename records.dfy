/** The field objects handed to the builders: an ordered list of
    column/value pairs (the order of `Object.keys`), and how a value is
    written as an SQL literal by template-string conversion. */
module Records {
  import opened Text

  /** A scalar column value. Numbers are modelled as integers. */
  datatype Value = Str(s: string) | Int(i: int) | Bool(b: bool) | Null

  type Field = (string, Value)

  /** No column name occurs twice, as in a JavaScript object. */
  predicate DistinctKeys(f: seq<Field>)
  {
    forall i, j :: 0 <= i < j < |f| ==> f[i].0 != f[j].0
  }

  /** A field object: pairs in key-enumeration order with distinct keys. */
  type Fields = f: seq<Field> | DistinctKeys(f) witness []

  /** A database row as the driver returns it. */
  type Row = seq<Field>

  /** `Object.keys(obj)`. */
  function Keys(f: seq<Field>): (r: seq<string>)
    ensures |r| == |f|
    ensures forall i :: 0 <= i < |f| ==> r[i] == f[i].0
    decreases |f|
  {
    if |f| == 0 then [] else [f[0].0] + Keys(f[1..])
  }

  /** `keys.map(key => obj[key])`: the values in key order. */
  function Values(f: seq<Field>): (r: seq<Value>)
    ensures |r| == |f|
    ensures forall i :: 0 <= i < |f| ==> r[i] == f[i].1
    decreases |f|
  {
    if |f| == 0 then [] else [f[0].1] + Values(f[1..])
  }

  // ---------------------------------------------------------------------
  // Number rendering (`${n}` for an integer-valued number)

  predicate IsDigit(c: char)
  {
    '0' <= c <= '9'
  }

  function DigitChar(d: nat): (c: char)
    requires d < 10
    ensures IsDigit(c)
  {
    ('0' as int + d) as char
  }

  function DigitValue(c: char): nat
  {
    if '0' <= c <= '9' then (c as int - '0' as int) as nat else 0
  }

  /** Decimal digits of `n`, most significant first, with no leading zero. */
  function NatDecimal(n: nat): (r: string)
    ensures |r| > 0
    ensures forall k :: 0 <= k < |r| ==> IsDigit(r[k])
    ensures r[0] == '0' ==> n == 0
    decreases n
  {
    if n < 10 then [DigitChar(n)] else NatDecimal(n / 10) + [DigitChar(n % 10)]
  }

  /** The value of a string of decimal digits. */
  function ParseNat(s: string): nat
    decreases |s|
  {
    if |s| == 0 then 0 else ParseNat(s[..|s| - 1]) * 10 + DigitValue(s[|s| - 1])
  }

  /** Reading the rendered digits back gives the number. */
  lemma {:induction false} ParseNatDecimal(n: nat)
    ensures ParseNat(NatDecimal(n)) == n
    decreases n
  {
    var r := NatDecimal(n);
    if n < 10 {
      assert r[..0] == [];
    } else {
      ParseNatDecimal(n / 10);
      assert r[..|r| - 1] == NatDecimal(n / 10);
    }
  }

  /** `${i}`: a minus sign for negative numbers, then the digits. */
  function IntDecimal(i: int): (r: string)
    ensures |r| > 0
    ensures r[0] == '-' <==> i < 0
    ensures forall k :: 1 <= k < |r| ==> IsDigit(r[k])
  {
    if i < 0 then "-" + NatDecimal(-i) else NatDecimal(i)
  }

  function ParseInt(s: string): int
  {
    if |s| > 0 && s[0] == '-' then -(ParseNat(s[1..]) as int) else ParseNat(s)
  }

  lemma ParseIntDecimal(i: int)
    ensures ParseInt(IntDecimal(i)) == i
  {
    if i < 0 {
      var d := NatDecimal(-i);
      ParseNatDecimal(-i);
      var s := "-" + d;
      assert s[0] == '-' && s[1..] == d;
      assert IntDecimal(i) == s;
    } else {
      ParseNatDecimal(i);
    }
  }

  // ---------------------------------------------------------------------
  // Literals and `key=value` pairs of updateById

  /** The characters a non-string literal is made of: digits, the minus
      sign and the letters of `true`, `false` and `null`. */
  predicate LiteralChar(c: char)
  {
    IsDigit(c) || c == '-' || c == 't' || c == 'r' || c == 'u' || c == 'e'
    || c == 'f' || c == 'a' || c == 'l' || c == 's' || c == 'n'
  }

  /** `typeof v === 'string' ? `'${v}'` : v`, as it appears in a template. */
  function Literal(v: Value): (r: string)
    ensures (|r| > 0 && r[0] == '\'') <==> v.Str?
    ensures v.Str? ==> r == "'" + v.s + "'"
    ensures !v.Str? ==> forall k :: 0 <= k < |r| ==> LiteralChar(r[k])
  {
    match v
    case Str(s) => "'" + s + "'"
    case Int(i) =>
      var d := NatDecimal(if i < 0 then -i else i);
      assert forall k :: 0 <= k < |d| ==> LiteralChar(d[k]);
      IntDecimal(i)
    case Bool(b) => if b then "true" else "false"
    case Null => "null"
  }

  /** A character that cannot occur in a non-string literal. */
  predicate Foreign(c: char)
  {
    !LiteralChar(c) && c != '\''
  }

  lemma LiteralOccurrences(c: char, v: Value)
    requires Foreign(c)
    ensures Occurrences(c, Literal(v)) == if v.Str? then Occurrences(c, v.s) else 0
  {
    var r := Literal(v);
    if v.Str? {
      OccurrencesConcat(c, "'", v.s);
      OccurrencesConcat(c, "'" + v.s, "'");
      OccurrencesAbsent(c, "'");
    } else {
      OccurrencesAbsent(c, r);
    }
  }

  /** `${key}=${value}` for every pair, in key order. */
  function Sets(f: seq<Field>): (r: seq<string>)
    ensures |r| == |f|
    ensures forall i :: 0 <= i < |f| ==> r[i] == f[i].0 + "=" + Literal(f[i].1)
    decreases |f|
  {
    if |f| == 0 then [] else [f[0].0 + "=" + Literal(f[0].1)] + Sets(f[1..])
  }

  /** Neither the key nor, for a string, the value contains `c`. */
  predicate FieldFree(c: char, fld: Field)
  {
    c !in fld.0 && (fld.1.Str? ==> c !in fld.1.s)
  }

  /** `c` occurs in a rendered pair only where it occurs in the key or value. */
  lemma PairOccurrences(c: char, fld: Field)
    requires Foreign(c) && c != '='
    requires FieldFree(c, fld)
    ensures Occurrences(c, fld.0 + "=" + Literal(fld.1)) == 0
  {
    LiteralOccurrences(c, fld.1);
    if fld.1.Str? { OccurrencesAbsent(c, fld.1.s); }
    OccurrencesAbsent(c, fld.0);
    OccurrencesAbsent(c, "=");
    OccurrencesConcat(c, fld.0, "=");
    OccurrencesConcat(c, fld.0 + "=", Literal(fld.1));
  }

  lemma {:induction false} SetsOccurrences(c: char, f: seq<Field>)
    requires Foreign(c) && c != '='
    requires forall i :: 0 <= i < |f| ==> FieldFree(c, f[i])
    ensures OccurrencesIn(c, Sets(f)) == 0
    decreases |f|
  {
    if |f| > 0 {
      SetsOccurrences(c, f[1..]);
      LiteralOccurrences(c, f[0].1);
      PairOccurrences(c, f[0]);
      assert Sets(f)[1..] == Sets(f[1..]);
    }
  }
}
