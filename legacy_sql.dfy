/** The statement text built inline by the older top-level index.js: numbered
    `$1 … $n` placeholders, columns joined by "," without a space, and
    `returning id` on inserts. Its `delete from` and `select * from` texts
    are the same as those of `SqlUtil.DeleteAll` and `SqlUtil.GetAll`, and
    its update pairs are those of `SqlUtil.SetList`. */
module LegacySql {
  import opened Text
  import opened Records
  import SqlUtil

  /** `'$' + (index + 1)` for every value: `$1` up to `$n`. */
  function Dollars(n: nat): (r: seq<string>)
    ensures |r| == n
    ensures forall i :: 0 <= i < n ==> r[i] == "$" + NatDecimal(i + 1)
    decreases n
  {
    if n == 0 then [] else Dollars(n - 1) + ["$" + NatDecimal(n)]
  }

  /** The placeholders are numbered 1 to n, in order. */
  lemma DollarsNumbered(n: nat)
    ensures forall i :: 0 <= i < n ==>
      |Dollars(n)[i]| > 1 && Dollars(n)[i][0] == '$' && ParseNat(Dollars(n)[i][1..]) == i + 1
  {
    forall i | 0 <= i < n
      ensures |Dollars(n)[i]| > 1 && Dollars(n)[i][0] == '$' && ParseNat(Dollars(n)[i][1..]) == i + 1
    {
      var d := NatDecimal(i + 1);
      assert ("$" + d)[1..] == d;
      ParseNatDecimal(i + 1);
    }
  }

  /** A `$` followed by digits holds one `$` and no comma. */
  lemma DollarDigits(d: string)
    requires forall k :: 0 <= k < |d| ==> IsDigit(d[k])
    ensures Occurrences('$', "$" + d) == 1
    ensures ',' !in "$" + d
  {
    var m := "$" + d;
    assert m[1..] == d;
    assert '$' !in d;
    OccurrencesAbsent('$', d);
    assert forall k :: 1 <= k < |m| ==> m[k] == d[k - 1];
  }

  lemma {:induction false} DollarsOccurrences(n: nat)
    ensures OccurrencesIn('$', Dollars(n)) == n
    decreases n
  {
    if n > 0 {
      var last := "$" + NatDecimal(n);
      DollarsOccurrences(n - 1);
      DollarDigits(NatDecimal(n));
      OccurrencesInAppend('$', Dollars(n - 1), last);
    }
  }

  lemma {:induction false} OccurrencesInAppend(c: char, parts: seq<string>, p: string)
    ensures OccurrencesIn(c, parts + [p]) == OccurrencesIn(c, parts) + Occurrences(c, p)
    decreases |parts|
  {
    if |parts| == 0 {
      assert parts + [p] == [p];
    } else {
      OccurrencesInAppend(c, parts[1..], p);
      assert (parts + [p])[1..] == parts[1..] + [p];
    }
  }

  /** `placeholders.join(',')` */
  function DollarList(n: nat): (ph: string)
    ensures n == 0 ==> ph == ""
    ensures n == 1 ==> ph == "$1"
  {
    Join(Dollars(n), ",")
  }

  /** The placeholder list splits back into `$1 … $n`. */
  lemma DollarListReadBack(n: nat)
    requires n > 0
    ensures Split(DollarList(n), ',') == Dollars(n)
  {
    forall i | 0 <= i < n ensures ',' !in Dollars(n)[i] {
      DollarDigits(NatDecimal(i + 1));
    }
    SplitJoin(Dollars(n), ',');
  }

  /** `keys.join(',')` */
  function Columns(f: seq<Field>): (cols: string)
    ensures |f| == 0 ==> cols == ""
    ensures |f| == 1 ==> cols == f[0].0
  {
    Join(Keys(f), ",")
  }

  /** The column list splits back into the keys, in key order. */
  lemma ColumnsReadBack(f: seq<Field>)
    requires |f| > 0
    requires SqlUtil.KeysFree(',', f)
    ensures Split(Columns(f), ',') == Keys(f)
  {
    SplitJoin(Keys(f), ',');
  }

  function DeleteById(table: string): (sql: string)
    ensures StartsWith(sql, "delete from " + table)
    ensures EndsWith(sql, " where id=$1")
    ensures '$' !in table ==> Occurrences('$', sql) == 1
  {
    SqlUtil.ByIdPlaceholders('$', "delete from ", table, " where id=$1", " where id=", "1");
    "delete from " + table + " where id=$1"
  }

  function GetById(table: string): (sql: string)
    ensures StartsWith(sql, "select * from " + table)
    ensures EndsWith(sql, " where id=$1")
    ensures '$' !in table ==> Occurrences('$', sql) == 1
  {
    SqlUtil.ByIdPlaceholders('$', "select * from ", table, " where id=$1", " where id=", "1");
    "select * from " + table + " where id=$1"
  }

  function Insert(table: string, f: Fields): (sql: string)
    ensures |f| == 0 ==> sql == "insert into " + table + " () values() returning id"
    ensures EndsWith(sql, ") returning id")
  {
    "insert into " + table + " (" + Columns(f) + ") values(" + DollarList(|f|) + ") returning id"
  }

  /** The insert text up to its placeholder list holds no `$`. */
  lemma InsertHeadFree(table: string, cols: string)
    requires '$' !in table && Occurrences('$', cols) == 0
    ensures Occurrences('$', "insert into " + table + " (" + cols + ") values(") == 0
  {
    var a := "insert into " + table;
    OccurrencesAbsent('$', table);
    AbsentPrefix('$', "insert into ", table);
    AbsentSuffix('$', a, " (");
    OccurrencesConcat('$', a + " (", cols);
    AbsentSuffix('$', a + " (" + cols, ") values(");
  }

  /** With no `$` in the table name or the keys, an insert has exactly one
      placeholder per field. */
  lemma InsertPlaceholders(table: string, f: Fields)
    requires '$' !in table && SqlUtil.KeysFree('$', f)
    ensures Occurrences('$', Insert(table, f)) == |f|
  {
    OccurrencesJoin('$', Keys(f), ",");
    SqlUtil.KeysOccurrences('$', f);
    OccurrencesJoin('$', Dollars(|f|), ",");
    DollarsOccurrences(|f|);
    var head := "insert into " + table + " (" + Columns(f) + ") values(";
    var ph := DollarList(|f|);
    InsertHeadFree(table, Columns(f));
    OccurrencesConcat('$', head, ph);
    AbsentSuffix('$', head + ph, ") returning id");
  }

  /** Values are inlined as literals (strings quoted); only the id is bound. */
  function UpdateById(table: string, f: Fields): (sql: string)
    ensures StartsWith(sql, "update " + table + " set " + SqlUtil.SetList(f))
    ensures EndsWith(sql, " where id=$1")
  {
    "update " + table + " set " + SqlUtil.SetList(f) + " where id=$1"
  }

  /** With no `$` in the table name, the keys or the string values, the only
      placeholder of an update is `$1`. */
  lemma UpdateByIdPlaceholders(table: string, f: Fields)
    requires '$' !in table
    requires forall i :: 0 <= i < |f| ==> FieldFree('$', f[i])
    ensures Occurrences('$', UpdateById(table, f)) == 1
  {
    SetsOccurrences('$', f);
    OccurrencesJoin('$', Sets(f), ",");
    var sets := SqlUtil.SetList(f);
    var head := "update " + table;
    OccurrencesAbsent('$', table);
    AbsentPrefix('$', "update ", table);
    AbsentSuffix('$', head, " set ");
    OccurrencesConcat('$', head + " set ", sets);
    MarkInside('$', head + " set " + sets, " where id=", "1");
    assert " where id=" + ['$'] + "1" == " where id=$1";
  }
}
