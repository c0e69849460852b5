/** The statement builder of src/sql-util.js: SQL text for single-table
    statements on a table with an `id` primary key, with `?` placeholders.
    The builder's `debug` flag only gates logging, so the builders here take
    no such argument and their text cannot depend on it. */
module SqlUtil {
  import opened Text
  import opened Records

  /** No key of `f` contains `c`. */
  predicate KeysFree(c: char, f: seq<Field>)
  {
    forall i :: 0 <= i < |f| ==> c !in f[i].0
  }

  /** A column name that `join(', ')` keeps recognisable. */
  predicate PlainKey(k: string)
  {
    |k| > 0 && ',' !in k
  }

  lemma {:induction false} KeysOccurrences(c: char, f: seq<Field>)
    requires KeysFree(c, f)
    ensures OccurrencesIn(c, Keys(f)) == 0
    decreases |f|
  {
    if |f| > 0 {
      KeysOccurrences(c, f[1..]);
      OccurrencesAbsent(c, f[0].0);
      assert Keys(f)[1..] == Keys(f[1..]);
    }
  }

  function DeleteAll(table: string): (sql: string)
    ensures StartsWith(sql, "delete from ") && sql[|"delete from "|..] == table
  {
    "delete from " + table
  }

  /** Behind a prefix and a table name without the placeholder character
      `c`, an id clause holding `c` once is the only placeholder. */
  lemma ByIdPlaceholders(c: char, head: string, table: string, clause: string, pre: string, post: string)
    requires clause == pre + [c] + post && c !in pre && c !in post
    ensures c !in head && c !in table ==> Occurrences(c, head + table + clause) == 1
  {
    if c !in head && c !in table {
      OccurrencesAbsent(c, table);
      AbsentPrefix(c, head, table);
      MarkInside(c, head + table, pre, post);
    }
  }

  function DeleteById(table: string): (sql: string)
    ensures StartsWith(sql, "delete from " + table)
    ensures EndsWith(sql, " where id=?")
    ensures '?' !in table ==> Occurrences('?', sql) == 1
  {
    ByIdPlaceholders('?', "delete from ", table, " where id=?", " where id=", "");
    "delete from " + table + " where id=?"
  }

  function GetAll(table: string): (sql: string)
    ensures StartsWith(sql, "select * from ") && sql[|"select * from "|..] == table
  {
    "select * from " + table
  }

  function GetById(table: string): (sql: string)
    ensures StartsWith(sql, "select * from " + table)
    ensures EndsWith(sql, " where id=?")
    ensures '?' !in table ==> Occurrences('?', sql) == 1
  {
    ByIdPlaceholders('?', "select * from ", table, " where id=?", " where id=", "");
    "select * from " + table + " where id=?"
  }

  /** `values.map(() => '?')` */
  function QuestionMarks(n: nat): (r: seq<string>)
    ensures |r| == n
    ensures forall i :: 0 <= i < n ==> r[i] == "?"
    decreases n
  {
    if n == 0 then [] else ["?"] + QuestionMarks(n - 1)
  }

  lemma {:induction false} QuestionMarksOccurrences(n: nat)
    ensures OccurrencesIn('?', QuestionMarks(n)) == n
    decreases n
  {
    if n > 0 {
      QuestionMarksOccurrences(n - 1);
      assert QuestionMarks(n)[1..] == QuestionMarks(n - 1);
    }
  }

  /** `keys.join(', ')` */
  function ColumnList(f: seq<Field>): (cols: string)
    ensures |f| == 0 ==> cols == ""
    ensures |f| == 1 ==> cols == f[0].0
  {
    Join(Keys(f), ", ")
  }

  /** The column list reads back as exactly the keys, in key order. */
  lemma ColumnListReadBack(f: seq<Field>)
    requires forall i :: 0 <= i < |f| ==> PlainKey(f[i].0)
    ensures ParseList(ColumnList(f)) == Keys(f)
  {
    ParseListJoin(Keys(f));
  }

  /** `values.map(() => '?').join(', ')`: `n` placeholders. */
  function PlaceholderList(n: nat): (ph: string)
    ensures n == 0 ==> ph == ""
    ensures Occurrences('?', ph) == n
  {
    var marks := QuestionMarks(n);
    OccurrencesJoin('?', marks, ", ");
    QuestionMarksOccurrences(n);
    Join(marks, ", ")
  }

  /** The placeholder list reads back as `n` single `?` items. */
  lemma PlaceholderListReadBack(n: nat)
    ensures ParseList(PlaceholderList(n)) == QuestionMarks(n)
  {
    ParseListJoin(QuestionMarks(n));
  }

  function Insert(table: string, f: Fields): (sql: string)
    ensures |f| == 0 ==> sql == "insert into " + table + " () values()"
  {
    "insert into " + table + " (" + ColumnList(f) + ") values(" + PlaceholderList(|f|) + ")"
  }

  /** With no `?` in the table name or the keys, an insert has exactly one
      placeholder per field. */
  lemma InsertPlaceholders(table: string, f: Fields)
    requires '?' !in table && KeysFree('?', f)
    ensures Occurrences('?', Insert(table, f)) == |f|
  {
    OccurrencesJoin('?', Keys(f), ", ");
    KeysOccurrences('?', f);
    var cols := ColumnList(f);
    var ph := PlaceholderList(|f|);
    var a := "insert into " + table;
    OccurrencesAbsent('?', table);
    AbsentPrefix('?', "insert into ", table);
    AbsentSuffix('?', a, " (");
    OccurrencesConcat('?', a + " (", cols);
    AbsentSuffix('?', a + " (" + cols, ") values(");
    OccurrencesConcat('?', a + " (" + cols + ") values(", ph);
    AbsentSuffix('?', a + " (" + cols + ") values(" + ph, ")");
  }

  /** `keys.map(key => key + ' = ?')` */
  function Assignments(keys: seq<string>): (r: seq<string>)
    ensures |r| == |keys|
    ensures forall i :: 0 <= i < |keys| ==> r[i] == keys[i] + " = ?"
    decreases |keys|
  {
    if |keys| == 0 then [] else [keys[0] + " = ?"] + Assignments(keys[1..])
  }

  lemma {:induction false} AssignmentsOccurrences(keys: seq<string>)
    requires forall i :: 0 <= i < |keys| ==> '?' !in keys[i]
    ensures OccurrencesIn('?', Assignments(keys)) == |keys|
    decreases |keys|
  {
    if |keys| > 0 {
      AssignmentsOccurrences(keys[1..]);
      assert Assignments(keys)[1..] == Assignments(keys[1..]);
      assert keys[0] + " = ?" == keys[0] + (" = " + ['?']);
      OccurrencesAbsent('?', keys[0]);
      MarkSuffix('?', keys[0], " = ");
    }
  }

  function OnDuplicate(): string
  {
    "on duplicate key" + " update id = " + "last_insert_id(id), "
  }

  lemma OnDuplicateFree()
    ensures '?' !in OnDuplicate()
  {
  }

  /** The insert text, then the conflict clause re-assigning every key in key order. */
  function Upsert(table: string, f: Fields): (sql: string)
    ensures sql == Insert(table, f) + " " + OnDuplicate() + Join(Assignments(Keys(f)), ", ")
  {
    var keys := Keys(f);
    var part1 := "insert into " + table + " (" + Join(keys, ", ") + ") values(" + PlaceholderList(|f|) + ")";
    var part2 := OnDuplicate() + Join(Assignments(keys), ", ");
    part1 + " " + part2
  }

  lemma AssignmentPlain(k: string)
    requires PlainKey(k)
    ensures |k + " = ?"| > 0 && ',' !in k + " = ?"
  {
  }

  /** The conflict clause assigns the keys in key order. */
  lemma UpsertAssignmentsInOrder(f: Fields)
    requires forall i :: 0 <= i < |f| ==> PlainKey(f[i].0)
    ensures ParseList(Join(Assignments(Keys(f)), ", ")) == Assignments(Keys(f))
  {
    var keys := Keys(f);
    var a := Assignments(keys);
    forall i | 0 <= i < |a| ensures |a[i]| > 0 && ',' !in a[i] {
      AssignmentPlain(keys[i]);
    }
    ParseListJoin(a);
  }

  /** An upsert has two placeholders per field: one in the values list and
      one in the conflict clause. */
  lemma UpsertPlaceholders(table: string, f: Fields)
    requires '?' !in table && KeysFree('?', f)
    ensures Occurrences('?', Upsert(table, f)) == 2 * |f|
  {
    InsertPlaceholders(table, f);
    var keys := Keys(f);
    AssignmentsOccurrences(keys);
    OccurrencesJoin('?', Assignments(keys), ", ");
    var tail := Join(Assignments(keys), ", ");
    OnDuplicateFree();
    AbsentSuffix('?', Insert(table, f), " ");
    AbsentSuffix('?', Insert(table, f) + " ", OnDuplicate());
    OccurrencesConcat('?', Insert(table, f) + " " + OnDuplicate(), tail);
  }

  /** `${sets}` for the array of `key=value` strings: joined by "," with no space. */
  function SetList(f: seq<Field>): (sets: string)
    ensures |f| == 0 ==> sets == ""
    ensures |f| == 1 ==> sets == f[0].0 + "=" + Literal(f[0].1)
  {
    Join(Sets(f), ",")
  }

  /** Without commas inside keys and string values, the set list splits back
      into exactly the `key=value` pairs, in key order. */
  lemma SetListReadBack(f: seq<Field>)
    requires |f| > 0
    requires forall i :: 0 <= i < |f| ==> FieldFree(',', f[i])
    ensures Split(SetList(f), ',') == Sets(f)
  {
    var pairs := Sets(f);
    forall i | 0 <= i < |pairs| ensures ',' !in pairs[i] {
      PairOccurrences(',', f[i]);
      assert pairs[i] == f[i].0 + "=" + Literal(f[i].1);
      OccurrencesPresent(',', pairs[i]);
    }
    SplitJoin(pairs, ',');
  }

  /** Values are inlined as literals (strings quoted); only the id is a placeholder. */
  function UpdateById(table: string, f: Fields): (sql: string)
    ensures StartsWith(sql, "update " + table + " set " + SetList(f))
    ensures EndsWith(sql, " where id=?")
  {
    "update " + table + " set " + SetList(f) + " where id=?"
  }

  /** With no `?` in the table name, the keys or the string values, the
      only placeholder of an update is the id's. */
  lemma UpdateByIdPlaceholders(table: string, f: Fields)
    requires '?' !in table
    requires forall i :: 0 <= i < |f| ==> FieldFree('?', f[i])
    ensures Occurrences('?', UpdateById(table, f)) == 1
  {
    SetsOccurrences('?', f);
    OccurrencesJoin('?', Sets(f), ",");
    var sets := SetList(f);
    var head := "update " + table;
    OccurrencesAbsent('?', table);
    AbsentPrefix('?', "update ", table);
    AbsentSuffix('?', head, " set ");
    OccurrencesConcat('?', head + " set ", sets);
    MarkSuffix('?', head + " set " + sets, " where id=");
    assert " where id=" + ['?'] == " where id=?";
  }
}
