/** A pandas DataFrame of strings: an ordered list of column names and
    one map per row. A cell a row does not hold reads as "", which is
    what the scripts' `fillna('')` makes of the NaN that `pd.concat` and
    `DataFrame.append` leave in missing cells. */
module Tables {
  import opened Wrappers
  import opened Text

  type Row = map<string, string>

  datatype Table = Table(cols: seq<string>, rows: seq<Row>)

  /** pd.DataFrame(): no columns, no rows. */
  const Empty := Table([], [])

  function Cell(r: Row, c: string): string {
    if c in r then r[c] else ""
  }

  /** df[c].tolist() */
  function Column(t: Table, c: string): (vs: seq<string>)
    ensures |vs| == |t.rows|
    ensures forall i :: 0 <= i < |t.rows| ==> vs[i] == Cell(t.rows[i], c)
  {
    seq(|t.rows|, i requires 0 <= i < |t.rows| => Cell(t.rows[i], c))
  }

  /** c in df.columns.tolist() and v in df[c].tolist() */
  predicate ColumnHolds(t: Table, c: string, v: string) {
    c in t.cols && exists i :: 0 <= i < |t.rows| && Cell(t.rows[i], c) == v
  }

  /** df[c] = v: every row gets v in column c, which is appended when new. */
  function SetColumn(t: Table, c: string, v: string): (r: Table)
    ensures r.cols == if c in t.cols then t.cols else t.cols + [c]
    ensures |r.rows| == |t.rows|
    ensures forall i :: 0 <= i < |t.rows| ==> r.rows[i] == t.rows[i][c := v]
  {
    Table(if c in t.cols then t.cols else t.cols + [c],
          seq(|t.rows|, i requires 0 <= i < |t.rows| => t.rows[i][c := v]))
  }

  /** df[c] = df[c].apply(f); a missing column raises KeyError. */
  function MapColumn(t: Table, c: string, f: string -> string): (r: Result<Table>)
    ensures r.Ok? <==> c in t.cols
    ensures r.Ok? ==> r.value.cols == t.cols && |r.value.rows| == |t.rows|
    ensures r.Ok? ==> forall i :: 0 <= i < |t.rows| ==>
      r.value.rows[i] == t.rows[i][c := f(Cell(t.rows[i], c))]
  {
    if c !in t.cols then Err(KeyError(c))
    else Ok(Table(t.cols, seq(|t.rows|, i requires 0 <= i < |t.rows| =>
                                t.rows[i][c := f(Cell(t.rows[i], c))])))
  }

  /** df.insert(pos, c, v): a new column at position pos holding v in every
      row; pandas refuses a column that already exists. */
  function InsertColumn(t: Table, pos: nat, c: string, v: string): (r: Result<Table>)
    requires pos <= |t.cols|
    ensures r.Ok? <==> c !in t.cols
    ensures r.Ok? ==> r.value.cols == t.cols[..pos] + [c] + t.cols[pos..]
    ensures r.Ok? ==> |r.value.rows| == |t.rows|
    ensures r.Ok? ==> forall i :: 0 <= i < |t.rows| ==> r.value.rows[i] == t.rows[i][c := v]
    ensures r.Ok? ==> forall x :: x in r.value.cols <==> x == c || x in t.cols
  {
    assert t.cols == t.cols[..pos] + t.cols[pos..];
    if c in t.cols then Err(DuplicateColumn(c))
    else Ok(Table(t.cols[..pos] + [c] + t.cols[pos..],
                  seq(|t.rows|, i requires 0 <= i < |t.rows| => t.rows[i][c := v])))
  }

  /** `for column in cs: if column not in df.columns: df[column] = ''`:
      the absent columns are added, in the order of cs, each blank. */
  function AddMissing(t: Table, cs: seq<string>): (r: Table)
    ensures forall c :: c in cs ==> c in r.cols
    ensures forall c :: c in r.cols <==> c in t.cols || c in cs
    ensures |r.rows| == |t.rows|
    ensures forall i, c :: 0 <= i < |t.rows| ==>
      Cell(r.rows[i], c) == if c in cs && c !in t.cols then "" else Cell(t.rows[i], c)
  {
    SetColumns(t, Absent(t.cols, cs), "")
  }

  /** The names of cs the columns lack, in order. */
  function Absent(cols: seq<string>, cs: seq<string>): (a: seq<string>)
    ensures forall c :: c in a <==> c in cs && c !in cols
  {
    if cs == [] then []
    else (if cs[0] in cols then [] else [cs[0]]) + Absent(cols, cs[1..])
  }

  /** df[[...]] restricted to the rows that satisfy keep, in order. */
  function FilterRows(t: Table, keep: Row -> bool): (r: Table)
    ensures r.cols == t.cols
    ensures forall x :: x in r.rows ==> x in t.rows && keep(x)
    ensures forall x :: x in t.rows && keep(x) ==> x in r.rows
    ensures |r.rows| <= |t.rows|
  {
    Table(t.cols, Keep(t.rows, keep))
  }

  function Keep(rows: seq<Row>, keep: Row -> bool): (r: seq<Row>)
    ensures forall x :: x in r <==> x in rows && keep(x)
    ensures |r| <= |rows|
  {
    if rows == [] then []
    else (if keep(rows[0]) then [rows[0]] else []) + Keep(rows[1..], keep)
  }

  /** Keep drops every copy of a rejected row and keeps every copy of an
      accepted one. */
  lemma {:induction false} KeepCounts(rows: seq<Row>, keep: Row -> bool)
    ensures forall x {:trigger multiset(Keep(rows, keep))[x]} ::
      multiset(Keep(rows, keep))[x] == if keep(x) then multiset(rows)[x] else 0
  {
    if rows != [] {
      KeepCounts(rows[1..], keep);
      assert rows == [rows[0]] + rows[1..];
    }
  }

  /** Keep works row by row, so the kept rows stay in their order. */
  lemma {:induction false} KeepAppend(a: seq<Row>, b: seq<Row>, keep: Row -> bool)
    ensures Keep(a + b, keep) == Keep(a, keep) + Keep(b, keep)
  {
    if a == [] {
      assert a + b == b;
    } else {
      var head := if keep(a[0]) then [a[0]] else [];
      calc {
        Keep(a + b, keep);
        { assert (a + b)[0] == a[0] && (a + b)[1..] == a[1..] + b; }
        head + Keep(a[1..] + b, keep);
        { KeepAppend(a[1..], b, keep); }
        head + (Keep(a[1..], keep) + Keep(b, keep));
        (head + Keep(a[1..], keep)) + Keep(b, keep);
        Keep(a, keep) + Keep(b, keep);
      }
    }
  }

  /** FilterRows keeps exactly the copies of the accepted rows, in order. */
  lemma FilterRowsCounts(t: Table, keep: Row -> bool, x: Row)
    ensures multiset(FilterRows(t, keep).rows)[x] == if keep(x) then multiset(t.rows)[x] else 0
  {
    KeepCounts(t.rows, keep);
  }

  /** The name a rename map gives a column. */
  function NewName(m: map<string, string>, c: string): string {
    if c in m then m[c] else c
  }

  /** df.rename(columns=m). Two columns renamed to one name are one map
      key here; the later column's value is the one kept. */
  function Rename(t: Table, m: map<string, string>): (r: Table)
    ensures |r.cols| == |t.cols| && |r.rows| == |t.rows|
    ensures forall k :: 0 <= k < |t.cols| ==> r.cols[k] == NewName(m, t.cols[k])
  {
    Table(seq(|t.cols|, k requires 0 <= k < |t.cols| => NewName(m, t.cols[k])),
          seq(|t.rows|, i requires 0 <= i < |t.rows| => RenameRow(t.rows[i], t.cols, m)))
  }

  function RenameRow(r: Row, cs: seq<string>, m: map<string, string>): (r': Row)
    ensures r'.Keys == set k | 0 <= k < |cs| :: NewName(m, cs[k])
  {
    if cs == [] then map[]
    else
      var init := RenameRow(r, cs[..|cs| - 1], m);
      var last := cs[|cs| - 1];
      var res := init[NewName(m, last) := Cell(r, last)];
      assert res.Keys == set k | 0 <= k < |cs| :: NewName(m, cs[k]) by {
        forall x | x in res.Keys ensures x in set k | 0 <= k < |cs| :: NewName(m, cs[k]) {
          if x != NewName(m, last) {
            var k :| 0 <= k < |cs| - 1 && NewName(m, cs[..|cs| - 1][k]) == x;
            assert cs[..|cs| - 1][k] == cs[k];
          }
        }
        forall k | 0 <= k < |cs| ensures NewName(m, cs[k]) in res.Keys {
          if k < |cs| - 1 { assert cs[..|cs| - 1][k] == cs[k]; }
        }
      }
      res
  }

  /** A column no rename touches, and that no other column is renamed to,
      keeps its cell. */
  lemma {:induction false} RenameRowKeeps(r: Row, cs: seq<string>, m: map<string, string>, x: string)
    requires x in cs && x !in m
    requires forall c :: c in cs && c in m ==> m[c] != x
    ensures Cell(RenameRow(r, cs, m), x) == Cell(r, x)
    decreases |cs|
  {
    var init := cs[..|cs| - 1];
    var last := cs[|cs| - 1];
    if last != x {
      assert cs == init + [last];
      assert x in init;
      assert NewName(m, last) != x;
      RenameRowKeeps(r, init, m, x);
    }
  }

  /** A column x holds the cell of the one column c that is renamed to x
      (or keeps the name x). */
  lemma {:induction false} RenameRowTakes(r: Row, cs: seq<string>, m: map<string, string>, c: string, x: string)
    requires c in cs && NewName(m, c) == x
    requires forall d :: d in cs && NewName(m, d) == x ==> d == c
    ensures Cell(RenameRow(r, cs, m), x) == Cell(r, c)
    decreases |cs|
  {
    var init := cs[..|cs| - 1];
    var last := cs[|cs| - 1];
    assert cs == init + [last];
    if last != c {
      assert c in init;
      RenameRowTakes(r, init, m, c, x);
    }
  }

  /** The first row of a group is the first row that has its key. */
  lemma {:induction false} FirstOfGroup(rows: seq<Row>, c: string, k: string, i: nat)
    requires i < |rows| && Cell(rows[i], c) == k
    requires forall j :: 0 <= j < i ==> Cell(rows[j], c) != k
    ensures GroupRows(rows, c, k) != [] && GroupRows(rows, c, k)[0] == rows[i]
    decreases i
  {
    if i > 0 {
      assert forall j :: 0 <= j < i - 1 ==> rows[1..][j] == rows[j + 1];
      FirstOfGroup(rows[1..], c, k, i - 1);
    }
  }

  /** pd.concat([a, b]): a's rows then b's; columns of b that a lacks are
      appended, and the cells a row lacks read as "". */
  function Concat(a: Table, b: Table): (r: Table)
    ensures r.rows == a.rows + b.rows
    ensures forall c :: c in r.cols <==> c in a.cols || c in b.cols
    ensures r.cols == a.cols + NewColumns(a.cols, b.cols)
  {
    Table(a.cols + NewColumns(a.cols, b.cols), a.rows + b.rows)
  }

  function NewColumns(have: seq<string>, more: seq<string>): (r: seq<string>)
    ensures forall c :: c in r <==> c in more && c !in have
    decreases |more|
  {
    if more == [] then []
    else
      var rest := NewColumns(have + (if more[0] in have then [] else [more[0]]), more[1..]);
      if more[0] in have then rest else [more[0]] + rest
  }

  /** The new columns are listed once each. */
  lemma {:induction false} NewColumnsDistinct(have: seq<string>, more: seq<string>)
    ensures forall i, j :: 0 <= i < j < |NewColumns(have, more)| ==>
      NewColumns(have, more)[i] != NewColumns(have, more)[j]
    decreases |more|
  {
    if more != [] {
      var have' := have + (if more[0] in have then [] else [more[0]]);
      NewColumnsDistinct(have', more[1..]);
      assert more[0] in have';
    }
  }

  /** The record a group of rows starts from: every listed column with its
      value in the group's first row (`data[col] = dfR[col].tolist()[0]`). */
  function FirstRowRecord(group: seq<Row>, cols: seq<string>): (data: Row)
    requires |group| > 0
    ensures data.Keys == set c | c in cols
    ensures forall c :: c in cols ==> data[c] == Cell(group[0], c)
  {
    map c | c in cols :: Cell(group[0], c)
  }

  // ---- groupby: distinct keys in ascending order, each with its rows in order ----

  predicate StrictlySorted(ks: seq<string>) {
    forall i, j :: 0 <= i < j < |ks| ==> Lt(ks[i], ks[j])
  }

  lemma LtTrans(a: string, b: string, c: string)
    requires Lt(a, b) && Lt(b, c)
    ensures Lt(a, c)
  {
    LeTrans(a, b, c);
    if a == c { LeAntisym(a, b); }
  }

  function InsertKey(ks: seq<string>, x: string): seq<string> {
    if ks == [] then [x]
    else if ks[0] == x then ks
    else if Le(x, ks[0]) then [x] + ks
    else [ks[0]] + InsertKey(ks[1..], x)
  }

  lemma {:induction false} InsertKeySorted(ks: seq<string>, x: string)
    requires StrictlySorted(ks)
    ensures StrictlySorted(InsertKey(ks, x))
    ensures forall k :: k in InsertKey(ks, x) <==> k in ks || k == x
  {
    if ks == [] || ks[0] == x {
    } else if Le(x, ks[0]) {
      forall j | 0 < j < |ks| ensures Lt(x, ks[j]) { LtTrans(x, ks[0], ks[j]); }
    } else {
      var rest := InsertKey(ks[1..], x);
      InsertKeySorted(ks[1..], x);
      LeTotal(x, ks[0]);
      assert ks == [ks[0]] + ks[1..];
      forall y | y in rest ensures Lt(ks[0], y) {
        if y != x {
          var j :| 0 <= j < |ks[1..]| && ks[1..][j] == y;
          assert ks[j + 1] == y;
        }
      }
      var r := [ks[0]] + rest;
      forall i, j | 0 <= i < j < |r| ensures Lt(r[i], r[j]) {
        if i == 0 { assert r[j] in rest; }
        else { assert r[i] == rest[i - 1] && r[j] == rest[j - 1]; }
      }
    }
  }

  /** The keys `df.groupby(c)` visits: the distinct values, ascending. */
  function GroupKeys(vs: seq<string>): (ks: seq<string>)
    ensures StrictlySorted(ks)
    ensures forall k :: k in ks <==> k in vs
    decreases |vs|
  {
    if vs == [] then []
    else
      var init := GroupKeys(vs[..|vs| - 1]);
      InsertKeySorted(init, vs[|vs| - 1]);
      assert vs == vs[..|vs| - 1] + [vs[|vs| - 1]];
      InsertKey(init, vs[|vs| - 1])
  }

  /** The rows of one group, in their original order. */
  function GroupRows(rows: seq<Row>, c: string, k: string): (g: seq<Row>)
    ensures forall x :: x in g <==> x in rows && Cell(x, c) == k
    ensures |g| <= |rows|
  {
    if rows == [] then []
    else (if Cell(rows[0], c) == k then [rows[0]] else []) + GroupRows(rows[1..], c, k)
  }

  /** The first of cs that is not a column of have (the one df[cs] reports). */
  function MissingColumn(cs: seq<string>, have: seq<string>): (m: Option<string>)
    ensures m.None? <==> forall c :: c in cs ==> c in have
    ensures m.Some? ==> m.value in cs && m.value !in have
  {
    if cs == [] then None
    else if cs[0] !in have then Some(cs[0])
    else MissingColumn(cs[1..], have)
  }

  /** The rows as `for key, dfG in df.groupby(c)` visits them: group after
      group in key order, each group's rows in their original order. */
  function InGroupOrder(rows: seq<Row>, c: string): (r: seq<Row>)
    ensures forall x :: x in r <==> x in rows
  {
    Groups(rows, c, GroupKeys(Column(Table([], rows), c)))
  }

  function Groups(rows: seq<Row>, c: string, ks: seq<string>): (r: seq<Row>)
    ensures forall x :: x in r <==> x in rows && Cell(x, c) in ks
  {
    if ks == [] then [] else GroupRows(rows, c, ks[0]) + Groups(rows, c, ks[1..])
  }

  /** df.empty: no rows or no columns. */
  predicate IsEmpty(t: Table) {
    |t.rows| == 0 || |t.cols| == 0
  }

  /** Setting a list of columns is setting its first, then the rest. */
  lemma SetColumnsCons(t: Table, c: string, rest: seq<string>, v: string)
    ensures SetColumns(t, [c] + rest, v) == SetColumns(SetColumn(t, c, v), rest, v)
  {
    var cs := [c] + rest;
    assert cs != [] && cs[0] == c && cs[1..] == rest;
    var t1 := SetColumn(t, c, v);
    var l := SetColumns(t, cs, v);
    var r := SetColumns(t1, rest, v);
    assert l.cols == r.cols;
    forall i | 0 <= i < |t.rows| ensures l.rows[i] == r.rows[i] {
      BlanksCons(t.rows[i], c, rest, v);
    }
  }

  lemma BlanksCons(row: Row, c: string, rest: seq<string>, v: string)
    ensures row + Blanks([c] + rest, v) == if rest == [] then row[c := v] else row[c := v] + Blanks(rest, v)
  {
    var l := row + Blanks([c] + rest, v);
    var r := if rest == [] then row[c := v] else row[c := v] + Blanks(rest, v);
    assert forall k :: k in [c] + rest <==> k == c || k in rest;
    assert l.Keys == r.Keys;
  }

  /** `df[c] = v` for each c of cs in turn. */
  function SetColumns(t: Table, cs: seq<string>, v: string): (r: Table)
    ensures forall c :: c in t.cols || c in cs <==> c in r.cols
    ensures |r.rows| == |t.rows|
    ensures forall i, c :: 0 <= i < |t.rows| ==>
      Cell(r.rows[i], c) == if c in cs then v else Cell(t.rows[i], c)
  {
    if cs == [] then t
    else
      var b := Blanks(cs, v);
      assert forall c :: c in b ==> b[c] == v;
      Table(ColumnsAfter(t.cols, cs), seq(|t.rows|, i requires 0 <= i < |t.rows| => t.rows[i] + b))
  }

  /** Every column of cs holding v. */
  function Blanks(cs: seq<string>, v: string): (b: map<string, string>)
    ensures forall c :: c in b <==> c in cs
  {
    map c | c in cs :: v
  }

  /** The columns after `df[c] = v` for each c of cs: each new name is
      appended once, where it first occurs. */
  function ColumnsAfter(cols: seq<string>, cs: seq<string>): (r: seq<string>)
    ensures forall c :: c in r <==> c in cols || c in cs
    decreases |cs|
  {
    if cs == [] then cols
    else ColumnsAfter(if cs[0] in cols then cols else cols + [cs[0]], cs[1..])
  }
}
