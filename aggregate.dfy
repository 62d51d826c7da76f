/** The steps every reformatter runs on the combined table dfT before it
    writes it out: test dates and epidemiological weeks, the one-letter
    sex code, the S-gene detection call, the projection onto the output
    columns, the duplicate report, drop_duplicates(keep='last') and the
    sort by lab, test and date.

    Date parsing and CDC epiweeks are not modelled: they are parameters,
    `parseDate` giving the '%Y-%m-%d' text of a date (None for a missing
    one) and `epiweekOf` the end date of its epiweek. */
module Aggregate {
  import opened Wrappers
  import opened Text
  import opened Tables
  import opened Ct

  /** 'XXXXX' stands for a test date pandas could not read. */
  const NoDate := "XXXXX"

  /** pd.to_datetime on date_testing, the epiweek column, and the later
      strftime('%Y-%m-%d') (or 'XXXXX' for a null date). */
  function Dates(t: Table, parseDate: string -> Option<string>, epiweekOf: string -> string): (r: Result<Table>)
    ensures r.Ok? <==> "date_testing" in t.cols
    ensures r.Ok? ==> |r.value.rows| == |t.rows| && "epiweek" in r.value.cols
    ensures r.Ok? ==> forall c :: c in t.cols ==> c in r.value.cols
    ensures r.Ok? ==> forall i :: 0 <= i < |t.rows| ==>
      var d := parseDate(Cell(t.rows[i], "date_testing"));
      Cell(r.value.rows[i], "date_testing") == (if d.Some? then d.value else NoDate) &&
      Cell(r.value.rows[i], "epiweek") == (if d.Some? then epiweekOf(d.value) else "")
  {
    if "date_testing" !in t.cols then Err(KeyError("date_testing"))
    else
      Ok(Table(if "epiweek" in t.cols then t.cols else t.cols + ["epiweek"],
        seq(|t.rows|, i requires 0 <= i < |t.rows| =>
          var d := parseDate(Cell(t.rows[i], "date_testing"));
          t.rows[i]["date_testing" := if d.Some? then d.value else NoDate]
                   ["epiweek" := if d.Some? then epiweekOf(d.value) else ""])))
  }

  /** Every sex cell of out is the sex code of the sex cell of some row of rows. */
  predicate SexCodesFrom(out: seq<Row>, rows: seq<Row>) {
    forall i :: 0 <= i < |out| ==>
      exists j :: 0 <= j < |rows| && Cell(out[i], "sex") == SexCode(Cell(rows[j], "sex"))
  }

  /** When row j of x has the sex code of row j of src, every written sex
      code is the sex code of some row of src. */
  lemma FinishSexCodes(x: Table, keyCols: seq<string>, src: seq<Row>)
    requires forall c :: c in keyCols ==> c in x.cols
    requires "sex" in keyCols && |x.rows| == |src|
    requires forall j :: 0 <= j < |x.rows| ==> Cell(x.rows[j], "sex") == SexCode(Cell(src[j], "sex"))
    ensures Finish(x, keyCols).Ok?
    ensures SexCodesFrom(Finish(x, keyCols).value.table.rows, src)
  {
    FinishMeaning(x, keyCols);
    var out := Finish(x, keyCols).value.table.rows;
    forall i | 0 <= i < |out|
      ensures exists j :: 0 <= j < |src| && Cell(out[i], "sex") == SexCode(Cell(src[j], "sex"))
    {
      var j := WrittenRow(x, keyCols, i);
      assert Cell(out[i], "sex") == Cell(x.rows[j], "sex");
    }
  }

  /** The date step writes only date_testing and epiweek. */
  lemma DatesKeep(t: Table, parseDate: string -> Option<string>, epiweekOf: string -> string, i: nat, c: string)
    requires Dates(t, parseDate, epiweekOf).Ok? && i < |t.rows|
    requires c != "date_testing" && c != "epiweek"
    ensures i < |Dates(t, parseDate, epiweekOf).value.rows|
    ensures Cell(Dates(t, parseDate, epiweekOf).value.rows[i], c) == Cell(t.rows[i], c)
  {
  }

  /** x[0] if x != '' else x */
  function SexCode(x: string): (r: string)
    ensures |r| <= 1
    ensures x != "" ==> r == [x[0]]
    ensures x == "" ==> r == ""
  {
    if x != "" then [x[0]] else x
  }

  /** df['sex'] = df['sex'].apply(SexCode); a table without a sex column raises KeyError. */
  function FixSex(t: Table): (r: Result<Table>)
    ensures r.Ok? <==> "sex" in t.cols
    ensures r.Ok? ==> r.value.cols == t.cols && |r.value.rows| == |t.rows|
    ensures r.Ok? ==> forall i :: 0 <= i < |t.rows| ==> |Cell(r.value.rows[i], "sex")| <= 1
    ensures r.Ok? ==> forall i :: 0 <= i < |t.rows| ==>
      r.value.rows[i] == t.rows[i]["sex" := SexCode(Cell(t.rows[i], "sex"))]
  {
    MapColumn(t, "sex", SexCode)
  }

  /** SexCode keeps a code that is already one letter. */
  lemma SexCodeIdempotent(x: string)
    ensures SexCode(SexCode(x)) == SexCode(x)
  {
  }

  /** The geneS_detection column, computed only when dfT has a Ct_geneS column. */
  function AddDetection(t: Table, labels: Labels): (r: Table)
    ensures "Ct_geneS" !in t.cols ==> r == t
    ensures "Ct_geneS" in t.cols ==> "geneS_detection" in r.cols && |r.rows| == |t.rows|
    ensures "Ct_geneS" in t.cols ==> forall i :: 0 <= i < |t.rows| ==>
        Cell(r.rows[i], "geneS_detection") == CheckDetection(Cell(t.rows[i], "Ct_geneS"), labels)
    ensures forall c :: c in t.cols ==> c in r.cols
  {
    if "Ct_geneS" !in t.cols then t
    else
      Table(if "geneS_detection" in t.cols then t.cols else t.cols + ["geneS_detection"],
        seq(|t.rows|, i requires 0 <= i < |t.rows| =>
          t.rows[i]["geneS_detection" := CheckDetection(Cell(t.rows[i], "Ct_geneS"), labels)]))
  }

  /** One row restricted to the output columns. */
  function ProjectRow(r: Row, keyCols: seq<string>): (p: Row)
    ensures p.Keys == set c | c in keyCols
    ensures forall c :: c in keyCols ==> p[c] == Cell(r, c)
  {
    map c | c in keyCols :: Cell(r, c)
  }

  /** Dropping the other columns and then dfT[key_cols]: exactly the output
      columns, in their order; a missing one raises KeyError. */
  function Project(t: Table, keyCols: seq<string>): (r: Result<Table>)
    ensures r.Ok? <==> forall c :: c in keyCols ==> c in t.cols
    ensures r.Ok? ==> r.value.cols == keyCols && |r.value.rows| == |t.rows|
    ensures r.Ok? ==> forall i :: 0 <= i < |t.rows| ==> r.value.rows[i] == ProjectRow(t.rows[i], keyCols)
  {
    var missing := MissingColumn(keyCols, t.cols);
    if missing.Some? then Err(KeyError(missing.value))
    else Ok(Table(keyCols, seq(|t.rows|, i requires 0 <= i < |t.rows| => ProjectRow(t.rows[i], keyCols))))
  }

  // ---- duplicates ----

  /** dfT[dfT.duplicated(keep=False)]: every row that occurs more than once, in order. */
  function DuplicateRows(rows: seq<Row>): (d: seq<Row>)
    ensures |d| <= |rows|
    ensures forall x {:trigger multiset(d)[x]} ::
      multiset(d)[x] == if multiset(rows)[x] >= 2 then multiset(rows)[x] else 0
  {
    KeepCounts(rows, x => multiset(rows)[x] > 1);
    Keep(rows, x => multiset(rows)[x] > 1)
  }

  /** The duplicate report holds a row exactly when the table holds it twice or more. */
  lemma DuplicateRowsMeaning(rows: seq<Row>, x: Row)
    ensures x in DuplicateRows(rows) <==> multiset(rows)[x] >= 2
  {
  }

  /** drop_duplicates(keep='last'): a row stays when no later row equals it. */
  function KeepLast(rows: seq<Row>): (r: seq<Row>)
    ensures forall x :: x in r <==> x in rows
    ensures |r| <= |rows|
  {
    if rows == [] then []
    else if rows[0] in rows[1..] then KeepLast(rows[1..])
    else [rows[0]] + KeepLast(rows[1..])
  }

  /** After drop_duplicates no two rows are equal. */
  lemma {:induction false} KeepLastDistinct(rows: seq<Row>)
    ensures forall i, j :: 0 <= i < j < |KeepLast(rows)| ==> KeepLast(rows)[i] != KeepLast(rows)[j]
  {
    if rows != [] {
      KeepLastDistinct(rows[1..]);
      if rows[0] !in rows[1..] {
        var r := KeepLast(rows);
        var t := KeepLast(rows[1..]);
        assert r == [rows[0]] + t;
        forall i, j | 0 <= i < j < |r| ensures r[i] != r[j] {
          assert r[j] == t[j - 1];
          if i == 0 {
            assert t[j - 1] in t;
          } else {
            assert r[i] == t[i - 1];
          }
        }
      }
    }
  }

  /** The index of the last occurrence of x in rows. */
  function LastIndex(rows: seq<Row>, x: Row): (k: nat)
    requires x in rows
    ensures k < |rows| && rows[k] == x && x !in rows[k + 1..]
  {
    if rows[|rows| - 1] == x then |rows| - 1
    else
      assert x in rows[..|rows| - 1] by {
        var i :| 0 <= i < |rows| && rows[i] == x;
        assert rows[..|rows| - 1][i] == x;
      }
      var k := LastIndex(rows[..|rows| - 1], x);
      assert rows[k + 1..] == rows[..|rows| - 1][k + 1..] + [rows[|rows| - 1]];
      k
  }

  /** Only one index holds the last occurrence of a value. */
  lemma LastIndexUnique(rows: seq<Row>, x: Row, i: nat)
    requires i < |rows| && rows[i] == x && x !in rows[i + 1..]
    ensures LastIndex(rows, x) == i
  {
  }

  /** Past the first row, a value's last occurrence moves by one. */
  lemma LastIndexTail(rows: seq<Row>, x: Row)
    requires rows != [] && x in rows[1..]
    ensures x in rows && LastIndex(rows, x) == LastIndex(rows[1..], x) + 1
  {
    var k := LastIndex(rows[1..], x);
    assert rows[k + 2..] == rows[1..][k + 1..];
    LastIndexUnique(rows, x, k + 1);
  }

  /** The rows of r, all taken from rows, come in the order of their last
      occurrences in rows. */
  ghost predicate InLastOrder(rows: seq<Row>, r: seq<Row>)
    requires forall x :: x in r ==> x in rows
  {
    forall i, j :: 0 <= i < j < |r| ==> LastIndex(rows, r[i]) < LastIndex(rows, r[j])
  }

  /** A row past the first is a row. */
  lemma InTail(rows: seq<Row>, t: seq<Row>)
    requires rows != [] && forall x :: x in t ==> x in rows[1..]
    ensures forall k :: 0 <= k < |t| ==> t[k] in rows
  {
    forall k | 0 <= k < |t| ensures t[k] in rows {
      assert t[k] in t;
      var m :| 0 <= m < |rows[1..]| && rows[1..][m] == t[k];
      assert rows[m + 1] == t[k];
    }
  }

  lemma TailOrder(rows: seq<Row>, t: seq<Row>)
    requires rows != [] && forall x :: x in t ==> x in rows[1..]
    requires InLastOrder(rows[1..], t)
    ensures InLastOrder(rows, t)
  {
    InTail(rows, t);
    forall i, j | 0 <= i < j < |t| ensures LastIndex(rows, t[i]) < LastIndex(rows, t[j]) {
      LastIndexTail(rows, t[i]);
      LastIndexTail(rows, t[j]);
    }
  }

  lemma ConsOrder(rows: seq<Row>, t: seq<Row>)
    requires rows != [] && rows[0] !in rows[1..] && forall x :: x in t ==> x in rows[1..]
    requires InLastOrder(rows, t)
    ensures InLastOrder(rows, [rows[0]] + t)
  {
    var r := [rows[0]] + t;
    InTail(rows, t);
    LastIndexUnique(rows, rows[0], 0);
    forall i, j | 0 <= i < j < |r| ensures LastIndex(rows, r[i]) < LastIndex(rows, r[j]) {
      assert r[j] == t[j - 1];
      if i == 0 {
        LastIndexTail(rows, t[j - 1]);
      } else {
        assert r[i] == t[i - 1];
      }
    }
  }

  /** drop_duplicates(keep='last') leaves the kept rows in the order of
      their last occurrences: with KeepLastDistinct and the membership in
      KeepLast's contract, this fixes the result entirely. */
  lemma {:induction false} KeepLastOrder(rows: seq<Row>)
    ensures InLastOrder(rows, KeepLast(rows))
  {
    if rows != [] {
      var t := KeepLast(rows[1..]);
      KeepLastOrder(rows[1..]);
      TailOrder(rows, t);
      if rows[0] !in rows[1..] {
        ConsOrder(rows, t);
      }
    }
  }

  /** Dropping duplicates twice is dropping them once. */
  lemma {:induction false} KeepLastIdempotent(rows: seq<Row>)
    ensures KeepLast(KeepLast(rows)) == KeepLast(rows)
  {
    KeepLastDistinct(rows);
    DistinctKeepLast(KeepLast(rows));
  }

  lemma {:induction false} DistinctKeepLast(rows: seq<Row>)
    requires forall i, j :: 0 <= i < j < |rows| ==> rows[i] != rows[j]
    ensures KeepLast(rows) == rows
  {
    if rows != [] {
      assert rows[0] !in rows[1..] by {
        forall k | 0 <= k < |rows[1..]| ensures rows[1..][k] != rows[0] { assert rows[1..][k] == rows[k + 1]; }
      }
      DistinctKeepLast(rows[1..]);
      assert rows == [rows[0]] + rows[1..];
    }
  }

  // ---- sort_values(by=['lab_id', 'test_id', 'date_testing']) ----

  /** The sort key order: lab id, then test id, then date text. */
  predicate KeyLe(a: Row, b: Row) {
    var la, lb := Cell(a, "lab_id"), Cell(b, "lab_id");
    var ta, tb := Cell(a, "test_id"), Cell(b, "test_id");
    Lt(la, lb) || (la == lb && (Lt(ta, tb) || (ta == tb && Le(Cell(a, "date_testing"), Cell(b, "date_testing")))))
  }

  lemma KeyLeTotal(a: Row, b: Row)
    ensures KeyLe(a, b) || KeyLe(b, a)
  {
    LeTotal(Cell(a, "lab_id"), Cell(b, "lab_id"));
    LeTotal(Cell(a, "test_id"), Cell(b, "test_id"));
    LeTotal(Cell(a, "date_testing"), Cell(b, "date_testing"));
  }

  lemma KeyLeTrans(a: Row, b: Row, c: Row)
    requires KeyLe(a, b) && KeyLe(b, c)
    ensures KeyLe(a, c)
  {
    var la, lb, lc := Cell(a, "lab_id"), Cell(b, "lab_id"), Cell(c, "lab_id");
    var ta, tb, tc := Cell(a, "test_id"), Cell(b, "test_id"), Cell(c, "test_id");
    if Lt(la, lb) && Lt(lb, lc) { LtTrans(la, lb, lc); }
    if la == lb && lb == lc && Lt(ta, tb) && Lt(tb, tc) { LtTrans(ta, tb, tc); }
    if la == lb && lb == lc && ta == tb && tb == tc {
      LeTrans(Cell(a, "date_testing"), Cell(b, "date_testing"), Cell(c, "date_testing"));
    }
  }

  predicate SortedByKey(rows: seq<Row>) {
    forall i, j :: 0 <= i < j < |rows| ==> KeyLe(rows[i], rows[j])
  }

  /** Insert a row after every row that does not sort after it. */
  function InsertByKey(rows: seq<Row>, x: Row): (r: seq<Row>)
    ensures multiset(r) == multiset(rows) + multiset{x}
    ensures forall y :: y in r <==> y in rows || y == x
  {
    if rows == [] then [x]
    else if !KeyLe(rows[0], x) then [x] + rows
    else
      assert rows == [rows[0]] + rows[1..];
      [rows[0]] + InsertByKey(rows[1..], x)
  }

  lemma SortedCons(y: Row, rows: seq<Row>)
    requires SortedByKey(rows)
    requires forall z :: z in rows ==> KeyLe(y, z)
    ensures SortedByKey([y] + rows)
  {
    var r := [y] + rows;
    forall i, j | 0 <= i < j < |r| ensures KeyLe(r[i], r[j]) {
      assert r[j] == rows[j - 1];
      if i > 0 { assert r[i] == rows[i - 1]; }
    }
  }

  lemma {:induction false} InsertByKeySorted(rows: seq<Row>, x: Row)
    requires SortedByKey(rows)
    ensures SortedByKey(InsertByKey(rows, x))
  {
    if rows != [] {
      var y := rows[0];
      assert rows == [y] + rows[1..];
      assert forall z :: z in rows[1..] ==> KeyLe(y, z) by {
        forall z | z in rows[1..] ensures KeyLe(y, z) {
          var k :| 0 <= k < |rows[1..]| && rows[1..][k] == z;
          assert rows[k + 1] == z;
        }
      }
      if !KeyLe(y, x) {
        KeyLeTotal(x, y);
        forall z | z in rows ensures KeyLe(x, z) {
          if z != y { KeyLeTrans(x, y, z); }
        }
        SortedCons(x, rows);
      } else {
        assert SortedByKey(rows[1..]);
        InsertByKeySorted(rows[1..], x);
        SortedCons(y, InsertByKey(rows[1..], x));
      }
    }
  }

  /** The sorted table: ordered by the key, the same rows with the same multiplicities. */
  function SortByKey(rows: seq<Row>): (r: seq<Row>)
    ensures multiset(r) == multiset(rows)
    ensures SortedByKey(r)
  {
    if rows == [] then []
    else
      var init := SortByKey(rows[..|rows| - 1]);
      InsertByKeySorted(init, rows[|rows| - 1]);
      assert rows == rows[..|rows| - 1] + [rows[|rows| - 1]];
      InsertByKey(init, rows[|rows| - 1])
  }

  /** The written table and the duplicate report. */
  datatype Output = Output(table: Table, duplicates: Table)

  /** From the projection on: duplicates reported, the last of each kept,
      the rest sorted. */
  function Finish(t: Table, keyCols: seq<string>): (r: Result<Output>)
    ensures r.Ok? <==> forall c :: c in keyCols ==> c in t.cols
    ensures r.Ok? ==> r.value.table.cols == keyCols && r.value.duplicates.cols == keyCols
    ensures r.Ok? ==> SortedByKey(r.value.table.rows)
  {
    var p :- Project(t, keyCols);
    Ok(Output(Table(keyCols, SortByKey(KeepLast(p.rows))), Table(keyCols, DuplicateRows(p.rows))))
  }

  /** In a sequence without repeats every value occurs at most once, and
      conversely. */
  lemma {:induction false} DistinctCount(rows: seq<Row>)
    ensures (forall i, j :: 0 <= i < j < |rows| ==> rows[i] != rows[j]) <==>
      (forall x :: multiset(rows)[x] <= 1)
  {
    if rows != [] {
      DistinctCount(rows[1..]);
      assert rows == [rows[0]] + rows[1..];
      assert multiset(rows) == multiset{rows[0]} + multiset(rows[1..]);
      if forall i, j :: 0 <= i < j < |rows| ==> rows[i] != rows[j] {
        assert forall i, j :: 0 <= i < j < |rows[1..]| ==> rows[1..][i] != rows[1..][j] by {
          forall i, j | 0 <= i < j < |rows[1..]| ensures rows[1..][i] != rows[1..][j] {
            assert rows[1..][i] == rows[i + 1] && rows[1..][j] == rows[j + 1];
          }
        }
        assert rows[0] !in rows[1..] by {
          forall k | 0 <= k < |rows[1..]| ensures rows[1..][k] != rows[0] { assert rows[1..][k] == rows[k + 1]; }
        }
      }
      if forall x :: multiset(rows)[x] <= 1 {
        forall x ensures multiset(rows[1..])[x] <= 1 {
          assert multiset(rows)[x] == multiset{rows[0]}[x] + multiset(rows[1..])[x];
        }
        assert multiset(rows)[rows[0]] == 1 + multiset(rows[1..])[rows[0]];
        assert multiset(rows[1..])[rows[0]] == 0;
        forall i, j | 0 <= i < j < |rows| ensures rows[i] != rows[j] {
          assert rows[j] == rows[1..][j - 1];
          if i > 0 { assert rows[i] == rows[1..][i - 1]; }
        }
      }
    }
  }

  /** The written rows are the distinct projected rows, sorted. */
  lemma FinishRows(p: seq<Row>)
    ensures SortedByKey(SortByKey(KeepLast(p)))
    ensures forall x :: x in SortByKey(KeepLast(p)) <==> x in p
    ensures forall i, j :: 0 <= i < j < |SortByKey(KeepLast(p))| ==>
      SortByKey(KeepLast(p))[i] != SortByKey(KeepLast(p))[j]
  {
    var kept := KeepLast(p);
    var sorted := SortByKey(kept);
    KeepLastDistinct(p);
    DistinctCount(kept);
    DistinctCount(sorted);
    forall x ensures x in sorted <==> x in kept {
      assert x in sorted <==> x in multiset(sorted);
      assert x in kept <==> x in multiset(kept);
    }
  }

  /** What is written: every output row is a projected input row and every
      projected input row is written once, sorted by lab, test and date;
      the report holds the rows that occur more than once. */
  /** The row of the table a written row is the projection of. */
  lemma WrittenRow(t: Table, keyCols: seq<string>, i: nat) returns (j: nat)
    requires forall c :: c in keyCols ==> c in t.cols
    requires i < |Finish(t, keyCols).value.table.rows|
    ensures j < |t.rows| && Finish(t, keyCols).value.table.rows[i] == ProjectRow(t.rows[j], keyCols)
  {
    FinishMeaning(t, keyCols);
    assert Finish(t, keyCols).value.table.rows[i] in Finish(t, keyCols).value.table.rows;
    j :| 0 <= j < |t.rows| && Finish(t, keyCols).value.table.rows[i] == ProjectRow(t.rows[j], keyCols);
  }

  lemma FinishMeaning(t: Table, keyCols: seq<string>)
    requires forall c :: c in keyCols ==> c in t.cols
    ensures Finish(t, keyCols).Ok?
    ensures Finish(t, keyCols).value.table.cols == keyCols
    ensures SortedByKey(Finish(t, keyCols).value.table.rows)
    ensures forall x :: x in Finish(t, keyCols).value.table.rows <==>
      exists i :: 0 <= i < |t.rows| && x == ProjectRow(t.rows[i], keyCols)
    ensures forall i, j :: 0 <= i < j < |Finish(t, keyCols).value.table.rows| ==>
      Finish(t, keyCols).value.table.rows[i] != Finish(t, keyCols).value.table.rows[j]
    ensures forall x :: x in Finish(t, keyCols).value.duplicates.rows <==>
      multiset(Project(t, keyCols).value.rows)[x] >= 2
  {
    var p := Project(t, keyCols).value;
    FinishRows(p.rows);
    forall x ensures x in p.rows <==> exists i :: 0 <= i < |t.rows| && x == ProjectRow(t.rows[i], keyCols) {
      if x in p.rows {
        var i :| 0 <= i < |p.rows| && p.rows[i] == x;
      }
    }
  }

  /** What every reformatter but Fleury and Sabin does after the file
      loop: dates and epiweeks, the gene S call in the lab's labels, then
      the projection, the duplicate report, drop_duplicates(keep='last')
      and the sort. */
  function Finalize(t: Table, parseDate: string -> Option<string>, epiweekOf: string -> string,
                    labels: Labels, keyCols: seq<string>): (r: Result<Output>)
    ensures r.Ok? ==> r.value.table.cols == keyCols && r.value.duplicates.cols == keyCols
    ensures r.Ok? ==> SortedByKey(r.value.table.rows)
  {
    var d :- Dates(t, parseDate, epiweekOf);
    Finish(AddDetection(d, labels), keyCols)
  }

  /** The written table has exactly the key columns, no two equal rows,
      and is sorted by lab, test and date; it fails exactly when
      date_testing or a key column is missing. */
  lemma FinalizeMeaning(t: Table, parseDate: string -> Option<string>, epiweekOf: string -> string,
                        labels: Labels, keyCols: seq<string>)
    ensures Finalize(t, parseDate, epiweekOf, labels, keyCols).Ok? ==>
      var out := Finalize(t, parseDate, epiweekOf, labels, keyCols).value.table;
      out.cols == keyCols && SortedByKey(out.rows) &&
      forall i, j :: 0 <= i < j < |out.rows| ==> out.rows[i] != out.rows[j]
  {
    if Finalize(t, parseDate, epiweekOf, labels, keyCols).Ok? {
      var d := Dates(t, parseDate, epiweekOf).value;
      FinishMeaning(AddDetection(d, labels), keyCols);
    }
  }
}
