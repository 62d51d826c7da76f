/** The rename and correction catalogs every reformatter builds from its
    `--rename` and `--correction` tables, and the correction pass
    (`fix_data_points` applied column by column). Python dicts keep
    insertion order, and the correction pass follows it, so the
    correction catalog is a pair of ordered dictionaries. */
module Catalog {
  import opened Wrappers
  import opened Tables

  /** A dict with its insertion order: `keys` lists the domain of `m` once each. */
  datatype ODict<V> = ODict(keys: seq<string>, m: map<string, V>)

  ghost predicate ValidDict<V>(d: ODict<V>) {
    (forall k :: k in d.keys <==> k in d.m) &&
    (forall i, j :: 0 <= i < j < |d.keys| ==> d.keys[i] != d.keys[j])
  }

  /** d[k] = v: a new key goes last, an existing one keeps its place. */
  function Put<V>(d: ODict<V>, k: string, v: V): (r: ODict<V>)
    ensures ValidDict(d) ==> ValidDict(r)
    ensures r.m == d.m[k := v]
    ensures r.keys == if k in d.m then d.keys else d.keys + [k]
  {
    if k in d.m then ODict(d.keys, d.m[k := v]) else ODict(d.keys + [k], d.m[k := v])
  }

  const NoEntries: ODict<map<string, string>> := ODict([], map[])

  /** dict_corrections: lab id -> column -> (old value -> new value). */
  type Corrections = ODict<ODict<map<string, string>>>

  ghost predicate ValidCorrections(c: Corrections) {
    ValidDict(c) && forall lab :: lab in c.m ==> ValidDict(c.m[lab])
  }

  /** One row of the `--correction` table. */
  datatype CorrectionRow = CorrectionRow(labId: string, column: string, oldData: string, newData: string)

  /** `dict_corrections[id][colname].update({old_data: new_data})`, creating
      the inner dicts when they are missing. */
  function PutEntry(c: Corrections, lab: string, col: string, was: string, now: string): (r: Corrections)
    ensures ValidCorrections(c) ==> ValidCorrections(r)
  {
    var cols := if lab in c.m then c.m[lab] else NoEntries;
    var fixes := if col in cols.m then cols.m[col] else map[];
    Put(c, lab, Put(cols, col, fixes[was := now]))
  }

  function PutEntries(c: Corrections, labs: seq<string>, col: string, was: string, now: string): (r: Corrections)
    ensures ValidCorrections(c) ==> ValidCorrections(r)
    decreases |labs|
  {
    if labs == [] then c
    else PutEntries(PutEntry(c, labs[0], col, was, now), labs[1..], col, was, now)
  }

  /** What one catalog row adds: nothing when old_data + new_data is empty;
      under every id of allIds when its column is 'any'; else under its own id. */
  function Register(c: Corrections, row: CorrectionRow, allIds: seq<string>): (r: Corrections)
    requires ValidCorrections(c)
    ensures ValidCorrections(r)
  {
    if row.oldData + row.newData == "" then c
    else PutEntries(c, if row.column == "any" then allIds else [row.labId],
                    row.column, row.oldData, row.newData)
  }

  /** The catalog after the first |rows| rows, in order. */
  function CorrectionsOf(rows: seq<CorrectionRow>, allIds: seq<string>): (r: Corrections)
    ensures ValidCorrections(r)
  {
    if rows == [] then ODict([], map[])
    else Register(CorrectionsOf(rows[..|rows| - 1], allIds), rows[|rows| - 1], allIds)
  }

  /** The rows the catalog is built from: those whose lab id is in keep,
      or all of them when there is no filter (Fleury, DASA). */
  function Selected(rows: seq<CorrectionRow>, keep: Option<set<string>>): (r: seq<CorrectionRow>)
    ensures forall x :: x in r <==> x in rows && (keep.None? || x.labId in keep.value)
  {
    if rows == [] then []
    else (if keep.None? || rows[0].labId in keep.value then [rows[0]] else [])
         + Selected(rows[1..], keep)
  }

  /** `all_ids = list(set(dfC['lab_id']))`: the ids, once each, in an order
      the set happens to give; any such order is admitted. */
  ghost predicate EnumeratesIds(allIds: seq<string>, rows: seq<CorrectionRow>) {
    (forall id :: id in allIds <==> exists i :: 0 <= i < |rows| && rows[i].labId == id) &&
    (forall i, j :: 0 <= i < j < |allIds| ==> allIds[i] != allIds[j])
  }

  /** The catalog loop of every reformatter: filter the rows, then register
      them one by one into dict_corrections. */
  method BuildCorrections(rows: seq<CorrectionRow>, keep: Option<set<string>>, allIds: seq<string>)
    returns (c: Corrections)
    requires EnumeratesIds(allIds, Selected(rows, keep))
    ensures c == CorrectionsOf(Selected(rows, keep), allIds)
  {
    c := Build(Selected(rows, keep), allIds);
  }

  /** The catalog loop over the filtered rows. */
  method Build(dfC: seq<CorrectionRow>, allIds: seq<string>) returns (c: Corrections)
    ensures c == CorrectionsOf(dfC, allIds)
  {
    c := ODict([], map[]);
    var i := 0;
    while i < |dfC|
      invariant 0 <= i <= |dfC|
      invariant c == CorrectionsOf(dfC[..i], allIds)
    {
      assert dfC[..i + 1][..i] == dfC[..i];
      c := AddRow(c, dfC[i], allIds);
      i := i + 1;
    }
    assert dfC[..i] == dfC;
  }

  /** The body of the catalog loop for one row: the lab ids it files under,
      one `update` each. */
  method AddRow(c0: Corrections, row: CorrectionRow, allIds: seq<string>) returns (c: Corrections)
    requires ValidCorrections(c0)
    ensures c == Register(c0, row, allIds)
  {
    c := c0;
    if row.oldData + row.newData != "" {
      var labs := if row.column == "any" then allIds else [row.labId];
      ghost var goal := PutEntries(c0, labs, row.column, row.oldData, row.newData);
      var k := 0;
      while k < |labs|
        invariant 0 <= k <= |labs|
        invariant PutEntries(c, labs[k..], row.column, row.oldData, row.newData) == goal
      {
        PutEntriesStep(c, labs[k..], row.column, row.oldData, row.newData);
        assert labs[k..][1..] == labs[k + 1..];
        c := PutEntry(c, labs[k], row.column, row.oldData, row.newData);
        k := k + 1;
      }
    }
  }

  lemma PutEntriesStep(c: Corrections, labs: seq<string>, col: string, was: string, now: string)
    requires labs != []
    ensures PutEntries(c, labs, col, was, now)
         == PutEntries(PutEntry(c, labs[0], col, was, now), labs[1..], col, was, now)
  {
  }

  // ---- what the catalog holds ----

  /** dict_corrections[lab][col][old], when it is there. */
  function Lookup(c: Corrections, lab: string, col: string, was: string): (r: Option<string>)
    ensures ValidCorrections(c) && r.Some? ==> lab in c.keys && col in c.m[lab].keys
  {
    if lab in c.m && col in c.m[lab].m && was in c.m[lab].m[col]
    then Some(c.m[lab].m[col][was]) else None
  }

  /** A catalog row that files a correction under (lab, col, old). */
  predicate Files(row: CorrectionRow, allIds: seq<string>, lab: string, col: string, was: string) {
    row.oldData + row.newData != "" && row.column == col && row.oldData == was &&
    (if col == "any" then lab in allIds else row.labId == lab)
  }

  /** The new value of the last row that files under (lab, col, old). */
  function LastFiled(rows: seq<CorrectionRow>, allIds: seq<string>, lab: string, col: string, was: string)
    : Option<string>
  {
    if rows == [] then None
    else if Files(rows[|rows| - 1], allIds, lab, col, was) then Some(rows[|rows| - 1].newData)
    else LastFiled(rows[..|rows| - 1], allIds, lab, col, was)
  }

  lemma PutEntryLookup(c: Corrections, l: string, cl: string, o: string, n: string,
                       lab: string, col: string, was: string)
    ensures Lookup(PutEntry(c, l, cl, o, n), lab, col, was)
         == if l == lab && cl == col && o == was then Some(n) else Lookup(c, lab, col, was)
  {
  }

  lemma {:induction false} PutEntriesLookup(c: Corrections, labs: seq<string>, cl: string, o: string,
                                            n: string, lab: string, col: string, was: string)
    ensures Lookup(PutEntries(c, labs, cl, o, n), lab, col, was)
         == if lab in labs && cl == col && o == was then Some(n) else Lookup(c, lab, col, was)
    decreases |labs|
  {
    if labs != [] {
      var c1 := PutEntry(c, labs[0], cl, o, n);
      assert PutEntries(c, labs, cl, o, n) == PutEntries(c1, labs[1..], cl, o, n);
      PutEntryLookup(c, labs[0], cl, o, n, lab, col, was);
      PutEntriesLookup(c1, labs[1..], cl, o, n, lab, col, was);
      assert lab in labs <==> lab == labs[0] || lab in labs[1..];
    }
  }

  /** The catalog holds a correction exactly where some row files one,
      and it holds the new value of the last such row: an empty
      old+new pair files nothing, a column 'any' files under every id of
      allIds, and a later row for the same (lab, column, old) wins. */
  lemma {:induction false} CorrectionsLookup(rows: seq<CorrectionRow>, allIds: seq<string>,
                                             lab: string, col: string, was: string)
    ensures Lookup(CorrectionsOf(rows, allIds), lab, col, was) == LastFiled(rows, allIds, lab, col, was)
  {
    if rows != [] {
      var row := rows[|rows| - 1];
      var prev := CorrectionsOf(rows[..|rows| - 1], allIds);
      CorrectionsLookup(rows[..|rows| - 1], allIds, lab, col, was);
      if row.oldData + row.newData != "" {
        PutEntriesLookup(prev, if row.column == "any" then allIds else [row.labId],
                         row.column, row.oldData, row.newData, lab, col, was);
      }
    }
  }

  /** Every lab id the catalog has is one of the selected rows' ids: with
      the SABIN filter the catalog holds only 'SABIN' and 'any'. */
  lemma CorrectionsLabs(rows: seq<CorrectionRow>, keep: Option<set<string>>,
                        allIds: seq<string>, lab: string)
    requires EnumeratesIds(allIds, Selected(rows, keep))
    requires lab in CorrectionsOf(Selected(rows, keep), allIds).m
    ensures exists i :: 0 <= i < |rows| && rows[i].labId == lab
    ensures keep.Some? ==> lab in keep.value
  {
    var sel := Selected(rows, keep);
    CorrectionsKeys(sel, allIds, lab);
    var j :| 0 <= j < |sel| && sel[j].labId == lab;
    assert sel[j] in rows;
  }

  /** A lab id in the catalog came from a row of its own or from allIds. */
  lemma {:induction false} CorrectionsKeys(rows: seq<CorrectionRow>, allIds: seq<string>, lab: string)
    requires lab in CorrectionsOf(rows, allIds).m
    ensures lab in allIds || exists i :: 0 <= i < |rows| && rows[i].labId == lab
  {
    var prefix := rows[..|rows| - 1];
    var row := rows[|rows| - 1];
    var prev := CorrectionsOf(prefix, allIds);
    if lab in prev.m {
      CorrectionsKeys(prefix, allIds, lab);
      if lab !in allIds {
        var j :| 0 <= j < |prefix| && prefix[j].labId == lab;
        assert rows[j] == prefix[j];
      }
    } else {
      PutEntriesKeys(prev, if row.column == "any" then allIds else [row.labId],
                     row.column, row.oldData, row.newData);
      assert rows[|rows| - 1].labId == row.labId;
    }
  }

  lemma {:induction false} PutEntriesKeys(c: Corrections, labs: seq<string>, cl: string, o: string, n: string)
    requires ValidCorrections(c)
    ensures forall lab :: lab in PutEntries(c, labs, cl, o, n).m <==> lab in c.m || lab in labs
    decreases |labs|
  {
    if labs != [] {
      var c' := PutEntry(c, labs[0], cl, o, n);
      PutEntryKeys(c, labs[0], cl, o, n);
      PutEntriesStep(c, labs, cl, o, n);
      PutEntriesKeys(c', labs[1..], cl, o, n);
      assert forall lab :: lab in labs <==> lab == labs[0] || lab in labs[1..];
    }
  }

  lemma PutEntryKeys(c: Corrections, l: string, cl: string, o: string, n: string)
    requires ValidCorrections(c)
    ensures ValidCorrections(PutEntry(c, l, cl, o, n))
    ensures forall lab :: lab in PutEntry(c, l, cl, o, n).m <==> lab in c.m || lab == l
  {
  }

  // ---- fix_data_points and the correction pass ----

  /** fix_data_points(id, col_name, value): the catalog's replacement when
      the value has one, the value itself otherwise. The caller only asks
      for ids and columns the catalog has (else KeyError). */
  function FixDataPoint(c: Corrections, lab: string, col: string, v: string): (r: string)
    requires lab in c.m && col in c.m[lab].m
    ensures Lookup(c, lab, col, v).Some? ==> r == Lookup(c, lab, col, v).value
    ensures Lookup(c, lab, col, v).None? ==> r == v
  {
    var fixes := c.m[lab].m[col];
    if v in fixes then fixes[v] else v
  }

  /** `for column, values in columns.items(): df[column] = df[column].apply(...)`
      for one lab id. With guarded (DB Molecular) a column the table lacks
      is skipped; otherwise it raises KeyError. */
  function FixColumns(t: Table, c: Corrections, lab: string, cols: seq<string>, guarded: bool)
    : Result<Table>
    requires lab in c.m
    requires forall col :: col in cols ==> col in c.m[lab].m
    decreases |cols|
  {
    if cols == [] then Ok(t)
    else if guarded && cols[0] !in t.cols then FixColumns(t, c, lab, cols[1..], guarded)
    else
      var t' :- MapColumn(t, cols[0], v => FixDataPoint(c, lab, cols[0], v));
      FixColumns(t', c, lab, cols[1..], guarded)
  }

  /** The correction pass: every lab id of the catalog in insertion order. */
  function FixLabs(t: Table, c: Corrections, labs: seq<string>, guarded: bool): Result<Table>
    requires ValidCorrections(c)
    requires forall lab :: lab in labs ==> lab in c.m
    decreases |labs|
  {
    if labs == [] then Ok(t)
    else
      var t' :- FixColumns(t, c, labs[0], c.m[labs[0]].keys, guarded);
      FixLabs(t', c, labs[1..], guarded)
  }

  /** No lab's catalog corrects any value of column col in rows. */
  predicate Uncorrected(c: Corrections, col: string, rows: seq<Row>) {
    forall lab, j :: lab in c.keys && 0 <= j < |rows| ==> Lookup(c, lab, col, Cell(rows[j], col)).None?
  }

  /** A value no lab's catalog corrects in column x passes the whole
      correction pass unchanged. */
  lemma CorrectedKeeps(t: Table, c: Corrections, guarded: bool, i: nat, x: string)
    requires ValidCorrections(c) && Corrected(t, c, guarded).Ok? && i < |t.rows|
    requires forall lab :: lab in c.keys ==> Lookup(c, lab, x, Cell(t.rows[i], x)).None?
    ensures i < |Corrected(t, c, guarded).value.rows|
    ensures Cell(Corrected(t, c, guarded).value.rows[i], x) == Cell(t.rows[i], x)
  {
    assert forall lab :: lab in c.keys ==> lab in c.m;
    FixLabsKeeps(t, c, c.keys, guarded, i, x);
  }

  function Corrected(t: Table, c: Corrections, guarded: bool): (r: Result<Table>)
    requires ValidCorrections(c)
    ensures r.Ok? <==> guarded || forall lab, col :: lab in c.keys && col in c.m[lab].keys ==> col in t.cols
    ensures r.Ok? ==> r.value.cols == t.cols && |r.value.rows| == |t.rows|
  {
    assert forall lab :: lab in c.keys ==> lab in c.m;
    FixLabsOk(t, c, c.keys, guarded);
    FixLabs(t, c, c.keys, guarded)
  }

  /** The rest of the pass once one lab's columns are done (or failed). */
  function ThenLabs(r: Result<Table>, c: Corrections, labs: seq<string>, guarded: bool): Result<Table>
    requires ValidCorrections(c)
    requires forall lab :: lab in labs ==> lab in c.m
  {
    if r.Err? then r else FixLabs(r.value, c, labs, guarded)
  }

  /** The correction loop as the scripts run it, reassigning df per column. */
  method ApplyCorrections(t: Table, c: Corrections, guarded: bool) returns (r: Result<Table>)
    requires ValidCorrections(c)
    ensures r == Corrected(t, c, guarded)
  {
    var df := t;
    var i := 0;
    while i < |c.keys|
      invariant 0 <= i <= |c.keys|
      invariant FixLabs(df, c, c.keys[i..], guarded) == Corrected(t, c, guarded)
    {
      var lab := c.keys[i];
      assert c.keys[i..][1..] == c.keys[i + 1..];
      var fixed := FixLab(df, c, lab, guarded);
      if fixed.Err? {
        return fixed.PropagateFailure();
      }
      df := fixed.value;
      i := i + 1;
    }
    r := Ok(df);
  }

  /** One lab's pass over its listed columns. */
  method FixLab(t: Table, c: Corrections, lab: string, guarded: bool) returns (r: Result<Table>)
    requires ValidCorrections(c) && lab in c.m
    ensures r == FixColumns(t, c, lab, c.m[lab].keys, guarded)
  {
    var cols := c.m[lab].keys;
    var df := t;
    var k := 0;
    while k < |cols|
      invariant 0 <= k <= |cols|
      invariant FixColumns(df, c, lab, cols[k..], guarded) == FixColumns(t, c, lab, cols, guarded)
    {
      var col := cols[k];
      assert cols[k..][1..] == cols[k + 1..];
      if !guarded || col in df.cols {
        var fixed := MapColumn(df, col, v => FixDataPoint(c, lab, col, v));
        if fixed.Err? {
          return fixed.PropagateFailure();
        }
        df := fixed.value;
      }
      k := k + 1;
    }
    r := Ok(df);
  }

  /** One lab's columns keep the table's columns and rows, and fail only
      unguarded, on a listed column the table lacks. */
  lemma {:induction false} FixColumnsOk(t: Table, c: Corrections, lab: string, cols: seq<string>,
                                        guarded: bool)
    requires lab in c.m
    requires forall col :: col in cols ==> col in c.m[lab].m
    ensures FixColumns(t, c, lab, cols, guarded).Ok? <==> guarded || forall col :: col in cols ==> col in t.cols
    ensures FixColumns(t, c, lab, cols, guarded).Ok? ==>
      FixColumns(t, c, lab, cols, guarded).value.cols == t.cols &&
      |FixColumns(t, c, lab, cols, guarded).value.rows| == |t.rows|
    decreases |cols|
  {
    if cols != [] {
      assert forall x :: x in cols <==> x == cols[0] || x in cols[1..];
      if guarded && cols[0] !in t.cols {
        FixColumnsOk(t, c, lab, cols[1..], guarded);
      } else if cols[0] in t.cols {
        var t' := MapColumn(t, cols[0], v => FixDataPoint(c, lab, cols[0], v)).value;
        FixColumnsOk(t', c, lab, cols[1..], guarded);
      }
    }
  }

  /** After one lab's columns: a column the catalog lists for the lab (and
      the table has) went through fix_data_points, every other cell is as it was. */
  ghost predicate FixedCells(t: Table, r: Table, c: Corrections, lab: string, cols: seq<string>)
    requires lab in c.m
    requires forall col :: col in cols ==> col in c.m[lab].m
    requires |r.rows| == |t.rows|
  {
    forall i, x :: 0 <= i < |t.rows| ==>
      Cell(r.rows[i], x) == if x in cols && x in t.cols
                            then FixDataPoint(c, lab, x, Cell(t.rows[i], x))
                            else Cell(t.rows[i], x)
  }

  lemma {:induction false} FixColumnsCells(t: Table, c: Corrections, lab: string, cols: seq<string>,
                                           guarded: bool)
    requires lab in c.m
    requires forall col :: col in cols ==> col in c.m[lab].m
    requires forall p, q :: 0 <= p < q < |cols| ==> cols[p] != cols[q]
    requires FixColumns(t, c, lab, cols, guarded).Ok?
    ensures |FixColumns(t, c, lab, cols, guarded).value.rows| == |t.rows|
    ensures FixedCells(t, FixColumns(t, c, lab, cols, guarded).value, c, lab, cols)
    decreases |cols|
  {
    FixColumnsOk(t, c, lab, cols, guarded);
    if cols != [] {
      var col := cols[0];
      var rest := cols[1..];
      assert forall p, q :: 0 <= p < q < |rest| ==> rest[p] != rest[q] by {
        forall p, q | 0 <= p < q < |rest| ensures rest[p] != rest[q] {
          assert rest[p] == cols[p + 1] && rest[q] == cols[q + 1];
        }
      }
      assert col !in rest by {
        forall q | 0 <= q < |rest| ensures rest[q] != col { assert rest[q] == cols[q + 1]; }
      }
      assert forall x :: x in cols <==> x == col || x in rest;
      var r := FixColumns(t, c, lab, cols, guarded).value;
      if guarded && col !in t.cols {
        FixColumnsCells(t, c, lab, rest, guarded);
      } else {
        var t' := MapColumn(t, col, v => FixDataPoint(c, lab, col, v)).value;
        assert r == FixColumns(t', c, lab, rest, guarded).value;
        FixColumnsCells(t', c, lab, rest, guarded);
        FixColumnCells(t, t', r, c, lab, col, rest);
        assert cols == [col] + rest;
      }
    }
  }

  /** One step of the column loop: mapping col first, then fixing the rest,
      fixes every listed cell once. */
  lemma FixColumnCells(t: Table, t': Table, r: Table, c: Corrections, lab: string,
                       col: string, rest: seq<string>)
    requires lab in c.m && col in c.m[lab].m
    requires forall x :: x in rest ==> x in c.m[lab].m
    requires col !in rest
    requires MapColumn(t, col, v => FixDataPoint(c, lab, col, v)) == Ok(t')
    requires |r.rows| == |t'.rows|
    requires FixedCells(t', r, c, lab, rest)
    ensures |r.rows| == |t.rows|
    ensures FixedCells(t, r, c, lab, [col] + rest)
  {
    forall i, x | 0 <= i < |t.rows|
      ensures Cell(r.rows[i], x) == if x in [col] + rest && x in t.cols
                                    then FixDataPoint(c, lab, x, Cell(t.rows[i], x))
                                    else Cell(t.rows[i], x)
    {
      assert t'.rows[i] == t.rows[i][col := FixDataPoint(c, lab, col, Cell(t.rows[i], col))];
      assert Cell(t'.rows[i], x) == if x == col then FixDataPoint(c, lab, col, Cell(t.rows[i], x))
                                    else Cell(t.rows[i], x);
    }
  }

  /** One lab's columns leave a value the lab has no correction for as it is. */
  lemma {:induction false} FixColumnsKeeps(t: Table, c: Corrections, lab: string, cols: seq<string>,
                                           guarded: bool, i: nat, x: string)
    requires lab in c.m
    requires forall col :: col in cols ==> col in c.m[lab].m
    requires FixColumns(t, c, lab, cols, guarded).Ok? && i < |t.rows|
    requires Lookup(c, lab, x, Cell(t.rows[i], x)).None?
    ensures |FixColumns(t, c, lab, cols, guarded).value.rows| == |t.rows|
    ensures Cell(FixColumns(t, c, lab, cols, guarded).value.rows[i], x) == Cell(t.rows[i], x)
    decreases |cols|
  {
    FixColumnsOk(t, c, lab, cols, guarded);
    if cols != [] {
      if guarded && cols[0] !in t.cols {
        FixColumnsKeeps(t, c, lab, cols[1..], guarded, i, x);
      } else {
        var t' := MapColumn(t, cols[0], v => FixDataPoint(c, lab, cols[0], v)).value;
        assert Cell(t'.rows[i], x) == Cell(t.rows[i], x);
        FixColumnsKeeps(t', c, lab, cols[1..], guarded, i, x);
      }
    }
  }

  /** The whole pass keeps the table's columns and rows; guarded (DB
      Molecular) it never fails, and unguarded it fails exactly when the
      catalog lists a column the table lacks. */
  lemma {:induction false} FixLabsOk(t: Table, c: Corrections, labs: seq<string>, guarded: bool)
    requires ValidCorrections(c)
    requires forall lab :: lab in labs ==> lab in c.m
    ensures FixLabs(t, c, labs, guarded).Ok? <==>
      guarded || forall lab, col :: lab in labs && col in c.m[lab].keys ==> col in t.cols
    ensures FixLabs(t, c, labs, guarded).Ok? ==>
      FixLabs(t, c, labs, guarded).value.cols == t.cols &&
      |FixLabs(t, c, labs, guarded).value.rows| == |t.rows|
    decreases |labs|
  {
    if labs != [] {
      var lab := labs[0];
      assert forall l :: l in labs <==> l == lab || l in labs[1..];
      FixColumnsOk(t, c, lab, c.m[lab].keys, guarded);
      var r1 := FixColumns(t, c, lab, c.m[lab].keys, guarded);
      if r1.Ok? {
        FixLabsOk(r1.value, c, labs[1..], guarded);
      }
    }
  }

  /** A value that no lab of the catalog has a correction for, in its
      column, comes through the whole pass unchanged. */
  lemma {:induction false} FixLabsKeeps(t: Table, c: Corrections, labs: seq<string>, guarded: bool,
                                        i: nat, x: string)
    requires ValidCorrections(c)
    requires forall lab :: lab in labs ==> lab in c.m
    requires FixLabs(t, c, labs, guarded).Ok? && i < |t.rows|
    requires forall lab :: lab in labs ==> Lookup(c, lab, x, Cell(t.rows[i], x)).None?
    ensures |FixLabs(t, c, labs, guarded).value.rows| == |t.rows|
    ensures Cell(FixLabs(t, c, labs, guarded).value.rows[i], x) == Cell(t.rows[i], x)
    decreases |labs|
  {
    FixLabsOk(t, c, labs, guarded);
    if labs != [] {
      var lab := labs[0];
      var cols := c.m[lab].keys;
      assert forall l :: l in labs[1..] ==> l in labs;
      FixColumnsKeeps(t, c, lab, cols, guarded, i, x);
      var r1 := FixColumns(t, c, lab, cols, guarded).value;
      FixLabsKeeps(r1, c, labs[1..], guarded, i, x);
    }
  }

  // ---- the rename catalog ----

  /** One row of the `--rename` table. */
  datatype RenameRow = RenameRow(labId: string, column: string, newName: string)

  /** dict_rename after the rows, in order: lab id -> (column -> new name). */
  function RenamesOf(rows: seq<RenameRow>): map<string, map<string, string>> {
    if rows == [] then map[]
    else
      var d := RenamesOf(rows[..|rows| - 1]);
      var row := rows[|rows| - 1];
      d[row.labId := (if row.labId in d then d[row.labId] else map[])[row.column := row.newName]]
  }

  /** The loop that fills dict_rename. */
  method BuildRenames(rows: seq<RenameRow>) returns (d: map<string, map<string, string>>)
    ensures d == RenamesOf(rows)
  {
    d := map[];
    var i := 0;
    while i < |rows|
      invariant 0 <= i <= |rows|
      invariant d == RenamesOf(rows[..i])
    {
      assert rows[..i + 1][..i] == rows[..i];
      var row := rows[i];
      if row.labId !in d {
        d := d[row.labId := map[]];
      }
      d := d[row.labId := d[row.labId][row.column := row.newName]];
      i := i + 1;
    }
    assert rows[..i] == rows;
  }

  /** The new name the last row for (lab, column) gives, if any. */
  function LastRename(rows: seq<RenameRow>, lab: string, col: string): Option<string> {
    if rows == [] then None
    else if rows[|rows| - 1].labId == lab && rows[|rows| - 1].column == col
    then Some(rows[|rows| - 1].newName)
    else LastRename(rows[..|rows| - 1], lab, col)
  }

  /** dict_rename renames a lab's column exactly when some row names it,
      and to the new name of the last such row. */
  lemma {:induction false} RenamesLookup(rows: seq<RenameRow>, lab: string, col: string)
    ensures LastRename(rows, lab, col).Some? <==> lab in RenamesOf(rows) && col in RenamesOf(rows)[lab]
    ensures LastRename(rows, lab, col).Some? ==> RenamesOf(rows)[lab][col] == LastRename(rows, lab, col).value
  {
    if rows != [] {
      RenamesLookup(rows[..|rows| - 1], lab, col);
    }
  }

  /** rename_columns(id, df): the lab's renames, when it has any. */
  function RenameColumns(renames: map<string, map<string, string>>, lab: string, t: Table): (r: Table)
    ensures lab !in renames ==> r == t
    ensures |r.cols| == |t.cols| && |r.rows| == |t.rows|
    ensures lab in renames ==> forall k :: 0 <= k < |t.cols| ==>
      r.cols[k] == (if t.cols[k] in renames[lab] then renames[lab][t.cols[k]] else t.cols[k])
  {
    if lab in renames then Rename(t, renames[lab]) else t
  }
}
