/** reformat_sabin.py: the Sabin exports. A table with an `OS` column is
    the only layout known (one Covid-19 test per row, antigen or PCR by
    its `Parametro`); any other table is passed on as it came. Each file
    gets the lab id, the lab's renames, the corrections and the sex code
    before it joins dfT; dates, projection, duplicates and sorting follow
    the loop. */
module Sabin {
  import opened Wrappers
  import opened Tables
  import opened Catalog
  import opened Records
  import opened Identity
  import opened Aggregate
  import Pipeline

  const LabId := "SABIN"

  /** The lab ids the catalog of corrections is filtered to. */
  const CatalogLabs: set<string> := {"SABIN", "any"}

  // ---------------------------------------------------------------------
  // fix_datatable
  // ---------------------------------------------------------------------

  /** The columns fix_datatable converts to a type before anything else,
      each read as `dfL[c]` (KeyError when the file lacks it). */
  const TypedColumns := ["OS", "Código Posto", "Estado", "Municipio", "DataAtendimento", "DataNascimento",
                         "Sexo", "Descricao", "Parametro", "Resultado", "DataAssinatura"]

  const IdColumns := ["OS", "Estado", "Municipio", "DataAtendimento", "Sexo", "Descricao", "Resultado"]

  /** The Ct columns and the gene S call, added blank. */
  const Blanks := ["Ct_FluA", "Ct_FluB", "Ct_VSR", "Ct_RDRP", "Ct_geneE", "Ct_geneN", "Ct_geneS",
                   "Ct_ORF1ab", "geneS_detection"]

  /** The `Parametro` of an antigen test. */
  const Antigen := "COVIDECO"

  /** The kit a row's `Parametro` names. */
  function KitOf(parametro: string): (k: string)
    ensures k == "covid_antigen" <==> parametro == Antigen
    ensures k != "covid_antigen" ==> k == "covid"
  {
    if parametro == Antigen then "covid_antigen" else "covid"
  }

  /** `dfL["test_kit"] = df["Parametro"].apply(...)`: every row's kit from
      its own `Parametro`. */
  function WithKits(t: Table): (r: Table)
    requires "test_kit" in t.cols
    ensures r.cols == t.cols && |r.rows| == |t.rows|
    ensures forall i :: 0 <= i < |t.rows| ==>
      Cell(r.rows[i], "test_kit") == KitOf(Cell(t.rows[i], "Parametro"))
    ensures forall i, c :: 0 <= i < |t.rows| && c != "test_kit" ==> Cell(r.rows[i], c) == Cell(t.rows[i], c)
  {
    Table(t.cols, seq(|t.rows|, i requires 0 <= i < |t.rows| =>
                        t.rows[i]["test_kit" := KitOf(Cell(t.rows[i], "Parametro"))]))
  }

  /** The table deduplicate hashes: the typed columns read, sample_id and
      test_kit inserted at position 1, the kits written, the missing id
      columns added, birthdate when there is no DataNascimento, then the
      blank Ct columns. */
  function Prepared(t: Table): (r: Result<Table>)
    ensures r.Ok? <==> MissingColumn(TypedColumns, t.cols).None? &&
                        "sample_id" !in t.cols && "test_kit" !in t.cols
    ensures MissingColumn(TypedColumns, t.cols).Some? ==>
      r == Err(KeyError(MissingColumn(TypedColumns, t.cols).value))
    ensures r.Ok? ==> |r.value.rows| == |t.rows| && forall c :: c in IdColumns ==> c in r.value.cols
  {
    PrepareWith(t, TypedColumns, IdColumns, Blanks)
  }

  /** The preparation for any lists of typed, id and blank columns. */
  function PrepareWith(t: Table, typed: seq<string>, ids: seq<string>, blanks: seq<string>): (r: Result<Table>)
    requires typed != []
    ensures r.Ok? <==> MissingColumn(typed, t.cols).None? && "sample_id" !in t.cols && "test_kit" !in t.cols
    ensures MissingColumn(typed, t.cols).Some? ==> r == Err(KeyError(MissingColumn(typed, t.cols).value))
    ensures r.Ok? ==> |r.value.rows| == |t.rows| && forall c :: c in ids ==> c in r.value.cols
  {
    var missing := MissingColumn(typed, t.cols);
    if missing.Some? then Err(KeyError(missing.value))
    else
      assert typed[0] in t.cols;
      var a :- InsertColumn(t, 1, "sample_id", "");
      var b :- InsertColumn(a, 1, "test_kit", "");
      var d := AddMissing(WithKits(b), ids);
      var e := if "DataNascimento" !in d.cols then SetColumn(d, "birthdate", "") else d;
      Ok(SetColumns(e, blanks, ""))
  }

  /** Literal facts: the id columns are among the typed ones and none of
      the columns the preparation writes. */
  lemma ListsApart()
    ensures forall c :: c in IdColumns ==>
      c in TypedColumns && c != "sample_id" && c != "test_kit" && c != "birthdate" && c !in Blanks && c != "unique_id"
    ensures "test_kit" !in Blanks && "test_kit" !in IdColumns && "Parametro" in TypedColumns
  {
  }

  /** A cell of a prepared row: the kit from `Parametro`, blank for the
      blank columns, the file's own value for every other column. */
  lemma PrepareWithCell(t: Table, typed: seq<string>, ids: seq<string>, blanks: seq<string>, i: nat, c: string)
    requires typed != [] && PrepareWith(t, typed, ids, blanks).Ok? && i < |t.rows|
    requires forall x :: x in ids ==> x in typed
    requires "test_kit" !in blanks && c != "sample_id" && c != "birthdate"
    ensures Cell(PrepareWith(t, typed, ids, blanks).value.rows[i], c) ==
      if c in blanks then ""
      else if c == "test_kit" then KitOf(Cell(t.rows[i], "Parametro"))
      else Cell(t.rows[i], c)
  {
    assert typed[0] in t.cols;
    var a := InsertColumn(t, 1, "sample_id", "").value;
    var b := InsertColumn(a, 1, "test_kit", "").value;
    var w := WithKits(b);
    var d := AddMissing(w, ids);
    var e := if "DataNascimento" !in d.cols then SetColumn(d, "birthdate", "") else d;
    assert PrepareWith(t, typed, ids, blanks).value == SetColumns(e, blanks, "");
    assert Cell(e.rows[i], c) == Cell(d.rows[i], c);
    KitsCell(t, i, c);
    if c in ids {
      assert MissingColumn(typed, t.cols).None?;
      assert c in t.cols;
    }
    AddMissingCell(w, ids, i, c);
  }

  /** A cell once sample_id and test_kit are inserted and the kits written. */
  lemma KitsCell(t: Table, i: nat, c: string)
    requires |t.cols| >= 1 && "sample_id" !in t.cols && "test_kit" !in t.cols && i < |t.rows| && c != "sample_id"
    ensures var a := InsertColumn(t, 1, "sample_id", "").value;
      var w := WithKits(InsertColumn(a, 1, "test_kit", "").value);
      i < |w.rows| && (forall x :: x in t.cols ==> x in w.cols) &&
      Cell(w.rows[i], c) == if c == "test_kit" then KitOf(Cell(t.rows[i], "Parametro")) else Cell(t.rows[i], c)
  {
    var a := InsertColumn(t, 1, "sample_id", "").value;
    var b := InsertColumn(a, 1, "test_kit", "").value;
    assert a.rows[i] == t.rows[i]["sample_id" := ""];
    assert b.rows[i] == a.rows[i]["test_kit" := ""];
    ParametroApart();
    assert Cell(b.rows[i], "Parametro") == Cell(t.rows[i], "Parametro");
  }

  lemma ParametroApart()
    ensures "Parametro" != "sample_id" && "Parametro" != "test_kit"
  {
    assert "Parametro"[0] != "sample_id"[0];
  }

  /** One cell after AddMissing of a column the table already has or that
      is not added. */
  lemma AddMissingCell(t: Table, cs: seq<string>, i: nat, c: string)
    requires i < |t.rows| && (c in cs ==> c in t.cols)
    ensures i < |AddMissing(t, cs).rows| && Cell(AddMissing(t, cs).rows[i], c) == Cell(t.rows[i], c)
  {
  }

  /** The id columns were all read before the loop that would add them,
      so the loop adds none: every id cell of the prepared table is the
      file's own cell. */
  lemma PreparedIdCells(t: Table, i: nat, c: string)
    requires Prepared(t).Ok? && i < |t.rows| && c in IdColumns
    ensures Cell(Prepared(t).value.rows[i], c) == Cell(t.rows[i], c)
  {
    ListsApart();
    PrepareWithCell(t, TypedColumns, IdColumns, Blanks, i, c);
  }

  /** Each prepared row's kit: covid_antigen exactly for the COVIDECO rows. */
  lemma PreparedKit(t: Table, i: nat)
    requires Prepared(t).Ok? && i < |t.rows|
    ensures Cell(Prepared(t).value.rows[i], "test_kit") == KitOf(Cell(t.rows[i], "Parametro"))
  {
    ListsApart();
    PrepareWithCell(t, TypedColumns, IdColumns, Blanks, i, "test_kit");
  }

  /** Every id cell of the prepared row is the file's, so the sample id is
      the digest of the file's own id cells. */
  lemma PreparedUnique(t: Table, i: nat)
    requires Prepared(t).Ok? && i < |t.rows|
    ensures i < |Prepared(t).value.rows|
    ensures UniqueId(Prepared(t).value.rows[i], IdColumns) == UniqueId(t.rows[i], IdColumns)
  {
    var l := Prepared(t).value;
    forall c | c in IdColumns ensures Cell(l.rows[i], c) == Cell(t.rows[i], c) {
      PreparedIdCells(t, i, c);
    }
    SameIdCellsSameUnique(l.rows[i], t.rows[i], IdColumns);
  }

  /** The FLUA call is not among the columns the preparation writes: it
      stays what the file holds. */
  lemma PreparedFlua(t: Table, i: nat)
    requires Prepared(t).Ok? && i < |t.rows|
    ensures Cell(Prepared(t).value.rows[i], ResultCol("FLUA")) == Cell(t.rows[i], ResultCol("FLUA"))
  {
    ListsApart();
    OtherResultColsApart();
    PrepareWithCell(t, TypedColumns, IdColumns, Blanks, i, ResultCol("FLUA"));
  }

  /** The cache flag, the catalogs, the digest; keepNew = false is the
      script as written (a partial cache hit returns the whole file, see
      PartialHitReturnsAll), true the corrected reading. */
  datatype Settings = Settings(cached: bool, renames: map<string, map<string, string>>,
                               corrections: Corrections, sha1: string -> Digest, keepNew: bool)

  /** deduplicate keeps the first 16 characters of the digest. */
  function DedupSettingOf(s: Settings): DedupSetting {
    DedupSetting(s.cached, IdColumns, 16, true)
  }

  /** fix_datatable(dfL, file). `dfN = dfL` makes dfN the very frame the
      preparation and deduplicate change in place, ids included; only the
      cache filter makes dfL a new frame. The 'NA' calls are written into
      dfL, and dfN is returned. */
  function FixDatatable(s: Settings, dfT: Table, t: Table): (r: Result<Table>)
    ensures "OS" !in t.cols ==> r == Ok(t)
    ensures "OS" in t.cols && Prepared(t).Err? ==> r.Err?
  {
    if "OS" !in t.cols then Ok(t)
    else
      var l :- Prepared(t);
      FixPrepared(s, dfT, l, OtherResultCols)
  }

  /** fix_datatable from the prepared table on: ids, deduplicate, and the
      'NA' calls in the columns `na`. */
  function FixPrepared(s: Settings, dfT: Table, l: Table, na: seq<string>): (r: Result<Table>)
    requires forall c :: c in IdColumns ==> c in l.cols
    ensures !s.cached ==> r.Ok?
    ensures r.Ok? ==> |r.value.rows| <= |l.rows|
  {
    var ided := AssignIds(l, IdColumns, s.sha1, 16).value;
    var kept :- Dedup(l, ided, dfT, DedupSettingOf(s), s.sha1);
    if IsEmpty(kept.0) then Ok(kept.1)
    else if s.keepNew || !s.cached then Ok(SetColumns(kept.0, na, "NA"))
    else Ok(kept.1)
  }

  /** Literal facts about the 'NA' columns. */
  lemma OtherResultColsApart()
    ensures "sample_id" !in OtherResultCols && "test_kit" !in OtherResultCols
    ensures ResultCol("FLUA") in OtherResultCols
    ensures ResultCol("FLUA") !in Blanks && ResultCol("FLUA") !in IdColumns
  {
    if "sample_id" in OtherResultCols { ResultColsLong("sample_id"); }
    if "test_kit" in OtherResultCols { ResultColsLong("test_kit"); }
    assert OtherResultCols[0] == ResultCol("FLUA");
  }

  /** Without a cache every prepared row comes out with its sample id, its
      other cells, and 'NA' for every call but SC2. */
  lemma NoCachePrepared(s: Settings, dfT: Table, l: Table, na: seq<string>, i: nat)
    requires !s.cached && (forall c :: c in IdColumns ==> c in l.cols) && i < |l.rows|
    requires "sample_id" !in na && "test_kit" !in na
    ensures FixPrepared(s, dfT, l, na).Ok?
    ensures var r := FixPrepared(s, dfT, l, na).value;
      |r.rows| == |l.rows| &&
      Cell(r.rows[i], "sample_id") == SampleId(s.sha1, UniqueId(l.rows[i], IdColumns), 16) &&
      Cell(r.rows[i], "test_kit") == Cell(l.rows[i], "test_kit") &&
      forall c :: c in na ==> Cell(r.rows[i], c) == "NA"
  {
    var ided := AssignIds(l, IdColumns, s.sha1, 16).value;
    DedupKeeps(l, ided, dfT, DedupSettingOf(s), s.sha1);
    assert !IsEmpty(ided);
    assert FixPrepared(s, dfT, l, na) == Ok(SetColumns(ided, na, "NA"));
  }

  /** Without a cache every row of the file comes out, with its 16-character
      sample id computed from the file's own id cells, its kit, and every
      call but SC2 'NA'. */
  lemma NoCacheAllRows(s: Settings, dfT: Table, t: Table, i: nat)
    requires !s.cached && "OS" in t.cols && Prepared(t).Ok? && i < |t.rows|
    ensures FixDatatable(s, dfT, t).Ok?
    ensures var r := FixDatatable(s, dfT, t).value;
      |r.rows| == |t.rows| &&
      Cell(r.rows[i], "sample_id") == SampleId(s.sha1, UniqueId(t.rows[i], IdColumns), 16) &&
      Cell(r.rows[i], "test_kit") == KitOf(Cell(t.rows[i], "Parametro")) &&
      forall c :: c in OtherResultCols ==> Cell(r.rows[i], c) == "NA"
  {
    var l := Prepared(t).value;
    assert FixDatatable(s, dfT, t) == FixPrepared(s, dfT, l, OtherResultCols);
    OtherResultColsApart();
    NoCachePrepared(s, dfT, l, OtherResultCols, i);
    PreparedUnique(t, i);
    PreparedKit(t, i);
  }

  /** As written, on a prepared table: a partial cache hit returns the
      whole table with its ids, not the filtered rows. */
  lemma PartialHitPrepared(s: Settings, dfT: Table, l: Table, na: seq<string>)
    requires s.cached && !s.keepNew && "sample_id" in dfT.cols && (forall c :: c in IdColumns ==> c in l.cols)
    requires !AllSeen(l, dfT, DedupSettingOf(s), s.sha1)
    ensures FixPrepared(s, dfT, l, na) == Ok(AssignIds(l, IdColumns, s.sha1, 16).value)
  {
    var ided := AssignIds(l, IdColumns, s.sha1, 16).value;
    DedupKeeps(l, ided, dfT, DedupSettingOf(s), s.sha1);
  }

  /** As written: on a partial cache hit the whole file comes back, the
      rows dfT already holds included, and without the 'NA' calls (the
      'NA' columns went into the filtered copy). */
  lemma PartialHitReturnsAll(s: Settings, dfT: Table, t: Table, i: nat)
    requires s.cached && !s.keepNew && "OS" in t.cols && "sample_id" in dfT.cols && Prepared(t).Ok?
    requires !AllSeen(Prepared(t).value, dfT, DedupSettingOf(s), s.sha1)
    requires i < |t.rows|
    ensures FixDatatable(s, dfT, t).Ok?
    ensures var r := FixDatatable(s, dfT, t).value;
      |r.rows| == |t.rows| &&
      Cell(r.rows[i], "sample_id") == SampleId(s.sha1, UniqueId(t.rows[i], IdColumns), 16) &&
      Cell(r.rows[i], ResultCol("FLUA")) == Cell(t.rows[i], ResultCol("FLUA"))
  {
    var l := Prepared(t).value;
    var ided := AssignIds(l, IdColumns, s.sha1, 16).value;
    assert FixDatatable(s, dfT, t) == FixPrepared(s, dfT, l, OtherResultCols);
    PartialHitPrepared(s, dfT, l, OtherResultCols);
    PreparedUnique(t, i);
    PreparedFlua(t, i);
    assert Cell(ided.rows[i], ResultCol("FLUA")) == Cell(l.rows[i], ResultCol("FLUA"));
  }

  /** The as-written partial hit in one case: a two-row file whose first
      row dfT already holds writes that row again. */
  lemma CachedRowWrittenAgain(s: Settings, dfT: Table, t: Table)
    requires s.cached && !s.keepNew && "OS" in t.cols && "sample_id" in dfT.cols && Prepared(t).Ok?
    requires |t.rows| == 2
    requires SampleId(s.sha1, UniqueId(t.rows[0], IdColumns), 16) in SampleIds(dfT.rows)
    requires SampleId(s.sha1, UniqueId(t.rows[1], IdColumns), 16) !in SampleIds(dfT.rows)
    ensures FixDatatable(s, dfT, t).Ok? && |FixDatatable(s, dfT, t).value.rows| == 2
    ensures Cell(FixDatatable(s, dfT, t).value.rows[0], "sample_id") in SampleIds(dfT.rows)
  {
    var l := Prepared(t).value;
    PreparedUnique(t, 1);
    assert !AllSeen(l, dfT, DedupSettingOf(s), s.sha1);
    PartialHitReturnsAll(s, dfT, t, 0);
  }

  /** Corrected, on a prepared table: a partial hit marks the rows whose
      sample id dfT lacks, and those rows are there. */
  lemma KeepsNewShape(s: Settings, dfT: Table, l: Table, na: seq<string>)
    requires s.cached && s.keepNew && "sample_id" in dfT.cols && (forall c :: c in IdColumns ==> c in l.cols)
    requires !AllSeen(l, dfT, DedupSettingOf(s), s.sha1)
    ensures var ided := AssignIds(l, IdColumns, s.sha1, 16).value;
      var kept := Dedup(l, ided, dfT, DedupSettingOf(s), s.sha1).value.0;
      FixPrepared(s, dfT, l, na) == Ok(SetColumns(kept, na, "NA")) &&
      forall x :: x in kept.rows <==> x in ided.rows && Cell(x, "sample_id") !in SampleIds(dfT.rows)
  {
    var ided := AssignIds(l, IdColumns, s.sha1, 16).value;
    DedupKeeps(l, ided, dfT, DedupSettingOf(s), s.sha1);
    var d := Dedup(l, ided, dfT, DedupSettingOf(s), s.sha1);
    var kept := d.value.0;
    var i :| 0 <= i < |l.rows| && SampleId(s.sha1, UniqueId(l.rows[i], IdColumns), 16) !in SampleIds(dfT.rows);
    assert Cell(ided.rows[i], "sample_id") !in SampleIds(dfT.rows);
    assert ided.rows[i] in kept.rows by { assert ided.rows[i] in ided.rows; }
    assert !IsEmpty(kept);
    assert FixPrepared(s, dfT, l, na) == Ok(SetColumns(kept, na, "NA"));
  }

  /** Corrected, on a prepared table: every row a partial hit gives has a
      sample id dfT lacks. */
  lemma KeepsOnlyNew(s: Settings, dfT: Table, l: Table, na: seq<string>)
    requires s.cached && s.keepNew && "sample_id" in dfT.cols && (forall c :: c in IdColumns ==> c in l.cols)
    requires !AllSeen(l, dfT, DedupSettingOf(s), s.sha1) && "sample_id" !in na
    ensures FixPrepared(s, dfT, l, na).Ok?
    ensures forall x :: x in FixPrepared(s, dfT, l, na).value.rows ==> Cell(x, "sample_id") !in SampleIds(dfT.rows)
  {
    var ided := AssignIds(l, IdColumns, s.sha1, 16).value;
    KeepsNewShape(s, dfT, l, na);
    var kept := Dedup(l, ided, dfT, DedupSettingOf(s), s.sha1).value.0;
    var r := SetColumns(kept, na, "NA");
    forall x | x in r.rows ensures Cell(x, "sample_id") !in SampleIds(dfT.rows) {
      var j :| 0 <= j < |r.rows| && r.rows[j] == x;
      assert Cell(x, "sample_id") == Cell(kept.rows[j], "sample_id");
      assert kept.rows[j] in kept.rows;
    }
  }

  /** Corrected, on a prepared table: every sample id of the file that dfT
      lacks is among the rows a partial hit gives. */
  lemma KeepsAllNew(s: Settings, dfT: Table, l: Table, na: seq<string>)
    requires s.cached && s.keepNew && "sample_id" in dfT.cols && (forall c :: c in IdColumns ==> c in l.cols)
    requires !AllSeen(l, dfT, DedupSettingOf(s), s.sha1) && "sample_id" !in na
    ensures FixPrepared(s, dfT, l, na).Ok?
    ensures var ided := AssignIds(l, IdColumns, s.sha1, 16).value;
      forall i :: 0 <= i < |ided.rows| && Cell(ided.rows[i], "sample_id") !in SampleIds(dfT.rows) ==>
        exists j :: 0 <= j < |FixPrepared(s, dfT, l, na).value.rows| &&
          Cell(FixPrepared(s, dfT, l, na).value.rows[j], "sample_id") == Cell(ided.rows[i], "sample_id")
  {
    var ided := AssignIds(l, IdColumns, s.sha1, 16).value;
    KeepsNewShape(s, dfT, l, na);
    var kept := Dedup(l, ided, dfT, DedupSettingOf(s), s.sha1).value.0;
    var r := SetColumns(kept, na, "NA");
    forall i | 0 <= i < |ided.rows| && Cell(ided.rows[i], "sample_id") !in SampleIds(dfT.rows)
      ensures exists j :: 0 <= j < |r.rows| && Cell(r.rows[j], "sample_id") == Cell(ided.rows[i], "sample_id")
    {
      assert ided.rows[i] in kept.rows by { assert ided.rows[i] in ided.rows; }
      MarkedKeepsId(kept, na, ided.rows[i]);
    }
    assert FixPrepared(s, dfT, l, na).value == r;
  }

  /** Marking columns NA keeps every row's sample id. */
  lemma MarkedKeepsId(kept: Table, na: seq<string>, x: Row)
    requires x in kept.rows && "sample_id" !in na
    ensures var r := SetColumns(kept, na, "NA");
      exists j :: 0 <= j < |r.rows| && Cell(r.rows[j], "sample_id") == Cell(x, "sample_id")
  {
    var r := SetColumns(kept, na, "NA");
    var j :| 0 <= j < |kept.rows| && kept.rows[j] == x;
    assert Cell(r.rows[j], "sample_id") == Cell(kept.rows[j], "sample_id");
  }

  /** Corrected, on a prepared table: every row a partial hit gives has
      'NA' in the columns `na`. */
  lemma KeepsNewMarked(s: Settings, dfT: Table, l: Table, na: seq<string>)
    requires s.cached && s.keepNew && "sample_id" in dfT.cols && (forall c :: c in IdColumns ==> c in l.cols)
    requires !AllSeen(l, dfT, DedupSettingOf(s), s.sha1)
    ensures FixPrepared(s, dfT, l, na).Ok?
    ensures forall j, c :: 0 <= j < |FixPrepared(s, dfT, l, na).value.rows| && c in na ==>
      Cell(FixPrepared(s, dfT, l, na).value.rows[j], c) == "NA"
  {
    var ided := AssignIds(l, IdColumns, s.sha1, 16).value;
    KeepsNewShape(s, dfT, l, na);
    var kept := Dedup(l, ided, dfT, DedupSettingOf(s), s.sha1).value.0;
    var r := SetColumns(kept, na, "NA");
    assert |r.rows| == |kept.rows|;
    forall j, c | 0 <= j < |r.rows| && c in na ensures Cell(r.rows[j], c) == "NA" {
      assert j < |kept.rows|;
    }
  }

  /** Corrected: on a partial cache hit exactly the rows of the file whose
      sample id dfT lacks come out, every call but SC2 'NA'. */
  lemma PartialHitKeepsNew(s: Settings, dfT: Table, t: Table)
    requires s.cached && s.keepNew && "OS" in t.cols && "sample_id" in dfT.cols && Prepared(t).Ok?
    requires !AllSeen(Prepared(t).value, dfT, DedupSettingOf(s), s.sha1)
    ensures FixDatatable(s, dfT, t).Ok?
    ensures var r := FixDatatable(s, dfT, t).value;
      var ided := AssignIds(Prepared(t).value, IdColumns, s.sha1, 16).value;
      (forall x :: x in r.rows ==> Cell(x, "sample_id") !in SampleIds(dfT.rows)) &&
      (forall i :: 0 <= i < |ided.rows| && Cell(ided.rows[i], "sample_id") !in SampleIds(dfT.rows) ==>
         exists j :: 0 <= j < |r.rows| && Cell(r.rows[j], "sample_id") == Cell(ided.rows[i], "sample_id")) &&
      forall j, c :: 0 <= j < |r.rows| && c in OtherResultCols ==> Cell(r.rows[j], c) == "NA"
  {
    var l := Prepared(t).value;
    assert FixDatatable(s, dfT, t) == FixPrepared(s, dfT, l, OtherResultCols);
    OtherResultColsApart();
    KeepsOnlyNew(s, dfT, l, OtherResultCols);
    KeepsAllNew(s, dfT, l, OtherResultCols);
    KeepsNewMarked(s, dfT, l, OtherResultCols);
  }

  /** With a cache, a file whose every sample id is already in dfT gives
      the empty frame, and the file loop skips it. */
  lemma FullyCachedSkipped(s: Settings, dfT: Table, t: Table)
    requires s.cached && "OS" in t.cols && "sample_id" in dfT.cols && Prepared(t).Ok?
    requires AllSeen(Prepared(t).value, dfT, DedupSettingOf(s), s.sha1)
    ensures FixDatatable(s, dfT, t) == Ok(Empty)
  {
    var l := Prepared(t).value;
    assert FixDatatable(s, dfT, t) == FixPrepared(s, dfT, l, OtherResultCols);
    DedupAllSeen(l, AssignIds(l, IdColumns, s.sha1, 16).value, dfT, DedupSettingOf(s), s.sha1);
    assert FixPrepared(s, dfT, l, OtherResultCols) == Ok(Empty);
  }

  /** ... and the file loop leaves dfT as it was. */
  lemma FullyCachedFileSkipped(s: Settings, dfT: Table, t: Table)
    requires ValidCorrections(s.corrections)
    requires s.cached && "OS" in t.cols && "sample_id" in dfT.cols && Prepared(t).Ok?
    requires AllSeen(Prepared(t).value, dfT, DedupSettingOf(s), s.sha1)
    ensures FileStep(s, dfT, t) == Ok(dfT)
  {
    FullyCachedSkipped(s, dfT, t);
  }

  // ---------------------------------------------------------------------
  // The file loop
  // ---------------------------------------------------------------------

  /** lab_id and the lab's renames. */
  function Renamed(s: Settings, df: Table): (r: Result<Table>)
    ensures r.Ok? <==> "lab_id" !in df.cols
  {
    var f :- InsertColumn(df, 0, "lab_id", LabId);
    Ok(RenameColumns(s.renames, LabId, f))
  }

  /** A file's frame before it joins dfT: lab_id and the renames, every
      correction of the catalog with no column check, then the one-letter
      sex code. */
  function LabFrame(s: Settings, df: Table): Result<Table>
    requires ValidCorrections(s.corrections)
  {
    var r :- Renamed(s, df);
    var c :- Corrected(r, s.corrections, false);
    FixSex(c)
  }

  /** The corrections stop the run exactly when the catalog names a column
      the renamed frame lacks. */
  lemma CorrectionsNeedColumns(s: Settings, df: Table)
    requires ValidCorrections(s.corrections) && Renamed(s, df).Ok?
    ensures Corrected(Renamed(s, df).value, s.corrections, false).Ok? <==>
      forall lab, col :: lab in s.corrections.keys && col in s.corrections.m[lab].keys ==>
        col in Renamed(s, df).value.cols
  {
    assert forall lab :: lab in s.corrections.keys ==> lab in s.corrections.m;
    FixLabsOk(Renamed(s, df).value, s.corrections, s.corrections.keys, false);
  }

  /** A frame that gets through keeps its rows, and every sex code in it
      is at most one letter. */
  lemma LabFrameMeaning(s: Settings, df: Table)
    requires ValidCorrections(s.corrections) && LabFrame(s, df).Ok?
    ensures |LabFrame(s, df).value.rows| == |df.rows|
    ensures forall i :: 0 <= i < |df.rows| ==> |Cell(LabFrame(s, df).value.rows[i], "sex")| <= 1
  {
    var r := Renamed(s, df).value;
    assert forall lab :: lab in s.corrections.keys ==> lab in s.corrections.m;
    FixLabsOk(r, s.corrections, s.corrections.keys, false);
  }

  /** The sex code a frame writes is the first letter of the file's own sex
      cell, when the lab's renames leave sex alone and no correction
      matches that cell. */
  lemma LabFrameSex(s: Settings, df: Table, i: nat)
    requires ValidCorrections(s.corrections) && LabFrame(s, df).Ok?
    requires i < |df.rows| && "sex" in df.cols
    requires LabId in s.renames ==>
      "sex" !in s.renames[LabId] && forall c :: c in s.renames[LabId] ==> s.renames[LabId][c] != "sex"
    requires forall lab :: lab in s.corrections.keys ==> Lookup(s.corrections, lab, "sex", Cell(df.rows[i], "sex")).None?
    ensures |LabFrame(s, df).value.rows| == |df.rows|
    ensures Cell(LabFrame(s, df).value.rows[i], "sex") == SexCode(Cell(df.rows[i], "sex"))
  {
    var df1 := InsertColumn(df, 0, "lab_id", LabId).value;
    var r := Renamed(s, df).value;
    assert Cell(df1.rows[i], "sex") == Cell(df.rows[i], "sex");
    if LabId in s.renames {
      assert "sex" in df1.cols;
      assert r.rows[i] == Tables.RenameRow(df1.rows[i], df1.cols, s.renames[LabId]);
      RenameRowKeeps(df1.rows[i], df1.cols, s.renames[LabId], "sex");
    }
    CorrectedKeeps(r, s.corrections, false, i, "sex");
    assert LabFrame(s, df) == FixSex(Corrected(r, s.corrections, false).value);
  }

  /** One iteration of the file loop; an empty frame is skipped. */
  function FileStep(s: Settings, dfT: Table, t: Table): (r: Result<Table>)
    requires ValidCorrections(s.corrections)
    ensures r.Ok? ==> dfT.rows <= r.value.rows
    ensures FixDatatable(s, dfT, t).Err? ==> r == Err(FixDatatable(s, dfT, t).error)
    ensures FixDatatable(s, dfT, t).Ok? && IsEmpty(FixDatatable(s, dfT, t).value) ==> r == Ok(dfT)
    ensures FixDatatable(s, dfT, t).Ok? && !IsEmpty(FixDatatable(s, dfT, t).value) ==>
      var f := LabFrame(s, FixDatatable(s, dfT, t).value);
      (r.Ok? <==> f.Ok?) &&
      (r.Ok? ==> r.value.rows == dfT.rows + f.value.rows &&
                 forall c :: c in r.value.cols <==> c in dfT.cols || c in f.value.cols)
  {
    var df :- FixDatatable(s, dfT, t);
    if IsEmpty(df) then Ok(dfT)
    else
      var f :- LabFrame(s, df);
      Ok(Concat(dfT, f))
  }

  function StepOf(s: Settings): (Table, Table) -> Result<Table>
    requires ValidCorrections(s.corrections)
  {
    (a, t) => FileStep(s, a, t)
  }

  /** The cache's rows (and every earlier file's) survive the whole loop. */
  lemma RunKeepsCache(s: Settings, cache: Table, files: seq<Table>)
    requires ValidCorrections(s.corrections)
    ensures Pipeline.Fold(cache, files, StepOf(s)).Ok? ==>
      cache.rows <= Pipeline.Fold(cache, files, StepOf(s)).value.rows
  {
    Pipeline.FoldKeepsPrefix(cache, files, StepOf(s));
  }

  // ---------------------------------------------------------------------
  // After the file loop
  // ---------------------------------------------------------------------

  /** key_cols: the written columns, in order. */
  const KeyCols := ["lab_id", "test_id", "test_kit", "sample_id", "state", "location", "date_testing",
                    "epiweek", "age", "sex", "FLUA_test_result", "Ct_FluA", "FLUB_test_result", "Ct_FluB",
                    "VSR_test_result", "Ct_VSR", "SC2_test_result", "Ct_geneE", "Ct_geneN", "Ct_geneS",
                    "Ct_ORF1ab", "Ct_RDRP", "geneS_detection", "META_test_result", "RINO_test_result",
                    "PARA_test_result", "ADENO_test_result", "BOCA_test_result", "COVS_test_result",
                    "ENTERO_test_result", "BAC_test_result"]

  /** After the loop: dates and epiweeks, then the projection, the
      duplicate report, drop_duplicates(keep='last') and the sort (no
      gene S call is computed here: the column is written blank). */
  function Finalized(dfT: Table, parseDate: string -> Option<string>, epiweekOf: string -> string)
    : (r: Result<Output>)
    ensures r.Ok? ==> r.value.table.cols == KeyCols && r.value.duplicates.cols == KeyCols
    ensures r.Ok? ==> SortedByKey(r.value.table.rows)
  {
    var d :- Dates(dfT, parseDate, epiweekOf);
    Finish(d, KeyCols)
  }

  /** The written table has exactly the key columns, no two equal rows,
      and is sorted by lab, test and date; it fails exactly when dfT lacks
      date_testing or a key column. */
  lemma FinalizedMeaning(dfT: Table, parseDate: string -> Option<string>, epiweekOf: string -> string)
    ensures Finalized(dfT, parseDate, epiweekOf).Ok? <==>
      "date_testing" in dfT.cols && forall c :: c in KeyCols && c != "epiweek" ==> c in dfT.cols
    ensures Finalized(dfT, parseDate, epiweekOf).Ok? ==>
      var out := Finalized(dfT, parseDate, epiweekOf).value.table;
      out.cols == KeyCols && SortedByKey(out.rows) &&
      forall i, j :: 0 <= i < j < |out.rows| ==> out.rows[i] != out.rows[j]
  {
    if "date_testing" in dfT.cols {
      var d := Dates(dfT, parseDate, epiweekOf).value;
      assert d.cols == if "epiweek" in dfT.cols then dfT.cols else dfT.cols + ["epiweek"];
      if Finish(d, KeyCols).Ok? {
        FinishMeaning(d, KeyCols);
      }
    }
  }

  /** The whole run over the lab's files, from the cache (or an empty
      table) to the written output. */
  function Reformatted(s: Settings, cache: Table, files: seq<Table>,
                       parseDate: string -> Option<string>, epiweekOf: string -> string): (r: Result<Output>)
    requires ValidCorrections(s.corrections)
    ensures r.Ok? ==> r.value.table.cols == KeyCols && r.value.duplicates.cols == KeyCols
    ensures r.Ok? ==> SortedByKey(r.value.table.rows)
  {
    var dfT :- Pipeline.Fold(cache, files, StepOf(s));
    Finalized(dfT, parseDate, epiweekOf)
  }

  // ---------------------------------------------------------------------
  // The loops
  // ---------------------------------------------------------------------

  /** Literal facts: the pathogens' result columns, SC2 first. */
  lemma PathogenColumns()
    ensures |Pathogens| == |ResultCols| && Pathogens[0] == "SC2"
    ensures forall k :: 0 <= k < |Pathogens| ==> ResultCols[k] == ResultCol(Pathogens[k])
    ensures forall k :: 1 <= k < |Pathogens| ==> Pathogens[k] != "SC2"
  {
  }

  /** The result columns of the pathogens `ps`, in order. */
  function ResultColsOf(ps: seq<string>): (cs: seq<string>)
    ensures |cs| == |ps| && forall k :: 0 <= k < |ps| ==> cs[k] == ResultCol(ps[k])
  {
    if ps == [] then [] else [ResultCol(ps[0])] + ResultColsOf(ps[1..])
  }

  /** The columns the loop over `ps` marks: every pathogen's result column
      but SC2's. */
  function NotTestedCols(ps: seq<string>): seq<string> {
    if ps == [] then []
    else (if ps[0] == "SC2" then [] else [ResultCol(ps[0])]) + NotTestedCols(ps[1..])
  }

  /** Without SC2 in the list, every pathogen's column is marked. */
  lemma {:induction false} NotTestedColsAll(ps: seq<string>)
    requires forall k :: 0 <= k < |ps| ==> ps[k] != "SC2"
    ensures NotTestedCols(ps) == ResultColsOf(ps)
  {
    if ps != [] {
      NotTestedColsAll(ps[1..]);
    }
  }

  /** The loop over all pathogens marks exactly the columns after SC2's. */
  lemma NotTestedPathogens()
    ensures NotTestedCols(Pathogens) == OtherResultCols
  {
    PathogenColumns();
    var ps := Pathogens[1..];
    forall k | 0 <= k < |ps| ensures ps[k] != "SC2" {
      assert ps[k] == Pathogens[k + 1];
    }
    NotTestedColsAll(ps);
    assert NotTestedCols(Pathogens) == NotTestedCols(ps);
    var cs := ResultColsOf(ps);
    forall k | 0 <= k < |OtherResultCols| ensures cs[k] == OtherResultCols[k] {
      assert OtherResultCols[k] == ResultCols[k + 1];
      assert ps[k] == Pathogens[k + 1];
    }
  }

  /** One turn of the 'NA' loop. */
  lemma MarkStep(r: Table, ps: seq<string>, k: nat)
    requires k < |ps|
    ensures SetColumns(r, NotTestedCols(ps[k..]), "NA") ==
      SetColumns(if ps[k] != "SC2" then SetColumn(r, ResultCol(ps[k]), "NA") else r, NotTestedCols(ps[k + 1..]), "NA")
  {
    assert ps[k..][1..] == ps[k + 1..];
    var rest := NotTestedCols(ps[k + 1..]);
    if ps[k] != "SC2" {
      var c := ResultCol(ps[k]);
      assert NotTestedCols(ps[k..]) == [c] + rest;
      SetColumnsCons(r, c, rest, "NA");
      assert SetColumns(r, NotTestedCols(ps[k..]), "NA") == SetColumns(SetColumn(r, c, "NA"), rest, "NA");
    } else {
      assert NotTestedCols(ps[k..]) == rest;
    }
  }

  /** The 'NA' loop of fix_datatable: every pathogen of `ps` but SC2 gets
      'NA' in its result column. */
  method MarkNotTested(t: Table, ps: seq<string>) returns (r: Table)
    ensures r == SetColumns(t, NotTestedCols(ps), "NA")
  {
    r := t;
    var k := 0;
    while k < |ps|
      invariant 0 <= k <= |ps|
      invariant SetColumns(r, NotTestedCols(ps[k..]), "NA") == SetColumns(t, NotTestedCols(ps), "NA")
    {
      MarkStep(r, ps, k);
      if ps[k] != "SC2" {
        r := SetColumn(r, ResultCol(ps[k]), "NA");
      }
      k := k + 1;
    }
    assert ps[k..] == [];
    assert NotTestedCols([]) == [];
  }

  /** fix_datatable with its loop. */
  method FixTable(s: Settings, dfT: Table, t: Table) returns (r: Result<Table>)
    ensures r == FixDatatable(s, dfT, t)
  {
    if "OS" !in t.cols {
      return Ok(t);
    }
    var l := Prepared(t);
    if l.Err? {
      return Err(l.error);
    }
    var ided := AssignIds(l.value, IdColumns, s.sha1, 16).value;
    var kept := Dedup(l.value, ided, dfT, DedupSettingOf(s), s.sha1);
    if kept.Err? {
      return Err(kept.error);
    }
    if IsEmpty(kept.value.0) {
      return Ok(kept.value.1);
    }
    var marked := MarkNotTested(kept.value.0, Pathogens);
    NotTestedPathogens();
    if s.keepNew || !s.cached {
      r := Ok(marked);
    } else {
      r := Ok(kept.value.1);
    }
  }

  /** The file loop: `for filename in sorted(os.listdir(...))`, each frame
      corrected and appended to the accumulator. */
  method Run(acc: Pipeline.Accumulator, s: Settings, files: seq<Table>) returns (r: Result<Table>)
    requires ValidCorrections(s.corrections)
    modifies acc
    ensures r == Pipeline.Fold(old(acc.dfT), files, StepOf(s))
    ensures r.Ok? ==> acc.dfT == r.value
  {
    var i := 0;
    while i < |files|
      invariant 0 <= i <= |files|
      invariant Pipeline.Fold(old(acc.dfT), files, StepOf(s)) == Pipeline.Fold(acc.dfT, files[i..], StepOf(s))
    {
      assert files[i..][1..] == files[i + 1..];
      var df := FixTable(s, acc.dfT, files[i]);
      if df.Err? {
        return Err(df.error);
      }
      if !IsEmpty(df.value) {
        var named := Renamed(s, df.value);
        if named.Err? {
          return Err(named.error);
        }
        var fixed := ApplyCorrections(named.value, s.corrections, false);
        if fixed.Err? {
          return Err(fixed.error);
        }
        var f := FixSex(fixed.value);
        if f.Err? {
          return Err(f.error);
        }
        acc.Append(f.value);
      }
      i := i + 1;
    }
    assert files[i..] == [];
    r := Ok(acc.dfT);
  }

  /** The script, with the correction of the Findings: the catalogs (the
      corrections filtered to SABIN and any), the cache, the file loop and
      the output. */
  method Reformat(cache: Option<Table>, correctionRows: seq<CorrectionRow>, allIds: seq<string>,
                  renameRows: seq<Catalog.RenameRow>, files: seq<Table>, sha1: string -> Digest,
                  parseDate: string -> Option<string>, epiweekOf: string -> string)
    returns (r: Result<Output>)
    requires EnumeratesIds(allIds, Selected(correctionRows, Some(CatalogLabs)))
    ensures r == Reformatted(Settings(cache.Some?, RenamesOf(renameRows),
                                      CorrectionsOf(Selected(correctionRows, Some(CatalogLabs)), allIds),
                                      sha1, true),
                             if cache.Some? then cache.value else Empty, files, parseDate, epiweekOf)
  {
    var corrections := BuildCorrections(correctionRows, Some(CatalogLabs), allIds);
    var renames := BuildRenames(renameRows);
    var s := Settings(cache.Some?, renames, corrections, sha1, true);
    var acc := new Pipeline.Accumulator(if cache.Some? then cache.value else Empty);
    var dfT := Run(acc, s, files);
    if dfT.Err? {
      return Err(dfT.error);
    }
    var d := Dates(dfT.value, parseDate, epiweekOf);
    if d.Err? {
      return Err(d.error);
    }
    r := Finish(d.value, KeyCols);
  }
}
