/** reformat_hlagyn.py: HLAGyn's respiratory panel export (one record per
    row, one call per pathogen from its target columns) and its Covid-19
    export (rows kept as they are), and the loop that appends them to the
    accumulated table. */
module HLAGyn {
  import opened Wrappers
  import opened Text
  import opened Tables
  import opened Catalog
  import opened Records
  import opened Identity
  import opened Ct
  import opened Aggregate
  import Pipeline

  const LabId := "HLAGyn"

  const PanelIdColumns := ["Pedido", "Idade", "Sexo", "Data Coleta", "Cidade", "UF"]
  const CovidIdColumns := ["Pedido", "Idade", "Sexo", "Data Coleta", "Cidade", "UF", "CT_I", "CT_N", "CT_ORF1AB"]

  datatype Layout = ViralPanel | Covid19 | Unknown

  /** The layout probes: substrings of the column names run together, then
      a CT_N column. */
  function Classify(t: Table): (l: Layout)
    ensures l == ViralPanel <==> Contains(Join(t.cols), "H1N1") || Contains(Join(t.cols), "Influenza")
    ensures l == Covid19 <==> l != ViralPanel && "CT_N" in t.cols
    ensures l != Unknown ==> |t.cols| >= 1
  {
    if Contains(Join(t.cols), "H1N1") || Contains(Join(t.cols), "Influenza") then ViralPanel
    else if "CT_N" in t.cols then Covid19
    else Unknown
  }

  /** A column whose own name holds H1N1 or Influenza makes the file a panel. */
  lemma PanelByColumnName(t: Table, k: nat)
    requires k < |t.cols| && (Contains(t.cols[k], "H1N1") || Contains(t.cols[k], "Influenza"))
    ensures Classify(t) == ViralPanel
  {
    if Contains(t.cols[k], "H1N1") {
      JoinHolds(t.cols, k, "H1N1");
    } else {
      JoinHolds(t.cols, k, "Influenza");
    }
  }

  /** The probe reads the names run together, so two names can make the
      key between them. */
  lemma PanelAcrossNames()
    ensures Classify(Table(["Gripe H1", "N1 Resultado"], [])) == ViralPanel
  {
    var joined := Join(["Gripe H1", "N1 Resultado"]);
    assert joined == "Gripe H1N1 Resultado";
    assert joined[6..10] == "H1N1";
    assert OccursAt(joined, "H1N1", 6);
  }

  // ---------------------------------------------------------------------
  // The viral panel
  // ---------------------------------------------------------------------

  /** The panel's three column sets and the kit each names. */
  datatype Variant = Parainfluenza | Coded | Four | NoVariant

  function VariantOf(cols: seq<string>): Variant {
    var names := Join(cols);
    if Contains(names, "Parainfluenza") then Parainfluenza
    else if Contains(names, "PH4") then Coded
    else if Contains(names, "SARS-CoV-2") then Four
    else NoVariant
  }

  function TestColumns(v: Variant): seq<string> {
    match v
    case Parainfluenza =>
      ["VIRUS_Influenza A", "VIRUS_Influenza H1N1", "VIRUS_Influenza H3", "VIRUS_Influenza B",
       "VIRUS_Metapneumovírus", "VIRUS_Sincicial A", "VIRUS_Sincicial B", "VIRUS_Rinovírus",
       "VIRUS_Parainfluenza 1", "VIRUS_Parainfluenza 2", "VIRUS_Parainfluenza 3", "VIRUS_Parainfluenza 4",
       "VIRUS_Adenovirus", "VIRUS_Bocavirus", "VIRUS_CoV-229E", "VIRUS_CoV-HKU", "VIRUS_CoV-NL63",
       "VIRUS_CoV-OC43", "VIRUS_SARS_Like", "VIRUS_SARS-CoV-2", "VIRUS_Enterovírus",
       "BACTE_Bordetella pertussis", "BACTE_Bordetella parapertussis", "BACTE_Mycoplasma pneumoniae"]
    case Coded =>
      ["VIRUS_IA", "VIRUS_H1N1", "VIRUS_AH3", "VIRUS_B", "VIRUS_MH", "VIRUS_SA", "VIRUS_SB", "VIRUS_RH",
       "VIRUS_PH", "VIRUS_PH2", "VIRUS_PH3", "VIRUS_PH4", "VIRUS_ADE", "VIRUS_BOC", "VIRUS_229E",
       "VIRUS_HKU", "VIRUS_NL63", "VIRUS_OC43", "VIRUS_SARS", "VIRUS_COV2", "VIRUS_EV", "BACTE_BP",
       "BACTE_BPAR", "BACTE_MP"]
    case Four =>
      ["Vírus Influenza A", "Vírus Influenza B", "Vírus Sincicial Respiratório A/B", "Coronavírus SARS-CoV-2"]
    case NoVariant => []
  }

  /** The test_kit column the variant inserts; none for an unknown one. */
  function KitOf(v: Variant): (k: Option<string>)
    ensures k.None? <==> v == NoVariant
    ensures k.Some? ==> k.value == (if |TestColumns(v)| == 24 then "test_24" else "test_4")
  {
    match v
    case Parainfluenza => Some("test_24")
    case Coded => Some("test_24")
    case Four => Some("test_4")
    case NoVariant => None
  }

  /** Each pathogen and its target columns, in the `pathogens` dict's order. */
  const PanelTargets: seq<(string, seq<string>)> := [
    ("SC2", ["VIRUS_SARS_Like", "VIRUS_SARS-CoV-2", "Coronavírus SARS-CoV-2", "VIRUS_SARS", "VIRUS_COV2"]),
    ("FLUA", ["VIRUS_Influenza A", "VIRUS_Influenza H1N1", "VIRUS_Influenza H3", "Vírus Influenza A",
              "VIRUS_IA", "VIRUS_H1N1", "VIRUS_AH3"]),
    ("FLUB", ["VIRUS_Influenza B", "Vírus Influenza B", "VIRUS_B"]),
    ("VSR", ["VIRUS_Sincicial A", "VIRUS_Sincicial B", "Vírus Sincicial Respiratório A/B", "VIRUS_SA", "VIRUS_SB"]),
    ("META", ["VIRUS_Metapneumovírus", "VIRUS_MH"]),
    ("RINO", ["VIRUS_Rinovírus", "VIRUS_RH"]),
    ("PARA", ["VIRUS_Parainfluenza 1", "VIRUS_Parainfluenza 2", "VIRUS_Parainfluenza 3",
              "VIRUS_Parainfluenza 4", "VIRUS_PH", "VIRUS_PH2", "VIRUS_PH3", "VIRUS_PH4"]),
    ("ADENO", ["VIRUS_Adenovirus", "VIRUS_ADE"]),
    ("BOCA", ["VIRUS_Bocavirus", "VIRUS_BOC"]),
    ("COVS", ["VIRUS_CoV-229E", "VIRUS_CoV-HKU", "VIRUS_CoV-NL63", "VIRUS_CoV-OC43", "VIRUS_229E",
              "VIRUS_HKU", "VIRUS_NL63", "VIRUS_OC43"]),
    ("ENTERO", ["VIRUS_Enterovírus", "VIRUS_EV"]),
    ("BAC", ["BACTE_Bordetella pertussis", "BACTE_Bordetella parapertussis", "BACTE_Mycoplasma pneumoniae",
             "BACTE_BP", "BACTE_BPAR", "BACTE_MP"])
  ]

  const Detectado := "Detectado"
  const NaoDetectado := "Não Detectado"

  /** The calls a Detectado target may overwrite: 'NA' and, as written,
      'Não Detectado', which is never stored (the negative call is 'Neg');
      the correction lists 'Neg' there. */
  function Upgradable(upgrade: bool): seq<string> {
    ["NA", if upgrade then "Neg" else NaoDetectado]
  }

  /** One target's cell read against the pathogen's call so far. */
  function TargetStep(call: string, v: string, upgrade: bool): string {
    if v == Detectado then (if call in Upgradable(upgrade) then "Pos" else call)
    else if v == NaoDetectado then (if call == "NA" then "Neg" else call)
    else call
  }

  /** `for target in tests: if target in data.keys(): ...` */
  function CallFold(call: string, row: Row, cols: seq<string>, targets: seq<string>, upgrade: bool): (r: string)
    ensures r == call || r == "Pos" || r == "Neg"
    ensures r == "Pos" && call != "Pos" ==> AnyReads(row, cols, targets, Detectado)
    ensures r == "Neg" && call != "Neg" ==> AnyReads(row, cols, targets, NaoDetectado)
    decreases |targets|
  {
    if targets == [] then call
    else
      var next := if targets[0] in cols then TargetStep(call, Cell(row, targets[0]), upgrade) else call;
      var r := CallFold(next, row, cols, targets[1..], upgrade);
      AnyReadsTail(row, cols, targets, Detectado);
      AnyReadsTail(row, cols, targets, NaoDetectado);
      r
  }

  /** A target past the first that reads v is a target that reads v; so
      is the first one. */
  lemma AnyReadsTail(row: Row, cols: seq<string>, targets: seq<string>, v: string)
    requires targets != []
    ensures AnyReads(row, cols, targets[1..], v) ==> AnyReads(row, cols, targets, v)
    ensures targets[0] in cols && Cell(row, targets[0]) == v ==> AnyReads(row, cols, targets, v)
  {
    if AnyReads(row, cols, targets[1..], v) {
      var k :| 0 <= k < |targets[1..]| && targets[1..][k] in cols && Cell(row, targets[1..][k]) == v;
      assert targets[k + 1] == targets[1..][k];
    }
  }

  /** A cell the resolution reads: Detectado or Não Detectado. */
  predicate Informative(v: string) {
    v == Detectado || v == NaoDetectado
  }

  /** The value of the first of the targets the table has whose cell is informative. */
  function FirstInformative(row: Row, cols: seq<string>, targets: seq<string>): (r: Option<string>)
    ensures r.Some? ==> Informative(r.value)
    decreases |targets|
  {
    if targets == [] then None
    else if targets[0] in cols && Informative(Cell(row, targets[0])) then Some(Cell(row, targets[0]))
    else FirstInformative(row, cols, targets[1..])
  }

  function Verdict(v: string): string {
    if v == Detectado then "Pos" else "Neg"
  }

  /** As written, a settled call never changes again. */
  lemma {:induction false} SettledStays(call: string, row: Row, cols: seq<string>, targets: seq<string>)
    requires call == "Pos" || call == "Neg"
    ensures CallFold(call, row, cols, targets, false) == call
    decreases |targets|
  {
    if targets != [] {
      SettledStays(call, row, cols, targets[1..]);
    }
  }

  /** As written, the first informative target decides the call; with none
      it stays NA. */
  lemma {:induction false} FirstInformativeDecides(row: Row, cols: seq<string>, targets: seq<string>)
    ensures CallFold("NA", row, cols, targets, false) ==
      match FirstInformative(row, cols, targets)
      case Some(v) => Verdict(v)
      case None => "NA"
    decreases |targets|
  {
    if targets != [] {
      if targets[0] in cols && Informative(Cell(row, targets[0])) {
        SettledStays(Verdict(Cell(row, targets[0])), row, cols, targets[1..]);
      } else {
        FirstInformativeDecides(row, cols, targets[1..]);
      }
    }
  }

  /** One of the targets the table has reads v. */
  predicate AnyReads(row: Row, cols: seq<string>, targets: seq<string>, v: string) {
    exists k :: 0 <= k < |targets| && targets[k] in cols && Cell(row, targets[k]) == v
  }

  /** Corrected: Pos when any target is Detectado, else Neg when any is Não
      Detectado, else NA, from any call so far. */
  lemma {:induction false} UpgradeFold(call: string, row: Row, cols: seq<string>, targets: seq<string>)
    requires call == "NA" || call == "Pos" || call == "Neg"
    ensures CallFold(call, row, cols, targets, true) ==
      if call == "Pos" || AnyReads(row, cols, targets, Detectado) then "Pos"
      else if call == "Neg" || AnyReads(row, cols, targets, NaoDetectado) then "Neg"
      else "NA"
    decreases |targets|
  {
    if targets != [] {
      var next := if targets[0] in cols then TargetStep(call, Cell(row, targets[0]), true) else call;
      UpgradeFold(next, row, cols, targets[1..]);
      forall v ensures AnyReads(row, cols, targets, v) <==>
        (targets[0] in cols && Cell(row, targets[0]) == v) || AnyReads(row, cols, targets[1..], v)
      {
        if AnyReads(row, cols, targets, v) {
          var k :| 0 <= k < |targets| && targets[k] in cols && Cell(row, targets[k]) == v;
          if k > 0 { assert targets[1..][k - 1] == targets[k]; }
        }
        if AnyReads(row, cols, targets[1..], v) {
          var k :| 0 <= k < |targets[1..]| && targets[1..][k] in cols && Cell(row, targets[1..][k]) == v;
          assert targets[k + 1] == targets[1..][k];
        }
      }
    }
  }

  /** The corrected call in the order-free terms the pathogen's targets give. */
  lemma UpgradeResolves(row: Row, cols: seq<string>, targets: seq<string>)
    ensures CallFold("NA", row, cols, targets, true) == "Pos" <==> AnyReads(row, cols, targets, Detectado)
    ensures CallFold("NA", row, cols, targets, true) == "Neg" <==>
      !AnyReads(row, cols, targets, Detectado) && AnyReads(row, cols, targets, NaoDetectado)
    ensures CallFold("NA", row, cols, targets, true) == "NA" <==>
      !AnyReads(row, cols, targets, Detectado) && !AnyReads(row, cols, targets, NaoDetectado)
  {
    UpgradeFold("NA", row, cols, targets);
  }

  /** As written: Influenza A read Não Detectado and H1N1 Detectado gives
      FLUA Neg; the corrected rule gives Pos. */
  lemma NegBlocksLaterDetectado()
    ensures var row := map["VIRUS_Influenza A" := NaoDetectado, "VIRUS_Influenza H1N1" := Detectado];
      var cols := ["VIRUS_Influenza A", "VIRUS_Influenza H1N1"];
      CallFold("NA", row, cols, PanelTargets[1].1, false) == "Neg" &&
      CallFold("NA", row, cols, PanelTargets[1].1, true) == "Pos"
  {
    var row := map["VIRUS_Influenza A" := NaoDetectado, "VIRUS_Influenza H1N1" := Detectado];
    var cols := ["VIRUS_Influenza A", "VIRUS_Influenza H1N1"];
    var targets := PanelTargets[1].1;
    assert targets[0] == cols[0] && targets[1] == cols[1];
    assert FirstInformative(row, cols, targets) == Some(NaoDetectado);
    FirstInformativeDecides(row, cols, targets);
    assert AnyReads(row, cols, targets, Detectado) by {
      assert targets[1] in cols && Cell(row, targets[1]) == Detectado;
    }
    UpgradeResolves(row, cols, targets);
  }

  /** `for pat, tests in pathogens.items()`: each pathogen's call, from NA. */
  function Calls(d: Record, pts: seq<(string, seq<string>)>, row: Row, cols: seq<string>, upgrade: bool): (r: Record)
    ensures ValidDict(d) ==> ValidDict(r)
    ensures forall c :: c in d.m ==> c in r.m
    ensures forall p :: p in pts ==> ResultCol(p.0) in r.m
    decreases |pts|
  {
    if pts == [] then d
    else
      assert forall p :: p in pts ==> p == pts[0] || p in pts[1..];
      Calls(Put(d, ResultCol(pts[0].0), CallFold("NA", row, cols, pts[0].1, upgrade)), pts[1..], row, cols, upgrade)
  }

  /** A pathogen listed once gets its call; a key that is no pathogen's
      result column keeps its value. */
  lemma {:induction false} CallsMeaning(d: Record, pts: seq<(string, seq<string>)>, row: Row, cols: seq<string>,
                                        upgrade: bool, c: string)
    requires forall i, j :: 0 <= i < j < |pts| ==> pts[i].0 != pts[j].0
    ensures var r := Calls(d, pts, row, cols, upgrade);
      (c in r.m <==> c in d.m || exists k :: 0 <= k < |pts| && c == ResultCol(pts[k].0)) &&
      (forall k :: 0 <= k < |pts| && c == ResultCol(pts[k].0) ==> r.m[c] == CallFold("NA", row, cols, pts[k].1, upgrade)) &&
      ((forall k :: 0 <= k < |pts| ==> c != ResultCol(pts[k].0)) && c in d.m ==> r.m[c] == d.m[c])
    decreases |pts|
  {
    if pts != [] {
      var d' := Put(d, ResultCol(pts[0].0), CallFold("NA", row, cols, pts[0].1, upgrade));
      CallsMeaning(d', pts[1..], row, cols, upgrade, c);
      forall k | 1 <= k < |pts| ensures pts[1..][k - 1] == pts[k] { }
      forall k | 0 <= k < |pts[1..]| ensures pts[1..][k] == pts[k + 1] { }
      forall k | 1 <= k < |pts| && c == ResultCol(pts[k].0) ensures c != ResultCol(pts[0].0) {
        if c == ResultCol(pts[0].0) { ResultColInjective(pts[k].0, pts[0].0); }
      }
    }
  }

  /** data = one row's cells, then a call for each pathogen of pts
      (the panel's are PanelTargets). */
  function PanelRecord(cols: seq<string>, row: Row, pts: seq<(string, seq<string>)>, upgrade: bool): (r: Record)
    ensures ValidDict(r)
    ensures forall c :: c in cols ==> c in r.m
    ensures forall p :: p in pts ==> ResultCol(p.0) in r.m
  {
    NoDataValid();
    Calls(Seed(NoData, cols, row), pts, row, cols, upgrade)
  }

  lemma PanelPathogensDistinct()
    ensures forall i, j :: 0 <= i < j < |PanelTargets| ==> PanelTargets[i].0 != PanelTargets[j].0
  {
    assert forall k :: 0 <= k < |PanelTargets| ==> PanelTargets[k].0 == Pathogens[k];
    PathogensDistinct();
  }

  /** The panel's record for a row: every column of the file with the row's
      cell, except each pathogen's result column, which holds its call. */
  lemma PanelRecordMeaning(cols: seq<string>, row: Row, pts: seq<(string, seq<string>)>, upgrade: bool, c: string)
    requires forall i, j :: 0 <= i < j < |pts| ==> pts[i].0 != pts[j].0
    ensures c in cols ==> c in PanelRecord(cols, row, pts, upgrade).m
    ensures c in cols && (forall k :: 0 <= k < |pts| ==> c != ResultCol(pts[k].0)) ==>
      PanelRecord(cols, row, pts, upgrade).m[c] == Cell(row, c)
    ensures forall k :: 0 <= k < |pts| && c == ResultCol(pts[k].0) ==>
      c in PanelRecord(cols, row, pts, upgrade).m &&
      PanelRecord(cols, row, pts, upgrade).m[c] == CallFold("NA", row, cols, pts[k].1, upgrade)
  {
    CallsMeaning(Seed(NoData, cols, row), pts, row, cols, upgrade, c);
  }

  /** `for idx, row in dfL.iterrows(): ... dfN = dfN.append(data)`: one
      record per row, in order. */
  function RowRecords(cols: seq<string>, rows: seq<Row>, pts: seq<(string, seq<string>)>, upgrade: bool): (r: Table)
    ensures |r.rows| == |rows|
    ensures forall i :: 0 <= i < |rows| ==> r.rows[i] == PanelRecord(cols, rows[i], pts, upgrade).m
    decreases |rows|
  {
    if rows == [] then Empty
    else
      var front := rows[..|rows| - 1];
      assert forall i :: 0 <= i < |front| ==> front[i] == rows[i];
      AppendRecord(RowRecords(cols, front, pts, upgrade), PanelRecord(cols, rows[|rows| - 1], pts, upgrade))
  }

  /** The Ct columns the panel adds, all blank. */
  const PanelBlankCts := ["Ct_FluA", "Ct_FluB", "Ct_VSR", "Ct_RDRP", "Ct_geneS", "Ct_geneN", "Ct_ORF1ab", "Ct_geneE"]

  /** `if 'Dt. Nascimento' not in dfL.columns: dfL['birthdate'] = ''` */
  function WithBirthdate(t: Table): (r: Table)
    ensures |r.rows| == |t.rows|
  {
    if "Dt. Nascimento" in t.cols then t else SetColumn(t, "birthdate", "")
  }

  // ---------------------------------------------------------------------
  // The Covid-19 export
  // ---------------------------------------------------------------------

  /** str.replace(',', '.') */
  function DotDecimal(v: string): string {
    ReplaceAll(v, ",", ".")
  }

  const CovidBlankCts := ["Ct_FluA", "Ct_FluB", "Ct_VSR", "Ct_RDRP", "Ct_geneS", "Ct_geneN", "Ct_geneE"]

  /** Every pathogen but SC2 reads NA, the Ct columns are added blank and
      the two Ct columns get a decimal point. */
  function CovidReshape(l: Table, others: seq<string>, blanks: seq<string>): Result<Table> {
    var b := SetColumns(WithBirthdate(SetColumns(l, others, "NA")), blanks, "");
    var n :- MapColumn(b, "CT_N", DotDecimal);
    MapColumn(n, "CT_ORF1AB", DotDecimal)
  }

  // ---------------------------------------------------------------------
  // fix_datatable and the file loop
  // ---------------------------------------------------------------------

  /** The cache flag, the catalogs, the digest, and the correction of the
      Findings (`upgrade`: Detectado overwrites a Neg call); false is the
      script as written. */
  datatype Settings = Settings(cached: bool, renames: map<string, map<string, string>>,
                               corrections: Corrections, sha1: string -> Digest, upgrade: bool)

  /** The layout's preparation before deduplicate. */
  function Prepared(layout: Layout, t: Table): (r: Result<Table>)
    requires |t.cols| >= 1
    ensures r.Ok? && layout == ViralPanel ==> forall c :: c in PanelIdColumns ==> c in r.value.cols
    ensures r.Ok? && layout == Covid19 ==> forall c :: c in CovidIdColumns ==> c in r.value.cols
    ensures r.Ok? ==> |r.value.rows| == |t.rows|
  {
    match layout
    case ViralPanel =>
      var t1 :- InsertColumn(t, 1, "sample_id", "");
      var v := VariantOf(t1.cols);
      var t2 :- if KitOf(v).Some? then InsertColumn(t1, 1, "test_kit", KitOf(v).value) else Ok(t1);
      Ok(AddMissing(AddMissing(t2, PanelIdColumns), TestColumns(v)))
    case Covid19 =>
      var l0 := AddMissing(t, CovidIdColumns);
      var t1 :- InsertColumn(l0, 1, "sample_id", "");
      InsertColumn(t1, 1, "test_kit", "covid")
    case Unknown => Ok(t)
  }

  function IdColumnsOf(layout: Layout): seq<string> {
    if layout == Covid19 then CovidIdColumns else PanelIdColumns
  }

  function DedupSettingOf(s: Settings, layout: Layout): DedupSetting {
    DedupSetting(s.cached, IdColumnsOf(layout), 16, true)
  }

  /** The column lists the reshaping writes: the panel's targets per
      pathogen and blank Ct columns, and the Covid-19 export's NA and blank
      Ct columns. */
  datatype Shapes = Shapes(targets: seq<(string, seq<string>)>, panelBlanks: seq<string>,
                           others: seq<string>, covidBlanks: seq<string>)

  const Own := Shapes(PanelTargets, PanelBlankCts, OtherResultCols, CovidBlankCts)

  function Reshaped(layout: Layout, l: Table, upgrade: bool, k: Shapes): Result<Table> {
    if layout == ViralPanel then
      var b := SetColumns(WithBirthdate(l), k.panelBlanks, "");
      Ok(RowRecords(b.cols, b.rows, k.targets, upgrade))
    else CovidReshape(l, k.others, k.covidBlanks)
  }

  /** fix_datatable(dfL, file) */
  function FixDatatable(s: Settings, dfT: Table, t: Table): (r: Result<Table>)
    ensures Classify(t) == Unknown ==> r == Ok(t)
  {
    var layout := Classify(t);
    if layout == Unknown then Ok(t) else FixKnown(s, dfT, layout, t, Own)
  }

  /** fix_datatable once the layout is known: prepare, deduplicate, reshape. */
  function FixKnown(s: Settings, dfT: Table, layout: Layout, t: Table, k: Shapes): Result<Table>
    requires layout != Unknown && |t.cols| >= 1
  {
    var l :- Prepared(layout, t);
    Deduplicated(s, dfT, layout, l, k)
  }

  /** deduplicate, then the layout's reshaping unless nothing is new. */
  function Deduplicated(s: Settings, dfT: Table, layout: Layout, l: Table, k: Shapes): (r: Result<Table>)
    ensures r.Ok? ==> forall c :: c in IdColumnsOf(layout) ==> c in l.cols
    ensures r.Ok? && s.cached ==> "sample_id" in dfT.cols
  {
    var kept :- Dedup(l, l, dfT, DedupSettingOf(s, layout), s.sha1);
    if IsEmpty(kept.0) then Ok(kept.1) else Reshaped(layout, kept.0, s.upgrade, k)
  }

  /** Without a cache the panel gives one record per row of the file. */
  lemma PanelOneRecordPerRow(s: Settings, dfT: Table, t: Table)
    requires Classify(t) == ViralPanel && !s.cached && |t.rows| > 0
    ensures FixDatatable(s, dfT, t).Ok? ==> |FixDatatable(s, dfT, t).value.rows| == |t.rows|
  {
    if FixDatatable(s, dfT, t).Ok? {
      var l := Prepared(ViralPanel, t).value;
      var a := AssignIds(l, PanelIdColumns, s.sha1, 16).value;
      assert Dedup(l, l, dfT, DedupSettingOf(s, ViralPanel), s.sha1) == Ok((a, l));
      assert "sample_id" in a.cols;
    }
  }

  /** The columns the Covid-19 preparation writes are none of its id columns. */
  lemma CovidIdsUntouched(c: string)
    requires c in CovidIdColumns
    ensures c != "sample_id" && c != "test_kit" && c != "unique_id"
  {
  }

  /** The Covid-19 sample id hashes the id cells of the file's row (a
      missing id column read as ''), CT_N included as written. */
  lemma CovidIds(t: Table, sha1: string -> Digest, i: nat)
    requires "CT_N" in t.cols && i < |t.rows|
    requires Prepared(Covid19, t).Ok?
    ensures var a := AssignIds(Prepared(Covid19, t).value, CovidIdColumns, sha1, 16);
      var raw := AddMissing(t, CovidIdColumns).rows[i];
      a.Ok? && i < |a.value.rows| &&
      Cell(a.value.rows[i], "sample_id") == SampleId(sha1, UniqueId(raw, CovidIdColumns), 16) &&
      Cell(a.value.rows[i], "CT_N") == Cell(raw, "CT_N")
  {
    var l0 := AddMissing(t, CovidIdColumns);
    forall c | c in CovidIdColumns ensures c != "sample_id" && c != "test_kit" && c != "unique_id" {
      CovidIdsUntouched(c);
    }
    IdsAfterKitColumns(l0, CovidIdColumns, sha1, i);
  }

  /** Inserting sample_id and test_kit before hashing leaves the id cells,
      and so the sample id, as they were in the file. */
  lemma IdsAfterKitColumns(l0: Table, ids: seq<string>, sha1: string -> Digest, i: nat)
    requires |l0.cols| >= 1 && i < |l0.rows| && "CT_N" in l0.cols
    requires forall c :: c in ids ==> c in l0.cols && c != "sample_id" && c != "test_kit" && c != "unique_id"
    requires InsertColumn(l0, 1, "sample_id", "").Ok?
    requires InsertColumn(InsertColumn(l0, 1, "sample_id", "").value, 1, "test_kit", "covid").Ok?
    ensures var l := InsertColumn(InsertColumn(l0, 1, "sample_id", "").value, 1, "test_kit", "covid").value;
      var a := AssignIds(l, ids, sha1, 16);
      a.Ok? && i < |a.value.rows| &&
      Cell(a.value.rows[i], "sample_id") == SampleId(sha1, UniqueId(l0.rows[i], ids), 16) &&
      Cell(a.value.rows[i], "CT_N") == Cell(l0.rows[i], "CT_N")
  {
    var t1 := InsertColumn(l0, 1, "sample_id", "").value;
    var l := InsertColumn(t1, 1, "test_kit", "covid").value;
    forall c | c in ids ensures Cell(l.rows[i], c) == Cell(l0.rows[i], c) {
    }
    SameIdCellsSameUnique(l.rows[i], l0.rows[i], ids);
  }

  /** The Covid-19 reshaping keeps the sample id, puts a point in CT_N and
      reads NA for every pathogen but SC2. */
  lemma CovidReshapeCells(l: Table, others: seq<string>, blanks: seq<string>, i: nat)
    requires "CT_N" in l.cols && "CT_ORF1AB" in l.cols && i < |l.rows|
    requires "sample_id" !in others && "sample_id" !in blanks && "CT_N" !in others && "CT_N" !in blanks
    requires forall c :: c in others ==> c !in blanks && c != "birthdate" && c != "CT_N" && c != "CT_ORF1AB"
    ensures CovidReshape(l, others, blanks).Ok? && i < |CovidReshape(l, others, blanks).value.rows|
    ensures Cell(CovidReshape(l, others, blanks).value.rows[i], "sample_id") == Cell(l.rows[i], "sample_id")
    ensures Cell(CovidReshape(l, others, blanks).value.rows[i], "CT_N") == DotDecimal(Cell(l.rows[i], "CT_N"))
    ensures forall c :: c in others ==> Cell(CovidReshape(l, others, blanks).value.rows[i], c) == "NA"
  {
    var na := SetColumns(l, others, "NA");
    var w := WithBirthdate(na);
    assert w.rows[i] == na.rows[i] || w.rows[i] == na.rows[i]["birthdate" := ""];
    assert "CT_N" in w.cols && "CT_ORF1AB" in w.cols by {
      assert w == na || w == SetColumn(na, "birthdate", "");
    }
    var b := SetColumns(w, blanks, "");
    var n := MapColumn(b, "CT_N", DotDecimal).value;
    var r := MapColumn(n, "CT_ORF1AB", DotDecimal).value;
    assert CovidReshape(l, others, blanks) == Ok(r);
    assert r.rows[i] == n.rows[i]["CT_ORF1AB" := DotDecimal(Cell(n.rows[i], "CT_ORF1AB"))];
    assert n.rows[i] == b.rows[i]["CT_N" := DotDecimal(Cell(b.rows[i], "CT_N"))];
  }

  lemma CovidColumnsApart()
    ensures "sample_id" !in OtherResultCols && "sample_id" !in CovidBlankCts
    ensures "CT_N" !in OtherResultCols && "CT_N" !in CovidBlankCts
    ensures forall c :: c in OtherResultCols ==> c !in CovidBlankCts && c != "birthdate" && c != "CT_N" && c != "CT_ORF1AB"
    ensures OtherResultCols[0] == "FLUA_test_result"
  {
    forall c | c in OtherResultCols
      ensures c !in CovidBlankCts && c != "birthdate" && c != "CT_N" && c != "CT_ORF1AB" && c != "sample_id"
    {
      assert c in ResultCols;
      ResultColsLong(c);
      LongApart(c);
    }
    assert OtherResultCols[0] == ResultCol("FLUA");
  }

  /** A name of 15 characters or more is none of the Covid-19 columns the reshape writes. */
  lemma LongApart(c: string)
    requires |c| >= 15
    ensures c !in CovidBlankCts && c != "birthdate" && c != "CT_N" && c != "CT_ORF1AB" && c != "sample_id"
  {
    forall k | 0 <= k < |CovidBlankCts| ensures |CovidBlankCts[k]| < 15 { }
  }

  /** In the Covid-19 export the sample id is taken before the commas of
      CT_N become points: it hashes the Ct as the file wrote it. */
  lemma CovidIdBeforeDecimals(s: Settings, dfT: Table, t: Table, i: nat)
    requires Classify(t) == Covid19 && !s.cached && i < |t.rows|
    requires FixDatatable(s, dfT, t).Ok?
    ensures var raw := AddMissing(t, CovidIdColumns).rows[i];
      var r := FixDatatable(s, dfT, t).value;
      i < |r.rows| &&
      Cell(r.rows[i], "sample_id") == SampleId(s.sha1, UniqueId(raw, CovidIdColumns), 16) &&
      Cell(r.rows[i], "CT_N") == DotDecimal(Cell(raw, "CT_N")) &&
      Cell(r.rows[i], "FLUA_test_result") == "NA"
  {
    CovidIds(t, s.sha1, i);
    var a := CovidFixed(s, dfT, t);
    CovidColumnsApart();
    CovidReshapeCells(a, OtherResultCols, CovidBlankCts, i);
  }

  /** Without a cache a Covid-19 file is the reshape of its prepared rows with their ids. */
  lemma CovidFixed(s: Settings, dfT: Table, t: Table) returns (a: Table)
    requires Classify(t) == Covid19 && !s.cached && |t.rows| > 0
    requires FixDatatable(s, dfT, t).Ok?
    ensures Prepared(Covid19, t).Ok?
    ensures AssignIds(Prepared(Covid19, t).value, CovidIdColumns, s.sha1, 16) == Ok(a)
    ensures "sample_id" in a.cols && "CT_N" in a.cols && "CT_ORF1AB" in a.cols
    ensures FixDatatable(s, dfT, t) == CovidReshape(a, OtherResultCols, CovidBlankCts)
  {
    var l := Prepared(Covid19, t).value;
    assert FixDatatable(s, dfT, t) == Deduplicated(s, dfT, Covid19, l, Own);
    CtsAreIds();
    a := Uncached(s, dfT, Covid19, l, Own);
  }

  /** The two Ct columns are id columns of the Covid-19 export. */
  lemma CtsAreIds()
    ensures "CT_N" in CovidIdColumns && "CT_ORF1AB" in CovidIdColumns
  {
    assert CovidIdColumns[7] == "CT_N" && CovidIdColumns[8] == "CT_ORF1AB";
  }

  /** Without a cache deduplicate only adds the ids, and a file with rows is reshaped. */
  lemma Uncached(s: Settings, dfT: Table, layout: Layout, l: Table, k: Shapes) returns (a: Table)
    requires !s.cached && |l.rows| > 0
    requires Deduplicated(s, dfT, layout, l, k).Ok?
    ensures AssignIds(l, IdColumnsOf(layout), s.sha1, 16) == Ok(a)
    ensures |a.rows| == |l.rows| && forall c :: c in l.cols ==> c in a.cols
    ensures Deduplicated(s, dfT, layout, l, k) == Reshaped(layout, a, s.upgrade, k)
  {
    a := AssignIds(l, IdColumnsOf(layout), s.sha1, 16).value;
    assert Dedup(l, l, dfT, DedupSettingOf(s, layout), s.sha1) == Ok((a, l));
    assert !IsEmpty(a);
  }

  /** lab_id, the lab's renames, then every correction of the catalog with
      no column check, then the one-letter sex code. */
  function Renamed(s: Settings, df: Table): Result<Table> {
    var df1 :- InsertColumn(df, 0, "lab_id", LabId);
    Ok(RenameColumns(s.renames, LabId, df1))
  }

  function LabFrame(s: Settings, df: Table): Result<Table>
    requires ValidCorrections(s.corrections)
  {
    var r :- Renamed(s, df);
    var df2 :- Corrected(r, s.corrections, false);
    FixSex(df2)
  }

  /** The corrections stop the run exactly when the catalog names a column
      the renamed frame lacks. */
  lemma CorrectionsNeedColumns(s: Settings, df: Table)
    requires ValidCorrections(s.corrections) && Renamed(s, df).Ok?
    ensures Corrected(Renamed(s, df).value, s.corrections, false).Ok? <==>
      forall lab, col :: lab in s.corrections.keys && col in s.corrections.m[lab].keys ==>
        col in Renamed(s, df).value.cols
  {
    assert forall lab :: lab in s.corrections.keys ==> lab in s.corrections.m;
    FixLabsOk(Renamed(s, df).value, s.corrections, s.corrections.keys, false);
  }

  /** One iteration of the file loop; an empty frame is skipped. */
  function FileStep(s: Settings, dfT: Table, t: Table): (r: Result<Table>)
    requires ValidCorrections(s.corrections)
    ensures r.Ok? ==> dfT.rows <= r.value.rows
    ensures FixDatatable(s, dfT, t).Err? ==> r == Err(FixDatatable(s, dfT, t).error)
    ensures FixDatatable(s, dfT, t).Ok? && IsEmpty(FixDatatable(s, dfT, t).value) ==> r == Ok(dfT)
    ensures FixDatatable(s, dfT, t).Ok? && !IsEmpty(FixDatatable(s, dfT, t).value) ==>
      var f := LabFrame(s, FixDatatable(s, dfT, t).value);
      (r.Ok? <==> f.Ok?) &&
      (r.Ok? ==> r.value.rows == dfT.rows + f.value.rows &&
                 forall c :: c in r.value.cols <==> c in dfT.cols || c in f.value.cols)
  {
    var df :- FixDatatable(s, dfT, t);
    if IsEmpty(df) then Ok(dfT)
    else
      var f :- LabFrame(s, df);
      Ok(Concat(dfT, f))
  }

  function StepOf(s: Settings): (Table, Table) -> Result<Table>
    requires ValidCorrections(s.corrections)
  {
    (a, t) => FileStep(s, a, t)
  }

  /** The cache's rows (and every earlier file's) survive the whole loop. */
  lemma RunKeepsCache(s: Settings, cache: Table, files: seq<Table>)
    requires ValidCorrections(s.corrections)
    ensures Pipeline.Fold(cache, files, StepOf(s)).Ok? ==>
      cache.rows <= Pipeline.Fold(cache, files, StepOf(s)).value.rows
  {
    Pipeline.FoldKeepsPrefix(cache, files, StepOf(s));
  }

  /** With a cache, a file whose every sample id is already in dfT adds nothing. */
  lemma FullyCachedSkipped(s: Settings, dfT: Table, t: Table)
    requires ValidCorrections(s.corrections)
    requires Classify(t) != Unknown && s.cached && "sample_id" in dfT.cols
    requires Prepared(Classify(t), t).Ok?
    requires AllSeen(Prepared(Classify(t), t).value, dfT, DedupSettingOf(s, Classify(t)), s.sha1)
    ensures FileStep(s, dfT, t) == Ok(dfT)
  {
    var l := Prepared(Classify(t), t).value;
    DedupAllSeen(l, l, dfT, DedupSettingOf(s, Classify(t)), s.sha1);
  }

  const KeyCols := ["lab_id", "test_id", "test_kit", "sample_id", "state", "location", "date_testing",
                    "epiweek", "age", "sex", "FLUA_test_result", "Ct_FluA", "FLUB_test_result", "Ct_FluB",
                    "VSR_test_result", "Ct_VSR", "SC2_test_result", "Ct_geneE", "Ct_geneN", "Ct_geneS",
                    "Ct_ORF1ab", "Ct_RDRP", "geneS_detection", "META_test_result", "RINO_test_result",
                    "PARA_test_result", "ADENO_test_result", "BOCA_test_result", "COVS_test_result",
                    "ENTERO_test_result", "BAC_test_result"]

  function Reformatted(s: Settings, cache: Table, files: seq<Table>,
                       parseDate: string -> Option<string>, epiweekOf: string -> string): (r: Result<Output>)
    requires ValidCorrections(s.corrections)
    ensures r.Ok? ==> r.value.table.cols == KeyCols && r.value.duplicates.cols == KeyCols
    ensures r.Ok? ==> SortedByKey(r.value.table.rows)
  {
    var dfT :- Pipeline.Fold(cache, files, StepOf(s));
    Finalize(dfT, parseDate, epiweekOf, PosNeg, KeyCols)
  }

  // ---- the loops ----

  /** `for target in tests` */
  method ResolveTargets(row: Row, cols: seq<string>, targets: seq<string>, upgrade: bool) returns (call: string)
    ensures call == CallFold("NA", row, cols, targets, upgrade)
  {
    call := "NA";
    var k := 0;
    while k < |targets|
      invariant 0 <= k <= |targets|
      invariant CallFold(call, row, cols, targets[k..], upgrade) == CallFold("NA", row, cols, targets, upgrade)
    {
      assert targets[k..][1..] == targets[k + 1..];
      if targets[k] in cols {
        call := TargetStep(call, Cell(row, targets[k]), upgrade);
      }
      k := k + 1;
    }
  }

  /** One row's data dict: its cells, then `for pat, tests in pathogens.items()`. */
  method BuildPanelRecord(cols: seq<string>, row: Row, pts: seq<(string, seq<string>)>, upgrade: bool)
    returns (d: Record)
    ensures d == PanelRecord(cols, row, pts, upgrade)
  {
    d := NoData;
    var k := 0;
    while k < |cols|
      invariant 0 <= k <= |cols|
      invariant Seed(d, cols[k..], row) == Seed(NoData, cols, row)
    {
      assert cols[k..][1..] == cols[k + 1..];
      d := Put(d, cols[k], Cell(row, cols[k]));
      k := k + 1;
    }
    assert cols[k..] == [];
    var p := 0;
    while p < |pts|
      invariant 0 <= p <= |pts|
      invariant Calls(d, pts[p..], row, cols, upgrade) == PanelRecord(cols, row, pts, upgrade)
    {
      assert pts[p..][1..] == pts[p + 1..];
      var call := ResolveTargets(row, cols, pts[p].1, upgrade);
      d := Put(d, ResultCol(pts[p].0), call);
      p := p + 1;
    }
  }

  /** `for idx, row in dfL.iterrows()` */
  method PanelRows(cols: seq<string>, rows: seq<Row>, pts: seq<(string, seq<string>)>, upgrade: bool)
    returns (t: Table)
    ensures t == RowRecords(cols, rows, pts, upgrade)
  {
    t := Empty;
    var i := 0;
    while i < |rows|
      invariant 0 <= i <= |rows|
      invariant t == RowRecords(cols, rows[..i], pts, upgrade)
    {
      assert rows[..i + 1][..i] == rows[..i];
      var d := BuildPanelRecord(cols, rows[i], pts, upgrade);
      t := AppendRecord(t, d);
      i := i + 1;
    }
    assert rows[..i] == rows;
  }

  method FixTable(s: Settings, dfT: Table, t: Table) returns (r: Result<Table>)
    ensures r == FixDatatable(s, dfT, t)
  {
    var layout := Classify(t);
    if layout == Unknown {
      return Ok(t);
    }
    r := FixLayout(s, dfT, layout, t, Own);
  }

  method FixLayout(s: Settings, dfT: Table, layout: Layout, t: Table, k: Shapes) returns (r: Result<Table>)
    requires layout != Unknown && |t.cols| >= 1
    ensures r == FixKnown(s, dfT, layout, t, k)
  {
    var l :- Prepared(layout, t);
    r := Deduplicate(s, dfT, layout, l, k);
  }

  method Deduplicate(s: Settings, dfT: Table, layout: Layout, l: Table, k: Shapes) returns (r: Result<Table>)
    ensures r == Deduplicated(s, dfT, layout, l, k)
  {
    var kept :- Dedup(l, l, dfT, DedupSettingOf(s, layout), s.sha1);
    if IsEmpty(kept.0) {
      return Ok(kept.1);
    }
    r := Reshape(layout, kept.0, s.upgrade, k);
  }

  /** The layout's own reshaping of the rows deduplicate kept. */
  method Reshape(layout: Layout, l: Table, upgrade: bool, k: Shapes) returns (r: Result<Table>)
    ensures r == Reshaped(layout, l, upgrade, k)
  {
    if layout == ViralPanel {
      var b := SetColumns(WithBirthdate(l), k.panelBlanks, "");
      var rows := PanelRows(b.cols, b.rows, k.targets, upgrade);
      r := Ok(rows);
    } else {
      r := CovidReshape(l, k.others, k.covidBlanks);
    }
  }

  method Run(acc: Pipeline.Accumulator, s: Settings, files: seq<Table>) returns (r: Result<Table>)
    requires ValidCorrections(s.corrections)
    modifies acc
    ensures r == Pipeline.Fold(old(acc.dfT), files, StepOf(s))
    ensures r.Ok? ==> acc.dfT == r.value
  {
    var i := 0;
    while i < |files|
      invariant 0 <= i <= |files|
      invariant Pipeline.Fold(old(acc.dfT), files, StepOf(s)) == Pipeline.Fold(acc.dfT, files[i..], StepOf(s))
    {
      assert files[i..][1..] == files[i + 1..];
      var df := FixTable(s, acc.dfT, files[i]);
      if df.Err? {
        return Err(df.error);
      }
      if !IsEmpty(df.value) {
        var f := LabFrame(s, df.value);
        if f.Err? {
          return Err(f.error);
        }
        acc.Append(f.value);
      }
      i := i + 1;
    }
    assert files[i..] == [];
    r := Ok(acc.dfT);
  }

  /** The script, with the correction of the Findings. */
  method Reformat(cache: Option<Table>, correctionRows: seq<CorrectionRow>, allIds: seq<string>,
                  renameRows: seq<Catalog.RenameRow>, files: seq<Table>, sha1: string -> Digest,
                  parseDate: string -> Option<string>, epiweekOf: string -> string)
    returns (r: Result<Output>)
    requires EnumeratesIds(allIds, Selected(correctionRows, Some({LabId, "any"})))
    ensures r == Reformatted(Settings(cache.Some?, RenamesOf(renameRows),
                                      CorrectionsOf(Selected(correctionRows, Some({LabId, "any"})), allIds),
                                      sha1, true),
                             if cache.Some? then cache.value else Empty, files, parseDate, epiweekOf)
  {
    var corrections := BuildCorrections(correctionRows, Some({LabId, "any"}), allIds);
    var renames := BuildRenames(renameRows);
    var s := Settings(cache.Some?, renames, corrections, sha1, true);
    var acc := new Pipeline.Accumulator(if cache.Some? then cache.value else Empty);
    var dfT := Run(acc, s, files);
    if dfT.Err? {
      return Err(dfT.error);
    }
    r := Finalize(dfT.value, parseDate, epiweekOf, PosNeg, KeyCols);
  }
}
