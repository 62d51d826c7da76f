/** The Fleury reformatter (scripts/reformat_fleury.py). Every file has one
    layout: one row per (request, target) with the exam name in EXAME, the
    target in PATOGENO and the lab's wording of the result in RESULTADO.
    The rows of one request (CODIGO REQUISICAO) become one record whose
    calls depend on the exam: a single test, the AGINFLU antigen panel, the
    four-target COVID/flu/RSV panel or the VIRUSMOL panel. The catalog of
    value corrections is not filtered by lab and is applied once, to the
    whole accumulated table, after the file loop. */
module Fleury {
  import opened Wrappers
  import opened Text
  import opened Tables
  import opened Catalog
  import opened Records
  import opened Identity
  import opened Aggregate
  import Pipeline

  const LabId := "Fleury"

  /** The request code the rows are grouped by. */
  const Code := "CODIGO REQUISICAO"

  const IdColumns := ["CODIGO REQUISICAO", "PACIENTE", "IDADE", "SEXO", "DATA COLETA", "MUNICIPIO", "ESTADO"]

  /** Targets and results that are dropped before hashing. */
  const Ignore := ["Vï¿½rus respiratï¿½rios - detecï¿½ï¿½o", "INCONCLUSIVO", ""]

  /** The columns fix_datatable writes as '' on every row. */
  const BlankColumns := ["birthdate", "Ct_FluA", "Ct_FluB", "Ct_VSR", "Ct_RDRP", "Ct_geneE", "Ct_ORF1ab",
                         "Ct_geneN", "Ct_geneS", "geneS_detection"]

  /** The many ways the lab reports a positive result. */
  const Positives := ["DETECTADO (POSITIVO)", "Influenza A - POSITIVO", "Influenza B - POSITIVO",
                      "P O S I T I V O", "POSITIVO"]

  /** The result columns in the order of the script's `pathogens` dict,
      the order the record's calls are created in. */
  const ResultOrder := [ResultCol("FLUA"), ResultCol("FLUB"), ResultCol("VSR"), ResultCol("SC2"),
                        ResultCol("META"), ResultCol("PARA"), ResultCol("ADENO"), ResultCol("COVS"),
                        ResultCol("RINO"), ResultCol("ENTERO"), ResultCol("BOCA"), ResultCol("BAC")]

  // ---- the target names of each pathogen (ENTERO and BOCA have none) ----

  const FluaTargets := ["Covidflursvgx - Influenza A", "Virusmol, Influenza A", "Virusmol, Influenza A/H1",
                        "Virusmol, Influenza A/H1-2009", "Virusmol, Influenza A/H3", "Vírus Influenza A (Sazonal)",
                        "Vï¿½rus Influenza A (Sazonal)", "Vírus respiratórios - Influenzavirus A"]
  const FlubTargets := ["Covidflursvgx - Influenza B", "Virusmol, Influenza B", "Vírus respiratórios - Influenzavirus B"]
  const VsrTargets := ["Covidflursvgx - Vírus Sincicial Respiratório", "Covidflursvgx - Vï¿½rus Sincicial Respiratï¿½rio",
                       "Virusmol, Vírus Sincicial Respiratório", "Virusmol, Vï¿½rus Sincicial Respiratï¿½rio",
                       "Vírus Sincial Respiratório", "Vírus respiratório - Sincicial", "Vï¿½rus respiratï¿½rio - Sincicial",
                       "Vírus respiratórios - Vírus Sincicial Respira"]
  const Sc2Targets := ["Covid 19, Antígeno, teste rápido", "Covid 19, Antï¿½geno, teste rï¿½pido",
                       "Covid 19, Detecção por PCR", "Covid 19, Detecï¿½ï¿½o por PCR", "Covidflursvgx - SARS-CoV-2",
                       "Virusmol, SARS-CoV-2"]
  const MetaTargets := ["Virusmol, Metapneumovírus Humano", "Virusmol, Metapneumovï¿½rus Humano"]
  const ParaTargets := ["Virusmol, Parainfluenza 1", "Virusmol, Parainfluenza 2", "Virusmol, Parainfluenza 3",
                        "Virusmol, Parainfluenza 4", "Vírus respiratórios - Parainfluenzavirus 1",
                        "Vírus respiratórios - Parainfluenzavirus 2", "Vírus respiratórios - Parainfluenzavirus 3",
                        "Vírus respiratórios - Parainfluenzavirus 4"]
  const AdenoTargets := ["Virusmol, Adenovírus", "Virusmol, Adenovï¿½rus", "Vírus respiratórios - Adenovírus"]
  const CovsTargets := ["Virusmol, Coronavírus 229E", "Virusmol, Coronavï¿½rus 229E", "Virusmol, Coronavírus HKU1",
                        "Virusmol, Coronavï¿½rus HKU1", "Virusmol, Coronavírus NL63", "Virusmol, Coronavï¿½rus NL63",
                        "Virusmol, Coronavírus OC43", "Virusmol, Coronavï¿½rus OC43"]
  const RinoTargets := ["Virusmol, Rinovï¿½rus/Enterovï¿½rus", "Virusmol, Rinovírus/Enterovírus"]
  const BacTargets := ["Virusmol, Bordetella parapertussis", "Virusmol, Bordetella pertussis",
                       "Virusmol, Chlamydophila pneumoniae", "Virusmol, Mycoplasma pneumoniae"]

  /** target_pathogen[name]: the dict is filled pathogen after pathogen, so
      a name listed twice would belong to the later pathogen; the later
      lists are therefore tried first. None is the KeyError. */
  function TargetPathogen(name: string): Option<string> {
    if name in BacTargets then Some("BAC")
    else if name in RinoTargets then Some("RINO")
    else if name in CovsTargets then Some("COVS")
    else if name in AdenoTargets then Some("ADENO")
    else if name in ParaTargets then Some("PARA")
    else if name in MetaTargets then Some("META")
    else if name in Sc2Targets then Some("SC2")
    else if name in VsrTargets then Some("VSR")
    else if name in FlubTargets then Some("FLUB")
    else if name in FluaTargets then Some("FLUA")
    else None
  }

  // ---- exams ----

  datatype Exam = Single(kit: string) | FluAntigen | FourTargets | RespAntigen | Virusmol | OtherExam

  /** The exam name of the four-target COVID/flu/RSV panel
      (reformat_fleury.py:283), kept as two literals that join to it. */
  const FourTargetsExam: string := "COVIDFLURSV" + "GX"

  /** The branch the exam name selects; a single test carries its kit from
      the `single_tests` dict. */
  function ExamOf(e: string): Exam {
    if e == "2019NCOV" || e == "COVID19POCT" || e == "COVID19SALI" || e == "COVID19GX" then Single("covid_pcr")
    else if e == "AGCOVIDNS" then Single("covid_antigen")
    else if e == "INFLUENZAPCR" then Single("flu_pcr")
    else if e == "AGSINCURG" || e == "VRSAG" then Single("vsr_antigen")
    else if e == "AGINFLU" then FluAntigen
    else if e == FourTargetsExam then FourTargets
    else if e == "AGRESPVIR" then RespAntigen
    else if e == "VIRUSMOL" then Virusmol
    else OtherExam
  }

  /** A result in `positives` is Pos, any other Neg. */
  function Call(res: string): (r: string)
    ensures r == "Pos" <==> res in Positives
    ensures r == "Neg" <==> res !in Positives
  {
    if res in Positives then "Pos" else "Neg"
  }

  // ---- preparation and deduplication ----

  function NotIgnored(c: string): Row -> bool {
    r => Cell(r, c) !in Ignore
  }

  /** The rows whose target or result is in the ignore list are dropped. */
  function Filtered(t: Table): (r: Result<Table>)
    ensures r.Ok? <==> "PATOGENO" in t.cols && "RESULTADO" in t.cols
    ensures r.Ok? ==> r.value.cols == t.cols
    ensures r.Ok? ==> forall x :: x in r.value.rows <==>
      x in t.rows && Cell(x, "PATOGENO") !in Ignore && Cell(x, "RESULTADO") !in Ignore
  {
    if "PATOGENO" !in t.cols then Err(KeyError("PATOGENO"))
    else
      var t1 := FilterRows(t, NotIgnored("PATOGENO"));
      if "RESULTADO" !in t1.cols then Err(KeyError("RESULTADO"))
      else Ok(FilterRows(t1, NotIgnored("RESULTADO")))
  }

  /** Filtering, the sample_id column, the missing id columns and the
      blank columns, before deduplicate. */
  function Prepared(t: Table): (r: Result<Table>)
    ensures r.Ok? ==> forall c :: c in IdColumns ==> c in r.value.cols
    ensures r.Ok? ==> forall x :: x in t.cols ==> x in r.value.cols
    ensures r.Ok? ==> Filtered(t).Ok? && |r.value.rows| == |Filtered(t).value.rows|
  {
    var f :- Filtered(t);
    var t1 :- InsertColumn(f, 1, "sample_id", "");
    Ok(SetColumns(AddMissing(t1, IdColumns), BlankColumns, ""))
  }

  /** How the run is configured: whether a cache was given, the catalogs,
      the digest, and whether deduplicate can report a partial cache hit
      (as written it cannot; see the Findings). */
  datatype Settings = Settings(cached: bool, renames: map<string, map<string, string>>,
                               corrections: Corrections, sha1: string -> Digest, reportBound: bool)

  /** deduplicate(dfL, dfN, id_columns) with the full 40-character digest. */
  function DedupSettingOf(s: Settings): DedupSetting {
    DedupSetting(s.cached, IdColumns, 40, s.reportBound)
  }

  /** fix_datatable(dfL, pathogens): nothing new gives the empty frame
      dfN, otherwise one record per request. */
  function FixDatatable(s: Settings, dfT: Table, t: Table): (r: Result<Table>)
    ensures Prepared(t).Err? ==> r.Err?
    ensures r.Ok? && !IsEmpty(r.value) ==> Filtered(t).Ok? && |Filtered(t).value.rows| > 0
  {
    var l :- Prepared(t);
    var kept :- Dedup(l, Empty, dfT, DedupSettingOf(s), s.sha1);
    if IsEmpty(kept.0) then Ok(kept.1) else RequestsTable(kept.0, TargetPathogen)
  }

  // ---- one request's record ----

  /** dfR['PATOGENO'].apply(lambda x: target_pathogen[x]): the first
      unknown target raises KeyError. */
  function TargetPathogens(rows: seq<Row>, pathogenOf: string -> Option<string>): (r: Result<seq<string>>)
    ensures r.Ok? <==> forall i :: 0 <= i < |rows| ==> pathogenOf(Cell(rows[i], "PATOGENO")).Some?
    ensures r.Ok? ==>
      |r.value| == |rows| && forall i :: 0 <= i < |rows| ==> r.value[i] == pathogenOf(Cell(rows[i], "PATOGENO")).value
    ensures r.Err? ==>
      exists i :: 0 <= i < |rows| && pathogenOf(Cell(rows[i], "PATOGENO")).None? &&
        r.error == KeyError(Cell(rows[i], "PATOGENO"))
  {
    if rows == [] then Ok([])
    else
      var p := pathogenOf(Cell(rows[0], "PATOGENO"));
      if p.None? then Err(KeyError(Cell(rows[0], "PATOGENO")))
      else
        var rest :- TargetPathogens(rows[1..], pathogenOf);
        assert forall i :: 1 <= i < |rows| ==> rows[i] == rows[1..][i - 1];
        Ok([p.value] + rest)
  }

  /** dfR.insert(1, 'test_kit', kit) and the pathogen column. */
  function Tagged(t: Table, kit: string, pathogenOf: string -> Option<string>): (r: Result<Table>)
    requires |t.cols| >= 1
    ensures r.Ok? <==>
      "test_kit" !in t.cols && "PATOGENO" in t.cols && forall i :: 0 <= i < |t.rows| ==> pathogenOf(Cell(t.rows[i], "PATOGENO")).Some?
    ensures r.Ok? ==> |r.value.rows| == |t.rows|
    ensures r.Ok? ==> forall x :: x in r.value.cols <==> x in t.cols || x == "test_kit" || x == "pathogen"
    ensures r.Ok? ==> forall i :: 0 <= i < |t.rows| ==>
      r.value.rows[i] == t.rows[i]["test_kit" := kit]["pathogen" := pathogenOf(Cell(t.rows[i], "PATOGENO")).value]
  {
    var t1 :- InsertColumn(t, 1, "test_kit", kit);
    if "PATOGENO" !in t1.cols then Err(KeyError("PATOGENO"))
    else
      assert forall i :: 0 <= i < |t.rows| ==> Cell(t1.rows[i], "PATOGENO") == Cell(t.rows[i], "PATOGENO");
      var ps :- TargetPathogens(t1.rows, pathogenOf);
      Ok(Table(if "pathogen" in t1.cols then t1.cols else t1.cols + ["pathogen"],
               seq(|t1.rows|, i requires 0 <= i < |t1.rows| => t1.rows[i]["pathogen" := ps[i]])))
  }

  /** How a panel reads one pathogen's rows: the first result (`list(set(...))[0]`)
      or, in VIRUSMOL, whether any of them is positive. */
  datatype Rule = FirstResult | AnyPositive

  /** The VIRUSMOL loop over one pathogen's results: each result writes its
      call until a positive one sets the `positive` flag. */
  function ScanCall(call: string, positive: bool, rs: seq<string>): (r: string)
    ensures r == call || r == "Pos" || r == "Neg"
    ensures r == "Pos" ==> call == "Pos" || exists x :: x in rs && x in Positives
    decreases |rs|
  {
    if rs == [] then call
    else
      assert rs[0] in rs;
      assert forall x :: x in rs[1..] ==> x in rs;
      if positive then ScanCall(call, true, rs[1..])
      else if rs[0] in Positives then ScanCall("Pos", true, rs[1..])
      else ScanCall("Neg", false, rs[1..])
  }

  function RuleCall(rule: Rule, rs: seq<string>): string
    requires rs != []
  {
    match rule
    case FirstResult => Call(rs[0])
    case AnyPositive => ScanCall("NA", false, rs)
  }

  /** `for pathogen, dfG in dfR.groupby('pathogen')`: each pathogen's call,
      pathogen after pathogen. */
  function GroupCalls(d: Record, rows: seq<Row>, ks: seq<string>, rule: Rule): Record
    decreases |ks|
  {
    if ks == [] then d
    else
      var rs := Column(Table([], GroupRows(rows, "pathogen", ks[0])), "RESULTADO");
      var d' := if rs == [] then d else Put(d, ResultCol(ks[0]), RuleCall(rule, rs));
      GroupCalls(d', rows, ks[1..], rule)
  }

  /** The pathogens the rows name, as groupby visits them. */
  function PathogenKeys(rows: seq<Row>): seq<string> {
    GroupKeys(Column(Table([], rows), "pathogen"))
  }

  /** The AGINFLU result table: both positive, A only, B only. */
  function FluAntigenPair(rs: seq<string>): Option<(string, string)> {
    if "Influenza A e B - POSITIVO" in rs then Some(("Influenza A - POSITIVO", "Influenza B - POSITIVO"))
    else if "Influenza A - POSITIVO" in rs then Some(("Influenza A - POSITIVO", "NEGATIVO"))
    else if "Influenza B - POSITIVO" in rs then Some(("NEGATIVO", "Influenza B - POSITIVO"))
    else None
  }

  /** The rows of the relabelled AGINFLU table before the rename. */
  function FluAntigenRows(t1: Table): seq<Row> {
    var doubled := t1.rows + t1.rows;
    var r0 := First(doubled)["PATOGENO" := "FLUA"];
    var r1 := (if |doubled| >= 2 then doubled[1] else map[])["PATOGENO" := "FLUB"];
    [r0, r1] + (if |doubled| >= 2 then doubled[2..] else [])
  }

  function FluAntigenCols(t1: Table): seq<string> {
    if "PATOGENO" in t1.cols then t1.cols else t1.cols + ["PATOGENO"]
  }

  /** AGINFLU: `pd.concat([dfR]*2)`, the first two rows relabelled as the
      FLUA and FLUB targets, and PATOGENO renamed to pathogen. */
  function FluAntigenNamed(t1: Table): Table {
    Rename(Table(FluAntigenCols(t1), FluAntigenRows(t1)), map["PATOGENO" := "pathogen"])
  }

  /** The first two results rewritten from the result table. */
  function FluAntigenRewrite(named: Table): (r: Result<Table>)
    requires |named.rows| >= 2
    ensures r.Ok? ==> |r.value.rows| == |named.rows|
  {
    if "RESULTADO" !in named.cols then Err(KeyError("RESULTADO"))
    else
      var pair := FluAntigenPair(Column(named, "RESULTADO"));
      var rows := if pair.None? then named.rows
                  else named.rows[0 := named.rows[0]["RESULTADO" := pair.value.0]]
                                 [1 := named.rows[1]["RESULTADO" := pair.value.1]];
      Ok(Table(named.cols, rows))
  }

  /** AGINFLU: the relabelled table with its first two results rewritten
      from the result table. */
  function FluAntigenTable(t: Table): (r: Result<Table>)
    requires |t.cols| >= 1
    ensures r.Ok? ==> |r.value.rows| >= 2
  {
    var t1 :- InsertColumn(t, 1, "test_kit", "flu_antigen");
    FluAntigenRewrite(FluAntigenNamed(t1))
  }

  /** A single test: the first row's pathogen, called from its result. */
  function SingleRecord(t: Table, kit: string, pathogenOf: string -> Option<string>): Result<Record>
    requires |t.cols| >= 1
  {
    var t2 :- Tagged(t, kit, pathogenOf);
    var first := First(t2.rows);
    var d := Put(PutAll(NoData, ResultOrder, "NA"), ResultCol(Cell(first, "pathogen")), Call(Cell(first, "RESULTADO")));
    Ok(Seed(d, t2.cols, first))
  }

  /** A multi-target panel: every pathogen called by the panel's rule. */
  function PanelRecord(t: Table, kit: string, rule: Rule, pathogenOf: string -> Option<string>): (r: Result<Record>)
    requires |t.cols| >= 1
    ensures r.Ok? <==>
      "test_kit" !in t.cols && "PATOGENO" in t.cols && forall i :: 0 <= i < |t.rows| ==> pathogenOf(Cell(t.rows[i], "PATOGENO")).Some?
    ensures r.Ok? ==> forall x :: x in t.cols ==> x in r.value.m
  {
    var t2 :- Tagged(t, kit, pathogenOf);
    Ok(Seed(GroupCalls(PutAll(NoData, ResultOrder, "NA"), t2.rows, PathogenKeys(t2.rows), rule), t2.cols, First(t2.rows)))
  }

  /** AGINFLU: the two antigen calls read from the result wording. */
  function FluAntigenRecord(t: Table): Result<Record>
    requires |t.cols| >= 1
  {
    var t2 :- FluAntigenTable(t);
    Ok(Seed(GroupCalls(PutAll(NoData, ResultOrder, "NA"), t2.rows, PathogenKeys(t2.rows), FirstResult), t2.cols, First(t2.rows)))
  }

  /** One request's record, by the exam named on its first row: every call
      NA, then the exam's calls, then the first row's cells
      (`data[col] = dfR[col].tolist()[0]`). */
  function RequestRecord(cols: seq<string>, g: seq<Row>, pathogenOf: string -> Option<string>)
    : Result<Record>
  {
    if "EXAME" !in cols then Err(KeyError("EXAME"))
    else
      var t := Table(cols, g);
      match ExamOf(Cell(First(g), "EXAME"))
      case Single(kit) => SingleRecord(t, kit, pathogenOf)
      case FluAntigen => FluAntigenRecord(t)
      case FourTargets => PanelRecord(t, "test_4", FirstResult, pathogenOf)
      case Virusmol => PanelRecord(t, "test_21", AnyPositive, pathogenOf)
      case _ => Ok(Seed(PutAll(NoData, ResultOrder, "NA"), cols, First(g)))
  }

  function RecordOf(cols: seq<string>, pathogenOf: string -> Option<string>): seq<Row> -> Result<Record> {
    g => RequestRecord(cols, g, pathogenOf)
  }

  /** `for i, (code, dfR) in enumerate(dfL.groupby('CODIGO REQUISICAO'))` */
  function RequestsTable(l: Table, pathogenOf: string -> Option<string>): (r: Result<Table>)
    ensures r.Ok? ==> |r.value.rows| == |RequestKeys(l.rows, Code)|
  {
    PerRequest(l.rows, Code, RequestKeys(l.rows, Code), RecordOf(l.cols, pathogenOf))
  }

  // ---- what the calls mean ----

  predicate HasPositive(rs: seq<string>) {
    exists i :: 0 <= i < |rs| && rs[i] in Positives
  }

  /** Once a positive result is seen, the call no longer changes. */
  lemma {:induction false} ScanSettled(call: string, rs: seq<string>)
    ensures ScanCall(call, true, rs) == call
    decreases |rs|
  {
    if rs != [] {
      ScanSettled(call, rs[1..]);
    }
  }

  /** VIRUSMOL: a pathogen is Pos exactly when one of its results is
      positive, Neg when none is (and untouched without results). */
  lemma {:induction false} ScanFindsPositive(call: string, rs: seq<string>)
    ensures ScanCall(call, false, rs) == if HasPositive(rs) then "Pos" else if rs == [] then call else "Neg"
    decreases |rs|
  {
    if rs != [] {
      assert forall i :: 1 <= i < |rs| ==> rs[i] == rs[1..][i - 1];
      assert HasPositive(rs) <==> rs[0] in Positives || HasPositive(rs[1..]) by {
        if HasPositive(rs[1..]) {
          var i :| 0 <= i < |rs[1..]| && rs[1..][i] in Positives;
          assert rs[i + 1] in Positives;
        }
      }
      if rs[0] in Positives {
        ScanSettled("Pos", rs[1..]);
      } else {
        ScanFindsPositive("Neg", rs[1..]);
      }
    }
  }

  /** The VIRUSMOL call does not depend on the order of the results. */
  lemma ScanOrderFree(rs: seq<string>, rs': seq<string>)
    requires multiset(rs) == multiset(rs') && rs != []
    ensures ScanCall("NA", false, rs) == ScanCall("NA", false, rs')
  {
    ScanFindsPositive("NA", rs);
    ScanFindsPositive("NA", rs');
    assert |rs'| == |rs|;
    if HasPositive(rs) {
      var i :| 0 <= i < |rs| && rs[i] in Positives;
      assert rs[i] in multiset(rs');
    }
    if HasPositive(rs') {
      var i :| 0 <= i < |rs'| && rs'[i] in Positives;
      assert rs'[i] in multiset(rs);
    }
  }

  /** The results of one pathogen's rows, in row order. */
  function ResultsOf(rows: seq<Row>, k: string): seq<string> {
    Column(Table([], GroupRows(rows, "pathogen", k)), "RESULTADO")
  }

  /** Each pathogen the groupby visits gets the call its rows give. */
  lemma {:induction false} GroupCallsCall(d: Record, rows: seq<Row>, ks: seq<string>, rule: Rule, k: string)
    requires StrictlySorted(ks) && k in ks && ResultsOf(rows, k) != []
    ensures ResultCol(k) in GroupCalls(d, rows, ks, rule).m
    ensures GroupCalls(d, rows, ks, rule).m[ResultCol(k)] == RuleCall(rule, ResultsOf(rows, k))
    decreases |ks|
  {
    var rs := ResultsOf(rows, ks[0]);
    var d' := if rs == [] then d else Put(d, ResultCol(ks[0]), RuleCall(rule, rs));
    assert StrictlySorted(ks[1..]) by {
      forall i, j | 0 <= i < j < |ks[1..]| ensures Lt(ks[1..][i], ks[1..][j]) {
        assert ks[1..][i] == ks[i + 1] && ks[1..][j] == ks[j + 1];
      }
    }
    if k == ks[0] {
      forall k' | k' in ks[1..] ensures ResultCol(k') != ResultCol(k) {
        var j :| 0 <= j < |ks[1..]| && ks[1..][j] == k';
        assert Lt(ks[0], ks[j + 1]);
        if ResultCol(k') == ResultCol(k) { ResultColInjective(k', k); }
      }
      GroupCallsKeeps(d', rows, ks[1..], rule, ResultCol(k));
    } else {
      assert k in ks[1..];
      GroupCallsCall(d', rows, ks[1..], rule, k);
    }
  }

  /** A key that is no visited pathogen's result column keeps its value. */
  lemma {:induction false} GroupCallsKeeps(d: Record, rows: seq<Row>, ks: seq<string>, rule: Rule, c: string)
    requires StrictlySorted(ks)
    requires forall k :: k in ks ==> ResultCol(k) != c
    ensures c in GroupCalls(d, rows, ks, rule).m <==> c in d.m
    ensures c in d.m ==> GroupCalls(d, rows, ks, rule).m[c] == d.m[c]
    decreases |ks|
  {
    if ks != [] {
      var rs := ResultsOf(rows, ks[0]);
      var d' := if rs == [] then d else Put(d, ResultCol(ks[0]), RuleCall(rule, rs));
      assert StrictlySorted(ks[1..]) by {
        forall i, j | 0 <= i < j < |ks[1..]| ensures Lt(ks[1..][i], ks[1..][j]) {
          assert ks[1..][i] == ks[i + 1] && ks[1..][j] == ks[j + 1];
        }
      }
      GroupCallsKeeps(d', rows, ks[1..], rule, c);
    }
  }

  /** The result columns are longer than any column name the reformatter
      writes itself. */
  lemma ResultOrderLong(c: string)
    requires c in ResultOrder
    ensures |c| >= 15
  {
  }

  /** A request's rows with their pathogen: that pathogen is one the
      groupby visits, and its results are those of its rows. */
  lemma TaggedGroup(t: Table, kit: string, pathogenOf: string -> Option<string>, k: string, i: nat)
    requires |t.cols| >= 1 && Tagged(t, kit, pathogenOf).Ok?
    requires i < |t.rows| && pathogenOf(Cell(t.rows[i], "PATOGENO")) == Some(k)
    ensures var rows := Tagged(t, kit, pathogenOf).value.rows;
      k in PathogenKeys(rows) && ResultsOf(rows, k) != []
  {
    var rows := Tagged(t, kit, pathogenOf).value.rows;
    assert Cell(rows[i], "pathogen") == k;
    assert Column(Table([], rows), "pathogen")[i] == k;
    assert rows[i] in GroupRows(rows, "pathogen", k);
  }

  /** The single-test record, on the tagged table. */
  lemma SingleRecordCall(t: Table, kit: string, pathogenOf: string -> Option<string>)
    requires |t.cols| >= 1 && Tagged(t, kit, pathogenOf).Ok? && t.rows != []
    requires ResultCol(pathogenOf(Cell(t.rows[0], "PATOGENO")).value) !in t.cols
    ensures var r := SingleRecord(t, kit, pathogenOf);
      var p := pathogenOf(Cell(t.rows[0], "PATOGENO")).value;
      r.Ok? && ResultCol(p) in r.value.m && "test_kit" in r.value.m &&
      r.value.m[ResultCol(p)] == Call(Cell(t.rows[0], "RESULTADO")) &&
      r.value.m["test_kit"] == kit
  {
    var t2 := Tagged(t, kit, pathogenOf).value;
    var p := pathogenOf(Cell(t.rows[0], "PATOGENO")).value;
    assert First(t2.rows) == t2.rows[0];
    var first := t2.rows[0];
    assert first == t.rows[0]["test_kit" := kit]["pathogen" := p];
    assert Cell(first, "pathogen") == p;
    assert Cell(first, "test_kit") == kit;
    assert ResultCol(p) !in t2.cols by {
      assert ResultCol(p) != "test_kit" && ResultCol(p) != "pathogen";
    }
  }

  /** A single-test exam: the kit of its exam, and the call of the first
      row's pathogen read from the first row's result. */
  lemma SingleTestCall(cols: seq<string>, g: seq<Row>, pathogenOf: string -> Option<string>, kit: string)
    requires "EXAME" in cols && "PATOGENO" in cols && "test_kit" !in cols && g != []
    requires ExamOf(Cell(g[0], "EXAME")) == Single(kit)
    requires forall i :: 0 <= i < |g| ==> pathogenOf(Cell(g[i], "PATOGENO")).Some?
    requires ResultCol(pathogenOf(Cell(g[0], "PATOGENO")).value) !in cols
    ensures var r := RequestRecord(cols, g, pathogenOf);
      var p := pathogenOf(Cell(g[0], "PATOGENO")).value;
      r.Ok? && ResultCol(p) in r.value.m && "test_kit" in r.value.m &&
      r.value.m[ResultCol(p)] == Call(Cell(g[0], "RESULTADO")) &&
      r.value.m["test_kit"] == kit
  {
    var t := Table(cols, g);
    assert RequestRecord(cols, g, pathogenOf) == SingleRecord(t, kit, pathogenOf);
    SingleRecordCall(t, kit, pathogenOf);
  }

  /** The first row of the tagged request that names pathogen k. */
  lemma TaggedFirst(t: Table, kit: string, pathogenOf: string -> Option<string>, k: string, i: nat)
    requires |t.cols| >= 1 && Tagged(t, kit, pathogenOf).Ok?
    requires i < |t.rows| && pathogenOf(Cell(t.rows[i], "PATOGENO")) == Some(k)
    requires forall j :: 0 <= j < i ==> pathogenOf(Cell(t.rows[j], "PATOGENO")) != Some(k)
    ensures var rows := Tagged(t, kit, pathogenOf).value.rows;
      ResultsOf(rows, k) != [] && ResultsOf(rows, k)[0] == Cell(t.rows[i], "RESULTADO")
  {
    var rows := Tagged(t, kit, pathogenOf).value.rows;
    forall j | 0 <= j < i ensures Cell(rows[j], "pathogen") != k {
      assert pathogenOf(Cell(t.rows[j], "PATOGENO")).Some?;
    }
    FirstOfGroup(rows, "pathogen", k, i);
  }

  /** A panel record carries, for each pathogen its rows name, the call
      the panel's rule reads from that pathogen's results. */
  lemma PanelCall(t: Table, kit: string, rule: Rule, pathogenOf: string -> Option<string>, k: string, i: nat)
    requires |t.cols| >= 1 && Tagged(t, kit, pathogenOf).Ok?
    requires i < |t.rows| && pathogenOf(Cell(t.rows[i], "PATOGENO")) == Some(k)
    requires ResultCol(k) !in t.cols
    ensures var rows := Tagged(t, kit, pathogenOf).value.rows;
      var r := PanelRecord(t, kit, rule, pathogenOf);
      ResultsOf(rows, k) != [] && r.Ok? && ResultCol(k) in r.value.m &&
      r.value.m[ResultCol(k)] == RuleCall(rule, ResultsOf(rows, k))
  {
    var t2 := Tagged(t, kit, pathogenOf).value;
    TaggedGroup(t, kit, pathogenOf, k, i);
    GroupCallsCall(PutAll(NoData, ResultOrder, "NA"), t2.rows, PathogenKeys(t2.rows), rule, k);
    assert ResultCol(k) !in t2.cols by {
      assert ResultCol(k) != "test_kit" && ResultCol(k) != "pathogen";
    }
  }

  /** A positive result of pathogen k comes from a source row naming k. */
  lemma PositiveFromRow(t: Table, kit: string, pathogenOf: string -> Option<string>, k: string)
    requires |t.cols| >= 1 && Tagged(t, kit, pathogenOf).Ok?
    requires HasPositive(ResultsOf(Tagged(t, kit, pathogenOf).value.rows, k))
    ensures exists j :: 0 <= j < |t.rows| && pathogenOf(Cell(t.rows[j], "PATOGENO")) == Some(k) && Cell(t.rows[j], "RESULTADO") in Positives
  {
    var t2 := Tagged(t, kit, pathogenOf).value;
    var grp := GroupRows(t2.rows, "pathogen", k);
    var rs := ResultsOf(t2.rows, k);
    var m :| 0 <= m < |rs| && rs[m] in Positives;
    assert grp[m] in t2.rows;
    var j :| 0 <= j < |t2.rows| && t2.rows[j] == grp[m];
    assert Cell(t.rows[j], "RESULTADO") == Cell(t2.rows[j], "RESULTADO");
  }

  /** A source row naming k with a positive result gives k a positive result. */
  lemma RowGivesPositive(t: Table, kit: string, pathogenOf: string -> Option<string>, k: string, j: nat)
    requires |t.cols| >= 1 && Tagged(t, kit, pathogenOf).Ok?
    requires j < |t.rows| && pathogenOf(Cell(t.rows[j], "PATOGENO")) == Some(k) && Cell(t.rows[j], "RESULTADO") in Positives
    ensures HasPositive(ResultsOf(Tagged(t, kit, pathogenOf).value.rows, k))
  {
    var t2 := Tagged(t, kit, pathogenOf).value;
    var grp := GroupRows(t2.rows, "pathogen", k);
    var rs := ResultsOf(t2.rows, k);
    assert Cell(t2.rows[j], "pathogen") == k;
    assert t2.rows[j] in grp;
    var m :| 0 <= m < |grp| && grp[m] == t2.rows[j];
    assert rs[m] in Positives;
  }

  /** Some result of pathogen k is positive exactly when some source row
      naming k has a positive result. */
  lemma TaggedPositive(t: Table, kit: string, pathogenOf: string -> Option<string>, k: string)
    requires |t.cols| >= 1 && Tagged(t, kit, pathogenOf).Ok?
    ensures HasPositive(ResultsOf(Tagged(t, kit, pathogenOf).value.rows, k)) <==>
      exists j :: 0 <= j < |t.rows| && pathogenOf(Cell(t.rows[j], "PATOGENO")) == Some(k) && Cell(t.rows[j], "RESULTADO") in Positives
  {
    if HasPositive(ResultsOf(Tagged(t, kit, pathogenOf).value.rows, k)) {
      PositiveFromRow(t, kit, pathogenOf, k);
    }
    if exists j :: 0 <= j < |t.rows| && pathogenOf(Cell(t.rows[j], "PATOGENO")) == Some(k) && Cell(t.rows[j], "RESULTADO") in Positives {
      var j :| 0 <= j < |t.rows| && pathogenOf(Cell(t.rows[j], "PATOGENO")) == Some(k) && Cell(t.rows[j], "RESULTADO") in Positives;
      RowGivesPositive(t, kit, pathogenOf, k, j);
    }
  }

  /** The four-target panel: each pathogen's call is read from the result of the
      first row that names it. */
  lemma FourTargetsCall(cols: seq<string>, g: seq<Row>, pathogenOf: string -> Option<string>, k: string, i: nat)
    requires "EXAME" in cols && "PATOGENO" in cols && "test_kit" !in cols && g != []
    requires ExamOf(Cell(g[0], "EXAME")) == FourTargets
    requires forall j :: 0 <= j < |g| ==> pathogenOf(Cell(g[j], "PATOGENO")).Some?
    requires ResultCol(k) !in cols
    requires i < |g| && pathogenOf(Cell(g[i], "PATOGENO")) == Some(k)
    requires forall j :: 0 <= j < i ==> pathogenOf(Cell(g[j], "PATOGENO")) != Some(k)
    ensures var r := RequestRecord(cols, g, pathogenOf);
      r.Ok? && ResultCol(k) in r.value.m && r.value.m[ResultCol(k)] == Call(Cell(g[i], "RESULTADO"))
  {
    var t := Table(cols, g);
    assert RequestRecord(cols, g, pathogenOf) == PanelRecord(t, "test_4", FirstResult, pathogenOf);
    PanelCall(t, "test_4", FirstResult, pathogenOf, k, i);
    TaggedFirst(t, "test_4", pathogenOf, k, i);
  }

  /** VIRUSMOL: a pathogen is Pos exactly when some row naming it has a
      positive result, whatever the order of the rows, and Neg otherwise. */
  lemma VirusmolCall(cols: seq<string>, g: seq<Row>, pathogenOf: string -> Option<string>, k: string, i: nat)
    requires "EXAME" in cols && "PATOGENO" in cols && "test_kit" !in cols && g != []
    requires ExamOf(Cell(g[0], "EXAME")) == Virusmol
    requires forall j :: 0 <= j < |g| ==> pathogenOf(Cell(g[j], "PATOGENO")).Some?
    requires ResultCol(k) !in cols
    requires i < |g| && pathogenOf(Cell(g[i], "PATOGENO")) == Some(k)
    ensures var r := RequestRecord(cols, g, pathogenOf);
      r.Ok? && ResultCol(k) in r.value.m &&
      r.value.m[ResultCol(k)] == if exists j :: 0 <= j < |g| && pathogenOf(Cell(g[j], "PATOGENO")) == Some(k) &&
                                                Cell(g[j], "RESULTADO") in Positives
                                 then "Pos" else "Neg"
  {
    var t := Table(cols, g);
    assert RequestRecord(cols, g, pathogenOf) == PanelRecord(t, "test_21", AnyPositive, pathogenOf);
    AnyPositiveCall(t, "test_21", pathogenOf, k, i);
  }

  /** A panel read by AnyPositive calls a pathogen Pos exactly when some row
      naming it has a positive result. */
  lemma AnyPositiveCall(t: Table, kit: string, pathogenOf: string -> Option<string>, k: string, i: nat)
    requires |t.cols| >= 1 && "PATOGENO" in t.cols && "test_kit" !in t.cols
    requires forall j :: 0 <= j < |t.rows| ==> pathogenOf(Cell(t.rows[j], "PATOGENO")).Some?
    requires ResultCol(k) !in t.cols
    requires i < |t.rows| && pathogenOf(Cell(t.rows[i], "PATOGENO")) == Some(k)
    ensures var r := PanelRecord(t, kit, AnyPositive, pathogenOf);
      r.Ok? && ResultCol(k) in r.value.m &&
      r.value.m[ResultCol(k)] == if exists j :: 0 <= j < |t.rows| && pathogenOf(Cell(t.rows[j], "PATOGENO")) == Some(k) &&
                                                Cell(t.rows[j], "RESULTADO") in Positives
                                 then "Pos" else "Neg"
  {
    PanelCall(t, kit, AnyPositive, pathogenOf, k, i);
    ScanFindsPositive("NA", ResultsOf(Tagged(t, kit, pathogenOf).value.rows, k));
    TaggedPositive(t, kit, pathogenOf, k);
  }

  /** Row i of the doubled request, before the relabelling. */
  function Doubled(rows: seq<Row>, i: nat): Row
    requires i < 2 * |rows|
  {
    if i < |rows| then rows[i] else rows[i - |rows|]
  }

  /** Every cell of the doubled request but its target survives the
      relabelling. */
  lemma FluAntigenCell(t1: Table, c: string, i: nat)
    requires t1.rows != [] && c in t1.cols && c != "PATOGENO" && c != "pathogen" && i < 2 * |t1.rows|
    ensures var n := FluAntigenNamed(t1);
      i < |n.rows| && c in n.cols && Cell(n.rows[i], c) == Cell(Doubled(t1.rows, i), c)
  {
    var m := map["PATOGENO" := "pathogen"];
    var pre := FluAntigenRows(t1);
    var cols := FluAntigenCols(t1);
    var n := FluAntigenNamed(t1);
    assert n == Rename(Table(cols, pre), m);
    var doubled := t1.rows + t1.rows;
    assert Cell(pre[i], c) == Cell(doubled[i], c) by {
      if i >= 2 { assert pre[i] == doubled[i]; }
    }
    assert doubled[i] == Doubled(t1.rows, i);
    RenameRowKeeps(pre[i], cols, m, c);
    assert c in cols;
    var k :| 0 <= k < |cols| && cols[k] == c;
    assert n.cols[k] == c;
  }

  /** Every result of the doubled request survives the relabelling. */
  lemma FluAntigenResult(t1: Table, i: nat)
    requires t1.rows != [] && "RESULTADO" in t1.cols && i < 2 * |t1.rows|
    ensures var n := FluAntigenNamed(t1);
      i < |n.rows| && Cell(n.rows[i], "RESULTADO") == Cell(Doubled(t1.rows, i), "RESULTADO")
  {
    FluAntigenCell(t1, "RESULTADO", i);
  }

  /** The relabelled AGINFLU table: FLUA and FLUB first, the results still
      a column. */
  lemma FluAntigenLabels(t1: Table)
    requires t1.rows != [] && "pathogen" !in t1.cols && "RESULTADO" in t1.cols
    ensures var n := FluAntigenNamed(t1);
      |n.rows| == 2 * |t1.rows| && "RESULTADO" in n.cols &&
      Cell(n.rows[0], "pathogen") == "FLUA" && Cell(n.rows[1], "pathogen") == "FLUB" &&
      forall x :: x in n.cols ==> x in t1.cols || x == "pathogen"
  {
    var m := map["PATOGENO" := "pathogen"];
    var pre := FluAntigenRows(t1);
    var cols := FluAntigenCols(t1);
    var n := FluAntigenNamed(t1);
    assert n == Rename(Table(cols, pre), m);
    assert "RESULTADO" in cols;
    var k :| 0 <= k < |cols| && cols[k] == "RESULTADO";
    assert n.cols[k] == "RESULTADO";
    forall d | d in cols && NewName(m, d) == "pathogen" ensures d == "PATOGENO" { }
    RenameRowTakes(pre[0], cols, m, "PATOGENO", "pathogen");
    RenameRowTakes(pre[1], cols, m, "PATOGENO", "pathogen");
    forall x | x in n.cols ensures x in t1.cols || x == "pathogen" {
      var j :| 0 <= j < |n.cols| && n.cols[j] == x;
      assert x == NewName(m, cols[j]);
    }
  }

  /** The AGINFLU calls (FLUA, FLUB) as the result table reads the
      request's results; without one of its wordings, each call is read
      from the first and the second row (the first again when the request
      has one row). */
  function FluAntigenExpected(g: seq<Row>): (string, string)
    requires g != []
  {
    var rs := Column(Table([], g), "RESULTADO");
    if "Influenza A e B - POSITIVO" in rs then ("Pos", "Pos")
    else if "Influenza A - POSITIVO" in rs then ("Pos", "Neg")
    else if "Influenza B - POSITIVO" in rs then ("Neg", "Pos")
    else (Call(Cell(g[0], "RESULTADO")), Call(Cell(g[if |g| >= 2 then 1 else 0], "RESULTADO")))
  }

  /** Each result of the doubled request is one of the request's. */
  lemma FluAntigenResultsFrom(t: Table)
    requires |t.cols| >= 1 && t.rows != [] && "test_kit" !in t.cols && "RESULTADO" in t.cols
    ensures var t1 := InsertColumn(t, 1, "test_kit", "flu_antigen").value;
      forall v :: v in Column(FluAntigenNamed(t1), "RESULTADO") ==> v in Column(Table([], t.rows), "RESULTADO")
  {
    var t1 := InsertColumn(t, 1, "test_kit", "flu_antigen").value;
    var n := FluAntigenNamed(t1);
    var rs := Column(Table([], t.rows), "RESULTADO");
    assert |n.rows| == |FluAntigenRows(t1)| == 2 * |t1.rows|;
    var ns := Column(n, "RESULTADO");
    forall v | v in ns ensures v in rs {
      var i :| 0 <= i < |ns| && ns[i] == v;
      FluAntigenResult(t1, i);
      var j := if i < |t.rows| then i else i - |t.rows|;
      assert Doubled(t1.rows, i) == t1.rows[j] == t.rows[j]["test_kit" := "flu_antigen"];
      assert rs[j] == v;
    }
  }

  /** Each of the request's results is one of the doubled request's. */
  lemma FluAntigenResultsTo(t: Table)
    requires |t.cols| >= 1 && t.rows != [] && "test_kit" !in t.cols && "RESULTADO" in t.cols
    ensures var t1 := InsertColumn(t, 1, "test_kit", "flu_antigen").value;
      forall v :: v in Column(Table([], t.rows), "RESULTADO") ==> v in Column(FluAntigenNamed(t1), "RESULTADO")
  {
    var t1 := InsertColumn(t, 1, "test_kit", "flu_antigen").value;
    var n := FluAntigenNamed(t1);
    var rs := Column(Table([], t.rows), "RESULTADO");
    var ns := Column(n, "RESULTADO");
    forall v | v in rs ensures v in ns {
      var i :| 0 <= i < |t.rows| && rs[i] == v;
      FluAntigenResult(t1, i);
      assert Doubled(t1.rows, i) == t1.rows[i] == t.rows[i]["test_kit" := "flu_antigen"];
      assert ns[i] == v;
    }
  }

  /** The result table looks only at which wordings occur. */
  lemma FluAntigenPairMembers(xs: seq<string>, ys: seq<string>)
    requires forall v :: v in xs <==> v in ys
    ensures FluAntigenPair(xs) == FluAntigenPair(ys)
  {
  }

  /** The doubled request and the request give the result table the same
      wordings. */
  lemma FluAntigenSamePair(t: Table)
    requires |t.cols| >= 1 && t.rows != [] && "test_kit" !in t.cols && "RESULTADO" in t.cols
    ensures var t1 := InsertColumn(t, 1, "test_kit", "flu_antigen").value;
      FluAntigenPair(Column(FluAntigenNamed(t1), "RESULTADO")) == FluAntigenPair(Column(Table([], t.rows), "RESULTADO"))
  {
    var t1 := InsertColumn(t, 1, "test_kit", "flu_antigen").value;
    FluAntigenResultsFrom(t);
    FluAntigenResultsTo(t);
    FluAntigenPairMembers(Column(FluAntigenNamed(t1), "RESULTADO"), Column(Table([], t.rows), "RESULTADO"));
  }

  /** The calls of the wordings the result table writes. */
  lemma FluWordingCalls()
    ensures Call("Influenza A - POSITIVO") == "Pos" && Call("Influenza B - POSITIVO") == "Pos"
    ensures Call("NEGATIVO") == "Neg"
  {
    assert Positives[1] == "Influenza A - POSITIVO" && Positives[2] == "Influenza B - POSITIVO";
  }

  /** The two results the table leaves in the FLUA and FLUB rows, given
      the results a and b they held. */
  function FluAntigenRead(rs: seq<string>, a: string, b: string): (string, string) {
    var pair := FluAntigenPair(rs);
    if pair.None? then (a, b) else pair.value
  }

  /** Read through Call, the table's results give the reference calls. */
  lemma FluAntigenReadCalls(g: seq<Row>)
    requires g != []
    ensures var read := FluAntigenRead(Column(Table([], g), "RESULTADO"), Cell(g[0], "RESULTADO"),
                                       Cell(g[if |g| >= 2 then 1 else 0], "RESULTADO"));
      (Call(read.0), Call(read.1)) == FluAntigenExpected(g)
  {
    FluWordingCalls();
  }

  /** The AGINFLU table: FLUA then FLUB first, the kit and the pathogen
      its only new columns. */
  lemma FluAntigenTableShape(t: Table)
    requires |t.cols| >= 1 && t.rows != [] && "test_kit" !in t.cols && "pathogen" !in t.cols && "RESULTADO" in t.cols
    ensures var r := FluAntigenTable(t);
      r.Ok? && Cell(r.value.rows[0], "pathogen") == "FLUA" && Cell(r.value.rows[1], "pathogen") == "FLUB" &&
      forall x :: x in r.value.cols ==> x in t.cols || x == "test_kit" || x == "pathogen"
  {
    var t1 := InsertColumn(t, 1, "test_kit", "flu_antigen").value;
    FluAntigenLabels(t1);
  }

  /** The rewriting keeps the columns and the labels and leaves the first
      two rows with the results the table reads. */
  lemma FluAntigenRewriteRows(n: Table)
    requires |n.rows| >= 2 && "RESULTADO" in n.cols
    ensures var r := FluAntigenRewrite(n);
      var read := FluAntigenRead(Column(n, "RESULTADO"), Cell(n.rows[0], "RESULTADO"), Cell(n.rows[1], "RESULTADO"));
      r.Ok? && r.value.cols == n.cols &&
      Cell(r.value.rows[0], "pathogen") == Cell(n.rows[0], "pathogen") &&
      Cell(r.value.rows[1], "pathogen") == Cell(n.rows[1], "pathogen") &&
      Cell(r.value.rows[0], "RESULTADO") == read.0 && Cell(r.value.rows[1], "RESULTADO") == read.1
  {
  }

  /** The rewriting touches only the results. */
  lemma FluAntigenRewriteKeeps(n: Table, c: string)
    requires |n.rows| >= 2 && FluAntigenRewrite(n).Ok? && c != "RESULTADO"
    ensures FluAntigenRewrite(n).value.cols == n.cols
    ensures Cell(FluAntigenRewrite(n).value.rows[0], c) == Cell(n.rows[0], c)
  {
  }

  /** The FLUA and FLUB rows hold the results the table reads. */
  lemma FluAntigenTableResults(t: Table)
    requires |t.cols| >= 1 && t.rows != [] && "test_kit" !in t.cols && "pathogen" !in t.cols && "RESULTADO" in t.cols
    ensures var r := FluAntigenTable(t);
      var read := FluAntigenRead(Column(Table([], t.rows), "RESULTADO"), Cell(t.rows[0], "RESULTADO"),
                                 Cell(t.rows[if |t.rows| >= 2 then 1 else 0], "RESULTADO"));
      r.Ok? && Cell(r.value.rows[0], "RESULTADO") == read.0 && Cell(r.value.rows[1], "RESULTADO") == read.1
  {
    var t1 := InsertColumn(t, 1, "test_kit", "flu_antigen").value;
    var n := FluAntigenNamed(t1);
    FluAntigenNamedResults(t);
    FluAntigenRewriteRows(n);
    assert FluAntigenTable(t) == FluAntigenRewrite(n);
  }

  /** Before the rewriting, the relabelled table's first two rows hold the
      request's first two results and its results give the same pair. */
  lemma FluAntigenNamedResults(t: Table)
    requires |t.cols| >= 1 && t.rows != [] && "test_kit" !in t.cols && "pathogen" !in t.cols && "RESULTADO" in t.cols
    ensures var t1 := InsertColumn(t, 1, "test_kit", "flu_antigen").value;
      var n := FluAntigenNamed(t1);
      |n.rows| >= 2 && "RESULTADO" in n.cols &&
      Cell(n.rows[0], "RESULTADO") == Cell(t.rows[0], "RESULTADO") &&
      Cell(n.rows[1], "RESULTADO") == Cell(t.rows[if |t.rows| >= 2 then 1 else 0], "RESULTADO") &&
      FluAntigenPair(Column(n, "RESULTADO")) == FluAntigenPair(Column(Table([], t.rows), "RESULTADO"))
  {
    var t1 := InsertColumn(t, 1, "test_kit", "flu_antigen").value;
    FluAntigenLabels(t1);
    FluAntigenSamePair(t);
    FluAntigenResult(t1, 0);
    FluAntigenResult(t1, 1);
    assert Doubled(t1.rows, 0) == t.rows[0]["test_kit" := "flu_antigen"];
    assert Doubled(t1.rows, 1) == t.rows[if |t.rows| >= 2 then 1 else 0]["test_kit" := "flu_antigen"];
  }

  /** An AGINFLU pathogen is called from the first row that names it. */
  lemma FluAntigenGroupCall(t: Table, k: string, i: nat)
    requires |t.cols| >= 1 && FluAntigenTable(t).Ok?
    requires var t2 := FluAntigenTable(t).value;
      i < |t2.rows| && Cell(t2.rows[i], "pathogen") == k && ResultCol(k) !in t2.cols &&
      forall j :: 0 <= j < i ==> Cell(t2.rows[j], "pathogen") != k
    ensures var r := FluAntigenRecord(t);
      r.Ok? && ResultCol(k) in r.value.m &&
      r.value.m[ResultCol(k)] == Call(Cell(FluAntigenTable(t).value.rows[i], "RESULTADO"))
  {
    var rows := FluAntigenTable(t).value.rows;
    FirstOfGroup(rows, "pathogen", k, i);
    assert Column(Table([], rows), "pathogen")[i] == k;
    GroupCallsCall(PutAll(NoData, ResultOrder, "NA"), rows, PathogenKeys(rows), FirstResult, k);
  }

  /** A column name longer than the kit and pathogen columns is in the
      tagged columns only when it was in the lab's. */
  lemma NotAddedColumn(cols: seq<string>, cols2: seq<string>, c: string)
    requires forall x :: x in cols2 ==> x in cols || x == "test_kit" || x == "pathogen"
    requires |c| > 8 && c !in cols
    ensures c !in cols2
  {
  }

  /** The AGINFLU record calls FLUA and FLUB from the results its table reads. */
  lemma FluAntigenRecordCalls(t: Table)
    requires |t.cols| >= 1 && t.rows != [] && "test_kit" !in t.cols && "pathogen" !in t.cols && "RESULTADO" in t.cols
    requires ResultCol("FLUA") !in t.cols && ResultCol("FLUB") !in t.cols
    ensures var r := FluAntigenRecord(t);
      var read := FluAntigenRead(Column(Table([], t.rows), "RESULTADO"), Cell(t.rows[0], "RESULTADO"),
                                 Cell(t.rows[if |t.rows| >= 2 then 1 else 0], "RESULTADO"));
      r.Ok? && ResultCol("FLUA") in r.value.m && ResultCol("FLUB") in r.value.m &&
      r.value.m[ResultCol("FLUA")] == Call(read.0) && r.value.m[ResultCol("FLUB")] == Call(read.1)
  {
    FluAntigenTableResults(t);
    FluAntigenRowCall(t, "FLUA", 0);
    FluAntigenRowCall(t, "FLUB", 1);
  }

  /** FLUA is called from the AGINFLU table's first row, FLUB from its second. */
  lemma FluAntigenRowCall(t: Table, k: string, i: nat)
    requires |t.cols| >= 1 && t.rows != [] && "test_kit" !in t.cols && "pathogen" !in t.cols && "RESULTADO" in t.cols
    requires (k == "FLUA" && i == 0) || (k == "FLUB" && i == 1)
    requires ResultCol(k) !in t.cols
    ensures FluAntigenTable(t).Ok? && i < |FluAntigenTable(t).value.rows|
    ensures var r := FluAntigenRecord(t);
      r.Ok? && ResultCol(k) in r.value.m &&
      r.value.m[ResultCol(k)] == Call(Cell(FluAntigenTable(t).value.rows[i], "RESULTADO"))
  {
    FluAntigenTableShape(t);
    var t2 := FluAntigenTable(t).value;
    NotAddedColumn(t.cols, t2.cols, ResultCol(k));
    forall j | 0 <= j < i ensures Cell(t2.rows[j], "pathogen") != k {
      assert j == 0 && k == "FLUB";
      assert "FLUA"[3] != "FLUB"[3];
    }
    FluAntigenGroupCall(t, k, i);
  }

  /** AGINFLU: the FLUA and FLUB calls are the ones the result table gives
      (both, A only, B only), and otherwise read from the request's first
      and second rows. */
  lemma FluAntigenCall(cols: seq<string>, g: seq<Row>, pathogenOf: string -> Option<string>)
    requires "EXAME" in cols && "RESULTADO" in cols && "test_kit" !in cols && "pathogen" !in cols && g != []
    requires ExamOf(Cell(g[0], "EXAME")) == FluAntigen
    requires ResultCol("FLUA") !in cols && ResultCol("FLUB") !in cols
    ensures var r := RequestRecord(cols, g, pathogenOf);
      r.Ok? && ResultCol("FLUA") in r.value.m && ResultCol("FLUB") in r.value.m &&
      r.value.m[ResultCol("FLUA")] == FluAntigenExpected(g).0 &&
      r.value.m[ResultCol("FLUB")] == FluAntigenExpected(g).1
  {
    var t := Table(cols, g);
    assert RequestRecord(cols, g, pathogenOf) == FluAntigenRecord(t);
    FluAntigenRecordCalls(t);
    FluAntigenReadCalls(g);
  }

  /** The tagged table keeps every other cell of the request's first row. */
  lemma TaggedFirstCell(t: Table, kit: string, pathogenOf: string -> Option<string>, c: string)
    requires |t.cols| >= 1 && Tagged(t, kit, pathogenOf).Ok? && t.rows != []
    requires c in t.cols && c != "test_kit" && c != "pathogen"
    ensures var t2 := Tagged(t, kit, pathogenOf).value;
      c in t2.cols && Cell(First(t2.rows), c) == Cell(t.rows[0], c)
  {
    var t2 := Tagged(t, kit, pathogenOf).value;
    assert First(t2.rows) == t2.rows[0];
  }

  /** The AGINFLU table keeps every cell of the request's first row but
      its target and its result. */
  lemma FluAntigenFirstCell(t: Table, c: string)
    requires |t.cols| >= 1 && t.rows != [] && "test_kit" !in t.cols && "pathogen" !in t.cols && "RESULTADO" in t.cols
    requires c in t.cols && c != "PATOGENO" && c != "RESULTADO" && c != "pathogen" && c != "test_kit"
    ensures var r := FluAntigenTable(t);
      r.Ok? && c in r.value.cols && Cell(First(r.value.rows), c) == Cell(t.rows[0], c)
  {
    var t1 := InsertColumn(t, 1, "test_kit", "flu_antigen").value;
    var n := FluAntigenNamed(t1);
    FluAntigenNamedCell(t, c);
    assert FluAntigenTable(t) == FluAntigenRewrite(n);
    FluAntigenRewriteKeeps(n, c);
    assert First(FluAntigenRewrite(n).value.rows) == FluAntigenRewrite(n).value.rows[0];
  }

  /** Before the rewriting, the relabelled table's first row keeps the
      request's other cells. */
  lemma FluAntigenNamedCell(t: Table, c: string)
    requires |t.cols| >= 1 && t.rows != [] && "test_kit" !in t.cols && "pathogen" !in t.cols && "RESULTADO" in t.cols
    requires c in t.cols && c != "PATOGENO" && c != "pathogen"
    ensures var t1 := InsertColumn(t, 1, "test_kit", "flu_antigen").value;
      var n := FluAntigenNamed(t1);
      |n.rows| >= 2 && "RESULTADO" in n.cols && c in n.cols && Cell(n.rows[0], c) == Cell(t.rows[0], c)
  {
    var t1 := InsertColumn(t, 1, "test_kit", "flu_antigen").value;
    FluAntigenLabels(t1);
    FluAntigenCell(t1, c, 0);
    assert Cell(Doubled(t1.rows, 0), c) == Cell(t.rows[0], c);
  }

  /** A single test's record keeps the first row's other cells. */
  lemma SingleRecordCell(t: Table, kit: string, pathogenOf: string -> Option<string>, c: string)
    requires |t.cols| >= 1 && t.rows != [] && c in t.cols && c != "test_kit" && c != "pathogen"
    requires SingleRecord(t, kit, pathogenOf).Ok?
    ensures c in SingleRecord(t, kit, pathogenOf).value.m
    ensures SingleRecord(t, kit, pathogenOf).value.m[c] == Cell(t.rows[0], c)
  {
    TaggedFirstCell(t, kit, pathogenOf, c);
  }

  /** A panel's record keeps the first row's other cells. */
  lemma PanelRecordCell(t: Table, kit: string, rule: Rule, pathogenOf: string -> Option<string>, c: string)
    requires |t.cols| >= 1 && t.rows != [] && c in t.cols && c != "test_kit" && c != "pathogen"
    requires PanelRecord(t, kit, rule, pathogenOf).Ok?
    ensures c in PanelRecord(t, kit, rule, pathogenOf).value.m
    ensures PanelRecord(t, kit, rule, pathogenOf).value.m[c] == Cell(t.rows[0], c)
  {
    TaggedFirstCell(t, kit, pathogenOf, c);
  }

  /** The AGINFLU record keeps the first row's other cells. */
  lemma FluAntigenRecordCell(t: Table, c: string)
    requires |t.cols| >= 1 && t.rows != [] && "test_kit" !in t.cols && "pathogen" !in t.cols && "RESULTADO" in t.cols
    requires c in t.cols && c != "PATOGENO" && c != "RESULTADO" && c != "pathogen" && c != "test_kit"
    ensures FluAntigenRecord(t).Ok? && c in FluAntigenRecord(t).value.m
    ensures FluAntigenRecord(t).value.m[c] == Cell(t.rows[0], c)
  {
    FluAntigenFirstCell(t, c);
  }

  /** The record carries the request code of its first row. */
  lemma RecordCode(cols: seq<string>, g: seq<Row>, pathogenOf: string -> Option<string>)
    requires Code in cols && "RESULTADO" in cols && "test_kit" !in cols && "pathogen" !in cols && g != []
    ensures var r := RequestRecord(cols, g, pathogenOf);
      r.Ok? ==> Code in r.value.m && r.value.m[Code] == Cell(g[0], Code)
  {
    var t := Table(cols, g);
    if RequestRecord(cols, g, pathogenOf).Ok? {
      match ExamOf(Cell(First(g), "EXAME"))
      case Single(kit) =>
        assert RequestRecord(cols, g, pathogenOf) == SingleRecord(t, kit, pathogenOf);
        SingleRecordCell(t, kit, pathogenOf, Code);
      case FluAntigen =>
        assert RequestRecord(cols, g, pathogenOf) == FluAntigenRecord(t);
        FluAntigenRecordCell(t, Code);
      case FourTargets =>
        assert RequestRecord(cols, g, pathogenOf) == PanelRecord(t, "test_4", FirstResult, pathogenOf);
        PanelRecordCell(t, "test_4", FirstResult, pathogenOf, Code);
      case Virusmol =>
        assert RequestRecord(cols, g, pathogenOf) == PanelRecord(t, "test_21", AnyPositive, pathogenOf);
        PanelRecordCell(t, "test_21", AnyPositive, pathogenOf, Code);
      case _ =>
    }
  }

  /** fix_datatable's frame has one row per request code, in code order,
      each carrying its code. */
  lemma RequestCodes(l: Table, pathogenOf: string -> Option<string>, i: nat)
    requires Code in l.cols && "RESULTADO" in l.cols && "test_kit" !in l.cols && "pathogen" !in l.cols
    requires RequestsTable(l, pathogenOf).Ok?
    requires i < |RequestKeys(l.rows, Code)|
    ensures var out := RequestsTable(l, pathogenOf).value;
      var ks := RequestKeys(l.rows, Code);
      |out.rows| == |ks| && Code in out.rows[i] && out.rows[i][Code] == ks[i] &&
      ks[i] in Column(Table([], l.rows), Code)
  {
    var ks := RequestKeys(l.rows, Code);
    var record := RecordOf(l.cols, pathogenOf);
    PerRequestRows(l.rows, Code, ks, record, i);
    var g := Request(l.rows, Code, ks[i]);
    assert g[0] in g;
    RecordCode(l.cols, g, pathogenOf);
  }

  /** A target the catalog of pathogens does not know ends the run with
      KeyError for the exams that map their targets. */
  lemma UnknownTargetFails(cols: seq<string>, g: seq<Row>, pathogenOf: string -> Option<string>, i: nat)
    requires "EXAME" in cols && "PATOGENO" in cols && "test_kit" !in cols && g != []
    requires var e := ExamOf(Cell(g[0], "EXAME")); e.Single? || e == FourTargets || e == Virusmol
    requires i < |g| && pathogenOf(Cell(g[i], "PATOGENO")).None?
    ensures RequestRecord(cols, g, pathogenOf).Err?
    ensures exists j :: 0 <= j < |g| && pathogenOf(Cell(g[j], "PATOGENO")).None? && RequestRecord(cols, g, pathogenOf).error == KeyError(Cell(g[j], "PATOGENO"))
  {
    var t := Table(cols, g);
    var kit := match ExamOf(Cell(g[0], "EXAME"))
               case Single(k) => k
               case FourTargets => "test_4"
               case _ => "test_21";
    TaggedFails(t, kit, pathogenOf, i);
    var e := ExamOf(Cell(First(g), "EXAME"));
    if e.Single? {
      assert RequestRecord(cols, g, pathogenOf) == SingleRecord(t, kit, pathogenOf);
    } else if e == FourTargets {
      assert RequestRecord(cols, g, pathogenOf) == PanelRecord(t, kit, FirstResult, pathogenOf);
    } else {
      assert RequestRecord(cols, g, pathogenOf) == PanelRecord(t, kit, AnyPositive, pathogenOf);
    }
  }

  /** Tagging fails with KeyError naming an unknown target. */
  lemma TaggedFails(t: Table, kit: string, pathogenOf: string -> Option<string>, i: nat)
    requires |t.cols| >= 1 && "PATOGENO" in t.cols && "test_kit" !in t.cols
    requires i < |t.rows| && pathogenOf(Cell(t.rows[i], "PATOGENO")).None?
    ensures var r := Tagged(t, kit, pathogenOf);
      r.Err? &&
      exists j :: 0 <= j < |t.rows| && pathogenOf(Cell(t.rows[j], "PATOGENO")).None? &&
                  r.error == KeyError(Cell(t.rows[j], "PATOGENO"))
  {
    var t1 := InsertColumn(t, 1, "test_kit", kit).value;
    assert forall j :: 0 <= j < |t.rows| ==> Cell(t1.rows[j], "PATOGENO") == Cell(t.rows[j], "PATOGENO");
    assert Tagged(t, kit, pathogenOf) == Err(TargetPathogens(t1.rows, pathogenOf).error);
  }

  /** AGRESPVIR and every unknown exam: no kit and every call NA (when the
      file has no result column of its own). */
  lemma UntreatedExamAllNA(cols: seq<string>, g: seq<Row>, pathogenOf: string -> Option<string>)
    requires "EXAME" in cols && g != []
    requires var e := ExamOf(Cell(g[0], "EXAME")); e == RespAntigen || e == OtherExam
    requires forall c :: c in ResultOrder ==> c !in cols
    ensures var r := RequestRecord(cols, g, pathogenOf);
      r.Ok? && ("test_kit" in r.value.m <==> "test_kit" in cols) &&
      forall c :: c in ResultOrder ==> c in r.value.m && r.value.m[c] == "NA"
  {
    if "test_kit" !in cols {
      if "test_kit" in ResultOrder { ResultOrderLong("test_kit"); }
    }
  }

  // ---- the partial cache hit ----

  /** As written: with a cache and some new sample id, deduplicate reports
      the count with `test_name`, a name the script never defines, and the
      run stops with NameError. */
  lemma PartialHitFails(s: Settings, dfT: Table, t: Table)
    requires s.cached && !s.reportBound && "sample_id" in dfT.cols && Prepared(t).Ok?
    requires !AllSeen(Prepared(t).value, dfT, DedupSettingOf(s), s.sha1)
    ensures FixDatatable(s, dfT, t) == Err(NameError("test_name"))
  {
    DedupAllSeen(Prepared(t).value, Empty, dfT, DedupSettingOf(s), s.sha1);
  }

  /** Corrected: with a cache and some new sample id, the requests are
      built from exactly the rows whose 40-character sample id dfT lacks. */
  lemma PartialHitKeepsNew(s: Settings, dfT: Table, t: Table)
    requires s.cached && s.reportBound && "sample_id" in dfT.cols && Prepared(t).Ok?
    requires !AllSeen(Prepared(t).value, dfT, DedupSettingOf(s), s.sha1)
    ensures var l := Prepared(t).value;
      var a := AssignIds(l, IdColumns, s.sha1, 40);
      var kept := Dedup(l, Empty, dfT, DedupSettingOf(s), s.sha1);
      a.Ok? && kept.Ok? &&
      (forall i :: 0 <= i < |l.rows| ==>
         Cell(a.value.rows[i], "sample_id") == SampleId(s.sha1, UniqueId(l.rows[i], IdColumns), 40)) &&
      (forall x :: x in kept.value.0.rows <==> x in a.value.rows && Cell(x, "sample_id") !in SampleIds(dfT.rows)) &&
      FixDatatable(s, dfT, t) ==
        (if IsEmpty(kept.value.0) then Ok(Empty) else RequestsTable(kept.value.0, TargetPathogen))
  {
    DedupKeeps(Prepared(t).value, Empty, dfT, DedupSettingOf(s), s.sha1);
  }

  /** With a cache, a file whose every sample id is already in dfT gives
      the empty frame, and the file loop skips it. */
  lemma FullyCachedSkipped(s: Settings, dfT: Table, t: Table)
    requires s.cached && "sample_id" in dfT.cols && Prepared(t).Ok?
    requires AllSeen(Prepared(t).value, dfT, DedupSettingOf(s), s.sha1)
    ensures FileStep(s, dfT, t) == Ok(dfT)
  {
    DedupAllSeen(Prepared(t).value, Empty, dfT, DedupSettingOf(s), s.sha1);
  }

  // ---- the file loop ----

  /** `df.insert(0, 'lab_id', id)` and rename_columns(id, df). */
  function LabFrame(s: Settings, df: Table): (r: Result<Table>)
    ensures r.Ok? <==> "lab_id" !in df.cols
    ensures r.Ok? ==> |r.value.rows| == |df.rows| && |r.value.cols| == |df.cols| + 1
  {
    var f :- InsertColumn(df, 0, "lab_id", LabId);
    Ok(RenameColumns(s.renames, LabId, f))
  }

  /** One iteration of the file loop; an empty frame is skipped. The
      catalog of corrections waits for the end of the loop. */
  function FileStep(s: Settings, dfT: Table, t: Table): (r: Result<Table>)
    ensures r.Ok? ==> dfT.rows <= r.value.rows
    ensures FixDatatable(s, dfT, t).Err? ==> r == Err(FixDatatable(s, dfT, t).error)
    ensures FixDatatable(s, dfT, t).Ok? && IsEmpty(FixDatatable(s, dfT, t).value) ==> r == Ok(dfT)
    ensures FixDatatable(s, dfT, t).Ok? && !IsEmpty(FixDatatable(s, dfT, t).value) ==>
      var f := LabFrame(s, FixDatatable(s, dfT, t).value);
      (r.Ok? <==> f.Ok?) &&
      (r.Ok? ==> r.value.rows == dfT.rows + f.value.rows &&
                 forall c :: c in r.value.cols <==> c in dfT.cols || c in f.value.cols)
  {
    var df :- FixDatatable(s, dfT, t);
    if IsEmpty(df) then Ok(dfT)
    else
      var f :- LabFrame(s, df);
      Ok(Concat(dfT, f))
  }

  function StepOf(s: Settings): (Table, Table) -> Result<Table> {
    (a, t) => FileStep(s, a, t)
  }

  /** A frame joins dfT after its rows, each row carrying the lab id (when
      the catalog of renames has no entry for the lab). */
  lemma LabFrameAdds(s: Settings, dfT: Table, df: Table)
    requires LabFrame(s, df).Ok? && LabId !in s.renames
    ensures var r := Concat(dfT, LabFrame(s, df).value);
      |r.rows| == |dfT.rows| + |df.rows| &&
      forall i :: |dfT.rows| <= i < |r.rows| ==> Cell(r.rows[i], "lab_id") == LabId
  {
    var f := InsertColumn(df, 0, "lab_id", LabId).value;
    assert LabFrame(s, df).value == f;
    assert forall i :: |dfT.rows| <= i < |dfT.rows| + |f.rows| ==> Concat(dfT, f).rows[i] == f.rows[i - |dfT.rows|];
  }

  /** A file adds one row per request, each carrying the lab id. */
  lemma FileStepAdds(s: Settings, dfT: Table, t: Table)
    requires FileStep(s, dfT, t).Ok? && FixDatatable(s, dfT, t).Ok? && !IsEmpty(FixDatatable(s, dfT, t).value)
    requires LabId !in s.renames
    ensures var r := FileStep(s, dfT, t).value;
      var df := FixDatatable(s, dfT, t).value;
      |r.rows| == |dfT.rows| + |df.rows| &&
      forall i :: |dfT.rows| <= i < |r.rows| ==> Cell(r.rows[i], "lab_id") == LabId
  {
    var df := FixDatatable(s, dfT, t).value;
    assert FileStep(s, dfT, t) == Ok(Concat(dfT, LabFrame(s, df).value));
    LabFrameAdds(s, dfT, df);
  }

  /** The cache's rows (and every earlier file's) survive the whole loop. */
  lemma RunKeepsCache(s: Settings, cache: Table, files: seq<Table>)
    ensures Pipeline.Fold(cache, files, StepOf(s)).Ok? ==>
      cache.rows <= Pipeline.Fold(cache, files, StepOf(s)).value.rows
  {
    Pipeline.FoldKeepsPrefix(cache, files, StepOf(s));
  }

  // ---- after the file loop ----

  /** The two age fixes: a number of days without years reads '0'; then
      whatever follows the first 'A' is dropped. */
  function FixAge(x: string): (r: string)
    ensures 'A' !in r
    ensures 'A' in x ==> r == Before(x, 'A') && r == x[..|r|]
    ensures 'A' !in x && 'D' in x ==> r == "0"
    ensures 'A' !in x && 'D' !in x ==> r == x
  {
    var y := if 'D' in x && 'A' !in x then "0" else x;
    if 'A' in y then Before(y, 'A') else y
  }

  /** An age in years, `n` then 'A' and anything after, reads n. */
  lemma FixAgeYears(n: string, rest: string)
    requires 'A' !in n
    ensures FixAge(n + "A" + rest) == n
  {
    var x := n + "A" + rest;
    var r := Before(x, 'A');
    assert x[|n|] == 'A';
    assert forall k :: 0 <= k < |n| ==> x[k] == n[k];
    assert r == x[..|n|] == n;
  }

  /** key_cols: the written columns, in order. */
  const KeyCols := ["lab_id", "test_id", "patient_id", "test_kit", "sample_id", "state", "location", "sex",
                    "date_testing", "epiweek", "age", "FLUA_test_result", "Ct_FluA", "FLUB_test_result",
                    "Ct_FluB", "VSR_test_result", "Ct_VSR", "SC2_test_result", "Ct_geneE", "Ct_geneN",
                    "Ct_geneS", "Ct_ORF1ab", "Ct_RDRP", "geneS_detection", "META_test_result",
                    "RINO_test_result", "PARA_test_result", "ADENO_test_result", "BOCA_test_result",
                    "COVS_test_result", "ENTERO_test_result", "BAC_test_result"]

  /** After the loop: the catalog of corrections over the whole table
      (`dfT[column]` raising KeyError for a column dfT lacks), dates and
      epiweeks, the age fixes and the sex code, then the projection, the
      duplicate report, drop_duplicates(keep='last') and the sort. */
  function Finalized(s: Settings, dfT: Table, parseDate: string -> Option<string>,
                     epiweekOf: string -> string): (r: Result<Output>)
    requires ValidCorrections(s.corrections)
    ensures r.Ok? ==> r.value.table.cols == KeyCols && r.value.duplicates.cols == KeyCols
    ensures r.Ok? ==> SortedByKey(r.value.table.rows)
  {
    var c :- Corrected(dfT, s.corrections, false);
    var d :- Dates(c, parseDate, epiweekOf);
    var a :- MapColumn(d, "age", FixAge);
    var x :- FixSex(a);
    Finish(x, KeyCols)
  }

  /** The written table has exactly the key columns, no two equal rows,
      is sorted by lab, test and date, and every age in it is free of 'A'
      and every sex code at most one letter. */
  lemma FinalizedMeaning(s: Settings, dfT: Table, parseDate: string -> Option<string>,
                         epiweekOf: string -> string)
    requires ValidCorrections(s.corrections)
    ensures Finalized(s, dfT, parseDate, epiweekOf).Ok? ==>
      var out := Finalized(s, dfT, parseDate, epiweekOf).value.table;
      out.cols == KeyCols && SortedByKey(out.rows) &&
      (forall i, j :: 0 <= i < j < |out.rows| ==> out.rows[i] != out.rows[j]) &&
      forall i :: 0 <= i < |out.rows| ==> 'A' !in Cell(out.rows[i], "age") && |Cell(out.rows[i], "sex")| <= 1
  {
    if Finalized(s, dfT, parseDate, epiweekOf).Ok? {
      var c := Corrected(dfT, s.corrections, false).value;
      var d := Dates(c, parseDate, epiweekOf).value;
      var a := MapColumn(d, "age", FixAge).value;
      var x := FixSex(a).value;
      assert forall i :: 0 <= i < |x.rows| ==> 'A' !in Cell(x.rows[i], "age");
      FinishMeaning(x, KeyCols);
      AgeSexKeys();
      FinishedAgeSex(x, KeyCols);
    }
  }

  /** With no correction matching a sex cell of dfT, every written sex code
      is the first letter of the sex cell of some row of dfT. */
  lemma FinalizedSex(s: Settings, dfT: Table, parseDate: string -> Option<string>,
                     epiweekOf: string -> string)
    requires ValidCorrections(s.corrections)
    requires Uncorrected(s.corrections, "sex", dfT.rows)
    ensures Finalized(s, dfT, parseDate, epiweekOf).Ok? ==>
      SexCodesFrom(Finalized(s, dfT, parseDate, epiweekOf).value.table.rows, dfT.rows)
  {
    if Finalized(s, dfT, parseDate, epiweekOf).Ok? {
      var c := Corrected(dfT, s.corrections, false).value;
      var d := Dates(c, parseDate, epiweekOf).value;
      var a := MapColumn(d, "age", FixAge).value;
      var x := FixSex(a).value;
      forall j | 0 <= j < |x.rows|
        ensures Cell(x.rows[j], "sex") == SexCode(Cell(dfT.rows[j], "sex"))
      {
        assert forall lab :: lab in s.corrections.keys ==> Lookup(s.corrections, lab, "sex", Cell(dfT.rows[j], "sex")).None?;
        CorrectedKeeps(dfT, s.corrections, false, j, "sex");
        DatesKeep(c, parseDate, epiweekOf, j, "sex");
      }
      AgeSexKeys();
      FinishSexCodes(x, KeyCols, dfT.rows);
    }
  }


  lemma AgeSexKeys()
    ensures "age" in KeyCols && "sex" in KeyCols
  {
  }

  /** The projection keeps each written age and sex code from some row. */
  lemma FinishedAgeSex(x: Table, keys: seq<string>)
    requires forall c :: c in keys ==> c in x.cols
    requires "age" in keys && "sex" in keys
    requires forall i :: 0 <= i < |x.rows| ==> 'A' !in Cell(x.rows[i], "age") && |Cell(x.rows[i], "sex")| <= 1
    ensures Finish(x, keys).Ok?
    ensures var out := Finish(x, keys).value.table;
      forall i :: 0 <= i < |out.rows| ==> 'A' !in Cell(out.rows[i], "age") && |Cell(out.rows[i], "sex")| <= 1
  {
    FinishMeaning(x, keys);
    var out := Finish(x, keys).value.table;
    forall i | 0 <= i < |out.rows|
      ensures 'A' !in Cell(out.rows[i], "age") && |Cell(out.rows[i], "sex")| <= 1
    {
      assert out.rows[i] in out.rows;
      var j :| 0 <= j < |x.rows| && out.rows[i] == ProjectRow(x.rows[j], keys);
    }
  }

  /** The correction pass stops the run exactly when the catalog names a
      column the accumulated table lacks; otherwise it keeps every row. */
  lemma CorrectionsNeedColumns(s: Settings, dfT: Table)
    requires ValidCorrections(s.corrections)
    ensures Corrected(dfT, s.corrections, false).Ok? <==>
      forall lab, col :: lab in s.corrections.keys && col in s.corrections.m[lab].keys ==> col in dfT.cols
  {
    assert forall lab :: lab in s.corrections.keys ==> lab in s.corrections.m;
    FixLabsOk(dfT, s.corrections, s.corrections.keys, false);
  }

  /** The whole run over the lab's files, from the cache (or an empty
      table) to the written output. */
  function Reformatted(s: Settings, cache: Table, files: seq<Table>,
                       parseDate: string -> Option<string>, epiweekOf: string -> string): (r: Result<Output>)
    requires ValidCorrections(s.corrections)
    ensures r.Ok? ==> r.value.table.cols == KeyCols && r.value.duplicates.cols == KeyCols
    ensures r.Ok? ==> SortedByKey(r.value.table.rows)
  {
    var dfT :- Pipeline.Fold(cache, files, StepOf(s));
    Finalized(s, dfT, parseDate, epiweekOf)
  }

  // ---- the loops ----

  /** VIRUSMOL: `for res in test_results` with the `positive` flag. */
  method ScanResults(rs: seq<string>) returns (call: string)
    ensures call == ScanCall("NA", false, rs)
  {
    call := "NA";
    var positive := false;
    var k := 0;
    while k < |rs|
      invariant 0 <= k <= |rs|
      invariant ScanCall(call, positive, rs[k..]) == ScanCall("NA", false, rs)
    {
      assert rs[k..][1..] == rs[k + 1..];
      if !positive {
        if rs[k] in Positives {
          call := "Pos";
          positive := true;
        } else {
          call := "Neg";
        }
      }
      k := k + 1;
    }
  }

  /** `for pathogen, dfG in dfR.groupby('pathogen')` */
  method ResolveGroups(d: Record, rows: seq<Row>, rule: Rule) returns (r: Record)
    ensures r == GroupCalls(d, rows, PathogenKeys(rows), rule)
  {
    var ks := PathogenKeys(rows);
    r := d;
    var k := 0;
    while k < |ks|
      invariant 0 <= k <= |ks|
      invariant GroupCalls(r, rows, ks[k..], rule) == GroupCalls(d, rows, ks, rule)
    {
      assert ks[k..][1..] == ks[k + 1..];
      var rs := Column(Table([], GroupRows(rows, "pathogen", ks[k])), "RESULTADO");
      if rs != [] {
        var call;
        if rule == FirstResult {
          call := Call(rs[0]);
        } else {
          call := ScanResults(rs);
        }
        r := Put(r, ResultCol(ks[k]), call);
      }
      k := k + 1;
    }
  }

  /** `for col in unique_cols: data[col] = dfR[col].tolist()[0]` */
  method SeedRecord(d: Record, cols: seq<string>, first: Row) returns (r: Record)
    ensures r == Seed(d, cols, first)
  {
    r := d;
    var k := 0;
    while k < |cols|
      invariant 0 <= k <= |cols|
      invariant Seed(r, cols[k..], first) == Seed(d, cols, first)
    {
      assert cols[k..][1..] == cols[k + 1..];
      r := Put(r, cols[k], Cell(first, cols[k]));
      k := k + 1;
    }
  }

  /** A single test's record. */
  method BuildSingle(t: Table, kit: string, pathogenOf: string -> Option<string>) returns (r: Result<Record>)
    requires |t.cols| >= 1
    ensures r == SingleRecord(t, kit, pathogenOf)
  {
    var t2 := Tagged(t, kit, pathogenOf);
    if t2.Err? {
      return Err(t2.error);
    }
    var first := First(t2.value.rows);
    var d := Put(PutAll(NoData, ResultOrder, "NA"), ResultCol(Cell(first, "pathogen")), Call(Cell(first, "RESULTADO")));
    var rec := SeedRecord(d, t2.value.cols, first);
    r := Ok(rec);
  }

  /** A multi-target panel's record. */
  method BuildPanel(t: Table, kit: string, rule: Rule, pathogenOf: string -> Option<string>) returns (r: Result<Record>)
    requires |t.cols| >= 1
    ensures r == PanelRecord(t, kit, rule, pathogenOf)
  {
    var t2 := Tagged(t, kit, pathogenOf);
    if t2.Err? {
      return Err(t2.error);
    }
    var d := ResolveGroups(PutAll(NoData, ResultOrder, "NA"), t2.value.rows, rule);
    var rec := SeedRecord(d, t2.value.cols, First(t2.value.rows));
    r := Ok(rec);
  }

  /** The AGINFLU record. */
  method BuildFluAntigen(t: Table) returns (r: Result<Record>)
    requires |t.cols| >= 1
    ensures r == FluAntigenRecord(t)
  {
    var t2 := FluAntigenTable(t);
    if t2.Err? {
      return Err(t2.error);
    }
    var d := ResolveGroups(PutAll(NoData, ResultOrder, "NA"), t2.value.rows, FirstResult);
    var rec := SeedRecord(d, t2.value.cols, First(t2.value.rows));
    r := Ok(rec);
  }

  /** The body of the request loop. */
  method BuildRecord(cols: seq<string>, g: seq<Row>, pathogenOf: string -> Option<string>)
    returns (r: Result<Record>)
    ensures r == RequestRecord(cols, g, pathogenOf)
  {
    if "EXAME" !in cols {
      return Err(KeyError("EXAME"));
    }
    var t := Table(cols, g);
    match ExamOf(Cell(First(g), "EXAME"))
    case Single(kit) =>
      r := BuildSingle(t, kit, pathogenOf);
    case FluAntigen =>
      r := BuildFluAntigen(t);
    case FourTargets =>
      r := BuildPanel(t, "test_4", FirstResult, pathogenOf);
    case Virusmol =>
      r := BuildPanel(t, "test_21", AnyPositive, pathogenOf);
    case _ =>
      var rec := SeedRecord(PutAll(NoData, ResultOrder, "NA"), cols, First(g));
      r := Ok(rec);
  }

  /** `for i, (code, dfR) in enumerate(dfL.groupby('CODIGO REQUISICAO'))`,
      appending one record per request. */
  method Requests(l: Table, pathogenOf: string -> Option<string>) returns (r: Result<Table>)
    ensures r == RequestsTable(l, pathogenOf)
  {
    var ks := RequestKeys(l.rows, Code);
    var record := RecordOf(l.cols, pathogenOf);
    r := Ok(Empty);
    var i := 0;
    while i < |ks|
      invariant 0 <= i <= |ks|
      invariant r == PerRequest(l.rows, Code, ks[..i], record)
    {
      PerRequestStep(l.rows, Code, ks, i, record);
      if r.Ok? {
        var g := Request(l.rows, Code, ks[i]);
        var d := BuildRecord(l.cols, g, pathogenOf);
        assert d == record(g);
        if d.Ok? {
          r := Ok(AppendRecord(r.value, d.value));
        } else {
          r := Err(d.error);
        }
      }
      i := i + 1;
    }
    assert ks[..i] == ks;
  }

  /** fix_datatable with its request loop. */
  method FixTable(s: Settings, dfT: Table, t: Table) returns (r: Result<Table>)
    ensures r == FixDatatable(s, dfT, t)
  {
    var l := Prepared(t);
    if l.Err? {
      return Err(l.error);
    }
    var kept := Dedup(l.value, Empty, dfT, DedupSettingOf(s), s.sha1);
    if kept.Err? {
      return Err(kept.error);
    }
    if IsEmpty(kept.value.0) {
      return Ok(kept.value.1);
    }
    r := Requests(kept.value.0, TargetPathogen);
  }

  /** The file loop: `for filename in sorted(os.listdir(...))`, appending
      each file's frame to the accumulator. */
  method Run(acc: Pipeline.Accumulator, s: Settings, files: seq<Table>) returns (r: Result<Table>)
    modifies acc
    ensures r == Pipeline.Fold(old(acc.dfT), files, StepOf(s))
    ensures r.Ok? ==> acc.dfT == r.value
  {
    var i := 0;
    while i < |files|
      invariant 0 <= i <= |files|
      invariant Pipeline.Fold(old(acc.dfT), files, StepOf(s)) == Pipeline.Fold(acc.dfT, files[i..], StepOf(s))
    {
      assert files[i..][1..] == files[i + 1..];
      var df := FixTable(s, acc.dfT, files[i]);
      if df.Err? {
        return Err(df.error);
      }
      if !IsEmpty(df.value) {
        var f := LabFrame(s, df.value);
        if f.Err? {
          return Err(f.error);
        }
        acc.Append(f.value);
      }
      i := i + 1;
    }
    assert files[i..] == [];
    r := Ok(acc.dfT);
  }

  /** The script, with the correction of the Findings: the catalogs, the
      cache, the file loop, the correction pass and the output. */
  method Reformat(cache: Option<Table>, correctionRows: seq<CorrectionRow>, allIds: seq<string>,
                  renameRows: seq<Catalog.RenameRow>, files: seq<Table>, sha1: string -> Digest,
                  parseDate: string -> Option<string>, epiweekOf: string -> string)
    returns (r: Result<Output>)
    requires EnumeratesIds(allIds, Selected(correctionRows, None))
    ensures r == Reformatted(Settings(cache.Some?, RenamesOf(renameRows),
                                      CorrectionsOf(Selected(correctionRows, None), allIds), sha1, true),
                             if cache.Some? then cache.value else Empty, files, parseDate, epiweekOf)
  {
    var corrections := BuildCorrections(correctionRows, None, allIds);
    var renames := BuildRenames(renameRows);
    var s := Settings(cache.Some?, renames, corrections, sha1, true);
    var acc := new Pipeline.Accumulator(if cache.Some? then cache.value else Empty);
    var dfT :- Run(acc, s, files);
    r := Finalize(s, dfT, parseDate, epiweekOf);
  }

  /** After the loop: the correction pass, the dates, the age and sex
      fixes, and the output. */
  method Finalize(s: Settings, dfT: Table, parseDate: string -> Option<string>, epiweekOf: string -> string)
    returns (r: Result<Output>)
    requires ValidCorrections(s.corrections)
    ensures r == Finalized(s, dfT, parseDate, epiweekOf)
  {
    var c :- ApplyCorrections(dfT, s.corrections, false);
    var d :- Dates(c, parseDate, epiweekOf);
    var a :- MapColumn(d, "age", FixAge);
    var x :- FixSex(a);
    r := Finish(x, KeyCols);
  }
}
