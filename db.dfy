/** reformat_db.py: DB Molecular's three export layouts (the RESP4 viral
    panel, the Thermo Fisher S-gene assay and the Covid-19 PCR export),
    each reshaped to one record per request (NumeroPedido), and the loop
    that appends them to the accumulated table. */
module DbMolecular {
  import opened Wrappers
  import opened Text
  import opened Tables
  import opened Catalog
  import opened Records
  import opened Identity
  import opened Ct
  import opened Aggregate
  import Pipeline

  const LabId := "DB Molecular"

  const IdColumns := ["NumeroPedido", "ServicoSolicitante", "Cidade", "UF", "Sexo", "DataHoraLiberacaoClinica"]

  datatype Layout = PainelViral | ThermoFisher | Covid19 | Unknown

  /** The layout probes, tried in order. */
  function Classify(t: Table): (l: Layout)
    ensures l == PainelViral <==> ColumnHolds(t, "Codigo", "RESP4")
    ensures l == ThermoFisher <==>
      !ColumnHolds(t, "Codigo", "RESP4") && (ColumnHolds(t, "Parametro", "C") || ColumnHolds(t, "Parametro", "CT"))
    ensures l == Unknown ==> "ParametroLIS" !in t.cols
    ensures l != Unknown ==> |t.cols| >= 1
  {
    if ColumnHolds(t, "Codigo", "RESP4") then PainelViral
    else if ColumnHolds(t, "Parametro", "C") || ColumnHolds(t, "Parametro", "CT") then ThermoFisher
    else if "ParametroLIS" in t.cols then Covid19
    else Unknown
  }

  /** `dfR['pathogen'] = dfR[code].apply(lambda x: target_pathogen[x])`:
      every row gets its target's pathogen; an unknown target is a KeyError. */
  function TagPathogens(rows: seq<Row>, code: string, pathogenOf: string -> Option<string>)
    : (r: Result<seq<Row>>)
    ensures r.Ok? <==> forall i :: 0 <= i < |rows| ==> pathogenOf(Cell(rows[i], code)).Some?
    ensures r.Ok? ==> |r.value| == |rows|
    ensures r.Ok? ==> forall i :: 0 <= i < |rows| ==>
      r.value[i] == rows[i]["pathogen" := pathogenOf(Cell(rows[i], code)).value]
  {
    if rows == [] then Ok([])
    else
      var p := pathogenOf(Cell(rows[0], code));
      if p.None? then Err(KeyError(Cell(rows[0], code)))
      else
        var rest :- TagPathogens(rows[1..], code, pathogenOf);
        assert forall i :: 1 <= i < |rows| ==> rows[1..][i - 1] == rows[i];
        Ok([rows[0]["pathogen" := p.value]] + rest)
  }

  /** The rows' values in column c, in order. */
  function Values(rows: seq<Row>, c: string): (vs: seq<string>)
    ensures |vs| == |rows| && forall i :: 0 <= i < |rows| ==> vs[i] == Cell(rows[i], c)
  {
    Column(Table([], rows), c)
  }

  // ---------------------------------------------------------------------
  // Painel viral (Codigo RESP4)
  // ---------------------------------------------------------------------

  const PainelControls := ["ZZFLUA", "ZZFLUB", "ZZRSV", "ZZSARS"]

  /** target_pathogen */
  function PainelPathogen(code: string): Option<string> {
    if code in ["NGRV", "SGRV", "RDRPGRV", "EGENERV", "NGENERV"] then Some("SC2")
    else if code == "FLUARV" then Some("FLUA")
    else if code == "FLUBRV" then Some("FLUB")
    else if code == "RSVRV" then Some("VSR")
    else None
  }

  /** The targets with a Ct threshold (all 40.0). */
  const Genes := ["FLUARV", "FLUBRV", "RSVRV", "NGRV", "SGRV", "RDRPGRV", "EGENERV"]

  lemma GenesShort(g: string)
    requires g in Genes
    ensures |g| <= 7
  {
  }

  /** 40.0, in hundredths. */
  const CtLimit := 4000

  /** The call one target's Ct gives: NA without a Ct, Pos below 40, Neg from 40 on. */
  function Verdict(ct: string): string {
    if ct == "" then "NA"
    else match Rescale(ct)
      case Ok(h) => if h < CtLimit then "Pos" else "Neg"
      case Err(_) => "NA"
  }

  /** What data[gene] holds for a target: the rescaled Ct, or "" without one. */
  function CtText(ct: string): string {
    if ct == "" then ""
    else match Rescale(ct)
      case Ok(h) => FormatHundredths(h)
      case Err(_) => ""
  }

  /** The call a processed target leaves. As written (sticky false) it is
      the target's own verdict: the `!= 'DETECTADO'` guards compare with a
      value the script never stores. With sticky, a Pos already recorded
      stays, which is what the guards are there for. */
  function Settle(d: Record, call: string, verdict: string, sticky: bool): string {
    if sticky && call in d.m && d.m[call] == "Pos" then "Pos" else verdict
  }

  /** A target row the loop acts on: a gene with a threshold that `data`
      does not hold yet (only its first row counts). */
  predicate Processes(d: Record, row: Row) {
    Cell(row, "Parametro") in Genes && Cell(row, "Parametro") !in d.m
  }

  /** One pass of `for idx, row in dfG.iterrows()`. A repeated target only
      builds a report line, which reads Results_All (KeyError without it). */
  function PainelTarget(d: Record, row: Row, hasResults: bool, sticky: bool): (r: Result<Record>)
    ensures r.Ok? && ValidDict(d) ==> ValidDict(r.value)
    ensures r.Ok? ==> forall k :: k in d.m ==> k in r.value.m
  {
    var gene := Cell(row, "Parametro");
    var call := ResultCol(Cell(row, "pathogen"));
    if gene !in Genes then Ok(d)
    else if gene in d.m then (if hasResults then Ok(d) else Err(KeyError("Results_All")))
    else
      var ct := Cell(row, "ResultadoLIS");
      if ct != "" && Rescale(ct).Err? then Err(Rescale(ct).error)
      else Ok(Put(Put(d, gene, CtText(ct)), call, Settle(d, call, Verdict(ct), sticky)))
  }

  /** The targets of one request in the order the loop visits them. */
  function PainelFold(d: Record, rows: seq<Row>, hasResults: bool, sticky: bool): (r: Result<Record>)
    ensures r.Ok? && ValidDict(d) ==> ValidDict(r.value)
    ensures r.Ok? ==> forall k :: k in d.m ==> k in r.value.m
    decreases |rows|
  {
    if rows == [] then Ok(d)
    else
      var e :- PainelFold(d, rows[..|rows| - 1], hasResults, sticky);
      PainelTarget(e, rows[|rows| - 1], hasResults, sticky)
  }

  /** What one target does to the record: nothing unless it is processed;
      then it writes the gene's Ct text and the pathogen's call. */
  lemma TargetEffect(d: Record, row: Row, hasResults: bool, sticky: bool)
    requires PainelTarget(d, row, hasResults, sticky).Ok?
    ensures !Processes(d, row) ==> PainelTarget(d, row, hasResults, sticky).value == d
    ensures Processes(d, row) ==>
      var call := ResultCol(Cell(row, "pathogen"));
      PainelTarget(d, row, hasResults, sticky).value.m ==
        d.m[Cell(row, "Parametro") := CtText(Cell(row, "ResultadoLIS"))]
           [call := Settle(d, call, Verdict(Cell(row, "ResultadoLIS")), sticky)]
  {
  }

  /** A processed target only writes its gene and its pathogen's call. */
  lemma TargetKeepsOtherCall(d: Record, row: Row, hasResults: bool, sticky: bool, v: string)
    requires PainelTarget(d, row, hasResults, sticky).Ok?
    requires ResultCol(v) in d.m
    requires !Processes(d, row) || Cell(row, "pathogen") != v
    ensures PainelTarget(d, row, hasResults, sticky).value.m[ResultCol(v)] == d.m[ResultCol(v)]
  {
    TargetEffect(d, row, hasResults, sticky);
    if Processes(d, row) {
      GenesShort(Cell(row, "Parametro"));
      if ResultCol(Cell(row, "pathogen")) == ResultCol(v) { ResultColInjective(Cell(row, "pathogen"), v); }
    }
  }

  /** Row k is the first row of its target in the visit order. */
  predicate FirstOfGene(rows: seq<Row>, k: nat)
    requires k < |rows|
  {
    forall j :: 0 <= j < k ==> Cell(rows[j], "Parametro") != Cell(rows[k], "Parametro")
  }

  /** The rows the loop acts on, said without running it: a gene with a
      threshold, not among the record's columns, seen for the first time. */
  predicate Processed(d: Record, rows: seq<Row>, k: nat)
    requires k < |rows|
  {
    Cell(rows[k], "Parametro") in Genes && Cell(rows[k], "Parametro") !in d.m && FirstOfGene(rows, k)
  }

  /** One target adds its own gene to the record and no other. */
  lemma TargetGenes(d: Record, row: Row, hasResults: bool, sticky: bool, g: string)
    requires g in Genes && PainelTarget(d, row, hasResults, sticky).Ok?
    ensures g in PainelTarget(d, row, hasResults, sticky).value.m <==> g in d.m || Cell(row, "Parametro") == g
  {
    TargetEffect(d, row, hasResults, sticky);
    GenesShort(g);
  }

  /** The genes the record holds after the loop: those it held, and those of the rows visited. */
  lemma {:induction false} FoldGenes(d: Record, rows: seq<Row>, hasResults: bool, sticky: bool, g: string)
    requires g in Genes
    requires PainelFold(d, rows, hasResults, sticky).Ok?
    ensures g in PainelFold(d, rows, hasResults, sticky).value.m <==>
      g in d.m || exists j :: 0 <= j < |rows| && Cell(rows[j], "Parametro") == g
    decreases |rows|
  {
    if rows != [] {
      var n := |rows|;
      var init := rows[..n - 1];
      FoldGenes(d, init, hasResults, sticky, g);
      var e := PainelFold(d, init, hasResults, sticky).value;
      assert PainelFold(d, rows, hasResults, sticky) == PainelTarget(e, rows[n - 1], hasResults, sticky);
      TargetGenes(e, rows[n - 1], hasResults, sticky, g);
      if exists j :: 0 <= j < n && Cell(rows[j], "Parametro") == g {
        var j :| 0 <= j < n && Cell(rows[j], "Parametro") == g;
        if j < n - 1 { assert init[j] == rows[j]; }
      }
      if exists j :: 0 <= j < n - 1 && Cell(init[j], "Parametro") == g {
        var j :| 0 <= j < n - 1 && Cell(init[j], "Parametro") == g;
        assert rows[j] == init[j];
      }
    }
  }

  /** The loop acts on row k exactly when it is Processed. */
  lemma ProcessesIff(d: Record, rows: seq<Row>, hasResults: bool, sticky: bool, k: nat)
    requires k < |rows|
    requires PainelFold(d, rows[..k], hasResults, sticky).Ok?
    ensures Processes(PainelFold(d, rows[..k], hasResults, sticky).value, rows[k]) <==> Processed(d, rows, k)
  {
    var g := Cell(rows[k], "Parametro");
    if g in Genes {
      FoldGenes(d, rows[..k], hasResults, sticky, g);
      if exists j :: 0 <= j < k && Cell(rows[j], "Parametro") == g {
        var j :| 0 <= j < k && Cell(rows[j], "Parametro") == g;
        assert rows[..k][j] == rows[j];
      }
      if exists j :: 0 <= j < |rows[..k]| && Cell(rows[..k][j], "Parametro") == g {
        var j :| 0 <= j < |rows[..k]| && Cell(rows[..k][j], "Parametro") == g;
        assert rows[..k][j] == rows[j];
      }
    }
  }

  lemma PrefixProcessed(d: Record, rows: seq<Row>, m: nat, k: nat)
    requires k < m <= |rows|
    ensures Processed(d, rows[..m], k) <==> Processed(d, rows, k)
  {
    assert rows[..m][k] == rows[k];
    assert forall j :: 0 <= j < k ==> rows[..m][j] == rows[j];
  }

  /** As written, a pathogen's call is the verdict of its last processed
      target: a later target without a Ct turns an earlier Pos into NA. */
  lemma {:induction false} LastTargetDecides(d: Record, rows: seq<Row>, hasResults: bool, k: nat, v: string)
    requires ResultCol(v) in d.m
    requires PainelFold(d, rows, hasResults, false).Ok?
    requires k < |rows| && Cell(rows[k], "pathogen") == v && Processed(d, rows, k)
    requires forall j :: k < j < |rows| && Cell(rows[j], "pathogen") == v ==> !Processed(d, rows, j)
    ensures PainelFold(d, rows, hasResults, false).value.m[ResultCol(v)] == Verdict(Cell(rows[k], "ResultadoLIS"))
    decreases |rows|
  {
    var n := |rows|;
    var init := rows[..n - 1];
    var e := PainelFold(d, init, hasResults, false).value;
    assert PainelFold(d, rows, hasResults, false) == PainelTarget(e, rows[n - 1], hasResults, false);
    if k == n - 1 {
      ProcessesIff(d, rows, hasResults, false, k);
      GenesShort(Cell(rows[k], "Parametro"));
    } else {
      forall j | k < j < |init| && Cell(init[j], "pathogen") == v ensures !Processed(d, init, j) {
        PrefixProcessed(d, rows, n - 1, j);
      }
      PrefixProcessed(d, rows, n - 1, k);
      LastTargetDecides(d, init, hasResults, k, v);
      ProcessesIff(d, rows, hasResults, false, n - 1);
      TargetKeepsOtherCall(e, rows[n - 1], hasResults, false, v);
    }
  }

  /** One target under the sticky rule: the call is Pos after it exactly
      when it was before or the target is processed with a Ct below 40. */
  lemma StickyStep(d: Record, row: Row, hasResults: bool, v: string)
    requires ResultCol(v) in d.m
    requires PainelTarget(d, row, hasResults, true).Ok?
    ensures PainelTarget(d, row, hasResults, true).value.m[ResultCol(v)] == "Pos" <==>
      d.m[ResultCol(v)] == "Pos" ||
      (Processes(d, row) && Cell(row, "pathogen") == v && Verdict(Cell(row, "ResultadoLIS")) == "Pos")
  {
    TargetEffect(d, row, hasResults, true);
    if Processes(d, row) {
      GenesShort(Cell(row, "Parametro"));
      if ResultCol(Cell(row, "pathogen")) == ResultCol(v) { ResultColInjective(Cell(row, "pathogen"), v); }
    }
  }

  /** Row k is a processed target of pathogen v with a Ct below 40. */
  predicate DetectsAt(d: Record, rows: seq<Row>, k: nat, v: string)
    requires k < |rows|
  {
    Cell(rows[k], "pathogen") == v && Processed(d, rows, k) && Verdict(Cell(rows[k], "ResultadoLIS")) == "Pos"
  }

  /** Under the sticky rule a Pos at the end comes from the start or from a detecting target. */
  lemma {:induction false} StickyPosSource(d: Record, rows: seq<Row>, hasResults: bool, v: string)
    requires ResultCol(v) in d.m
    requires PainelFold(d, rows, hasResults, true).Ok?
    requires PainelFold(d, rows, hasResults, true).value.m[ResultCol(v)] == "Pos"
    ensures d.m[ResultCol(v)] == "Pos" || exists k :: 0 <= k < |rows| && DetectsAt(d, rows, k, v)
    decreases |rows|
  {
    if rows != [] {
      var n := |rows|;
      var init := rows[..n - 1];
      var e := PainelFold(d, init, hasResults, true).value;
      var last := rows[n - 1];
      assert PainelFold(d, rows, hasResults, true) == PainelTarget(e, last, hasResults, true);
      StickyStep(e, last, hasResults, v);
      if e.m[ResultCol(v)] == "Pos" {
        StickyPosSource(d, init, hasResults, v);
        if d.m[ResultCol(v)] != "Pos" {
          var k :| 0 <= k < n - 1 && DetectsAt(d, init, k, v);
          PrefixProcessed(d, rows, n - 1, k);
          assert DetectsAt(d, rows, k, v);
        }
      } else {
        ProcessesIff(d, rows, hasResults, true, n - 1);
        assert DetectsAt(d, rows, n - 1, v);
      }
    }
  }

  /** Under the sticky rule a Pos at the start stays to the end. */
  lemma {:induction false} StickyKeepsPos(d: Record, rows: seq<Row>, hasResults: bool, v: string)
    requires ResultCol(v) in d.m && d.m[ResultCol(v)] == "Pos"
    requires PainelFold(d, rows, hasResults, true).Ok?
    ensures PainelFold(d, rows, hasResults, true).value.m[ResultCol(v)] == "Pos"
    decreases |rows|
  {
    if rows != [] {
      var n := |rows|;
      var init := rows[..n - 1];
      var e := PainelFold(d, init, hasResults, true).value;
      assert PainelFold(d, rows, hasResults, true) == PainelTarget(e, rows[n - 1], hasResults, true);
      StickyKeepsPos(d, init, hasResults, v);
      StickyStep(e, rows[n - 1], hasResults, v);
    }
  }

  /** Under the sticky rule one detecting target makes the call Pos. */
  lemma {:induction false} StickyDetects(d: Record, rows: seq<Row>, hasResults: bool, v: string, k: nat)
    requires ResultCol(v) in d.m
    requires PainelFold(d, rows, hasResults, true).Ok?
    requires k < |rows| && DetectsAt(d, rows, k, v)
    ensures PainelFold(d, rows, hasResults, true).value.m[ResultCol(v)] == "Pos"
    decreases |rows|, 1
  {
    if k == |rows| - 1 {
      DetectsLast(d, rows, hasResults, v);
    } else {
      DetectsBefore(d, rows, hasResults, v, k);
    }
  }

  /** A target detecting before the last row: the prefix is Pos and the last row keeps it. */
  lemma {:induction false} DetectsBefore(d: Record, rows: seq<Row>, hasResults: bool, v: string, k: nat)
    requires ResultCol(v) in d.m
    requires PainelFold(d, rows, hasResults, true).Ok?
    requires k < |rows| - 1 && DetectsAt(d, rows, k, v)
    ensures PainelFold(d, rows, hasResults, true).value.m[ResultCol(v)] == "Pos"
    decreases |rows|, 0
  {
    StickyPrefixOk(d, rows, hasResults);
    DetectsPrefix(d, rows, k, v);
    StickyDetects(d, rows[..|rows| - 1], hasResults, v, k);
    StickyLastKeeps(d, rows, hasResults, v);
  }

  lemma StickyPrefixOk(d: Record, rows: seq<Row>, hasResults: bool)
    requires rows != [] && PainelFold(d, rows, hasResults, true).Ok?
    ensures PainelFold(d, rows[..|rows| - 1], hasResults, true).Ok?
  {
  }

  /** Under the sticky rule the last row keeps a Pos the earlier rows left. */
  lemma StickyLastKeeps(d: Record, rows: seq<Row>, hasResults: bool, v: string)
    requires ResultCol(v) in d.m && rows != []
    requires PainelFold(d, rows, hasResults, true).Ok?
    requires PainelFold(d, rows[..|rows| - 1], hasResults, true).Ok?
    requires PainelFold(d, rows[..|rows| - 1], hasResults, true).value.m[ResultCol(v)] == "Pos"
    ensures PainelFold(d, rows, hasResults, true).value.m[ResultCol(v)] == "Pos"
  {
    var n := |rows|;
    var e := PainelFold(d, rows[..n - 1], hasResults, true).value;
    assert PainelFold(d, rows, hasResults, true) == PainelTarget(e, rows[n - 1], hasResults, true);
    StickyStep(e, rows[n - 1], hasResults, v);
  }

  /** A detecting target before the last row detects in the prefix too. */
  lemma DetectsPrefix(d: Record, rows: seq<Row>, k: nat, v: string)
    requires k < |rows| - 1 && DetectsAt(d, rows, k, v)
    ensures DetectsAt(d, rows[..|rows| - 1], k, v)
  {
    PrefixProcessed(d, rows, |rows| - 1, k);
    assert rows[..|rows| - 1][k] == rows[k];
  }

  lemma DetectsLast(d: Record, rows: seq<Row>, hasResults: bool, v: string)
    requires ResultCol(v) in d.m
    requires PainelFold(d, rows, hasResults, true).Ok?
    requires rows != [] && DetectsAt(d, rows, |rows| - 1, v)
    ensures PainelFold(d, rows, hasResults, true).value.m[ResultCol(v)] == "Pos"
  {
    var n := |rows|;
    var e := PainelFold(d, rows[..n - 1], hasResults, true).value;
    ProcessesIff(d, rows, hasResults, true, n - 1);
    assert Processes(e, rows[n - 1]);
    StickyStep(e, rows[n - 1], hasResults, v);
  }

  /** The intended multi-target rule: with the sticky guard, a pathogen is
      Pos at the end exactly when it started Pos or one of its processed
      targets has a Ct below 40. */
  lemma StickyPositive(d: Record, rows: seq<Row>, hasResults: bool, v: string)
    requires ResultCol(v) in d.m
    requires PainelFold(d, rows, hasResults, true).Ok?
    ensures PainelFold(d, rows, hasResults, true).value.m[ResultCol(v)] == "Pos" <==>
      d.m[ResultCol(v)] == "Pos" || exists k :: 0 <= k < |rows| && DetectsAt(d, rows, k, v)
  {
    if PainelFold(d, rows, hasResults, true).value.m[ResultCol(v)] == "Pos" {
      StickyPosSource(d, rows, hasResults, v);
    } else if d.m[ResultCol(v)] == "Pos" {
      StickyKeepsPos(d, rows, hasResults, v);
    } else if exists k :: 0 <= k < |rows| && DetectsAt(d, rows, k, v) {
      var k :| 0 <= k < |rows| && DetectsAt(d, rows, k, v);
      StickyDetects(d, rows, hasResults, v, k);
    }
  }

  /** The loop only fails on a Ct float() refuses, or on a repeated target
      when there is no Results_All column. */
  lemma {:induction false} FoldOk(d: Record, rows: seq<Row>, sticky: bool)
    requires forall i :: 0 <= i < |rows| ==>
      Cell(rows[i], "ResultadoLIS") == "" || Rescale(Cell(rows[i], "ResultadoLIS")).Ok?
    ensures PainelFold(d, rows, true, sticky).Ok?
    decreases |rows|
  {
    if rows != [] {
      FoldOk(d, rows[..|rows| - 1], sticky);
    }
  }

  /** An N target with Ct ct followed by an S target without a Ct. */
  function NThenBlankS(ct: string): seq<Row> {
    [map["Parametro" := "NGRV", "pathogen" := "SC2", "ResultadoLIS" := ct],
     map["Parametro" := "SGRV", "pathogen" := "SC2", "ResultadoLIS" := ""]]
  }

  /** The case the guard misses: for any record holding an SC2 call and
      neither target yet (as every request's record does), an N target
      with a Ct below 40 followed by an S target without a Ct leaves SC2
      at NA as written, while the sticky rule keeps it Pos. */
  lemma SecondTargetLosesPositive(d: Record, ct: string)
    requires "SC2_test_result" in d.m && "NGRV" !in d.m && "SGRV" !in d.m
    requires Verdict(ct) == "Pos"
    ensures PainelFold(d, NThenBlankS(ct), true, false).Ok?
    ensures PainelFold(d, NThenBlankS(ct), true, false).value.m["SC2_test_result"] == "NA"
    ensures PainelFold(d, NThenBlankS(ct), true, true).Ok?
    ensures PainelFold(d, NThenBlankS(ct), true, true).value.m["SC2_test_result"] == "Pos"
  {
    var rows := NThenBlankS(ct);
    assert Cell(rows[0], "ResultadoLIS") == ct;
    assert Cell(rows[1], "ResultadoLIS") == "";
    assert ResultCol("SC2") == "SC2_test_result";
    FoldOk(d, rows, false);
    FoldOk(d, rows, true);
    assert Processed(d, rows, 0) && Processed(d, rows, 1);
    LastTargetDecides(d, rows, true, 1, "SC2");
    assert DetectsAt(d, rows, 0, "SC2");
    StickyDetects(d, rows, true, "SC2", 0);
  }

  /** Ct 25.0, as the export writes it, is such a Ct. */
  lemma Ct25Detects()
    ensures Verdict(FormatHundredths(2500)) == "Pos"
  {
    RescaleFormatted(2500);
  }

  /** A pathogen with no target row among those visited keeps the call it
      started with. */
  lemma {:induction false} NoTargetKeepsCall(d: Record, rows: seq<Row>, hasResults: bool, sticky: bool, v: string)
    requires ResultCol(v) in d.m
    requires PainelFold(d, rows, hasResults, sticky).Ok?
    requires forall j :: 0 <= j < |rows| ==> Cell(rows[j], "pathogen") != v
    ensures PainelFold(d, rows, hasResults, sticky).value.m[ResultCol(v)] == d.m[ResultCol(v)]
    decreases |rows|
  {
    if rows != [] {
      var n := |rows|;
      var init := rows[..n - 1];
      var e := PainelFold(d, init, hasResults, sticky).value;
      assert PainelFold(d, rows, hasResults, sticky) == PainelTarget(e, rows[n - 1], hasResults, sticky);
      assert forall j :: 0 <= j < n - 1 ==> init[j] == rows[j];
      NoTargetKeepsCall(d, init, hasResults, sticky, v);
      TargetKeepsOtherCall(e, rows[n - 1], hasResults, sticky, v);
    }
  }

  // ---- the record of one request ----

  /** `dfR['Parametro'].str.replace('NGENERV', 'NGRV')` */
  function RenameTargets(rows: seq<Row>): (r: seq<Row>)
    ensures |r| == |rows|
    ensures forall i :: 0 <= i < |rows| ==>
      r[i] == rows[i]["Parametro" := ReplaceAll(Cell(rows[i], "Parametro"), "NGENERV", "NGRV")]
  {
    seq(|rows|, i requires 0 <= i < |rows| =>
      rows[i]["Parametro" := ReplaceAll(Cell(rows[i], "Parametro"), "NGENERV", "NGRV")])
  }

  const KitProbes := ["FLUARV", "FLUBRV", "RSVRV"]

  /** `for p in params: data['test_kit'] = 'test_4' if p in targets else 'covid'` */
  function KitLoop(d: Record, targets: seq<string>, probes: seq<string>): (r: Record)
    ensures ValidDict(d) ==> ValidDict(r)
    ensures forall k :: k in d.m ==> k in r.m
    decreases |probes|
  {
    if probes == [] then d
    else KitLoop(Put(d, "test_kit", if probes[0] in targets then "test_4" else "covid"), targets, probes[1..])
  }

  /** Every probe overwrites the kit, so the last probe alone decides it;
      no other key changes. */
  lemma {:induction false} KitLoopLast(d: Record, targets: seq<string>, probes: seq<string>)
    requires probes != []
    ensures KitLoop(d, targets, probes).m ==
      d.m["test_kit" := if probes[|probes| - 1] in targets then "test_4" else "covid"]
    decreases |probes|
  {
    if |probes| > 1 {
      var d' := Put(d, "test_kit", if probes[0] in targets then "test_4" else "covid");
      KitLoopLast(d', targets, probes[1..]);
    }
  }

  /** The request's kit is test_4 exactly when it has an RSVRV target. */
  lemma TestKit(d: Record, targets: seq<string>)
    ensures KitLoop(d, targets, KitProbes).m["test_kit"] == if "RSVRV" in targets then "test_4" else "covid"
    ensures forall k :: k != "test_kit" ==>
      (k in KitLoop(d, targets, KitProbes).m <==> k in d.m) &&
      (k in d.m ==> KitLoop(d, targets, KitProbes).m[k] == d.m[k])
  {
    KitLoopLast(d, targets, KitProbes);
  }

  /** The pathogens a panel target can carry, in the sorted order in which
      `groupby('pathogen')` visits the ones present. */
  const PainelGroups := ["FLUA", "FLUB", "SC2", "VSR"]

  /** The rows of the loop: each tagged with its pathogen, visited pathogen
      by pathogen, each pathogen's rows in their order. */
  function PainelVisits(g: seq<Row>): Result<seq<Row>> {
    var tagged :- TagPathogens(RenameTargets(g), "Parametro", PainelPathogen);
    Ok(Groups(tagged, "pathogen", PainelGroups))
  }

  /** The record before the target loop: the first row's cells, every
      call 'Not tested', and the kit. */
  function PainelStart(cols: seq<string>, g: seq<Row>): Record
  {
    var d := PutAll(Seed(NoData, cols, First(g)), ResultCols, "Not tested");
    KitLoop(d, Values(RenameTargets(g), "Parametro"), KitProbes)
  }

  /** The record of one request of the panel. */
  function PainelRecord(cols: seq<string>, g: seq<Row>, hasResults: bool, sticky: bool): (r: Result<Record>)
    ensures PainelVisits(g).Ok? && "ResultadoLIS" !in cols ==> r == Err(KeyError("ResultadoLIS"))
    ensures r.Ok? ==> PainelVisits(g).Ok? && "ResultadoLIS" in cols && ValidDict(r.value)
    ensures r.Ok? ==> forall c :: c in cols || c in ResultCols ==> c in r.value.m
  {
    NoDataValid();
    var rows :- PainelVisits(g);
    if "ResultadoLIS" !in cols then Err(KeyError("ResultadoLIS"))
    else PainelFold(PainelStart(cols, g), rows, hasResults, sticky)
  }

  lemma ResultColsOfPathogens(v: string)
    requires v in Pathogens
    ensures ResultCol(v) in ResultCols
  {
    var i :| 0 <= i < |Pathogens| && Pathogens[i] == v;
    assert ResultCols[i] == ResultCol(Pathogens[i]);
  }

  /** Before the loop every call is 'Not tested'. */
  lemma PainelStartCall(cols: seq<string>, g: seq<Row>, v: string)
    requires v in Pathogens
    ensures ResultCol(v) in PainelStart(cols, g).m
    ensures PainelStart(cols, g).m[ResultCol(v)] == "Not tested"
  {
    ResultColsOfPathogens(v);
    TestKit(PutAll(Seed(NoData, cols, First(g)), ResultCols, "Not tested"), Values(RenameTargets(g), "Parametro"));
    assert ResultCol(v) != "test_kit";
  }

  /** None of the request's targets (after the NGENERV rename) belongs to
      pathogen v. */
  predicate NoTargetOf(g: seq<Row>, v: string) {
    forall x :: x in g ==>
      PainelPathogen(ReplaceAll(Cell(x, "Parametro"), "NGENERV", "NGRV")) != Some(v)
  }

  /** The visited rows carry the pathogens of the request's targets. */
  lemma VisitsAvoid(g: seq<Row>, v: string)
    requires PainelVisits(g).Ok?
    requires NoTargetOf(g, v)
    ensures forall j :: 0 <= j < |PainelVisits(g).value| ==> Cell(PainelVisits(g).value[j], "pathogen") != v
  {
    var renamed := RenameTargets(g);
    var tagged := TagPathogens(renamed, "Parametro", PainelPathogen).value;
    var rows := PainelVisits(g).value;
    forall j | 0 <= j < |rows| ensures Cell(rows[j], "pathogen") != v {
      assert rows[j] in tagged;
      var i :| 0 <= i < |tagged| && tagged[i] == rows[j];
      assert g[i] in g;
    }
  }

  /** A pathogen none of whose targets the request has stays 'Not tested'. */
  lemma PainelNotTested(cols: seq<string>, g: seq<Row>, hasResults: bool, sticky: bool, v: string)
    requires v in Pathogens
    requires PainelRecord(cols, g, hasResults, sticky).Ok?
    requires NoTargetOf(g, v)
    ensures ResultCol(v) in PainelRecord(cols, g, hasResults, sticky).value.m
    ensures PainelRecord(cols, g, hasResults, sticky).value.m[ResultCol(v)] == "Not tested"
  {
    var rows := PainelVisits(g).value;
    var d := PainelStart(cols, g);
    assert PainelRecord(cols, g, hasResults, sticky) == PainelFold(d, rows, hasResults, sticky);
    PainelStartCall(cols, g, v);
    VisitsAvoid(g, v);
    NoTargetKeepsCall(d, rows, hasResults, sticky, v);
  }

  function PainelRecordOf(cols: seq<string>, hasResults: bool, sticky: bool): seq<Row> -> Result<Record> {
    g => PainelRecord(cols, g, hasResults, sticky)
  }

  /** `~dfL[c].isin(controls)` */
  function NotControl(c: string, controls: seq<string>): Row -> bool {
    r => Cell(r, c) !in controls
  }

  /** The panel's frame: controls dropped (a table without Parametro is a
      KeyError), then one record per request. */
  function PainelTable(l: Table, sticky: bool): (r: Result<Table>)
    ensures r.Ok? ==>
      |r.value.rows| == |RequestKeys(Keep(l.rows, NotControl("Parametro", PainelControls)), "NumeroPedido")|
  {
    if "Parametro" !in l.cols then Err(KeyError("Parametro"))
    else
      var kept := Keep(l.rows, NotControl("Parametro", PainelControls));
      PerRequest(kept, "NumeroPedido", RequestKeys(kept, "NumeroPedido"),
                 PainelRecordOf(l.cols, "Results_All" in l.cols, sticky))
  }

  // ---- the panel's loops ----

  /** `for idx, row in dfG.iterrows()` across the pathogen groups. */
  method PainelTargets(d: Record, rows: seq<Row>, hasResults: bool, sticky: bool) returns (r: Result<Record>)
    ensures r == PainelFold(d, rows, hasResults, sticky)
  {
    r := Ok(d);
    var i := 0;
    while i < |rows|
      invariant 0 <= i <= |rows|
      invariant r == PainelFold(d, rows[..i], hasResults, sticky)
    {
      assert rows[..i + 1][..i] == rows[..i];
      if r.Ok? {
        r := PainelTarget(r.value, rows[i], hasResults, sticky);
      }
      i := i + 1;
    }
    assert rows[..i] == rows;
  }

  /** The body of the request loop. */
  method BuildPainelRecord(cols: seq<string>, g: seq<Row>, hasResults: bool, sticky: bool)
    returns (r: Result<Record>)
    ensures r == PainelRecord(cols, g, hasResults, sticky)
  {
    var rows := PainelVisits(g);
    if rows.Err? {
      return Err(rows.error);
    }
    if "ResultadoLIS" !in cols {
      return Err(KeyError("ResultadoLIS"));
    }
    r := PainelTargets(PainelStart(cols, g), rows.value, hasResults, sticky);
  }

  /** `for i, (code, dfR) in enumerate(dfL.groupby('NumeroPedido'))`,
      appending one record per request. */
  method PainelRequests(rows: seq<Row>, cols: seq<string>, hasResults: bool, sticky: bool)
    returns (r: Result<Table>)
    ensures r == PerRequest(rows, "NumeroPedido", RequestKeys(rows, "NumeroPedido"),
                            PainelRecordOf(cols, hasResults, sticky))
  {
    var ks := RequestKeys(rows, "NumeroPedido");
    var record := PainelRecordOf(cols, hasResults, sticky);
    r := Ok(Empty);
    var i := 0;
    while i < |ks|
      invariant 0 <= i <= |ks|
      invariant r == PerRequest(rows, "NumeroPedido", ks[..i], record)
    {
      PerRequestStep(rows, "NumeroPedido", ks, i, record);
      if r.Ok? {
        var g := Request(rows, "NumeroPedido", ks[i]);
        var d := BuildPainelRecord(cols, g, hasResults, sticky);
        assert d == record(g);
        if d.Ok? {
          r := Ok(AppendRecord(r.value, d.value));
        } else {
          r := Err(d.error);
        }
      }
      i := i + 1;
    }
    assert ks[..i] == ks;
  }

  // ---------------------------------------------------------------------
  // Thermo Fisher (Parametro holds C or CT)
  // ---------------------------------------------------------------------

  /** The targets whose Ct the Thermo Fisher export reports. */
  const ThermoGenes := ["NGENE", "SGENE", "ORF1AB"]

  /** `len(set(dfG[col].tolist())) == 1`: the request has one value in c. */
  predicate Uniform(g: seq<Row>, c: string) {
    |g| > 0 && forall i :: 0 <= i < |g| ==> Cell(g[i], c) == Cell(g[0], c)
  }

  /** unique_cols: the columns, in order, that hold one value across the request. */
  function UniformCols(cols: seq<string>, g: seq<Row>): seq<string> {
    if cols == [] then []
    else (if Uniform(g, cols[0]) then [cols[0]] else []) + UniformCols(cols[1..], g)
  }

  /** unique_cols keeps exactly the columns with one value in the request. */
  lemma {:induction false} UniformColsMeaning(cols: seq<string>, g: seq<Row>)
    ensures forall c :: c in UniformCols(cols, g) <==> c in cols && Uniform(g, c)
  {
    if cols != [] {
      UniformColsMeaning(cols[1..], g);
    }
  }

  /** The row appended for a request that reports no S gene but some
      'detectado' result: an S-gene target with Ct 0.0. */
  const SGeneMarker: Row := map["ResultadoLIS" := "0.0", "Exame" := "SGENE", "Resultado" := "Detectado"]

  /** Whether the marker row is appended. Resultado is read only when no
      S-gene row is present (KeyError without the column). */
  function NeedsMarker(cols: seq<string>, g: seq<Row>): (r: Result<bool>)
    ensures r.Ok? && r.value <==>
      "SGENE" !in Values(g, "Exame") && "Resultado" in cols &&
      exists i :: 0 <= i < |g| && Lower(Cell(g[i], "Resultado")) == "detectado"
    ensures r.Err? <==> "SGENE" !in Values(g, "Exame") && "Resultado" !in cols
  {
    if "SGENE" in Values(g, "Exame") then Ok(false)
    else if "Resultado" !in cols then Err(KeyError("Resultado"))
    else Ok(exists i :: 0 <= i < |g| && Lower(Cell(g[i], "Resultado")) == "detectado")
  }

  /** One pass of the Ct loop: a reported target gets its rescaled Ct
      (ResultadoLIS must be a column, and float() must read it). */
  function ThermoCt(d: Record, row: Row, hasLis: bool): (r: Result<Record>)
    ensures r.Ok? && ValidDict(d) ==> ValidDict(r.value)
    ensures r.Ok? ==> forall k :: k in d.m ==> k in r.value.m
  {
    var gene := Cell(row, "Exame");
    if gene !in ThermoGenes then Ok(d)
    else if !hasLis then Err(KeyError("ResultadoLIS"))
    else
      var h :- Rescale(Cell(row, "ResultadoLIS"));
      Ok(Put(d, gene, FormatHundredths(h)))
  }

  /** `for idx, row in dfG.iterrows()` over the request's own rows. */
  function ThermoFold(d: Record, rows: seq<Row>, hasLis: bool): (r: Result<Record>)
    ensures r.Ok? && ValidDict(d) ==> ValidDict(r.value)
    ensures r.Ok? ==> forall k :: k in d.m ==> k in r.value.m
    decreases |rows|
  {
    if rows == [] then Ok(d)
    else
      var e :- ThermoFold(d, rows[..|rows| - 1], hasLis);
      ThermoCt(e, rows[|rows| - 1], hasLis)
  }

  /** The record before the Ct loop: the request's uniform cells and every
      pathogen but SC2 'NA'. */
  function ThermoStart(cols: seq<string>, g: seq<Row>): Record {
    PutAll(Seed(NoData, UniformCols(cols, g), First(g)), OtherResultCols, "NA")
  }

  /** The record of one Thermo Fisher request (Exame is required). */
  function ThermoRecord(cols: seq<string>, g: seq<Row>): (r: Result<Record>)
    ensures "Exame" !in cols ==> r == Err(KeyError("Exame"))
    ensures "SGENE" !in Values(g, "Exame") && "Resultado" !in cols ==> r.Err?
    ensures r.Ok? ==> ValidDict(r.value) && forall c :: c in OtherResultCols ==> c in r.value.m
  {
    NoDataValid();
    if "Exame" !in cols then Err(KeyError("Exame"))
    else
      var marker :- NeedsMarker(cols, g);
      ThermoCts(ThermoStart(cols, g), g, "ResultadoLIS" in cols, marker)
  }

  /** The Ct loop over the request's rows, then over the marker row when
      it was appended. */
  function ThermoCts(d: Record, g: seq<Row>, hasLis: bool, marker: bool): Result<Record> {
    var e :- ThermoFold(d, g, hasLis);
    if marker then ThermoCt(e, SGeneMarker, true) else Ok(e)
  }

  function ThermoRecordOf(cols: seq<string>): seq<Row> -> Result<Record> {
    g => ThermoRecord(cols, g)
  }

  /** The Thermo Fisher frame: one record per request. */
  function ThermoTable(l: Table): (r: Result<Table>)
    ensures r.Ok? ==> |r.value.rows| == |RequestKeys(l.rows, "NumeroPedido")|
  {
    PerRequest(l.rows, "NumeroPedido", RequestKeys(l.rows, "NumeroPedido"), ThermoRecordOf(l.cols))
  }

  /** The Ct text of the last row reporting gene in column c, if any. */
  function LastCt(rows: seq<Row>, c: string, gene: string): Option<string>
    decreases |rows|
  {
    if rows == [] then None
    else if Cell(rows[|rows| - 1], c) == gene then Some(Cell(rows[|rows| - 1], "ResultadoLIS"))
    else LastCt(rows[..|rows| - 1], c, gene)
  }

  /** The Ct loop fails exactly when a reported target has no readable Ct. */
  lemma {:induction false} ThermoFoldOk(d: Record, rows: seq<Row>, hasLis: bool)
    ensures ThermoFold(d, rows, hasLis).Ok? <==>
      forall i :: 0 <= i < |rows| && Cell(rows[i], "Exame") in ThermoGenes ==>
        hasLis && Rescale(Cell(rows[i], "ResultadoLIS")).Ok?
    decreases |rows|
  {
    if rows != [] {
      var n := |rows|;
      var init := rows[..n - 1];
      ThermoFoldOk(d, init, hasLis);
      assert forall i :: 0 <= i < n - 1 ==> init[i] == rows[i];
    }
  }

  /** A target's Ct is the one of its last row: a later row overwrites an
      earlier one; a target without rows keeps what the record held. */
  lemma {:induction false} ThermoLastCtWins(d: Record, rows: seq<Row>, hasLis: bool, gene: string)
    requires ThermoFold(d, rows, hasLis).Ok?
    requires gene in ThermoGenes
    ensures LastCt(rows, "Exame", gene).Some? ==>
      Rescale(LastCt(rows, "Exame", gene).value).Ok? &&
      gene in ThermoFold(d, rows, hasLis).value.m &&
      ThermoFold(d, rows, hasLis).value.m[gene] == FormatHundredths(Rescale(LastCt(rows, "Exame", gene).value).value)
    ensures LastCt(rows, "Exame", gene).None? ==>
      (gene in ThermoFold(d, rows, hasLis).value.m <==> gene in d.m) &&
      (gene in d.m ==> ThermoFold(d, rows, hasLis).value.m[gene] == d.m[gene])
    decreases |rows|
  {
    if rows != [] {
      var n := |rows|;
      var init := rows[..n - 1];
      ThermoLastCtWins(d, init, hasLis, gene);
    }
  }

  /** A gene with a last row is a gene the request reports. */
  lemma {:induction false} LastCtReported(rows: seq<Row>, c: string, gene: string)
    requires LastCt(rows, c, gene).Some?
    ensures gene in Values(rows, c)
    decreases |rows|
  {
    var n := |rows|;
    if Cell(rows[n - 1], c) != gene {
      LastCtReported(rows[..n - 1], c, gene);
      var vs := Values(rows[..n - 1], c);
      var i :| 0 <= i < |vs| && vs[i] == gene;
      assert Values(rows, c)[i] == gene;
    } else {
      assert Values(rows, c)[n - 1] == gene;
    }
  }

  /** The Ct loop writes nothing but the reported targets. */
  lemma {:induction false} ThermoFoldKeeps(d: Record, rows: seq<Row>, hasLis: bool, k: string)
    requires ThermoFold(d, rows, hasLis).Ok?
    requires k !in ThermoGenes
    ensures k in ThermoFold(d, rows, hasLis).value.m <==> k in d.m
    ensures k in d.m ==> ThermoFold(d, rows, hasLis).value.m[k] == d.m[k]
    decreases |rows|
  {
    if rows != [] {
      ThermoFoldKeeps(d, rows[..|rows| - 1], hasLis, k);
    }
  }

  /** Every reported target holds the rescaled Ct of its last row; the
      marker, appended only without an S-gene row, sets the S gene to 0.0. */
  lemma ThermoCtsLast(d: Record, g: seq<Row>, hasLis: bool, marker: bool, gene: string)
    requires ThermoCts(d, g, hasLis, marker).Ok?
    requires marker ==> "SGENE" !in Values(g, "Exame")
    requires gene in ThermoGenes
    ensures LastCt(g, "Exame", gene).Some? ==>
      Rescale(LastCt(g, "Exame", gene).value).Ok? &&
      gene in ThermoCts(d, g, hasLis, marker).value.m &&
      ThermoCts(d, g, hasLis, marker).value.m[gene] == FormatHundredths(Rescale(LastCt(g, "Exame", gene).value).value)
    ensures marker ==>
      "SGENE" in ThermoCts(d, g, hasLis, marker).value.m && ThermoCts(d, g, hasLis, marker).value.m["SGENE"] == "0.0"
  {
    var e := ThermoFold(d, g, hasLis).value;
    ThermoLastCtWins(d, g, hasLis, gene);
    if marker {
      MarkerPut(e);
      if LastCt(g, "Exame", gene).Some? {
        LastCtReported(g, "Exame", gene);
      }
    }
  }

  /** The marker row writes the S gene as 0.0 and nothing else. */
  lemma MarkerPut(e: Record)
    ensures ThermoCt(e, SGeneMarker, true) == Ok(Put(e, "SGENE", "0.0"))
  {
    MarkerCt();
    assert Cell(SGeneMarker, "Exame") == ThermoGenes[1];
  }

  /** Nothing but the reported targets is written. */
  lemma ThermoCtsKeeps(d: Record, g: seq<Row>, hasLis: bool, marker: bool, k: string)
    requires ThermoCts(d, g, hasLis, marker).Ok?
    requires k !in ThermoGenes
    ensures k in ThermoCts(d, g, hasLis, marker).value.m <==> k in d.m
    ensures k in d.m ==> ThermoCts(d, g, hasLis, marker).value.m[k] == d.m[k]
  {
    ThermoFoldKeeps(d, g, hasLis, k);
    if marker {
      MarkerCt();
    }
  }

  /** Every reported target of a Thermo Fisher request holds the rescaled
      Ct of its last row. */
  lemma ThermoRecordCts(cols: seq<string>, g: seq<Row>, gene: string)
    requires ThermoRecord(cols, g).Ok?
    requires gene in ThermoGenes && LastCt(g, "Exame", gene).Some?
    ensures Rescale(LastCt(g, "Exame", gene).value).Ok?
    ensures gene in ThermoRecord(cols, g).value.m
    ensures ThermoRecord(cols, g).value.m[gene] == FormatHundredths(Rescale(LastCt(g, "Exame", gene).value).value)
  {
    assert "Exame" in cols;
    var marker := NeedsMarker(cols, g).value;
    var start := ThermoStart(cols, g);
    assert ThermoRecord(cols, g) == ThermoCts(start, g, "ResultadoLIS" in cols, marker);
    ThermoCtsLast(start, g, "ResultadoLIS" in cols, marker, gene);
  }

  /** A result column is longer than any target code. */
  lemma ResultColLong(c: string)
    requires c in OtherResultCols
    ensures |c| >= 12 && c !in ThermoGenes
  {
    var i :| 0 <= i < |OtherResultCols| && OtherResultCols[i] == c;
    assert OtherResultCols[i] == ResultCol(Pathogens[i + 1]);
  }

  /** Before the Ct loop every pathogen but SC2 reads 'NA'. */
  lemma ThermoStartOthers(cols: seq<string>, g: seq<Row>, c: string)
    requires c in OtherResultCols
    ensures c in ThermoStart(cols, g).m && ThermoStart(cols, g).m[c] == "NA"
  {
  }

  /** Every pathogen but SC2 reads 'NA'. */
  lemma ThermoOthersNA(cols: seq<string>, g: seq<Row>, c: string)
    requires ThermoRecord(cols, g).Ok?
    requires c in OtherResultCols
    ensures c in ThermoRecord(cols, g).value.m
    ensures ThermoRecord(cols, g).value.m[c] == "NA"
  {
    ResultColLong(c);
    assert "Exame" in cols;
    var marker := NeedsMarker(cols, g).value;
    var start := ThermoStart(cols, g);
    assert ThermoRecord(cols, g) == ThermoCts(start, g, "ResultadoLIS" in cols, marker);
    ThermoCtsKeeps(start, g, "ResultadoLIS" in cols, marker, c);
    ThermoStartOthers(cols, g, c);
  }

  /** A request with no S-gene row but a 'detectado' result gets S-gene Ct
      0.0, which check_detection calls negative: the S-gene dropout
      (SGTF) reading of an Omicron sample. */
  lemma ThermoSGeneDropout(cols: seq<string>, g: seq<Row>, labels: Labels)
    requires ThermoRecord(cols, g).Ok?
    requires "SGENE" !in Values(g, "Exame")
    requires exists i :: 0 <= i < |g| && Lower(Cell(g[i], "Resultado")) == "detectado"
    ensures "SGENE" in ThermoRecord(cols, g).value.m
    ensures ThermoRecord(cols, g).value.m["SGENE"] == "0.0"
    ensures CheckDetection(ThermoRecord(cols, g).value.m["SGENE"], labels) == labels.neg
  {
    MarkerCt();
    CheckFormatted(0, labels);
    var marker := NeedsMarker(cols, g).value;
    assert marker;
    ThermoCtsLast(ThermoStart(cols, g), g, "ResultadoLIS" in cols, marker, "SGENE");
  }

  /** The marker's Ct 0.0 reads as zero and prints back as 0.0. */
  lemma MarkerCt()
    ensures Rescale("0.0") == Ok(0)
    ensures FormatHundredths(0) == "0.0"
  {
    assert ReplaceAll("0.0", ".", "") == "00" by {
      assert ReplaceAll("0", ".", "") == "0";
      assert ReplaceAll(".0", ".", "") == "" + ReplaceAll("0", ".", "");
    }
    assert Normalized("0.0") == seq(5, _ => '0') by {
      assert '.' in "0.0" by { assert "0.0"[1] == '.'; }
    }
    ZerosValue(5);
    assert NatToString(0) == "0";
  }

  // ---------------------------------------------------------------------
  // Covid-19 (ParametroLIS)
  // ---------------------------------------------------------------------

  const CovidControls := ["SPCCT", "ZZZIC", "ZZZCI", "PCOV19", "UPCOV", "ZZZMS2", "ZZZCI", "ING"]

  /** The SC2 targets of the export. */
  const CovidTargets := ["ZZZE", "ECT", "ZZZN", "N2CT", "ZZZRD", "ZZZS", "ZZZORF"]

  /** The targets that read '' when the request does not report them. */
  const AllTargets := ["ZZZE", "ZZZN", "ZZZRD", "ZZZS", "ZZZORF"]

  /** target_pathogen: every target is an SC2 target. */
  function CovidPathogen(code: string): Option<string> {
    if code in CovidTargets then Some("SC2") else None
  }

  /** `for tcode in all_targets: if tcode not in reported: data[tcode] = ''` */
  function BlankAbsent(d: Record, targets: seq<string>, reported: seq<string>): (r: Record)
    ensures ValidDict(d) ==> ValidDict(r)
    ensures forall k :: k in d.m ==> k in r.m
    decreases |targets|
  {
    if targets == [] then d
    else BlankAbsent(if targets[0] in reported then d else Put(d, targets[0], ""), targets[1..], reported)
  }

  /** The blanks reach exactly the unreported targets. */
  lemma {:induction false} BlankAbsentMeaning(d: Record, targets: seq<string>, reported: seq<string>, k: string)
    ensures k in BlankAbsent(d, targets, reported).m <==> k in d.m || (k in targets && k !in reported)
    ensures k in targets && k !in reported ==> BlankAbsent(d, targets, reported).m[k] == ""
    ensures k in d.m && !(k in targets && k !in reported) ==> BlankAbsent(d, targets, reported).m[k] == d.m[k]
    decreases |targets|
  {
    if targets != [] {
      var d' := if targets[0] in reported then d else Put(d, targets[0], "");
      BlankAbsentMeaning(d', targets[1..], reported, k);
    }
  }

  /** One pass of the Ct loop: ResultadoLIS is read for every row (KeyError
      without the column); a target not in the record yet gets its
      rescaled Ct, so the first row of a target decides. */
  function CovidCt(d: Record, row: Row, hasLis: bool): (r: Result<Record>)
    ensures r.Ok? && ValidDict(d) ==> ValidDict(r.value)
    ensures r.Ok? ==> forall k :: k in d.m ==> k in r.value.m
  {
    var gene := Cell(row, "ParametroLIS");
    if !hasLis then Err(KeyError("ResultadoLIS"))
    else if gene !in CovidTargets || gene in d.m then Ok(d)
    else
      var h :- Rescale(Cell(row, "ResultadoLIS"));
      Ok(Put(d, gene, FormatHundredths(h)))
  }

  /** `for idx, row in dfG.iterrows()` over the request's SC2 rows. */
  function CovidFold(d: Record, rows: seq<Row>, hasLis: bool): (r: Result<Record>)
    ensures r.Ok? && ValidDict(d) ==> ValidDict(r.value)
    ensures r.Ok? ==> forall k :: k in d.m ==> k in r.value.m
    decreases |rows|
  {
    if rows == [] then Ok(d)
    else
      var e :- CovidFold(d, rows[..|rows| - 1], hasLis);
      CovidCt(e, rows[|rows| - 1], hasLis)
  }

  /** The record before the loop: the request's first row in every column,
      every pathogen but SC2 'NA'. */
  function CovidStart(cols: seq<string>, g: seq<Row>): Record {
    PutAll(Seed(NoData, cols, First(g)), OtherResultCols, "NA")
  }

  /** The rows of the request without the controls. */
  function CovidKept(g: seq<Row>): seq<Row> {
    Keep(g, NotControl("ParametroLIS", CovidControls))
  }

  /** The record of one Covid-19 request: controls dropped, targets tagged
      (an unknown target is a KeyError), the unreported targets blanked,
      then the Ct loop over the one pathogen group. */
  function CovidRecord(cols: seq<string>, g: seq<Row>): (r: Result<Record>)
    ensures r.Ok? ==> forall x :: x in CovidKept(g) ==> CovidPathogen(Cell(x, "ParametroLIS")).Some?
    ensures r.Ok? ==> ValidDict(r.value) && forall c :: c in cols || c in OtherResultCols ==> c in r.value.m
  {
    NoDataValid();
    var kept := CovidKept(g);
    var tagged :- TagPathogens(kept, "ParametroLIS", CovidPathogen);
    var d := BlankAbsent(CovidStart(cols, g), AllTargets, Values(kept, "ParametroLIS"));
    CovidFold(d, Groups(tagged, "pathogen", ["SC2"]), "ResultadoLIS" in cols)
  }

  function CovidRecordOf(cols: seq<string>): seq<Row> -> Result<Record> {
    g => CovidRecord(cols, g)
  }

  /** The Covid-19 frame: one record per request. */
  function CovidTable(l: Table): (r: Result<Table>)
    ensures r.Ok? ==> |r.value.rows| == |RequestKeys(l.rows, "NumeroPedido")|
  {
    PerRequest(l.rows, "NumeroPedido", RequestKeys(l.rows, "NumeroPedido"), CovidRecordOf(l.cols))
  }

  /** The Ct text of the first row reporting gene in column c, if any. */
  function FirstCt(rows: seq<Row>, c: string, gene: string): Option<string>
    decreases |rows|
  {
    if rows == [] then None
    else if Cell(rows[0], c) == gene then Some(Cell(rows[0], "ResultadoLIS"))
    else FirstCt(rows[1..], c, gene)
  }

  lemma {:induction false} FirstCtSnoc(rows: seq<Row>, x: Row, c: string, gene: string)
    ensures FirstCt(rows + [x], c, gene) ==
      if FirstCt(rows, c, gene).Some? then FirstCt(rows, c, gene)
      else if Cell(x, c) == gene then Some(Cell(x, "ResultadoLIS"))
      else None
    decreases |rows|
  {
    if rows != [] {
      assert (rows + [x])[1..] == rows[1..] + [x];
      FirstCtSnoc(rows[1..], x, c, gene);
    }
  }

  /** Rows that agree on the target and the Ct have the same first Ct. */
  lemma {:induction false} FirstCtAgree(a: seq<Row>, b: seq<Row>, c: string, gene: string)
    requires |a| == |b|
    requires forall i :: 0 <= i < |a| ==>
      Cell(a[i], c) == Cell(b[i], c) && Cell(a[i], "ResultadoLIS") == Cell(b[i], "ResultadoLIS")
    ensures FirstCt(a, c, gene) == FirstCt(b, c, gene)
    decreases |a|
  {
    if a != [] {
      FirstCtAgree(a[1..], b[1..], c, gene);
    }
  }

  /** Dropping rows of other targets leaves a target's first Ct alone. */
  lemma {:induction false} FirstCtKeep(rows: seq<Row>, c: string, gene: string, controls: seq<string>)
    requires gene !in controls
    ensures FirstCt(Keep(rows, NotControl(c, controls)), c, gene) == FirstCt(rows, c, gene)
    decreases |rows|
  {
    if rows != [] {
      FirstCtKeep(rows[1..], c, gene, controls);
      var keep := NotControl(c, controls);
      assert Keep(rows, keep) == (if keep(rows[0]) then [rows[0]] else []) + Keep(rows[1..], keep);
      if keep(rows[0]) {
        assert (([rows[0]] + Keep(rows[1..], keep)))[1..] == Keep(rows[1..], keep);
      } else {
        assert Cell(rows[0], c) in controls;
        assert Keep(rows, keep) == Keep(rows[1..], keep);
      }
    }
  }

  /** The loop fails without ResultadoLIS as soon as there is a row. */
  lemma CovidFoldNeedsLis(d: Record, rows: seq<Row>)
    requires rows != []
    ensures CovidFold(d, rows, false).Err?
  {
  }

  /** A target the record does not hold gets the rescaled Ct of its first
      row; one it holds keeps its value; a target without rows stays out. */
  lemma {:induction false} CovidFirstCtWins(d: Record, rows: seq<Row>, hasLis: bool, gene: string)
    requires CovidFold(d, rows, hasLis).Ok?
    requires gene in CovidTargets
    ensures gene in d.m ==>
      gene in CovidFold(d, rows, hasLis).value.m && CovidFold(d, rows, hasLis).value.m[gene] == d.m[gene]
    ensures gene !in d.m && FirstCt(rows, "ParametroLIS", gene).Some? ==>
      Rescale(FirstCt(rows, "ParametroLIS", gene).value).Ok? &&
      gene in CovidFold(d, rows, hasLis).value.m &&
      CovidFold(d, rows, hasLis).value.m[gene] == FormatHundredths(Rescale(FirstCt(rows, "ParametroLIS", gene).value).value)
    ensures gene !in d.m && FirstCt(rows, "ParametroLIS", gene).None? ==>
      gene !in CovidFold(d, rows, hasLis).value.m
    decreases |rows|
  {
    if rows != [] {
      var n := |rows|;
      var init := rows[..n - 1];
      assert rows == init + [rows[n - 1]];
      CovidFirstCtWins(d, init, hasLis, gene);
      FirstCtSnoc(init, rows[n - 1], "ParametroLIS", gene);
    }
  }

  /** The loop writes nothing but the SC2 targets. */
  lemma {:induction false} CovidFoldKeeps(d: Record, rows: seq<Row>, hasLis: bool, k: string)
    requires CovidFold(d, rows, hasLis).Ok?
    requires k !in CovidTargets
    ensures k in CovidFold(d, rows, hasLis).value.m <==> k in d.m
    ensures k in d.m ==> CovidFold(d, rows, hasLis).value.m[k] == d.m[k]
    decreases |rows|
  {
    if rows != [] {
      CovidFoldKeeps(d, rows[..|rows| - 1], hasLis, k);
    }
  }

  /** Every row of a request's SC2 group, so the loop visits the tagged
      rows in their order. */
  lemma {:induction false} GroupRowsAll(rows: seq<Row>, c: string, k: string)
    requires forall i :: 0 <= i < |rows| ==> Cell(rows[i], c) == k
    ensures GroupRows(rows, c, k) == rows
    decreases |rows|
  {
    if rows != [] {
      GroupRowsAll(rows[1..], c, k);
      assert [rows[0]] + rows[1..] == rows;
    }
  }

  /** The rows the Ct loop visits: the request's rows without the
      controls, in order, each tagged SC2. */
  lemma CovidVisits(g: seq<Row>)
    requires TagPathogens(CovidKept(g), "ParametroLIS", CovidPathogen).Ok?
    ensures
      var kept := CovidKept(g);
      var tagged := TagPathogens(kept, "ParametroLIS", CovidPathogen).value;
      Groups(tagged, "pathogen", ["SC2"]) == tagged &&
      |tagged| == |kept| &&
      forall i :: 0 <= i < |kept| ==>
        Cell(tagged[i], "ParametroLIS") == Cell(kept[i], "ParametroLIS") &&
        Cell(tagged[i], "ResultadoLIS") == Cell(kept[i], "ResultadoLIS")
  {
    var kept := CovidKept(g);
    var tagged := TagPathogens(kept, "ParametroLIS", CovidPathogen).value;
    assert forall i :: 0 <= i < |tagged| ==> Cell(tagged[i], "pathogen") == "SC2";
    GroupRowsAll(tagged, "pathogen", "SC2");
    assert Groups(tagged, "pathogen", ["SC2"]) == GroupRows(tagged, "pathogen", "SC2") + [];
    TaggedCells(kept, "ParametroLIS", CovidPathogen);
  }

  /** Tagging keeps the target and Ct cells of every row. */
  lemma TaggedCells(rows: seq<Row>, code: string, pathogenOf: string -> Option<string>)
    requires TagPathogens(rows, code, pathogenOf).Ok?
    ensures var tagged := TagPathogens(rows, code, pathogenOf).value;
      forall i :: 0 <= i < |rows| ==>
        Cell(tagged[i], "ParametroLIS") == Cell(rows[i], "ParametroLIS") &&
        Cell(tagged[i], "ResultadoLIS") == Cell(rows[i], "ResultadoLIS")
  {
    assert |"pathogen"| != |"ParametroLIS"|;
  }

  /** A target of a Covid-19 request reads the rescaled Ct of its first
      row; an unreported one of all_targets reads ''; any other
      unreported target is not written. */
  lemma CovidRecordCts(cols: seq<string>, g: seq<Row>, gene: string)
    requires CovidRecord(cols, g).Ok?
    requires gene in CovidTargets && gene !in cols
    ensures FirstCt(g, "ParametroLIS", gene).Some? ==>
      Rescale(FirstCt(g, "ParametroLIS", gene).value).Ok? &&
      gene in CovidRecord(cols, g).value.m &&
      CovidRecord(cols, g).value.m[gene] == FormatHundredths(Rescale(FirstCt(g, "ParametroLIS", gene).value).value)
    ensures FirstCt(g, "ParametroLIS", gene).None? ==>
      (gene in CovidRecord(cols, g).value.m <==> gene in AllTargets) &&
      (gene in AllTargets ==> CovidRecord(cols, g).value.m[gene] == "")
  {
    var kept := CovidKept(g);
    var tagged := TagPathogens(kept, "ParametroLIS", CovidPathogen).value;
    var start := CovidStart(cols, g);
    var d := BlankAbsent(start, AllTargets, Values(kept, "ParametroLIS"));
    var hasLis := "ResultadoLIS" in cols;
    CovidVisits(g);
    assert CovidRecord(cols, g) == CovidFold(d, tagged, hasLis);
    CovidStartLacks(cols, g, gene);
    TargetsNotControls(gene);
    FirstCtKeep(g, "ParametroLIS", gene, CovidControls);
    FirstCtAgree(tagged, kept, "ParametroLIS", gene);
    CovidBlanked(start, kept, gene);
    CovidFirstCtWins(d, tagged, hasLis, gene);
  }

  lemma TargetsNotControls(gene: string)
    requires gene in CovidTargets
    ensures gene !in CovidControls
  {
  }

  /** Before the blanks the record holds no target that is not a column. */
  lemma CovidStartLacks(cols: seq<string>, g: seq<Row>, gene: string)
    requires gene in CovidTargets && gene !in cols
    ensures gene !in CovidStart(cols, g).m
  {
    ResultColsNotTargets(gene);
  }

  /** `data[tcode] = ''` reaches exactly the unreported targets of all_targets. */
  lemma CovidBlanked(start: Record, kept: seq<Row>, gene: string)
    requires gene !in start.m
    ensures var d := BlankAbsent(start, AllTargets, Values(kept, "ParametroLIS"));
      (gene in d.m <==> gene in AllTargets && FirstCt(kept, "ParametroLIS", gene).None?) &&
      (gene in d.m ==> d.m[gene] == "")
  {
    BlankAbsentMeaning(start, AllTargets, Values(kept, "ParametroLIS"), gene);
    if FirstCt(kept, "ParametroLIS", gene).Some? {
      FirstCtReported(kept, "ParametroLIS", gene);
    } else {
      FirstCtUnreported(kept, "ParametroLIS", gene);
    }
  }

  /** The record's other columns are not target codes. */
  lemma ResultColsNotTargets(gene: string)
    requires gene in CovidTargets
    ensures gene !in OtherResultCols
  {
  }

  lemma {:induction false} FirstCtReported(rows: seq<Row>, c: string, gene: string)
    requires FirstCt(rows, c, gene).Some?
    ensures gene in Values(rows, c)
    decreases |rows|
  {
    if Cell(rows[0], c) != gene {
      FirstCtReported(rows[1..], c, gene);
      var vs := Values(rows[1..], c);
      var i :| 0 <= i < |vs| && vs[i] == gene;
      assert Values(rows, c)[i + 1] == gene;
    } else {
      assert Values(rows, c)[0] == gene;
    }
  }

  lemma {:induction false} FirstCtUnreported(rows: seq<Row>, c: string, gene: string)
    requires FirstCt(rows, c, gene).None?
    ensures gene !in Values(rows, c)
    decreases |rows|
  {
    if rows != [] {
      FirstCtUnreported(rows[1..], c, gene);
      assert forall i :: 1 <= i < |rows| ==> Values(rows, c)[i] == Values(rows[1..], c)[i - 1];
    }
  }

  // ---- the Thermo Fisher loops ----

  /** `for idx, row in dfG.iterrows()` */
  method ThermoLoop(d: Record, rows: seq<Row>, hasLis: bool) returns (r: Result<Record>)
    ensures r == ThermoFold(d, rows, hasLis)
  {
    r := Ok(d);
    var i := 0;
    while i < |rows|
      invariant 0 <= i <= |rows|
      invariant r == ThermoFold(d, rows[..i], hasLis)
    {
      assert rows[..i + 1][..i] == rows[..i];
      if r.Ok? {
        r := ThermoCt(r.value, rows[i], hasLis);
      }
      i := i + 1;
    }
    assert rows[..i] == rows;
  }

  /** The body of the request loop. */
  method BuildThermoRecord(cols: seq<string>, g: seq<Row>) returns (r: Result<Record>)
    ensures r == ThermoRecord(cols, g)
  {
    if "Exame" !in cols {
      return Err(KeyError("Exame"));
    }
    var marker := NeedsMarker(cols, g);
    if marker.Err? {
      return Err(marker.error);
    }
    r := ThermoLoop(ThermoStart(cols, g), g, "ResultadoLIS" in cols);
    if r.Ok? && marker.value {
      r := ThermoCt(r.value, SGeneMarker, true);
    }
  }

  /** `for i, (code, dfG) in enumerate(dfL.groupby('NumeroPedido'))` */
  method ThermoRequests(l: Table) returns (r: Result<Table>)
    ensures r == ThermoTable(l)
  {
    var ks := RequestKeys(l.rows, "NumeroPedido");
    var record := ThermoRecordOf(l.cols);
    r := Ok(Empty);
    var i := 0;
    while i < |ks|
      invariant 0 <= i <= |ks|
      invariant r == PerRequest(l.rows, "NumeroPedido", ks[..i], record)
    {
      PerRequestStep(l.rows, "NumeroPedido", ks, i, record);
      if r.Ok? {
        var g := Request(l.rows, "NumeroPedido", ks[i]);
        var d := BuildThermoRecord(l.cols, g);
        assert d == record(g);
        if d.Ok? {
          r := Ok(AppendRecord(r.value, d.value));
        } else {
          r := Err(d.error);
        }
      }
      i := i + 1;
    }
    assert ks[..i] == ks;
  }

  // ---- the Covid-19 loops ----

  /** `for idx, row in dfG.iterrows()` */
  method CovidLoop(d: Record, rows: seq<Row>, hasLis: bool) returns (r: Result<Record>)
    ensures r == CovidFold(d, rows, hasLis)
  {
    r := Ok(d);
    var i := 0;
    while i < |rows|
      invariant 0 <= i <= |rows|
      invariant r == CovidFold(d, rows[..i], hasLis)
    {
      assert rows[..i + 1][..i] == rows[..i];
      if r.Ok? {
        r := CovidCt(r.value, rows[i], hasLis);
      }
      i := i + 1;
    }
    assert rows[..i] == rows;
  }

  /** The body of the request loop, the blanking loop included. */
  method BuildCovidRecord(cols: seq<string>, g: seq<Row>) returns (r: Result<Record>)
    ensures r == CovidRecord(cols, g)
  {
    var kept := CovidKept(g);
    var tagged := TagPathogens(kept, "ParametroLIS", CovidPathogen);
    if tagged.Err? {
      return Err(tagged.error);
    }
    var reported := Values(kept, "ParametroLIS");
    var d := CovidStart(cols, g);
    var k := 0;
    while k < |AllTargets|
      invariant 0 <= k <= |AllTargets|
      invariant BlankAbsent(d, AllTargets[k..], reported) == BlankAbsent(CovidStart(cols, g), AllTargets, reported)
    {
      assert AllTargets[k..][1..] == AllTargets[k + 1..];
      if AllTargets[k] !in reported {
        d := Put(d, AllTargets[k], "");
      }
      k := k + 1;
    }
    r := CovidLoop(d, Groups(tagged.value, "pathogen", ["SC2"]), "ResultadoLIS" in cols);
  }

  /** `for i, (code, dfR) in enumerate(dfL.groupby('NumeroPedido'))` */
  method CovidRequests(l: Table) returns (r: Result<Table>)
    ensures r == CovidTable(l)
  {
    var ks := RequestKeys(l.rows, "NumeroPedido");
    var record := CovidRecordOf(l.cols);
    r := Ok(Empty);
    var i := 0;
    while i < |ks|
      invariant 0 <= i <= |ks|
      invariant r == PerRequest(l.rows, "NumeroPedido", ks[..i], record)
    {
      PerRequestStep(l.rows, "NumeroPedido", ks, i, record);
      if r.Ok? {
        var g := Request(l.rows, "NumeroPedido", ks[i]);
        var d := BuildCovidRecord(l.cols, g);
        assert d == record(g);
        if d.Ok? {
          r := Ok(AppendRecord(r.value, d.value));
        } else {
          r := Err(d.error);
        }
      }
      i := i + 1;
    }
    assert ks[..i] == ks;
  }

  // ---------------------------------------------------------------------
  // fix_datatable and the file loop
  // ---------------------------------------------------------------------

  /** What the file loop depends on besides the file: whether a cache file
      was given, the rename and correction catalogs, the digest, and the
      two corrections of the Findings (`sticky`: a positive panel call
      survives later targets; `skipEmpty`: a file with nothing new is
      skipped). Both false is the script as written. */
  datatype Settings = Settings(cached: bool, renames: map<string, map<string, string>>,
                               corrections: Corrections, sha1: string -> Digest,
                               sticky: bool, skipEmpty: bool)

  /** The Ct columns each layout blanks before hashing. */
  const ThermoBlankCts := ["Ct_FluA", "Ct_FluB", "Ct_VSR", "Ct_geneE", "Ct_RDRP"]
  const CovidBlankCts := ["Ct_FluA", "Ct_FluB", "Ct_VSR"]

  /** The layout's preparation before deduplicate: the frame to reshape
      (dfL) and the one returned when nothing is left (dfN). */
  function Prepared(layout: Layout, t: Table): (r: Result<(Table, Table)>)
    requires |t.cols| >= 1
    ensures r.Ok? && layout != Unknown ==> forall c :: c in IdColumns ==> c in r.value.0.cols
  {
    match layout
    case PainelViral =>
      var t1 :- InsertColumn(t, 1, "sample_id", "");
      var n := SetColumn(t1, "Ct_ORF1ab", "");
      Ok((AddMissing(Rename(n, map["Resultado" := "Results_All"]), IdColumns), n))
    case ThermoFisher =>
      var t1 :- InsertColumn(t, 1, "sample_id", "");
      var t2 :- InsertColumn(t1, 1, "test_kit", "thermo");
      var l := AddMissing(SetColumns(t2, ThermoBlankCts, ""), IdColumns);
      Ok((l, l))
    case Covid19 =>
      var t1 :- InsertColumn(t, 1, "sample_id", "");
      var t2 :- InsertColumn(t1, 1, "test_kit", "covid");
      var l := AddMissing(SetColumns(t2, CovidBlankCts, ""), IdColumns);
      Ok((l, l))
    case Unknown => Ok((t, t))
  }

  /** deduplicate(dfL, dfN, id_columns, test_name) with the 16-character id. */
  function DedupSettingOf(s: Settings): DedupSetting {
    DedupSetting(s.cached, IdColumns, 16, true)
  }

  /** The reshaping of the layout once the rows are deduplicated. */
  function Reshaped(layout: Layout, l: Table, sticky: bool): Result<Table> {
    match layout
    case PainelViral => PainelTable(l, sticky)
    case ThermoFisher => ThermoTable(l)
    case Covid19 => CovidTable(l)
    case Unknown => Ok(l)
  }

  /** fix_datatable(dfL, file): a table of no known layout comes back as it
      is; otherwise it is prepared, deduplicated against dfT, and reshaped
      unless nothing is left, in which case dfN is returned. */
  function FixDatatable(s: Settings, dfT: Table, t: Table): (r: Result<Table>)
    ensures Classify(t) == Unknown ==> r == Ok(t)
  {
    var layout := Classify(t);
    if layout == Unknown then Ok(t)
    else
      var ln :- Prepared(layout, t);
      var kept :- Dedup(ln.0, ln.1, dfT, DedupSettingOf(s), s.sha1);
      if IsEmpty(kept.0) then Ok(kept.1) else Reshaped(layout, kept.0, s.sticky)
  }

  /** With a cache, a file whose every sample id is already in dfT comes
      out of fix_datatable as an empty frame. */
  lemma FullyCachedFixesToEmpty(s: Settings, dfT: Table, t: Table)
    requires Classify(t) != Unknown && s.cached && "sample_id" in dfT.cols
    requires Prepared(Classify(t), t).Ok?
    requires AllSeen(Prepared(Classify(t), t).value.0, dfT, DedupSettingOf(s), s.sha1)
    ensures FixDatatable(s, dfT, t) == Ok(Empty)
  {
    var ln := Prepared(Classify(t), t).value;
    DedupAllSeen(ln.0, ln.1, dfT, DedupSettingOf(s), s.sha1);
  }

  /** Everything the file loop does to a reformatted frame before the
      concat: the lab_id column, the lab's renames, the guarded corrections
      and the one-letter sex code. */
  function LabFrame(s: Settings, df: Table): Result<Table>
    requires ValidCorrections(s.corrections)
  {
    var df1 :- InsertColumn(df, 0, "lab_id", LabId);
    var df2 :- Corrected(RenameColumns(s.renames, LabId, df1), s.corrections, true);
    FixSex(df2)
  }

  /** One iteration of the file loop: dfT grows by the file's frame (or,
      corrected, stays as it is when the frame is empty). */
  function FileStep(s: Settings, dfT: Table, t: Table): (r: Result<Table>)
    requires ValidCorrections(s.corrections)
  {
    var df :- FixDatatable(s, dfT, t);
    if s.skipEmpty && |df.rows| == 0 then Ok(dfT)
    else
      var f :- LabFrame(s, df);
      Ok(Concat(dfT, f))
  }

  function StepOf(s: Settings): (Table, Table) -> Result<Table>
    requires ValidCorrections(s.corrections)
  {
    (a, t) => FileStep(s, a, t)
  }

  /** The lab's rename catalog neither renames lab_id nor renames another
      column to it. */
  predicate KeepsLabId(s: Settings) {
    LabId in s.renames ==>
      "lab_id" !in s.renames[LabId] && forall c :: c in s.renames[LabId] ==> s.renames[LabId][c] != "lab_id"
  }

  /** Every row of a lab frame carries the lab's id and a sex code of at
      most one character, unless a catalog renames lab_id or corrects the
      lab's own id. */
  lemma LabFrameTagged(s: Settings, df: Table)
    requires ValidCorrections(s.corrections) && KeepsLabId(s)
    requires forall lab :: lab in s.corrections.keys ==> Lookup(s.corrections, lab, "lab_id", LabId).None?
    requires LabFrame(s, df).Ok?
    ensures |LabFrame(s, df).value.rows| == |df.rows|
    ensures forall i :: 0 <= i < |df.rows| ==> Cell(LabFrame(s, df).value.rows[i], "lab_id") == LabId
    ensures forall i :: 0 <= i < |df.rows| ==> |Cell(LabFrame(s, df).value.rows[i], "sex")| <= 1
  {
    var df1 := InsertColumn(df, 0, "lab_id", LabId).value;
    var df1r := RenameColumns(s.renames, LabId, df1);
    var c := s.corrections;
    var df2 := Corrected(df1r, c, true).value;
    assert forall lab :: lab in c.keys ==> lab in c.m;
    FixLabsOk(df1r, c, c.keys, true);
    forall i | 0 <= i < |df.rows|
      ensures Cell(df2.rows[i], "lab_id") == LabId
    {
      assert Cell(df1.rows[i], "lab_id") == LabId;
      assert "lab_id" in df1.cols;
      if LabId in s.renames {
        assert df1r.rows[i] == Tables.RenameRow(df1.rows[i], df1.cols, s.renames[LabId]);
        RenameRowKeeps(df1.rows[i], df1.cols, s.renames[LabId], "lab_id");
      }
      FixLabsKeeps(df1r, c, c.keys, true, i, "lab_id");
    }
    assert LabFrame(s, df) == MapColumn(df2, "sex", SexCode);
  }

  /** The sex code a lab frame writes is the first letter of the file's own
      sex cell, when the lab's renames leave sex alone and no correction
      matches that cell. */
  lemma LabFrameSex(s: Settings, df: Table, i: nat)
    requires ValidCorrections(s.corrections) && LabFrame(s, df).Ok?
    requires i < |df.rows| && "sex" in df.cols
    requires LabId in s.renames ==>
      "sex" !in s.renames[LabId] && forall c :: c in s.renames[LabId] ==> s.renames[LabId][c] != "sex"
    requires forall lab :: lab in s.corrections.keys ==> Lookup(s.corrections, lab, "sex", Cell(df.rows[i], "sex")).None?
    ensures |LabFrame(s, df).value.rows| == |df.rows|
    ensures Cell(LabFrame(s, df).value.rows[i], "sex") == SexCode(Cell(df.rows[i], "sex"))
  {
    var df1 := InsertColumn(df, 0, "lab_id", LabId).value;
    var df1r := RenameColumns(s.renames, LabId, df1);
    var c := s.corrections;
    var df2 := Corrected(df1r, c, true).value;
    assert Cell(df1.rows[i], "sex") == Cell(df.rows[i], "sex");
    if LabId in s.renames {
      assert "sex" in df1.cols;
      assert df1r.rows[i] == Tables.RenameRow(df1.rows[i], df1.cols, s.renames[LabId]);
      RenameRowKeeps(df1.rows[i], df1.cols, s.renames[LabId], "sex");
    }
    CorrectedKeeps(df1r, c, true, i, "sex");
    assert LabFrame(s, df) == FixSex(df2);
  }

  /** As written (skipEmpty false): a fully cached file reaches
      `df['sex']` with an empty frame that only has lab_id, and the run
      stops with KeyError. */
  lemma FullyCachedFileFails(s: Settings, dfT: Table, t: Table)
    requires ValidCorrections(s.corrections) && !s.skipEmpty
    requires LabId in s.renames && "lab_id" in s.renames[LabId] ==> s.renames[LabId]["lab_id"] != "sex"
    requires FixDatatable(s, dfT, t) == Ok(Empty)
    ensures FileStep(s, dfT, t) == Err(KeyError("sex"))
  {
    EmptyLabFrameFails(s);
  }

  /** The empty frame only gets a lab_id column, so the sex fix finds no
      sex column. */
  lemma EmptyLabFrameFails(s: Settings)
    requires ValidCorrections(s.corrections)
    requires LabId in s.renames && "lab_id" in s.renames[LabId] ==> s.renames[LabId]["lab_id"] != "sex"
    ensures LabFrame(s, Empty) == Err(KeyError("sex"))
  {
    var df1 := InsertColumn(Empty, 0, "lab_id", LabId).value;
    assert df1.cols == ["lab_id"];
    var df1r := RenameColumns(s.renames, LabId, df1);
    var c := s.corrections;
    assert forall lab :: lab in c.keys ==> lab in c.m;
    FixLabsOk(df1r, c, c.keys, true);
    var df2 := Corrected(df1r, c, true).value;
    assert df2.cols == df1r.cols && |df1r.cols| == 1;
    assert "sex" !in df2.cols;
  }

  /** Corrected (skipEmpty true): a file that leaves nothing to add leaves
      dfT as it was. */
  lemma FullyCachedFileSkipped(s: Settings, dfT: Table, t: Table)
    requires ValidCorrections(s.corrections) && s.skipEmpty
    requires FixDatatable(s, dfT, t).Ok? && |FixDatatable(s, dfT, t).value.rows| == 0
    ensures FileStep(s, dfT, t) == Ok(dfT)
  {
  }

  /** Each file only appends: the rows already in dfT stay first, in order. */
  lemma FileStepAppends(s: Settings, dfT: Table, t: Table)
    requires ValidCorrections(s.corrections)
    ensures FileStep(s, dfT, t).Ok? ==> dfT.rows <= FileStep(s, dfT, t).value.rows
  {
  }

  /** The cache's rows (and every earlier file's) survive the whole loop. */
  lemma RunKeepsCache(s: Settings, cache: Table, files: seq<Table>)
    requires ValidCorrections(s.corrections)
    ensures Pipeline.Fold(cache, files, StepOf(s)).Ok? ==>
      cache.rows <= Pipeline.Fold(cache, files, StepOf(s)).value.rows
  {
    forall a, t | StepOf(s)(a, t).Ok? ensures a.rows <= StepOf(s)(a, t).value.rows {
      FileStepAppends(s, a, t);
    }
    Pipeline.FoldKeepsPrefix(cache, files, StepOf(s));
  }

  // ---- the output ----

  /** key_cols: the written columns, in order. */
  const KeyCols := ["lab_id", "test_id", "test_kit", "sample_id", "state", "location", "date_testing",
                    "epiweek", "age", "sex", "FLUA_test_result", "Ct_FluA", "FLUB_test_result", "Ct_FluB",
                    "VSR_test_result", "Ct_VSR", "SC2_test_result", "Ct_geneE", "Ct_geneN", "Ct_geneS",
                    "Ct_ORF1ab", "Ct_RDRP", "geneS_detection", "META_test_result", "RINO_test_result",
                    "PARA_test_result", "ADENO_test_result", "BOCA_test_result", "COVS_test_result",
                    "ENTERO_test_result", "BAC_test_result"]

  /** The whole run over the lab's files, from the cache (or an empty
      table) to the written output. */
  function Reformatted(s: Settings, cache: Table, files: seq<Table>,
                       parseDate: string -> Option<string>, epiweekOf: string -> string): (r: Result<Output>)
    requires ValidCorrections(s.corrections)
    ensures r.Ok? ==> r.value.table.cols == KeyCols && r.value.duplicates.cols == KeyCols
    ensures r.Ok? ==> SortedByKey(r.value.table.rows)
  {
    var dfT :- Pipeline.Fold(cache, files, StepOf(s));
    Finalize(dfT, parseDate, epiweekOf, PosNeg, KeyCols)
  }

  // ---- the loops ----

  /** fix_datatable with its request loops. */
  method FixTable(s: Settings, dfT: Table, t: Table) returns (r: Result<Table>)
    ensures r == FixDatatable(s, dfT, t)
  {
    var layout := Classify(t);
    if layout == Unknown {
      return Ok(t);
    }
    var ln := Prepared(layout, t);
    if ln.Err? {
      return Err(ln.error);
    }
    var kept := Dedup(ln.value.0, ln.value.1, dfT, DedupSettingOf(s), s.sha1);
    if kept.Err? {
      return Err(kept.error);
    }
    var l := kept.value.0;
    if IsEmpty(l) {
      return Ok(kept.value.1);
    }
    match layout
    case PainelViral =>
      if "Parametro" !in l.cols {
        return Err(KeyError("Parametro"));
      }
      r := PainelRequests(Keep(l.rows, NotControl("Parametro", PainelControls)), l.cols,
                          "Results_All" in l.cols, s.sticky);
    case ThermoFisher =>
      r := ThermoRequests(l);
    case Covid19 =>
      r := CovidRequests(l);
  }

  /** The file loop: `for filename in sorted(os.listdir(...))`, appending
      each file's frame to the accumulator. */
  method Run(acc: Pipeline.Accumulator, s: Settings, files: seq<Table>) returns (r: Result<Table>)
    requires ValidCorrections(s.corrections)
    modifies acc
    ensures r == Pipeline.Fold(old(acc.dfT), files, StepOf(s))
    ensures r.Ok? ==> acc.dfT == r.value
  {
    var i := 0;
    while i < |files|
      invariant 0 <= i <= |files|
      invariant Pipeline.Fold(old(acc.dfT), files, StepOf(s)) == Pipeline.Fold(acc.dfT, files[i..], StepOf(s))
    {
      assert files[i..][1..] == files[i + 1..];
      var df := FixTable(s, acc.dfT, files[i]);
      if df.Err? {
        return Err(df.error);
      }
      if !(s.skipEmpty && |df.value.rows| == 0) {
        var f := LabFrame(s, df.value);
        if f.Err? {
          return Err(f.error);
        }
        acc.Append(f.value);
      }
      i := i + 1;
    }
    assert files[i..] == [];
    r := Ok(acc.dfT);
  }

  /** The script: both catalogs, the cache, the file loop and the output.
      It runs with both corrections of the Findings. */
  method Reformat(cache: Option<Table>, correctionRows: seq<CorrectionRow>, allIds: seq<string>,
                  renameRows: seq<Catalog.RenameRow>, files: seq<Table>, sha1: string -> Digest,
                  parseDate: string -> Option<string>, epiweekOf: string -> string)
    returns (r: Result<Output>)
    requires EnumeratesIds(allIds, Selected(correctionRows, Some({LabId, "any"})))
    ensures r == Reformatted(Settings(cache.Some?, RenamesOf(renameRows),
                                      CorrectionsOf(Selected(correctionRows, Some({LabId, "any"})), allIds),
                                      sha1, true, true),
                             if cache.Some? then cache.value else Empty, files, parseDate, epiweekOf)
  {
    var corrections := BuildCorrections(correctionRows, Some({LabId, "any"}), allIds);
    var renames := BuildRenames(renameRows);
    var s := Settings(cache.Some?, renames, corrections, sha1, true, true);
    var acc := new Pipeline.Accumulator(if cache.Some? then cache.value else Empty);
    var dfT := Run(acc, s, files);
    if dfT.Err? {
      return Err(dfT.error);
    }
    r := Finalize(dfT.value, parseDate, epiweekOf, PosNeg, KeyCols);
  }
}
