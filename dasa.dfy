/** reformat_dasa.py: DASA's respiratory panel export (one row per target
    code, several rows per request) and its Thermo Fisher Covid-19 export
    (one row per sample), the loop that appends them to the accumulated
    table, and the pass over the whole table after it. */
module Dasa {
  import opened Wrappers
  import opened Text
  import opened Tables
  import opened Catalog
  import opened Records
  import opened Identity
  import opened Ct
  import opened Aggregate
  import Pipeline

  const LabId := "DASA"

  datatype Layout = Panel | Thermo | Unknown

  /** A `codigo` column marks the panel; else a `Gene S` column marks the
      Thermo Fisher export; any other file stops the script. */
  function Classify(t: Table): (l: Layout)
    ensures l == Panel <==> "codigo" in t.cols
    ensures l == Thermo <==> "codigo" !in t.cols && "Gene S" in t.cols
  {
    if "codigo" in t.cols then Panel
    else if "Gene S" in t.cols then Thermo
    else Unknown
  }

  // ---------------------------------------------------------------------
  // int() and str() of the panel's `positivo`
  // ---------------------------------------------------------------------

  /** The text after an optional sign. */
  function Unsigned(s: string): string {
    if |s| > 0 && (s[0] == '-' || s[0] == '+') then s[1..] else s
  }

  /** int(s): an optional sign and decimal digits; any other text (the
      empty one included) raises ValueError. */
  function ParseInt(s: string): (r: Result<int>)
    ensures r.Ok? <==> Unsigned(s) != [] && AllDigits(Unsigned(s))
    ensures r.Err? ==> r.error == ValueError(s)
  {
    var d := Unsigned(s);
    if d == [] || !AllDigits(d) then Err(ValueError(s))
    else
      var n: int := DigitsValue(d);
      if s[0] == '-' then Ok(-n) else Ok(n)
  }

  /** str(n) */
  function IntString(n: int): string {
    if n < 0 then "-" + NatToString(-n) else NatToString(n)
  }

  /** str() and int() are inverse: the value the panel stores for a
      target reads back as the number it parsed. */
  lemma ParseIntString(n: int)
    ensures ParseInt(IntString(n)) == Ok(n)
  {
    if n < 0 {
      var s := NatToString(-n);
      assert Unsigned("-" + s) == s;
    } else {
      var s := NatToString(n);
      assert IsDigit(s[0]);
      assert Unsigned(s) == s;
    }
  }

  /** The empty `positivo` raises ValueError, so a row without a value
      never reaches the script's "no Ct reported" branch. */
  lemma EmptyIsNoInt()
    ensures ParseInt("") == Err(ValueError(""))
  {
  }

  // ---------------------------------------------------------------------
  // The respiratory panel
  // ---------------------------------------------------------------------

  const Code := "codigorequisicao"
  const PanelIdColumns := ["codigorequisicao", "idade", "sexo", "data_exame", "cidade", "uf"]
  const PanelBlankCts := ["Ct_geneE", "Ct_ORF1ab"]

  const NotTested := "Not tested"
  const Detectado := "DETECTADO"
  const NaoDetectado := "NÃO DETECTADO"

  /** The result columns in the order of the panel's `pathogens` dict. */
  const PanelResultCols := [ResultCol("FLUA"), ResultCol("FLUB"), ResultCol("VSR"), ResultCol("SC2"),
                            ResultCol("META"), ResultCol("RINO"), ResultCol("PARA"), ResultCol("ADENO"),
                            ResultCol("BOCA"), ResultCol("COVS"), ResultCol("ENTERO"), ResultCol("BAC")]

  /** `target_pathogen`: the four target codes and the pathogen each reports. */
  function PathogenOfCode(k: string): (p: Option<string>)
    ensures p.Some? <==> k in CodeOrder
  {
    if k == "FLUA" then Some("FLUA")
    else if k == "FLUB" then Some("FLUB")
    else if k == "VSR" then Some("VSR")
    else if k == "COVID" then Some("SC2")
    else None
  }

  /** The codes in the order `groupby('pathogen')` visits their pathogens
      (FLUA, FLUB, SC2, VSR). */
  const CodeOrder := ["FLUA", "FLUB", "COVID", "VSR"]

  /** Two codes report two different pathogens, and a code is no result column. */
  lemma CodesApart(k: string, k': string)
    requires k in CodeOrder && k' in CodeOrder
    ensures k != k' ==> PathogenOfCode(k).value != PathogenOfCode(k').value
    ensures k != k' ==> ResultCol(PathogenOfCode(k).value) != ResultCol(PathogenOfCode(k').value)
    ensures k != ResultCol(PathogenOfCode(k').value)
    ensures ResultCol(PathogenOfCode(k).value) in PanelResultCols
    ensures k !in PanelResultCols
  {
    if k != k' && ResultCol(PathogenOfCode(k).value) == ResultCol(PathogenOfCode(k').value) {
      ResultColInjective(PathogenOfCode(k).value, PathogenOfCode(k').value);
    }
  }

  /** `dfR['codigo'].apply(lambda x: target_pathogen[x])`: the first code,
      in row order, that the panel does not know (its KeyError). */
  function FirstUnknownCode(g: seq<Row>): (u: Option<string>)
    ensures u.None? <==> forall i :: 0 <= i < |g| ==> Cell(g[i], "codigo") in CodeOrder
    ensures u.Some? ==> u.value !in CodeOrder && exists i :: 0 <= i < |g| && Cell(g[i], "codigo") == u.value
    decreases |g|
  {
    if g == [] then None
    else if Cell(g[0], "codigo") !in CodeOrder then Some(Cell(g[0], "codigo"))
    else
      var u := FirstUnknownCode(g[1..]);
      assert forall i :: 1 <= i < |g| ==> g[i] == g[1..][i - 1];
      u
  }

  /** `int(positivo) == genes[gene]`: 1 is a detection. */
  function Verdict(v: int): string {
    if v == 1 then Detectado else NaoDetectado
  }

  /** One row of `for idx, row in dfG.iterrows()`: `int(positivo)` is read
      for every row (KeyError without the column, ValueError for a text
      int() refuses); only a known code the record lacks writes its value
      and its pathogen's call. */
  function GeneStep(d: Record, cols: seq<string>, row: Row): (r: Result<Record>)
    ensures r.Ok? ==> forall x :: x in d.m ==> x in r.value.m
    ensures r.Ok? ==> forall x :: x in r.value.m && x !in d.m ==> x in CodeOrder || x in PanelResultCols
  {
    if "positivo" !in cols then Err(KeyError("positivo"))
    else
      var v :- ParseInt(Cell(row, "positivo"));
      var k := Cell(row, "codigo");
      if k in d.m || PathogenOfCode(k).None? then Ok(d)
      else
        CodesApart(k, k);
        Ok(Put(Put(d, k, IntString(v)), ResultCol(PathogenOfCode(k).value), Verdict(v)))
  }

  /** The target rows in turn. */
  function GeneFold(d: Record, cols: seq<string>, rs: seq<Row>): (r: Result<Record>)
    ensures r.Ok? ==> forall x :: x in d.m ==> x in r.value.m
    ensures r.Ok? ==> forall x :: x in r.value.m && x !in d.m ==> x in CodeOrder || x in PanelResultCols
    decreases |rs|
  {
    if rs == [] then Ok(d)
    else
      var d' :- GeneStep(d, cols, rs[0]);
      GeneFold(d', cols, rs[1..])
  }

  /** The first row of rs carrying code k. */
  function FirstWith(rs: seq<Row>, k: string): Option<Row>
    decreases |rs|
  {
    if rs == [] then None
    else if Cell(rs[0], "codigo") == k then Some(rs[0])
    else FirstWith(rs[1..], k)
  }

  /** Every row's `positivo` is a number. */
  predicate AllNumbers(rs: seq<Row>) {
    forall x :: x in rs ==> ParseInt(Cell(x, "positivo")).Ok?
  }

  /** The fold fails exactly when there are rows and either `positivo` is
      missing (KeyError) or some row's text is no number (ValueError). */
  lemma {:induction false} GeneFoldOk(d: Record, cols: seq<string>, rs: seq<Row>)
    ensures GeneFold(d, cols, rs).Ok? <==> rs == [] || ("positivo" in cols && AllNumbers(rs))
    ensures GeneFold(d, cols, rs).Err? ==>
      ("positivo" !in cols && GeneFold(d, cols, rs).error == KeyError("positivo")) ||
      ("positivo" in cols && GeneFold(d, cols, rs).error.ValueError?)
    decreases |rs|
  {
    if rs != [] {
      assert forall x :: x in rs <==> x == rs[0] || x in rs[1..];
      var st := GeneStep(d, cols, rs[0]);
      if st.Ok? {
        GeneFoldOk(st.value, cols, rs[1..]);
      }
    }
  }

  /** What the fold leaves for a known code k: when the record lacks k,
      the first row with code k writes its number and its pathogen's
      call and every later one is skipped; otherwise both stay. */
  lemma {:induction false} GeneFoldCall(d: Record, cols: seq<string>, rs: seq<Row>, k: string)
    requires k in CodeOrder && GeneFold(d, cols, rs).Ok?
    requires ResultCol(PathogenOfCode(k).value) in d.m
    ensures var r := GeneFold(d, cols, rs).value;
      var c := ResultCol(PathogenOfCode(k).value);
      var f := FirstWith(rs, k);
      c in r.m &&
      (k !in d.m && f.Some? ==>
        ParseInt(Cell(f.value, "positivo")).Ok? && k in r.m &&
        r.m[c] == Verdict(ParseInt(Cell(f.value, "positivo")).value) &&
        r.m[k] == IntString(ParseInt(Cell(f.value, "positivo")).value)) &&
      (k in d.m || f.None? ==> r.m[c] == d.m[c] && (k in d.m ==> k in r.m && r.m[k] == d.m[k]))
    decreases |rs|
  {
    if rs != [] {
      var c := ResultCol(PathogenOfCode(k).value);
      var d' := GeneStep(d, cols, rs[0]).value;
      var k0 := Cell(rs[0], "codigo");
      assert GeneFold(d, cols, rs) == GeneFold(d', cols, rs[1..]);
      if k0 in d.m || PathogenOfCode(k0).None? {
        assert d' == d;
        GeneFoldCall(d, cols, rs[1..], k);
      } else if k0 == k {
        GeneFoldKeeps(d', cols, rs[1..], k);
      } else {
        CodesApart(k, k0);
        CodesApart(k0, k);
        assert d'.m[c] == d.m[c] && (k in d'.m <==> k in d.m);
        GeneFoldCall(d', cols, rs[1..], k);
      }
    }
  }

  /** Once the record holds k and its call, the rest of the fold keeps both. */
  lemma {:induction false} GeneFoldKeeps(d: Record, cols: seq<string>, rs: seq<Row>, k: string)
    requires k in CodeOrder && k in d.m && GeneFold(d, cols, rs).Ok?
    requires ResultCol(PathogenOfCode(k).value) in d.m
    ensures var r := GeneFold(d, cols, rs).value;
      var c := ResultCol(PathogenOfCode(k).value);
      c in r.m && k in r.m && r.m[c] == d.m[c] && r.m[k] == d.m[k]
    decreases |rs|
  {
    if rs != [] {
      var d' := GeneStep(d, cols, rs[0]).value;
      var k0 := Cell(rs[0], "codigo");
      if !(k0 in d.m || PathogenOfCode(k0).None?) {
        CodesApart(k, k0);
        CodesApart(k0, k);
      }
      GeneFoldKeeps(d', cols, rs[1..], k);
    }
  }

  /** A key that is neither a code nor a code's call is left as it is. */
  lemma {:induction false} GeneFoldOthers(d: Record, cols: seq<string>, rs: seq<Row>, x: string)
    requires GeneFold(d, cols, rs).Ok? && x in d.m && x !in CodeOrder
    requires forall k :: k in CodeOrder ==> x != ResultCol(PathogenOfCode(k).value)
    ensures x in GeneFold(d, cols, rs).value.m && GeneFold(d, cols, rs).value.m[x] == d.m[x]
    decreases |rs|
  {
    if rs != [] {
      GeneFoldOthers(GeneStep(d, cols, rs[0]).value, cols, rs[1..], x);
    }
  }

  /** The first row with code k of a + b: a's, else b's. */
  lemma {:induction false} FirstWithAppend(a: seq<Row>, b: seq<Row>, k: string)
    ensures FirstWith(a + b, k) == if FirstWith(a, k).Some? then FirstWith(a, k) else FirstWith(b, k)
    decreases |a|
  {
    if a != [] {
      assert (a + b)[1..] == a[1..] + b;
      FirstWithAppend(a[1..], b, k);
    } else {
      assert a + b == b;
    }
  }

  /** Within the group of code k', the first row with code k is the
      file's first such row when k == k', and there is none otherwise. */
  lemma {:induction false} FirstWithGroup(g: seq<Row>, k: string, k': string)
    ensures FirstWith(GroupRows(g, "codigo", k'), k) == if k == k' then FirstWith(g, k) else None
    decreases |g|
  {
    if g != [] {
      var head := if Cell(g[0], "codigo") == k' then [g[0]] else [];
      FirstWithAppend(head, GroupRows(g[1..], "codigo", k'), k);
      FirstWithGroup(g[1..], k, k');
    }
  }

  /** Regrouping by code keeps each listed code's first row. */
  lemma {:induction false} FirstWithGroups(g: seq<Row>, ks: seq<string>, k: string)
    ensures FirstWith(Groups(g, "codigo", ks), k) == if k in ks then FirstWith(g, k) else None
    decreases |ks|
  {
    if ks != [] {
      FirstWithAppend(GroupRows(g, "codigo", ks[0]), Groups(g, "codigo", ks[1..]), k);
      FirstWithGroup(g, k, ks[0]);
      FirstWithGroups(g, ks[1..], k);
    }
  }

  /** `for virus, dfG in dfR.groupby('pathogen')`: the rows of each code,
      pathogen after pathogen, each in file order. */
  function InCodeOrder(g: seq<Row>): seq<Row> {
    Groups(g, "codigo", CodeOrder)
  }

  /** `data` before the target rows: the first row's cells, then every
      call 'Not tested'. */
  function PanelStart(cols: seq<string>, g: seq<Row>): Record {
    PutAll(Seed(NoData, cols, First(g)), PanelResultCols, NotTested)
  }

  /** One request's record: an unknown code raises KeyError before any
      target is read. */
  function PanelRecord(cols: seq<string>, g: seq<Row>): (r: Result<Record>)
    ensures r.Ok? ==> FirstUnknownCode(g).None?
    ensures r.Ok? ==> forall x :: x in cols || x in PanelResultCols ==> x in r.value.m
  {
    var u := FirstUnknownCode(g);
    if u.Some? then Err(KeyError(u.value))
    else GeneFold(PanelStart(cols, g), cols, InCodeOrder(g))
  }

  /** The record fails exactly when a code is unknown (KeyError naming
      the first one), when `positivo` is missing, or when some row's
      `positivo` is no number (an empty one included): ValueError. */
  lemma PanelRecordOk(cols: seq<string>, g: seq<Row>)
    ensures PanelRecord(cols, g).Ok? <==>
      FirstUnknownCode(g).None? && (g == [] || ("positivo" in cols && AllNumbers(g)))
    ensures FirstUnknownCode(g).Some? ==> PanelRecord(cols, g) == Err(KeyError(FirstUnknownCode(g).value))
    ensures FirstUnknownCode(g).None? && PanelRecord(cols, g).Err? ==>
      ("positivo" !in cols && PanelRecord(cols, g).error == KeyError("positivo")) ||
      ("positivo" in cols && PanelRecord(cols, g).error.ValueError?)
  {
    if FirstUnknownCode(g).None? {
      var rs := InCodeOrder(g);
      GeneFoldOk(PanelStart(cols, g), cols, rs);
      assert forall x :: x in rs <==> x in g;
      if g != [] {
        assert g[0] in rs;
      }
    }
  }

  /** A pathogen's call in a request: the verdict of the request's first
      row with the pathogen's code, when the file has no column named
      after the code; 'Not tested' when there is no such row. */
  lemma PanelCall(cols: seq<string>, g: seq<Row>, k: string)
    requires PanelRecord(cols, g).Ok? && k in CodeOrder
    ensures var r := PanelRecord(cols, g).value;
      var c := ResultCol(PathogenOfCode(k).value);
      var f := FirstWith(g, k);
      c in r.m &&
      (k !in cols && f.Some? ==>
        ParseInt(Cell(f.value, "positivo")).Ok? &&
        r.m[c] == Verdict(ParseInt(Cell(f.value, "positivo")).value) &&
        k in r.m && r.m[k] == IntString(ParseInt(Cell(f.value, "positivo")).value)) &&
      (k in cols || f.None? ==> r.m[c] == NotTested)
  {
    var d := PanelStart(cols, g);
    CodesApart(k, k);
    assert k in d.m <==> k in cols;
    FirstWithGroups(g, CodeOrder, k);
    GeneFoldCall(d, cols, InCodeOrder(g), k);
  }

  /** The other pathogens stay 'Not tested', and every other column holds
      the request's first row's cell. */
  lemma PanelRecordCells(cols: seq<string>, g: seq<Row>, x: string)
    requires PanelRecord(cols, g).Ok? && x !in CodeOrder
    requires forall k :: k in CodeOrder ==> x != ResultCol(PathogenOfCode(k).value)
    ensures var r := PanelRecord(cols, g).value;
      (x in PanelResultCols ==> x in r.m && r.m[x] == NotTested) &&
      (x in cols && x !in PanelResultCols ==> x in r.m && r.m[x] == Cell(First(g), x))
  {
    var d := PanelStart(cols, g);
    if x in d.m {
      GeneFoldOthers(d, cols, InCodeOrder(g), x);
    }
  }

  /** `for code, dfR in dfL.groupby('codigorequisicao')`: one record per
      request, in request order. */
  function PanelRecordOf(cols: seq<string>): seq<Row> -> Result<Record> {
    g => PanelRecord(cols, g)
  }

  function PanelRequests(l: Table): (r: Result<Table>)
    ensures r.Ok? ==> |r.value.rows| == |RequestKeys(l.rows, Code)|
  {
    PerRequest(l.rows, Code, RequestKeys(l.rows, Code), PanelRecordOf(l.cols))
  }

  /** Row i of the panel's frame carries, for each code, the verdict of
      the first row of request i with that code, or 'Not tested'. */
  lemma PanelRequestCall(l: Table, i: nat, k: string)
    requires PanelRequests(l).Ok? && i < |RequestKeys(l.rows, Code)| && k in CodeOrder && k !in l.cols
    ensures var ks := RequestKeys(l.rows, Code);
      var f := FirstWith(Request(l.rows, Code, ks[i]), k);
      var c := ResultCol(PathogenOfCode(k).value);
      var row := PanelRequests(l).value.rows[i];
      c in row &&
      (f.Some? ==>
        ParseInt(Cell(f.value, "positivo")).Ok? && row[c] == Verdict(ParseInt(Cell(f.value, "positivo")).value)) &&
      (f.None? ==> row[c] == NotTested)
  {
    var ks := RequestKeys(l.rows, Code);
    var g := Request(l.rows, Code, ks[i]);
    PerRequestRows(l.rows, Code, ks, PanelRecordOf(l.cols), i);
    assert PanelRecordOf(l.cols)(g) == PanelRecord(l.cols, g);
    var r := PanelRecord(l.cols, g).value;
    assert PanelRequests(l).value.rows[i] == r.m;
    PanelCall(l.cols, g, k);
    var c := ResultCol(PathogenOfCode(k).value);
    var f := FirstWith(g, k);

  }

  /** The panel's preparation: missing id columns and the two Ct columns
      added blank, then sample_id and test_kit ('test_4') inserted at
      position 1. */
  function PanelPrepared(t: Table): (r: Result<Table>)
    requires "codigo" in t.cols
    ensures r.Ok? <==> "sample_id" !in t.cols && "test_kit" !in t.cols
    ensures r.Ok? ==> |r.value.rows| == |t.rows| && forall c :: c in PanelIdColumns ==> c in r.value.cols
  {
    var a := SetColumns(AddMissing(t, PanelIdColumns), PanelBlankCts, "");
    assert "codigo" in a.cols;
    PanelColumnsApart();
    assert "sample_id" !in t.cols ==> "sample_id" !in AddMissing(t, PanelIdColumns).cols;
    assert "test_kit" !in t.cols ==> "test_kit" !in AddMissing(t, PanelIdColumns).cols;
    var b :- InsertColumn(a, 1, "sample_id", "");
    InsertColumn(b, 1, "test_kit", "test_4")
  }

  lemma PanelColumnsApart()
    ensures "sample_id" !in PanelIdColumns && "sample_id" !in PanelBlankCts
    ensures "test_kit" !in PanelIdColumns && "test_kit" !in PanelBlankCts
  {
  }

  // ---------------------------------------------------------------------
  // The Thermo Fisher export
  // ---------------------------------------------------------------------

  const ThermoIdColumns := ["requisicao", "data", "idade", "sexo", "cidade_norm", "uf_norm",
                            "Gene N", "Gene ORF", "Gene S"]
  const ThermoBlanks := ["birthdate", "Ct_FluA", "Ct_FluB", "Ct_VSR", "Ct_RDRP", "Ct_geneE"]

  /** Every pathogen of the dict but SC2, in its order. */
  const ThermoOtherResults := [ResultCol("FLUA"), ResultCol("FLUB"), ResultCol("VSR"),
                               ResultCol("META"), ResultCol("RINO"), ResultCol("PARA"), ResultCol("ADENO"),
                               ResultCol("BOCA"), ResultCol("COVS"), ResultCol("ENTERO"), ResultCol("BAC")]

  const NoResultColumn := "No 'result' column found."
  const UnknownFormat := "WARNING! Unknown file format. Check for inconsistencies."
  const Negative := "NAO DETECTADO"

  /** `resultado_norm`: NEGATIVO is a negative, anything else a detection. */
  function NormCall(x: string): string {
    if x == "NEGATIVO" then Negative else "DETECTADO"
  }

  /** `resultado_original`: NDT is a negative, anything else a detection. */
  function OriginalCall(x: string): string {
    if x == "NDT" then Negative else "DETECTADO"
  }

  /** The `resultado` column: as the file has it, else `resultado_norm`
      renamed and read, else `resultado_original` renamed and read, else
      the script exits. */
  function WithResult(t: Table): (r: Result<Table>)
    ensures r.Ok? <==> "resultado" in t.cols || "resultado_norm" in t.cols || "resultado_original" in t.cols
    ensures r.Err? ==> r.error == Exit(NoResultColumn)
    ensures r.Ok? ==> "resultado" in r.value.cols && |r.value.rows| == |t.rows| && |r.value.cols| == |t.cols|
  {
    if "resultado" in t.cols then Ok(t)
    else if "resultado_norm" in t.cols then
      var m := map["resultado_norm" := "resultado"];
      var n := Rename(t, m);
      RenamedHas(t, m, "resultado_norm");
      MapColumn(n, "resultado", NormCall)
    else if "resultado_original" in t.cols then
      var m := map["resultado_original" := "resultado"];
      var n := Rename(t, m);
      RenamedHas(t, m, "resultado_original");
      MapColumn(n, "resultado", OriginalCall)
    else Err(Exit(NoResultColumn))
  }

  /** A renamed column is there under its new name. */
  lemma RenamedHas(t: Table, m: map<string, string>, c: string)
    requires c in t.cols
    ensures NewName(m, c) in Rename(t, m).cols
  {
    var k :| 0 <= k < |t.cols| && t.cols[k] == c;
    assert Rename(t, m).cols[k] == NewName(m, c);
  }

  /** The fallbacks read the calls of the renamed column. */
  lemma ResultFallback(t: Table, i: nat)
    requires "resultado" !in t.cols && i < |t.rows| && WithResult(t).Ok?
    ensures "resultado_norm" in t.cols ==>
      Cell(WithResult(t).value.rows[i], "resultado") == NormCall(Cell(t.rows[i], "resultado_norm"))
    ensures "resultado_norm" !in t.cols ==>
      Cell(WithResult(t).value.rows[i], "resultado") == OriginalCall(Cell(t.rows[i], "resultado_original"))
  {
    var c := if "resultado_norm" in t.cols then "resultado_norm" else "resultado_original";
    var m := map[c := "resultado"];
    assert Rename(t, m).rows[i] == Tables.RenameRow(t.rows[i], t.cols, m);
    RenameRowTakes(t.rows[i], t.cols, m, c, "resultado");
  }

  /** `requisicao`: as the file has it, else `codigo_externo_do_paciente`
      renamed, else an empty column inserted at position 1. */
  function WithRequisicao(t: Table): (r: Table)
    requires |t.cols| >= 1
    ensures "requisicao" in r.cols && |r.rows| == |t.rows| && |r.cols| >= 1
    ensures forall c :: c in t.cols && c != "codigo_externo_do_paciente" ==> c in r.cols
  {
    if "requisicao" in t.cols then t
    else if "codigo_externo_do_paciente" in t.cols then
      var m := map["codigo_externo_do_paciente" := "requisicao"];
      RenamedHas(t, m, "codigo_externo_do_paciente");
      forall c | c in t.cols && c != "codigo_externo_do_paciente" ensures c in Rename(t, m).cols {
        RenamedHas(t, m, c);
      }
      Rename(t, m)
    else InsertColumn(t, 1, "requisicao", "").value
  }

  /** The Thermo Fisher table as deduplicate hashes it: the result and
      requisicao fallbacks, then the missing id columns added blank. */
  function ThermoBase(t: Table): (r: Result<Table>)
    requires "Gene S" in t.cols
    ensures r.Ok? <==> "resultado" in t.cols || "resultado_norm" in t.cols || "resultado_original" in t.cols
    ensures r.Err? ==> r.error == Exit(NoResultColumn)
    ensures r.Ok? ==> |r.value.rows| == |t.rows| && "resultado" in r.value.cols
    ensures r.Ok? ==> forall c :: c in ThermoIdColumns ==> c in r.value.cols
  {
    var a :- WithResult(t);
    Ok(AddMissing(WithRequisicao(a), ThermoIdColumns))
  }

  /** sample_id and test_kit ('thermo') inserted at position 1, then the
      blank birthdate and Ct columns. */
  function ThermoPrepared(b: Table): (r: Result<Table>)
    requires |b.cols| >= 1
    ensures r.Ok? <==> "sample_id" !in b.cols && "test_kit" !in b.cols
    ensures r.Ok? ==> |r.value.rows| == |b.rows| && forall c :: c in b.cols ==> c in r.value.cols
  {
    var c :- InsertColumn(b, 1, "sample_id", "");
    var d :- InsertColumn(c, 1, "test_kit", "thermo");
    Ok(SetColumns(d, ThermoBlanks, ""))
  }

  /** not_assigned(geo_data) */
  function NotAssigned(x: string): (r: string)
    ensures r == "" <==> x in ["", "SEM CIDADE", "MUDOU", "NAO_INFORMADO", "NAOINFORMADO"]
    ensures r != "" ==> r == x
  {
    if x in ["", "SEM CIDADE", "MUDOU", "NAO_INFORMADO", "NAOINFORMADO"] then "" else x
  }

  /** Clearing a place twice is clearing it once. */
  lemma NotAssignedIdempotent(x: string)
    ensures NotAssigned(NotAssigned(x)) == NotAssigned(x)
  {
  }

  /** A negative row's three Ct cells blanked. */
  function BlankRow(r: Row): Row {
    if Cell(r, "resultado") == Negative then r["Gene N" := ""]["Gene ORF" := ""]["Gene S" := ""] else r
  }

  predicate IsCtColumn(c: string) {
    c == "Gene N" || c == "Gene ORF" || c == "Gene S"
  }

  /** `for idx, row in dfL.iterrows()`, row by row. */
  function BlankNegatives(t: Table): (r: Table)
    ensures r.cols == t.cols && |r.rows| == |t.rows|
    ensures forall i :: 0 <= i < |t.rows| ==> r.rows[i] == BlankRow(t.rows[i])
  {
    Table(t.cols, seq(|t.rows|, i requires 0 <= i < |t.rows| => BlankRow(t.rows[i])))
  }

  /** Every row whose resultado is NAO DETECTADO loses its Gene N, Gene
      ORF and Gene S values; the other rows and every other cell stay. */
  lemma BlankNegativesCells(t: Table, i: nat, c: string)
    requires i < |t.rows|
    ensures Cell(BlankNegatives(t).rows[i], c) ==
      if Cell(t.rows[i], "resultado") == Negative && IsCtColumn(c) then "" else Cell(t.rows[i], c)
  {
  }

  /** Blanking twice is blanking once. */
  lemma BlankNegativesIdempotent(t: Table)
    ensures BlankNegatives(BlankNegatives(t)) == BlankNegatives(t)
  {
    var b := BlankNegatives(t);
    forall i | 0 <= i < |t.rows| ensures BlankRow(b.rows[i]) == b.rows[i] {
      BlankNegativesCells(t, i, "resultado");
    }
  }

  /** The calls the Thermo Fisher export sets are long names, none of its
      own columns. */
  lemma ThermoOthersLong()
    ensures forall c :: c in ThermoOtherResults ==> |c| >= 15
  {
  }

  /** Where the other calls stand among the columns the reshaping reads. */
  lemma ThermoOthersApart()
    ensures "cidade_norm" !in ThermoOtherResults && "uf_norm" !in ThermoOtherResults
    ensures "resultado" !in ThermoOtherResults && "sample_id" !in ThermoOtherResults
    ensures "Gene N" !in ThermoOtherResults && ResultCol("FLUA") in ThermoOtherResults
  {
    ThermoOthersLong();
  }

  /** After deduplicate: every call but SC2 'Not tested', the places
      cleared, the negatives' Ct values blanked. */
  function ThermoReshape(l: Table): (r: Result<Table>)
    ensures r.Ok? <==> "cidade_norm" in l.cols && "uf_norm" in l.cols
  {
    ThermoOthersLong();
    ReshapeWith(l, ThermoOtherResults)
  }

  function ReshapeWith(l: Table, others: seq<string>): (r: Result<Table>)
    requires "cidade_norm" !in others && "uf_norm" !in others
    ensures r.Ok? <==> "cidade_norm" in l.cols && "uf_norm" in l.cols
  {
    var a := SetColumns(l, others, NotTested);
    var b :- MapColumn(a, "cidade_norm", NotAssigned);
    var c :- MapColumn(b, "uf_norm", NotAssigned);
    Ok(BlankNegatives(c))
  }

  /** One cell after MapColumn: the mapped column changes, nothing else. */
  lemma MapColumnCell(t: Table, c: string, f: string -> string, i: nat, d: string)
    requires c in t.cols && i < |t.rows|
    ensures MapColumn(t, c, f).Ok? && i < |MapColumn(t, c, f).value.rows|
    ensures Cell(MapColumn(t, c, f).value.rows[i], d) ==
      if d == c then f(Cell(t.rows[i], c)) else Cell(t.rows[i], d)
  {
  }

  /** The cells before the Ct blanking: the other calls set, the two place
      columns cleared, every other cell kept. */
  lemma ReshapePlacesCell(a: Table, others: seq<string>, i: nat, c: string)
    requires "cidade_norm" in a.cols && "uf_norm" in a.cols && i < |a.rows|
    requires "cidade_norm" !in others && "uf_norm" !in others
    ensures var x := SetColumns(a, others, NotTested);
      "cidade_norm" in x.cols && i < |x.rows| &&
      var y := MapColumn(x, "cidade_norm", NotAssigned).value;
      "uf_norm" in y.cols && i < |y.rows| &&
      var z := MapColumn(y, "uf_norm", NotAssigned).value;
      i < |z.rows| &&
      Cell(z.rows[i], c) ==
        if c in others then NotTested
        else if c == "cidade_norm" || c == "uf_norm" then NotAssigned(Cell(a.rows[i], c))
        else Cell(a.rows[i], c)
  {
    var x := SetColumns(a, others, NotTested);
    MapColumnCell(x, "cidade_norm", NotAssigned, i, c);
    var y := MapColumn(x, "cidade_norm", NotAssigned).value;
    MapColumnCell(y, "uf_norm", NotAssigned, i, c);
    MapColumnCell(x, "cidade_norm", NotAssigned, i, "uf_norm");
  }

  /** The reshaping keeps the sample id, clears the place names, sets the
      other calls and blanks a negative row's Ct values. */
  lemma ReshapeCells(a: Table, others: seq<string>, i: nat, c: string)
    requires "cidade_norm" in a.cols && "uf_norm" in a.cols && i < |a.rows|
    requires "cidade_norm" !in others && "uf_norm" !in others && "resultado" !in others
    ensures var r := ReshapeWith(a, others);
      var neg := Cell(a.rows[i], "resultado") == Negative;
      r.Ok? && i < |r.value.rows| &&
      Cell(r.value.rows[i], c) ==
        if c in others then (if neg && IsCtColumn(c) then "" else NotTested)
        else if c == "cidade_norm" || c == "uf_norm" then NotAssigned(Cell(a.rows[i], c))
        else if neg && IsCtColumn(c) then ""
        else Cell(a.rows[i], c)
  {
    var x := SetColumns(a, others, NotTested);
    var y := MapColumn(x, "cidade_norm", NotAssigned).value;
    var z := MapColumn(y, "uf_norm", NotAssigned).value;
    assert ReshapeWith(a, others) == Ok(BlankNegatives(z));
    ReshapePlacesCell(a, others, i, "resultado");
    ReshapePlacesCell(a, others, i, c);
    BlankNegativesCells(z, i, c);
  }

  /** The four checked columns against the place and Ct columns. */
  lemma FourNames()
    ensures !IsCtColumn("sample_id") && !IsCtColumn("cidade_norm") && !IsCtColumn(ResultCol("FLUA"))
    ensures IsCtColumn("Gene N")
    ensures "sample_id" != "cidade_norm" && "sample_id" != "uf_norm"
    ensures "Gene N" != "cidade_norm" && "Gene N" != "uf_norm"
    ensures ResultCol("FLUA") != "cidade_norm" && ResultCol("FLUA") != "uf_norm"
  {
    assert |ResultCol("FLUA")| == 16;
  }

  /** The four cells the Thermo Fisher reshaping is checked on, for any
      list of other calls holding FLUA's and none of the columns read. */
  lemma ReshapeFour(a: Table, others: seq<string>, i: nat)
    requires "cidade_norm" in a.cols && "uf_norm" in a.cols && i < |a.rows|
    requires "cidade_norm" !in others && "uf_norm" !in others
    requires "resultado" !in others && "sample_id" !in others
    requires "Gene N" !in others && ResultCol("FLUA") in others
    ensures var r := ReshapeWith(a, others);
      var neg := Cell(a.rows[i], "resultado") == Negative;
      r.Ok? && i < |r.value.rows| &&
      Cell(r.value.rows[i], "sample_id") == Cell(a.rows[i], "sample_id") &&
      Cell(r.value.rows[i], "Gene N") == (if neg then "" else Cell(a.rows[i], "Gene N")) &&
      Cell(r.value.rows[i], "cidade_norm") == NotAssigned(Cell(a.rows[i], "cidade_norm")) &&
      Cell(r.value.rows[i], ResultCol("FLUA")) == NotTested
  {
    FourNames();
    ReshapeCells(a, others, i, "sample_id");
    ReshapeCells(a, others, i, "Gene N");
    ReshapeCells(a, others, i, "cidade_norm");
    ReshapeCells(a, others, i, ResultCol("FLUA"));
  }

  lemma ThermoReshapeCells(a: Table, i: nat)
    requires "cidade_norm" in a.cols && "uf_norm" in a.cols && i < |a.rows|
    ensures var r := ThermoReshape(a);
      var neg := Cell(a.rows[i], "resultado") == Negative;
      r.Ok? && i < |r.value.rows| &&
      Cell(r.value.rows[i], "sample_id") == Cell(a.rows[i], "sample_id") &&
      Cell(r.value.rows[i], "Gene N") == (if neg then "" else Cell(a.rows[i], "Gene N")) &&
      Cell(r.value.rows[i], "cidade_norm") == NotAssigned(Cell(a.rows[i], "cidade_norm")) &&
      Cell(r.value.rows[i], ResultCol("FLUA")) == NotTested
  {
    ThermoOthersApart();
    ReshapeFour(a, ThermoOtherResults, i);
  }

  /** The preparation keeps every cell but the two inserted columns and
      the blank ones. */
  lemma ThermoPreparedCells(b: Table, i: nat, c: string)
    requires |b.cols| >= 1 && ThermoPrepared(b).Ok? && i < |b.rows|
    requires c != "sample_id" && c != "test_kit" && c !in ThermoBlanks
    ensures Cell(ThermoPrepared(b).value.rows[i], c) == Cell(b.rows[i], c)
  {
    var t1 := InsertColumn(b, 1, "sample_id", "").value;
    var t2 := InsertColumn(t1, 1, "test_kit", "thermo").value;
    assert Cell(t2.rows[i], c) == Cell(b.rows[i], c);
  }

  // ---------------------------------------------------------------------
  // fix_datatable
  // ---------------------------------------------------------------------

  /** The cache flag, the catalogs and the digest. */
  datatype Settings = Settings(cached: bool, renames: map<string, map<string, string>>,
                               corrections: Corrections, sha1: string -> Digest)

  /** deduplicate keeps the whole 40-character digest. */
  function DedupSettingOf(s: Settings, layout: Layout): DedupSetting {
    DedupSetting(s.cached, if layout == Thermo then ThermoIdColumns else PanelIdColumns, 40, true)
  }

  /** fix_datatable(dfL, file) */
  function FixDatatable(s: Settings, dfT: Table, t: Table): (r: Result<Table>)
    ensures Classify(t) == Unknown ==> r == Err(Exit(UnknownFormat))
    ensures Classify(t) == Thermo && ThermoBase(t).Err? ==> r == Err(Exit(NoResultColumn))
  {
    match Classify(t)
    case Unknown => Err(Exit(UnknownFormat))
    case Panel =>
      var l :- PanelPrepared(t);
      var kept :- Dedup(l, Empty, dfT, DedupSettingOf(s, Panel), s.sha1);
      if IsEmpty(kept.0) then Ok(kept.1) else PanelRequests(kept.0)
    case Thermo =>
      var b :- ThermoBase(t);
      var l :- ThermoPrepared(b);
      var kept :- Dedup(l, l, dfT, DedupSettingOf(s, Thermo), s.sha1);
      if IsEmpty(kept.0) then Ok(kept.1) else ThermoReshape(kept.0)
  }

  /** The id columns are none of the columns the preparation writes. */
  lemma ThermoIdsApart(c: string)
    requires c in ThermoIdColumns || c == "resultado"
    ensures c != "sample_id" && c != "test_kit" && c != "unique_id" && c !in ThermoBlanks
  {
  }

  /** Without the cache, a Thermo Fisher file with rows is the reshaping
      of the prepared table with its ids assigned. */
  lemma ThermoFixed(s: Settings, dfT: Table, t: Table)
    requires Classify(t) == Thermo && !s.cached && |t.rows| > 0
    requires FixDatatable(s, dfT, t).Ok?
    ensures ThermoBase(t).Ok? && |ThermoBase(t).value.cols| >= 1
    ensures var l := ThermoPrepared(ThermoBase(t).value);
      l.Ok? && AssignIds(l.value, ThermoIdColumns, s.sha1, 40).Ok? &&
      FixDatatable(s, dfT, t) == ThermoReshape(AssignIds(l.value, ThermoIdColumns, s.sha1, 40).value)
  {
    var b := ThermoBase(t).value;
    var l := ThermoPrepared(b).value;
    var a := AssignIds(l, ThermoIdColumns, s.sha1, 40);
    assert Dedup(l, l, dfT, DedupSettingOf(s, Thermo), s.sha1) == Ok((a.value, l));
    assert |a.value.rows| > 0;
  }

  /** The prepared row carries the base row's id and result cells. */
  lemma ThermoPreparedIds(b: Table, i: nat)
    requires |b.cols| >= 1 && ThermoPrepared(b).Ok? && i < |b.rows|
    ensures var l := ThermoPrepared(b).value;
      i < |l.rows| &&
      UniqueId(l.rows[i], ThermoIdColumns) == UniqueId(b.rows[i], ThermoIdColumns) &&
      Cell(l.rows[i], "resultado") == Cell(b.rows[i], "resultado") &&
      Cell(l.rows[i], "Gene N") == Cell(b.rows[i], "Gene N") &&
      Cell(l.rows[i], "cidade_norm") == Cell(b.rows[i], "cidade_norm")
  {
    var l := ThermoPrepared(b).value;
    forall c | c in ThermoIdColumns ensures Cell(l.rows[i], c) == Cell(b.rows[i], c) {
      ThermoIdsApart(c);
      ThermoPreparedCells(b, i, c);
    }
    SameIdCellsSameUnique(l.rows[i], b.rows[i], ThermoIdColumns);
    ThermoIdsApart("resultado");
    ThermoPreparedCells(b, i, "resultado");
    ThermoIdsApart("Gene N");
    ThermoIdsApart("cidade_norm");
  }

  /** The written row of a prepared Thermo Fisher table against the row
      it was prepared from. */
  lemma ThermoWritten(b: Table, sha1: string -> Digest, i: nat)
    requires |b.cols| >= 1 && "cidade_norm" in b.cols && "uf_norm" in b.cols && i < |b.rows|
    requires ThermoPrepared(b).Ok?
    requires AssignIds(ThermoPrepared(b).value, ThermoIdColumns, sha1, 40).Ok?
    ensures var raw := b.rows[i];
      var r := ThermoReshape(AssignIds(ThermoPrepared(b).value, ThermoIdColumns, sha1, 40).value);
      var neg := Cell(raw, "resultado") == Negative;
      r.Ok? && i < |r.value.rows| &&
      Cell(r.value.rows[i], "sample_id") == SampleId(sha1, UniqueId(raw, ThermoIdColumns), 40) &&
      Cell(r.value.rows[i], "Gene N") == (if neg then "" else Cell(raw, "Gene N")) &&
      Cell(r.value.rows[i], "cidade_norm") == NotAssigned(Cell(raw, "cidade_norm"))
  {
    var a := AssignIds(ThermoPrepared(b).value, ThermoIdColumns, sha1, 40).value;
    ThermoAssignedRow(b, sha1, i);
    ThermoReshapeCells(a, i);
  }

  /** The row with its sample id, against the row it was prepared from. */
  lemma ThermoAssignedRow(b: Table, sha1: string -> Digest, i: nat)
    requires |b.cols| >= 1 && "cidade_norm" in b.cols && "uf_norm" in b.cols && i < |b.rows|
    requires ThermoPrepared(b).Ok?
    requires AssignIds(ThermoPrepared(b).value, ThermoIdColumns, sha1, 40).Ok?
    ensures var raw := b.rows[i];
      var a := AssignIds(ThermoPrepared(b).value, ThermoIdColumns, sha1, 40).value;
      "cidade_norm" in a.cols && "uf_norm" in a.cols && i < |a.rows| &&
      Cell(a.rows[i], "sample_id") == SampleId(sha1, UniqueId(raw, ThermoIdColumns), 40) &&
      Cell(a.rows[i], "resultado") == Cell(raw, "resultado") &&
      Cell(a.rows[i], "Gene N") == Cell(raw, "Gene N") &&
      Cell(a.rows[i], "cidade_norm") == Cell(raw, "cidade_norm")
  {
    var l := ThermoPrepared(b).value;
    var a := AssignIds(l, ThermoIdColumns, sha1, 40).value;
    ThermoPreparedIds(b, i);
    ThermoAssignKeeps(l, a, ThermoIdColumns, sha1, i);
  }

  /** Assigning the ids keeps the columns and the cells the reshaping reads. */
  lemma ThermoAssignKeeps(l: Table, a: Table, idCols: seq<string>, sha1: string -> Digest, i: nat)
    requires AssignIds(l, idCols, sha1, 40) == Ok(a) && i < |l.rows|
    ensures forall c :: c in l.cols ==> c in a.cols
    ensures i < |a.rows| && Cell(a.rows[i], "sample_id") == SampleId(sha1, UniqueId(l.rows[i], idCols), 40)
    ensures Cell(a.rows[i], "resultado") == Cell(l.rows[i], "resultado")
    ensures Cell(a.rows[i], "Gene N") == Cell(l.rows[i], "Gene N")
    ensures Cell(a.rows[i], "cidade_norm") == Cell(l.rows[i], "cidade_norm")
  {
    ThermoIdsApart("resultado");
    ThermoIdsApart("Gene N");
    ThermoIdsApart("cidade_norm");
  }

  /** The Thermo Fisher sample id is the full digest of the id cells as
      the file gave them (after the result and requisicao fallbacks):
      the place names are cleared and a negative row's Ct values blanked
      only afterwards, in the written row. */
  lemma ThermoIdBeforeBlanking(s: Settings, dfT: Table, t: Table, i: nat)
    requires Classify(t) == Thermo && !s.cached && i < |t.rows|
    requires FixDatatable(s, dfT, t).Ok?
    ensures ThermoBase(t).Ok?
    ensures var raw := ThermoBase(t).value.rows[i];
      var r := FixDatatable(s, dfT, t).value;
      var neg := Cell(raw, "resultado") == Negative;
      i < |r.rows| &&
      Cell(r.rows[i], "sample_id") == SampleId(s.sha1, UniqueId(raw, ThermoIdColumns), 40) &&
      |Cell(r.rows[i], "sample_id")| == 40 &&
      Cell(r.rows[i], "Gene N") == (if neg then "" else Cell(raw, "Gene N")) &&
      Cell(r.rows[i], "cidade_norm") == NotAssigned(Cell(raw, "cidade_norm"))
  {
    ThermoFixed(s, dfT, t);
    var b := ThermoBase(t).value;
    assert "cidade_norm" in ThermoIdColumns && "uf_norm" in ThermoIdColumns;
    ThermoWritten(b, s.sha1, i);
  }

  // ---------------------------------------------------------------------
  // The file loop
  // ---------------------------------------------------------------------

  /** The table deduplicate hashes, for either known layout. */
  function Prepared(t: Table): (r: Result<Table>)
    requires Classify(t) != Unknown
  {
    if Classify(t) == Panel then PanelPrepared(t)
    else
      var b :- ThermoBase(t);
      ThermoPrepared(b)
  }

  /** An unknown layout ends the run: exit() in fix_datatable. */
  lemma UnknownFileFails(s: Settings, dfT: Table, t: Table)
    requires Classify(t) == Unknown
    ensures FixDatatable(s, dfT, t) == Err(Exit(UnknownFormat))
    ensures FileStep(s, dfT, t) == Err(Exit(UnknownFormat))
  {
  }

  /** With a cache, a file whose every sample id is already in dfT gives
      the empty frame, and the file loop skips it. */
  lemma FullyCachedSkipped(s: Settings, dfT: Table, t: Table)
    requires Classify(t) != Unknown && s.cached && "sample_id" in dfT.cols
    requires Prepared(t).Ok?
    requires AllSeen(Prepared(t).value, dfT, DedupSettingOf(s, Classify(t)), s.sha1)
    ensures FixDatatable(s, dfT, t) == Ok(Empty)
    ensures FileStep(s, dfT, t) == Ok(dfT)
  {
    var l := Prepared(t).value;
    if Classify(t) == Panel {
      DedupAllSeen(l, Empty, dfT, DedupSettingOf(s, Panel), s.sha1);
    } else {
      var b := ThermoBase(t).value;
      assert |b.cols| >= 1 by { assert "resultado" in b.cols; }
      assert forall c :: c in ThermoIdColumns ==> c in l.cols;
      DedupAllSeen(l, l, dfT, DedupSettingOf(s, Thermo), s.sha1);
    }
  }

  /** `df.insert(0, 'lab_id', id)` and rename_columns(id, df). */
  function LabFrame(s: Settings, df: Table): (r: Result<Table>)
    ensures r.Ok? <==> "lab_id" !in df.cols
    ensures r.Ok? ==> |r.value.rows| == |df.rows| && |r.value.cols| == |df.cols| + 1
  {
    var f :- InsertColumn(df, 0, "lab_id", LabId);
    Ok(RenameColumns(s.renames, LabId, f))
  }

  /** One iteration of the file loop; an empty frame is skipped. The
      catalog of corrections waits for the end of the loop. */
  function FileStep(s: Settings, dfT: Table, t: Table): (r: Result<Table>)
    ensures r.Ok? ==> dfT.rows <= r.value.rows
    ensures FixDatatable(s, dfT, t).Err? ==> r == Err(FixDatatable(s, dfT, t).error)
    ensures FixDatatable(s, dfT, t).Ok? && IsEmpty(FixDatatable(s, dfT, t).value) ==> r == Ok(dfT)
    ensures FixDatatable(s, dfT, t).Ok? && !IsEmpty(FixDatatable(s, dfT, t).value) ==>
      var f := LabFrame(s, FixDatatable(s, dfT, t).value);
      (r.Ok? <==> f.Ok?) &&
      (r.Ok? ==> r.value.rows == dfT.rows + f.value.rows &&
                 forall c :: c in r.value.cols <==> c in dfT.cols || c in f.value.cols)
  {
    var df :- FixDatatable(s, dfT, t);
    if IsEmpty(df) then Ok(dfT)
    else
      var f :- LabFrame(s, df);
      Ok(Concat(dfT, f))
  }

  function StepOf(s: Settings): (Table, Table) -> Result<Table> {
    (a, t) => FileStep(s, a, t)
  }

  /** The cache's rows (and every earlier file's) survive the whole loop. */
  lemma RunKeepsCache(s: Settings, cache: Table, files: seq<Table>)
    ensures Pipeline.Fold(cache, files, StepOf(s)).Ok? ==>
      cache.rows <= Pipeline.Fold(cache, files, StepOf(s)).value.rows
  {
    Pipeline.FoldKeepsPrefix(cache, files, StepOf(s));
  }

  /** A file of unknown layout anywhere in the folder ends the whole run
      with an error, whatever the files before it did. */
  lemma UnknownFileStopsRun(s: Settings, acc: Table, files: seq<Table>, i: nat)
    requires i < |files| && Classify(files[i]) == Unknown
    ensures Pipeline.Fold(acc, files, StepOf(s)).Err?
  {
    forall a ensures StepOf(s)(a, files[i]).Err? {
      UnknownFileFails(s, a, files[i]);
    }
    Pipeline.FoldStops(acc, files, StepOf(s), i);
  }

  // ---------------------------------------------------------------------
  // After the file loop
  // ---------------------------------------------------------------------

  /** key_cols: the written columns, in order. */
  const KeyCols := ["lab_id", "test_id", "test_kit", "sample_id", "region", "state", "location", "sex",
                    "date_testing", "epiweek", "age", "FLUA_test_result", "Ct_FluA", "FLUB_test_result",
                    "Ct_FluB", "VSR_test_result", "Ct_VSR", "SC2_test_result", "Ct_geneE", "Ct_geneN",
                    "Ct_geneS", "Ct_ORF1ab", "Ct_RDRP", "geneS_detection", "META_test_result",
                    "RINO_test_result", "PARA_test_result", "ADENO_test_result", "BOCA_test_result",
                    "COVS_test_result", "ENTERO_test_result", "BAC_test_result"]

  /** After the loop: the catalog of corrections over the whole table
      (`dfT[column]` raising KeyError for a column dfT lacks), dates and
      epiweeks, the sex code, the gene S call, then the projection, the
      duplicate report, drop_duplicates(keep='last') and the sort. */
  function Finalized(s: Settings, dfT: Table, parseDate: string -> Option<string>,
                     epiweekOf: string -> string): (r: Result<Output>)
    requires ValidCorrections(s.corrections)
    ensures r.Ok? ==> r.value.table.cols == KeyCols && r.value.duplicates.cols == KeyCols
    ensures r.Ok? ==> SortedByKey(r.value.table.rows)
  {
    var c :- Corrected(dfT, s.corrections, false);
    var d :- Dates(c, parseDate, epiweekOf);
    var x :- FixSex(d);
    Finish(AddDetection(x, Detected), KeyCols)
  }

  /** What check_detection can answer in DASA's words. */
  lemma DetectionWords(ct: string)
    ensures CheckDetection(ct, Detected) in ["Detected", "Not detected", ""]
  {
  }

  /** The gene S step keeps the sex code and writes a call in DASA's words. */
  lemma DetectedCells(x: Table, j: nat)
    requires j < |x.rows|
    ensures j < |AddDetection(x, Detected).rows|
    ensures Cell(AddDetection(x, Detected).rows[j], "sex") == Cell(x.rows[j], "sex")
    ensures "Ct_geneS" in x.cols ==>
      Cell(AddDetection(x, Detected).rows[j], "geneS_detection") in ["Detected", "Not detected", ""]
  {
    DetectionWords(Cell(x.rows[j], "Ct_geneS"));
  }

  /** Every written row is the projection of some row of the table. */
  lemma WrittenFrom(y: Table, i: nat)
    requires forall c :: c in KeyCols ==> c in y.cols
    ensures Finish(y, KeyCols).Ok?
    ensures i < |Finish(y, KeyCols).value.table.rows| ==>
      exists j :: 0 <= j < |y.rows| && Finish(y, KeyCols).value.table.rows[i] == ProjectRow(y.rows[j], KeyCols)
  {
    FinishMeaning(y, KeyCols);
    var out := Finish(y, KeyCols).value.table;
    if i < |out.rows| {
      assert out.rows[i] in out.rows;
    }
  }

  /** The two cells FinalizedMeaning speaks of, row by row. */
  lemma FinalizedCells(x: Table, i: nat)
    requires forall c :: c in KeyCols ==> c in AddDetection(x, Detected).cols
    requires forall j :: 0 <= j < |x.rows| ==> |Cell(x.rows[j], "sex")| <= 1
    ensures Finish(AddDetection(x, Detected), KeyCols).Ok?
    ensures var out := Finish(AddDetection(x, Detected), KeyCols).value.table;
      i < |out.rows| ==>
        |Cell(out.rows[i], "sex")| <= 1 &&
        ("Ct_geneS" in x.cols ==> Cell(out.rows[i], "geneS_detection") in ["Detected", "Not detected", ""])
  {
    var y := AddDetection(x, Detected);
    WrittenFrom(y, i);
    var out := Finish(y, KeyCols).value.table;
    if i < |out.rows| {
      var j :| 0 <= j < |y.rows| && out.rows[i] == ProjectRow(y.rows[j], KeyCols);
      DetectedCells(x, j);
      assert "sex" in KeyCols && "geneS_detection" in KeyCols;
    }
  }

  /** The written table has exactly the key columns, no two equal rows,
      is sorted by lab, test and date; every sex code is at most one
      letter, and when dfT has a Ct_geneS column every gene S call is
      Detected, Not detected or empty. */
  lemma FinalizedMeaning(s: Settings, dfT: Table, parseDate: string -> Option<string>,
                         epiweekOf: string -> string)
    requires ValidCorrections(s.corrections)
    ensures Finalized(s, dfT, parseDate, epiweekOf).Ok? ==>
      var out := Finalized(s, dfT, parseDate, epiweekOf).value.table;
      out.cols == KeyCols && SortedByKey(out.rows) &&
      (forall i, j :: 0 <= i < j < |out.rows| ==> out.rows[i] != out.rows[j]) &&
      (forall i :: 0 <= i < |out.rows| ==> |Cell(out.rows[i], "sex")| <= 1) &&
      ("Ct_geneS" in dfT.cols ==>
        forall i :: 0 <= i < |out.rows| ==>
          Cell(out.rows[i], "geneS_detection") in ["Detected", "Not detected", ""])
  {
    if Finalized(s, dfT, parseDate, epiweekOf).Ok? {
      assert forall lab :: lab in s.corrections.keys ==> lab in s.corrections.m;
      FixLabsOk(dfT, s.corrections, s.corrections.keys, false);
      var c := Corrected(dfT, s.corrections, false).value;
      var d := Dates(c, parseDate, epiweekOf).value;
      var x := FixSex(d).value;
      var y := AddDetection(x, Detected);
      assert Finalized(s, dfT, parseDate, epiweekOf) == Finish(y, KeyCols);
      FinishMeaning(y, KeyCols);
      forall i | 0 <= i < |Finish(y, KeyCols).value.table.rows|
        ensures |Cell(Finish(y, KeyCols).value.table.rows[i], "sex")| <= 1
        ensures "Ct_geneS" in x.cols ==>
          Cell(Finish(y, KeyCols).value.table.rows[i], "geneS_detection") in ["Detected", "Not detected", ""]
      {
        FinalizedCells(x, i);
      }
      assert "Ct_geneS" in dfT.cols ==> "Ct_geneS" in x.cols;
    }
  }

  /** With no correction matching a sex cell of dfT, every written sex code
      is the first letter of the sex cell of some row of dfT. */
  lemma FinalizedSex(s: Settings, dfT: Table, parseDate: string -> Option<string>,
                     epiweekOf: string -> string)
    requires ValidCorrections(s.corrections)
    requires Uncorrected(s.corrections, "sex", dfT.rows)
    ensures Finalized(s, dfT, parseDate, epiweekOf).Ok? ==>
      SexCodesFrom(Finalized(s, dfT, parseDate, epiweekOf).value.table.rows, dfT.rows)
  {
    if Finalized(s, dfT, parseDate, epiweekOf).Ok? {
      var c := Corrected(dfT, s.corrections, false).value;
      var d := Dates(c, parseDate, epiweekOf).value;
      var x := FixSex(d).value;
      var y := AddDetection(x, Detected);
      assert Finalized(s, dfT, parseDate, epiweekOf) == Finish(y, KeyCols);
      forall j | 0 <= j < |y.rows|
        ensures Cell(y.rows[j], "sex") == SexCode(Cell(dfT.rows[j], "sex"))
      {
        assert forall lab :: lab in s.corrections.keys ==> Lookup(s.corrections, lab, "sex", Cell(dfT.rows[j], "sex")).None?;
        CorrectedKeeps(dfT, s.corrections, false, j, "sex");
        DatesKeep(c, parseDate, epiweekOf, j, "sex");
        DetectedCells(x, j);
      }
      assert "sex" in KeyCols;
      FinishSexCodes(y, KeyCols, dfT.rows);
    }
  }


  /** The correction pass stops the run exactly when the catalog names a
      column the accumulated table lacks. */
  lemma CorrectionsNeedColumns(s: Settings, dfT: Table)
    requires ValidCorrections(s.corrections)
    ensures Corrected(dfT, s.corrections, false).Ok? <==>
      forall lab, col :: lab in s.corrections.keys && col in s.corrections.m[lab].keys ==> col in dfT.cols
  {
    assert forall lab :: lab in s.corrections.keys ==> lab in s.corrections.m;
    FixLabsOk(dfT, s.corrections, s.corrections.keys, false);
  }

  /** The whole run over the lab's files, from the cache (or an empty
      table) to the written output. */
  function Reformatted(s: Settings, cache: Table, files: seq<Table>,
                       parseDate: string -> Option<string>, epiweekOf: string -> string): (r: Result<Output>)
    requires ValidCorrections(s.corrections)
    ensures r.Ok? ==> r.value.table.cols == KeyCols && r.value.duplicates.cols == KeyCols
    ensures r.Ok? ==> SortedByKey(r.value.table.rows)
  {
    var dfT :- Pipeline.Fold(cache, files, StepOf(s));
    Finalized(s, dfT, parseDate, epiweekOf)
  }

  // ---------------------------------------------------------------------
  // The loops
  // ---------------------------------------------------------------------

  /** `for virus, dfG in dfR.groupby('pathogen'): for idx, row in dfG.iterrows()`:
      the target rows in turn, `int(positivo)` read before the code is
      looked at. */
  method ResolveGenes(d0: Record, cols: seq<string>, rs: seq<Row>) returns (r: Result<Record>)
    ensures r == GeneFold(d0, cols, rs)
  {
    var d := d0;
    var k := 0;
    while k < |rs|
      invariant 0 <= k <= |rs|
      invariant GeneFold(d, cols, rs[k..]) == GeneFold(d0, cols, rs)
    {
      assert rs[k..][1..] == rs[k + 1..];
      if "positivo" !in cols {
        return Err(KeyError("positivo"));
      }
      var v := ParseInt(Cell(rs[k], "positivo"));
      if v.Err? {
        return Err(v.error);
      }
      var gene := Cell(rs[k], "codigo");
      var p := PathogenOfCode(gene);
      if gene !in d.m && p.Some? {
        d := Put(d, gene, IntString(v.value));
        d := Put(d, ResultCol(p.value), Verdict(v.value));
      }
      k := k + 1;
    }
    assert rs[k..] == [];
    r := Ok(d);
  }

  /** One request's data dict. */
  method BuildPanelRecord(cols: seq<string>, g: seq<Row>) returns (r: Result<Record>)
    ensures r == PanelRecord(cols, g)
  {
    var u := FirstUnknownCode(g);
    if u.Some? {
      return Err(KeyError(u.value));
    }
    r := ResolveGenes(PanelStart(cols, g), cols, InCodeOrder(g));
  }

  /** `for i, (code, dfR) in enumerate(dfL.groupby('codigorequisicao'))` */
  method PanelRows(l: Table) returns (r: Result<Table>)
    ensures r == PanelRequests(l)
  {
    var ks := RequestKeys(l.rows, Code);
    var record := PanelRecordOf(l.cols);
    r := Ok(Empty);
    var i := 0;
    while i < |ks|
      invariant 0 <= i <= |ks|
      invariant r == PerRequest(l.rows, Code, ks[..i], record)
    {
      PerRequestStep(l.rows, Code, ks, i, record);
      if r.Ok? {
        var g := Request(l.rows, Code, ks[i]);
        var d := BuildPanelRecord(l.cols, g);
        assert d == record(g);
        if d.Ok? {
          r := Ok(AppendRecord(r.value, d.value));
        } else {
          r := Err(d.error);
        }
      }
      i := i + 1;
    }
    assert ks[..i] == ks;
  }

  /** `for idx, row in dfL.iterrows()`: a negative row's Ct cells blanked
      in place. */
  method BlankRows(t: Table) returns (r: Table)
    ensures r == BlankNegatives(t)
  {
    var rows := t.rows;
    var i := 0;
    while i < |rows|
      invariant 0 <= i <= |rows| && |rows| == |t.rows|
      invariant forall j :: 0 <= j < i ==> rows[j] == BlankRow(t.rows[j])
      invariant forall j :: i <= j < |rows| ==> rows[j] == t.rows[j]
    {
      if Cell(rows[i], "resultado") == Negative {
        rows := rows[i := rows[i]["Gene N" := ""]["Gene ORF" := ""]["Gene S" := ""]];
      }
      i := i + 1;
    }
    r := Table(t.cols, rows);
    assert r.rows == BlankNegatives(t).rows;
  }

  /** fix_datatable with its loops. */
  method FixTable(s: Settings, dfT: Table, t: Table) returns (r: Result<Table>)
    ensures r == FixDatatable(s, dfT, t)
  {
    var layout := Classify(t);
    if layout == Unknown {
      return Err(Exit(UnknownFormat));
    }
    if layout == Panel {
      var l := PanelPrepared(t);
      if l.Err? {
        return Err(l.error);
      }
      var kept := Dedup(l.value, Empty, dfT, DedupSettingOf(s, Panel), s.sha1);
      if kept.Err? {
        return Err(kept.error);
      }
      if IsEmpty(kept.value.0) {
        return Ok(kept.value.1);
      }
      r := PanelRows(kept.value.0);
    } else {
      var b := ThermoBase(t);
      if b.Err? {
        return Err(b.error);
      }
      var l := ThermoPrepared(b.value);
      if l.Err? {
        return Err(l.error);
      }
      var kept := Dedup(l.value, l.value, dfT, DedupSettingOf(s, Thermo), s.sha1);
      if kept.Err? {
        return Err(kept.error);
      }
      if IsEmpty(kept.value.0) {
        return Ok(kept.value.1);
      }
      ThermoOthersApart();
      var x := SetColumns(kept.value.0, ThermoOtherResults, NotTested);
      var y := MapColumn(x, "cidade_norm", NotAssigned);
      if y.Err? {
        return Err(y.error);
      }
      var z := MapColumn(y.value, "uf_norm", NotAssigned);
      if z.Err? {
        return Err(z.error);
      }
      var w := BlankRows(z.value);
      r := Ok(w);
    }
  }

  /** The file loop: `for filename in sorted(os.listdir(...))`, appending
      each file's frame to the accumulator. */
  method Run(acc: Pipeline.Accumulator, s: Settings, files: seq<Table>) returns (r: Result<Table>)
    modifies acc
    ensures r == Pipeline.Fold(old(acc.dfT), files, StepOf(s))
    ensures r.Ok? ==> acc.dfT == r.value
  {
    var i := 0;
    while i < |files|
      invariant 0 <= i <= |files|
      invariant Pipeline.Fold(old(acc.dfT), files, StepOf(s)) == Pipeline.Fold(acc.dfT, files[i..], StepOf(s))
    {
      assert files[i..][1..] == files[i + 1..];
      var df := FixTable(s, acc.dfT, files[i]);
      if df.Err? {
        return Err(df.error);
      }
      if !IsEmpty(df.value) {
        var f := LabFrame(s, df.value);
        if f.Err? {
          return Err(f.error);
        }
        acc.Append(f.value);
      }
      i := i + 1;
    }
    assert files[i..] == [];
    r := Ok(acc.dfT);
  }

  /** The script: the catalogs, the cache, the file loop, the correction
      pass and the output. */
  method Reformat(cache: Option<Table>, correctionRows: seq<CorrectionRow>, allIds: seq<string>,
                  renameRows: seq<Catalog.RenameRow>, files: seq<Table>, sha1: string -> Digest,
                  parseDate: string -> Option<string>, epiweekOf: string -> string)
    returns (r: Result<Output>)
    requires EnumeratesIds(allIds, Selected(correctionRows, None))
    ensures r == Reformatted(Settings(cache.Some?, RenamesOf(renameRows),
                                      CorrectionsOf(Selected(correctionRows, None), allIds), sha1),
                             if cache.Some? then cache.value else Empty, files, parseDate, epiweekOf)
  {
    var corrections := BuildCorrections(correctionRows, None, allIds);
    var renames := BuildRenames(renameRows);
    var s := Settings(cache.Some?, renames, corrections, sha1);
    var acc := new Pipeline.Accumulator(if cache.Some? then cache.value else Empty);
    var dfT := Run(acc, s, files);
    if dfT.Err? {
      return Err(dfT.error);
    }
    var c := ApplyCorrections(dfT.value, corrections, false);
    if c.Err? {
      return Err(c.error);
    }
    var d := Dates(c.value, parseDate, epiweekOf);
    if d.Err? {
      return Err(d.error);
    }
    var x := FixSex(d.value);
    if x.Err? {
      return Err(x.error);
    }
    r := Finish(AddDetection(x.value, Detected), KeyCols);
  }
}
