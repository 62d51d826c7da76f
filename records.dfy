/** The `data` dicts the reformatters build one per request and append to
    the output frame (`dfN = dfN.append(data, ignore_index=True)`). A dict
    keeps its insertion order, which becomes the order of the new columns. */
module Records {
  import opened Wrappers
  import opened Tables
  import opened Catalog

  type Record = ODict<string>

  const NoData: Record := ODict([], map[])

  lemma NoDataValid()
    ensures ValidDict(NoData)
  {
  }

  /** The `<pathogen>_test_result` column of a pathogen. */
  function ResultCol(p: string): (c: string)
    ensures |c| == |p| + 12
  {
    p + "_test_result"
  }

  lemma ResultColInjective(p: string, q: string)
    requires ResultCol(p) == ResultCol(q)
    ensures p == q
  {
    assert p == ResultCol(p)[..|p|];
  }

  /** The pathogens of every script's `pathogens` dict, in its order. */
  const Pathogens := ["SC2", "FLUA", "FLUB", "VSR", "META", "RINO", "PARA", "ADENO", "BOCA", "COVS", "ENTERO", "BAC"]

  /** Their result columns, in the same order. */
  const ResultCols := [ResultCol("SC2"), ResultCol("FLUA"), ResultCol("FLUB"), ResultCol("VSR"),
                       ResultCol("META"), ResultCol("RINO"), ResultCol("PARA"), ResultCol("ADENO"),
                       ResultCol("BOCA"), ResultCol("COVS"), ResultCol("ENTERO"), ResultCol("BAC")]

  /** Every pathogen but SC2. */
  const OtherResultCols := ResultCols[1..]

  /** A result column is at least 15 characters long, longer than any
      other column a reformatter writes. */
  lemma ResultColsLong(c: string)
    requires c in ResultCols
    ensures |c| >= 15
  {
    var i :| 0 <= i < |ResultCols| && ResultCols[i] == c;
    assert ResultCols[i] == ResultCol(Pathogens[i]);
  }

  /** The pathogens are twelve different names. */
  lemma PathogensDistinct()
    ensures forall i, j :: 0 <= i < j < |Pathogens| ==> Pathogens[i] != Pathogens[j]
  {
  }

  /** `for col in cols: data[col] = first[col]` */
  function Seed(d: Record, cols: seq<string>, first: Row): (r: Record)
    ensures ValidDict(d) ==> ValidDict(r)
    ensures forall c :: c in r.m <==> c in d.m || c in cols
    ensures forall c :: c in cols ==> r.m[c] == Cell(first, c)
    ensures forall c :: c in d.m && c !in cols ==> r.m[c] == d.m[c]
    decreases |cols|
  {
    if cols == [] then d else Seed(Put(d, cols[0], Cell(first, cols[0])), cols[1..], first)
  }

  /** `for k in keys: data[k] = v`: the keys the dict lacks are added in
      their order, all with value v. */
  function PutAll(d: Record, keys: seq<string>, v: string): (r: Record)
    ensures ValidDict(d) ==> ValidDict(r)
    ensures forall c :: c in r.m <==> c in d.m || c in keys
    ensures forall c :: c in keys ==> r.m[c] == v
    ensures forall c :: c in d.m && c !in keys ==> r.m[c] == d.m[c]
  {
    AppendNewValid(d, keys, map k | k in keys :: v);
    ODict(d.keys + NewColumns(d.keys, keys), d.m + map k | k in keys :: v)
  }

  lemma AppendNewValid(d: Record, keys: seq<string>, add: map<string, string>)
    requires add.Keys == set k | k in keys
    ensures ValidDict(d) ==> ValidDict(ODict(d.keys + NewColumns(d.keys, keys), d.m + add))
  {
    if ValidDict(d) {
      var ks := d.keys + NewColumns(d.keys, keys);
      var n := NewColumns(d.keys, keys);
      NewColumnsDistinct(d.keys, keys);
      forall i, j | 0 <= i < j < |ks| ensures ks[i] != ks[j] {
        if j >= |d.keys| {
          assert ks[j] == n[j - |d.keys|];
          if i >= |d.keys| { assert ks[i] == n[i - |d.keys|]; }
          else { assert ks[i] in d.keys; }
        }
      }
    }
  }

  /** dfN.append(data): one more row; the keys the frame lacks become new
      columns, in the dict's order. */
  function AppendRecord(t: Table, d: Record): (r: Table)
    ensures r.rows == t.rows + [d.m]
    ensures forall c :: c in r.cols <==> c in t.cols || c in d.keys
  {
    Table(t.cols + NewColumns(t.cols, d.keys), t.rows + [d.m])
  }

  /** The rows of request k (`dfL.groupby(c)` gives one group per key,
      and a key taken from the column has at least one row). */
  function Request(rows: seq<Row>, c: string, k: string): (g: seq<Row>)
    ensures k in Column(Table([], rows), c) ==> |g| > 0
  {
    var vs := Column(Table([], rows), c);
    if k in vs then
      var i :| 0 <= i < |vs| && vs[i] == k;
      assert rows[i] in GroupRows(rows, c, k);
      GroupRows(rows, c, k)
    else GroupRows(rows, c, k)
  }

  /** The keys `groupby(c)` visits, in sorted order; each has rows. */
  function RequestKeys(rows: seq<Row>, c: string): (ks: seq<string>)
    ensures StrictlySorted(ks)
    ensures forall k :: k in ks <==> k in Column(Table([], rows), c)
    ensures forall k :: k in ks ==> |Request(rows, c, k)| > 0
  {
    GroupKeys(Column(Table([], rows), c))
  }

  /** `dfR[col].tolist()[0]`: the first row of a group (a group always
      has one, since its key was read from a row). */
  function First(g: seq<Row>): Row {
    if g == [] then map[] else g[0]
  }

  /** `for code, dfR in dfL.groupby(c): ... dfN = dfN.append(data)` over the
      keys ks: one record per key, built by record from that key's rows,
      appended in key order to an initially empty frame. */
  function PerRequest(rows: seq<Row>, c: string, ks: seq<string>, record: seq<Row> -> Result<Record>)
    : (r: Result<Table>)
    ensures r.Ok? ==> |r.value.rows| == |ks|
    decreases |ks|
  {
    if ks == [] then Ok(Empty)
    else
      var t :- PerRequest(rows, c, ks[..|ks| - 1], record);
      var d :- record(Request(rows, c, ks[|ks| - 1]));
      Ok(AppendRecord(t, d))
  }

  /** The frame fails exactly when some request's record does. */
  lemma {:induction false} PerRequestOk(rows: seq<Row>, c: string, ks: seq<string>,
                                        record: seq<Row> -> Result<Record>)
    ensures PerRequest(rows, c, ks, record).Ok? <==>
      forall i :: 0 <= i < |ks| ==> record(Request(rows, c, ks[i])).Ok?
    decreases |ks|
  {
    if ks != [] {
      var n := |ks|;
      var init := ks[..n - 1];
      PerRequestStep(rows, c, ks, n - 1, record);
      assert ks[..n] == ks;
      PerRequestOk(rows, c, init, record);
      if PerRequest(rows, c, ks, record).Ok? {
        forall i | 0 <= i < n ensures record(Request(rows, c, ks[i])).Ok? {
          if i < n - 1 { assert init[i] == ks[i]; }
        }
      } else if PerRequest(rows, c, init, record).Ok? {
        assert !record(Request(rows, c, ks[n - 1])).Ok?;
      } else {
        var j :| 0 <= j < n - 1 && !record(Request(rows, c, init[j])).Ok?;
        assert init[j] == ks[j];
      }
    }
  }

  /** Row i of the frame is the record of the i-th key, built from exactly
      that request's rows. */
  lemma {:induction false} PerRequestRows(rows: seq<Row>, c: string, ks: seq<string>,
                                          record: seq<Row> -> Result<Record>, i: nat)
    requires PerRequest(rows, c, ks, record).Ok? && i < |ks|
    ensures record(Request(rows, c, ks[i])).Ok?
    ensures PerRequest(rows, c, ks, record).value.rows[i] == record(Request(rows, c, ks[i])).value.m
    decreases |ks|
  {
    var n := |ks|;
    var init := ks[..n - 1];
    PerRequestStep(rows, c, ks, n - 1, record);
    assert ks[..n] == ks;
    var t := PerRequest(rows, c, init, record).value;
    var d := record(Request(rows, c, ks[n - 1])).value;
    assert PerRequest(rows, c, ks, record).value.rows == t.rows + [d.m];
    if i < n - 1 {
      PerRequestRows(rows, c, init, record, i);
      assert init[i] == ks[i];
    }
  }

  /** One more request: the frame so far, then that request's record. */
  lemma PerRequestStep(rows: seq<Row>, c: string, ks: seq<string>, i: nat, record: seq<Row> -> Result<Record>)
    requires i < |ks|
    ensures PerRequest(rows, c, ks[..i + 1], record) ==
      match PerRequest(rows, c, ks[..i], record)
      case Err(e) => Err(e)
      case Ok(t) =>
        match record(Request(rows, c, ks[i]))
        case Err(e) => Err(e)
        case Ok(d) => Ok(AppendRecord(t, d))
  {
    assert ks[..i + 1][..i] == ks[..i];
  }
}
