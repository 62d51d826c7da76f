/** Sample identity and the cache check every reformatter shares
    (`generate_id` and `deduplicate`). SHA-1 itself is not modelled: the
    digest function is a parameter, any function giving 40 lower-case hex
    characters. */
module Identity {
  import opened Wrappers
  import opened Text
  import opened Tables

  predicate IsHexDigit(c: char) {
    '0' <= c <= '9' || 'a' <= c <= 'f'
  }

  /** hashlib.sha1(...).hexdigest() */
  type Digest = s: string | |s| == 40 && forall i :: 0 <= i < |s| ==> IsHexDigit(s[i])
    witness "0000000000000000000000000000000000000000"

  /** dfL[id_columns].astype(str).sum(axis=1) for one row: the id cells run together. */
  function UniqueId(r: Row, idCols: seq<string>): (u: string)
    ensures forall k {:trigger Contains(u, Cell(r, idCols[k]))} ::
      0 <= k < |idCols| ==> Contains(u, Cell(r, idCols[k]))
    decreases |idCols|
  {
    if idCols == [] then ""
    else
      var rest := UniqueId(r, idCols[1..]);
      HeadAndRest(r, idCols, rest);
      Cell(r, idCols[0]) + rest
  }

  /** Prefixing the first id cell keeps every later cell in the text. */
  lemma HeadAndRest(r: Row, idCols: seq<string>, rest: string)
    requires idCols != []
    requires forall k :: 0 <= k < |idCols[1..]| ==> Contains(rest, Cell(r, idCols[1..][k]))
    ensures forall k :: 0 <= k < |idCols| ==> Contains(Cell(r, idCols[0]) + rest, Cell(r, idCols[k]))
  {
    var head := Cell(r, idCols[0]);
    forall k | 0 <= k < |idCols| ensures Contains(head + rest, Cell(r, idCols[k])) {
      if k == 0 {
        assert (head + rest)[0..|head|] == head;
        assert OccursAt(head + rest, head, 0);
      } else {
        assert idCols[1..][k - 1] == idCols[k];
        var p := Cell(r, idCols[k]);
        var i :| 0 <= i <= |rest| && OccursAt(rest, p, i);
        assert (head + rest)[|head| + i..|head| + i + |p|] == rest[i..i + |p|];
        assert OccursAt(head + rest, p, |head| + i);
      }
    }
  }

  /** generate_id(unique_id)[:width]: 16 characters in DB Molecular,
      HLAGyn and Sabin, all 40 in Fleury and DASA. */
  function SampleId(sha1: string -> Digest, u: string, width: nat): (s: string)
    requires width <= 40
    ensures |s| == width
    ensures forall i :: 0 <= i < width ==> IsHexDigit(s[i])
  {
    sha1(u)[..width]
  }

  /** The short id is the start of the full one, so two rows the 16-character
      id tells apart are told apart by the full digest as well. */
  lemma ShortIdIsPrefix(sha1: string -> Digest, u: string, v: string)
    ensures SampleId(sha1, u, 16) == SampleId(sha1, u, 40)[..16]
    ensures SampleId(sha1, u, 40) == SampleId(sha1, v, 40) ==> SampleId(sha1, u, 16) == SampleId(sha1, v, 16)
  {
  }

  /** Rows with the same id cells get the same sample id, whatever else differs. */
  lemma {:induction false} SameIdCellsSameId(sha1: string -> Digest, r: Row, s: Row, idCols: seq<string>,
                                             width: nat)
    requires width <= 40
    requires forall c :: c in idCols ==> Cell(r, c) == Cell(s, c)
    ensures SampleId(sha1, UniqueId(r, idCols), width) == SampleId(sha1, UniqueId(s, idCols), width)
  {
    SameIdCellsSameUnique(r, s, idCols);
  }

  lemma {:induction false} SameIdCellsSameUnique(r: Row, s: Row, idCols: seq<string>)
    requires forall c :: c in idCols ==> Cell(r, c) == Cell(s, c)
    ensures UniqueId(r, idCols) == UniqueId(s, idCols)
  {
    if idCols != [] {
      SameIdCellsSameUnique(r, s, idCols[1..]);
    }
  }

  /** The two columns deduplicate writes: unique_id (appended when new) and
      sample_id; every other cell is kept. A missing id column is a KeyError. */
  function AssignIds(t: Table, idCols: seq<string>, sha1: string -> Digest, width: nat): (r: Result<Table>)
    requires width <= 40
    ensures r.Ok? <==> forall c :: c in idCols ==> c in t.cols
    ensures r.Ok? ==> |r.value.rows| == |t.rows| && "sample_id" in r.value.cols
    ensures r.Ok? ==> forall c :: c in t.cols ==> c in r.value.cols
    ensures r.Ok? ==> forall i :: 0 <= i < |t.rows| ==>
      Cell(r.value.rows[i], "sample_id") == SampleId(sha1, UniqueId(t.rows[i], idCols), width)
    ensures r.Ok? ==> forall i, c :: 0 <= i < |t.rows| && c != "sample_id" && c != "unique_id" ==>
      Cell(r.value.rows[i], c) == Cell(t.rows[i], c)
  {
    var missing := MissingColumn(idCols, t.cols);
    if missing.Some? then Err(KeyError(missing.value))
    else
      var cols := t.cols + (if "unique_id" in t.cols then [] else ["unique_id"]);
      var cols' := cols + (if "sample_id" in cols then [] else ["sample_id"]);
      Ok(Table(cols', seq(|t.rows|, i requires 0 <= i < |t.rows| =>
        var u := UniqueId(t.rows[i], idCols);
        t.rows[i]["unique_id" := u]["sample_id" := SampleId(sha1, u, width)])))
  }

  function SampleIds(rows: seq<Row>): (ids: set<string>)
    ensures forall x :: x in ids <==> exists i :: 0 <= i < |rows| && Cell(rows[i], "sample_id") == x
  {
    set i | 0 <= i < |rows| :: Cell(rows[i], "sample_id")
  }

  /** How deduplicate reads the cache: whether a cache file was given (the
      check is skipped without one), and whether the partial-hit message
      can be built (Fleury's names a variable it never binds). */
  datatype DedupSetting = DedupSetting(cached: bool, idCols: seq<string>, width: nat, reportBound: bool)

  /** deduplicate(dfL, dfN, id_columns, test_name) against the accumulated
      table dfT. Its two results: the rows still to reformat and dfN, both
      emptied when every sample id is already in dfT. */
  function Dedup(dfL: Table, dfN: Table, dfT: Table, s: DedupSetting, sha1: string -> Digest)
    : (r: Result<(Table, Table)>)
    requires s.width <= 40
    ensures r.Ok? ==> |r.value.0.rows| <= |dfL.rows|
    ensures r.Ok? && !s.cached ==> r.value.1 == dfN
    ensures r.Ok? && s.cached ==>
      forall x :: x in r.value.0.rows ==> Cell(x, "sample_id") !in SampleIds(dfT.rows)
  {
    var l :- AssignIds(dfL, s.idCols, sha1, s.width);
    if !s.cached then Ok((l, dfN))
    else if "sample_id" !in dfT.cols then Err(KeyError("sample_id"))
    else
      if AllCached(l, dfT) then Ok((Empty, Empty))
      else if !s.reportBound then Err(NameError("test_name"))
      else Ok((FilterRows(l, Unseen(SampleIds(dfT.rows))), dfN))
  }

  /** len(duplicates) == len(set(dfL['sample_id'])), duplicates being the
      sample ids of dfL that dfT holds. */
  predicate AllCached(l: Table, dfT: Table) {
    |Duplicates(SampleIds(l.rows), SampleIds(dfT.rows))| == |SampleIds(l.rows)|
  }

  function Duplicates(ids: set<string>, seen: set<string>): (d: set<string>)
    ensures forall x :: x in d <==> x in ids && x in seen
  {
    set x | x in ids && x in seen
  }

  /** ~dfL['sample_id'].isin(seen) */
  function Unseen(seen: set<string>): Row -> bool {
    r => Cell(r, "sample_id") !in seen
  }

  lemma {:induction false} SubsetSize(a: set<string>, b: set<string>)
    requires a <= b
    ensures |a| <= |b|
    ensures |a| == |b| ==> a == b
    decreases |b|
  {
    if b != {} {
      var y :| y in b;
      SubsetSize(a - {y}, b - {y});
      if y in a {
        assert |a - {y}| == |a| - 1;
        if |a| == |b| { assert a == (a - {y}) + {y} && b == (b - {y}) + {y}; }
      } else {
        assert a - {y} == a;
      }
    }
  }

  /** Every row's sample id is already in dfT. */
  ghost predicate AllSeen(dfL: Table, dfT: Table, s: DedupSetting, sha1: string -> Digest)
    requires s.width <= 40
  {
    forall i :: 0 <= i < |dfL.rows| ==>
      SampleId(sha1, UniqueId(dfL.rows[i], s.idCols), s.width) in SampleIds(dfT.rows)
  }

  /** The size comparison the script makes holds exactly when every
      sample id of the file is already in dfT. */
  lemma AllCachedIff(l: Table, dfT: Table)
    ensures AllCached(l, dfT) <==>
      forall i :: 0 <= i < |l.rows| ==> Cell(l.rows[i], "sample_id") in SampleIds(dfT.rows)
  {
    var seen := SampleIds(dfT.rows);
    var ids := SampleIds(l.rows);
    var duplicates := Duplicates(ids, seen);
    SubsetSize(duplicates, ids);
    if !AllCached(l, dfT) {
      assert duplicates != ids;
      assert !(ids <= duplicates);
      var x :| x in ids && x !in duplicates;
      var i :| 0 <= i < |l.rows| && Cell(l.rows[i], "sample_id") == x;
    } else {
      forall i | 0 <= i < |l.rows| ensures Cell(l.rows[i], "sample_id") in seen {
        assert Cell(l.rows[i], "sample_id") in ids;
      }
    }
  }

  /** With a cache, the check empties both results exactly when every
      sample id is already in dfT; otherwise it reports the partial hit
      (Fleury cannot: NameError) and keeps the rows whose id dfT lacks. */
  lemma DedupAllSeen(dfL: Table, dfN: Table, dfT: Table, s: DedupSetting, sha1: string -> Digest)
    requires s.width <= 40 && s.cached
    requires forall c :: c in s.idCols ==> c in dfL.cols
    requires "sample_id" in dfT.cols
    ensures AllSeen(dfL, dfT, s, sha1) ==> Dedup(dfL, dfN, dfT, s, sha1) == Ok((Empty, Empty))
    ensures !AllSeen(dfL, dfT, s, sha1) ==>
      Dedup(dfL, dfN, dfT, s, sha1) == (if s.reportBound
        then Ok((FilterRows(AssignIds(dfL, s.idCols, sha1, s.width).value, Unseen(SampleIds(dfT.rows))), dfN))
        else Err(NameError("test_name")))
  {
    var l := AssignIds(dfL, s.idCols, sha1, s.width).value;
    AllCachedIff(l, dfT);
    assert AllSeen(dfL, dfT, s, sha1) <==>
      forall i :: 0 <= i < |l.rows| ==> Cell(l.rows[i], "sample_id") in SampleIds(dfT.rows);
  }

  /** With a cache and some new sample id, the rows kept are exactly those
      whose sample id dfT lacks, ids written in; dfN comes back as given.
      Without a cache every row is kept. */
  lemma DedupKeeps(dfL: Table, dfN: Table, dfT: Table, s: DedupSetting, sha1: string -> Digest)
    requires s.width <= 40
    requires forall c :: c in s.idCols ==> c in dfL.cols
    requires s.cached ==> "sample_id" in dfT.cols
    requires !s.cached || (!AllSeen(dfL, dfT, s, sha1) && s.reportBound)
    ensures var r := Dedup(dfL, dfN, dfT, s, sha1);
      var l := AssignIds(dfL, s.idCols, sha1, s.width).value;
      r.Ok? && r.value.1 == dfN && r.value.0.cols == l.cols &&
      (!s.cached ==> r.value.0 == l) &&
      (s.cached ==> forall x :: x in r.value.0.rows <==>
         x in l.rows && Cell(x, "sample_id") !in SampleIds(dfT.rows))
  {
    if s.cached {
      DedupAllSeen(dfL, dfN, dfT, s, sha1);
    }
  }

  /** Reprocessing is a no-op: once the kept rows are appended to dfT, the
      same input finds all its sample ids there. */
  lemma DedupSecondPass(dfL: Table, dfN: Table, dfT: Table, s: DedupSetting, sha1: string -> Digest)
    requires s.width <= 40 && s.cached
    requires forall c :: c in s.idCols ==> c in dfL.cols
    requires "sample_id" in dfT.cols
    requires Dedup(dfL, dfN, dfT, s, sha1).Ok?
    ensures Dedup(dfL, dfN, Concat(dfT, Dedup(dfL, dfN, dfT, s, sha1).value.0), s, sha1) == Ok((Empty, Empty))
  {
    var dfT' := Concat(dfT, Dedup(dfL, dfN, dfT, s, sha1).value.0);
    forall i | 0 <= i < |dfL.rows|
      ensures SampleId(sha1, UniqueId(dfL.rows[i], s.idCols), s.width) in SampleIds(dfT'.rows)
    {
      SeenAfterAppend(dfL, dfN, dfT, s, sha1, i);
    }
    DedupAllSeen(dfL, dfN, dfT', s, sha1);
  }

  /** Once the kept rows are appended, every row's sample id is among dfT's. */
  lemma SeenAfterAppend(dfL: Table, dfN: Table, dfT: Table, s: DedupSetting, sha1: string -> Digest, i: nat)
    requires s.width <= 40 && s.cached
    requires forall c :: c in s.idCols ==> c in dfL.cols
    requires "sample_id" in dfT.cols
    requires Dedup(dfL, dfN, dfT, s, sha1).Ok? && i < |dfL.rows|
    ensures SampleId(sha1, UniqueId(dfL.rows[i], s.idCols), s.width) in
      SampleIds(Concat(dfT, Dedup(dfL, dfN, dfT, s, sha1).value.0).rows)
  {
    var l := AssignIds(dfL, s.idCols, sha1, s.width).value;
    var kept := Dedup(dfL, dfN, dfT, s, sha1).value.0;
    var dfT' := Concat(dfT, kept);
    DedupAllSeen(dfL, dfN, dfT, s, sha1);
    if !AllSeen(dfL, dfT, s, sha1) {
      DedupKeeps(dfL, dfN, dfT, s, sha1);
    }
    var x := SampleId(sha1, UniqueId(dfL.rows[i], s.idCols), s.width);
    assert Cell(l.rows[i], "sample_id") == x;
    if x !in SampleIds(dfT.rows) {
      assert l.rows[i] in kept.rows;
    }
    IdInAppended(dfT, kept, l.rows[i]);
  }

  /** A sample id already in dfT, or of an appended row, is in the appended table. */
  lemma IdInAppended(dfT: Table, kept: Table, row: Row)
    requires Cell(row, "sample_id") in SampleIds(dfT.rows) || row in kept.rows
    ensures Cell(row, "sample_id") in SampleIds(Concat(dfT, kept).rows)
  {
    var all := Concat(dfT, kept).rows;
    if Cell(row, "sample_id") in SampleIds(dfT.rows) {
      var j :| 0 <= j < |dfT.rows| && Cell(dfT.rows[j], "sample_id") == Cell(row, "sample_id");
      assert all[j] == dfT.rows[j];
    } else {
      var j :| 0 <= j < |kept.rows| && kept.rows[j] == row;
      assert all[|dfT.rows| + j] == row;
    }
  }
}
