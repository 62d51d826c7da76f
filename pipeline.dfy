/** The per-file loop every reformatter runs: each lab table is reformatted
    against the rows accumulated so far (the cache, then every earlier
    file) and appended to them, `dfT = pd.concat([dfT, df])`. An exception
    ends the whole run. */
module Pipeline {
  import opened Wrappers
  import opened Tables

  /** The accumulator dfT the file loop reassigns. */
  class Accumulator {
    var dfT: Table

    /** dfT starts as the cache table, or pd.DataFrame() without one. */
    constructor (cache: Table)
      ensures dfT == cache
    {
      dfT := cache;
    }

    /** dfT = pd.concat([dfT, df]) */
    method Append(df: Table)
      modifies this
      ensures dfT == Concat(old(dfT), df)
    {
      dfT := Concat(dfT, df);
    }
  }

  /** The loop over the lab's files as a fold: each step sees the table
      accumulated so far and returns the next one, or the error that ends
      the run. */
  function Fold(acc: Table, files: seq<Table>, step: (Table, Table) -> Result<Table>): (r: Result<Table>)
    ensures (forall a, f :: f in files ==> step(a, f).Ok?) ==> r.Ok?
    ensures r.Err? ==> exists a, f :: f in files && step(a, f) == Err(r.error)
    decreases |files|
  {
    if files == [] then Ok(acc)
    else
      var next :- step(acc, files[0]);
      Fold(next, files[1..], step)
  }

  /** When every step keeps the rows it is given and adds after them, the
      whole run keeps the cache rows first, in their order. */
  lemma {:induction false} FoldKeepsPrefix(acc: Table, files: seq<Table>, step: (Table, Table) -> Result<Table>)
    requires forall a, f :: step(a, f).Ok? ==> a.rows <= step(a, f).value.rows
    ensures Fold(acc, files, step).Ok? ==> acc.rows <= Fold(acc, files, step).value.rows
    decreases |files|
  {
    if files != [] && step(acc, files[0]).Ok? {
      var next := step(acc, files[0]).value;
      FoldKeepsPrefix(next, files[1..], step);
    }
  }

  /** A file every step fails on ends the run with an error, whatever
      the steps before it do. */
  lemma {:induction false} FoldStops(acc: Table, files: seq<Table>, step: (Table, Table) -> Result<Table>, i: nat)
    requires i < |files| && forall a :: step(a, files[i]).Err?
    ensures Fold(acc, files, step).Err?
    decreases i
  {
    if i > 0 && step(acc, files[0]).Ok? {
      assert files[1..][i - 1] == files[i];
      FoldStops(step(acc, files[0]).value, files[1..], step, i - 1);
    }
  }
}
