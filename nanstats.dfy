/** NumPy's NaN-aware reductions (`nanmean`, `nanmin`, `nanmax`) over a
    flattened array whose cells are `Some(x)` for a number and `None` for NaN.
    Values are exact reals: IEEE rounding is not part of this model. The
    reductions are plain definitions; what they promise is proved in the lemmas
    that follow each of them. */
module NanStats {
  import opened Common

  type Cells = seq<Option<real>>

  predicate AllUndefined(cells: Cells) {
    forall c :: c in cells ==> c.None?
  }

  /** The defined cells, in order. */
  function Defined(cells: Cells): Cells {
    if cells == [] then []
    else if cells[0].Some? then [cells[0]] + Defined(cells[1..])
    else Defined(cells[1..])
  }

  /** How many cells are defined. */
  function DefinedCount(cells: Cells): nat {
    if cells == [] then 0
    else (if cells[0].Some? then 1 else 0) + DefinedCount(cells[1..])
  }

  /** The sum of the defined cells. */
  function DefinedSum(cells: Cells): real {
    if cells == [] then 0.0
    else (if cells[0].Some? then cells[0].value else 0.0) + DefinedSum(cells[1..])
  }

  /** `np.nanmin`: the least defined cell, NaN when no cell is defined. */
  function NanMin(cells: Cells): Option<real> {
    if cells == [] then None
    else
      var rest := NanMin(cells[1..]);
      if cells[0].None? || (rest.Some? && rest.value < cells[0].value) then rest
      else cells[0]
  }

  /** `np.nanmax`: the greatest defined cell, NaN when no cell is defined. */
  function NanMax(cells: Cells): Option<real> {
    if cells == [] then None
    else
      var rest := NanMax(cells[1..]);
      if cells[0].None? || (rest.Some? && cells[0].value < rest.value) then rest
      else cells[0]
  }

  /** `np.nanmean`: the mean of the defined cells, NaN when no cell is defined. */
  function NanMean(cells: Cells): Option<real> {
    var n := DefinedCount(cells);
    if n == 0 then None else Some(DefinedSum(cells) / n as real)
  }

  /** The three statistics written for one array. */
  datatype Summary = Summary(mean: Option<real>, min: Option<real>, max: Option<real>)

  predicate Consistent(s: Summary) {
    (s.mean.None? && s.min.None? && s.max.None?) ||
    (s.mean.Some? && s.min.Some? && s.max.Some? && s.min.value <= s.mean.value <= s.max.value)
  }

  /** Mean, minimum and maximum, each ignoring undefined cells. */
  function Reduce(cells: Cells): Summary {
    Summary(NanMean(cells), NanMin(cells), NanMax(cells))
  }

  // ---------------------------------------------------------------------------
  // What the reductions promise

  lemma {:induction false} AllUndefinedSplit(cells: Cells)
    requires cells != []
    ensures AllUndefined(cells) <==> cells[0].None? && AllUndefined(cells[1..])
  {
  }

  /** The defined cells are exactly the cells that are numbers. */
  lemma {:induction false} DefinedMembers(cells: Cells)
    ensures forall c :: c in Defined(cells) <==> c in cells && c.Some?
  {
    if cells != [] {
      DefinedMembers(cells[1..]);
      assert forall c :: c in cells <==> c == cells[0] || c in cells[1..];
    }
  }

  /** No more cells are counted than there are, and none exactly when all are NaN. */
  lemma {:induction false} DefinedCountSpec(cells: Cells)
    ensures DefinedCount(cells) <= |cells|
    ensures DefinedCount(cells) == 0 <==> AllUndefined(cells)
  {
    if cells != [] {
      DefinedCountSpec(cells[1..]);
      AllUndefinedSplit(cells);
    }
  }

  /** `nanmin` is NaN exactly when every cell is, and otherwise a defined cell that
      is at most every defined cell. */
  lemma {:induction false} NanMinSpec(cells: Cells)
    ensures NanMin(cells).None? <==> AllUndefined(cells)
    ensures NanMin(cells).Some? ==> NanMin(cells) in cells
    ensures NanMin(cells).Some? ==> forall c :: c in cells && c.Some? ==> NanMin(cells).value <= c.value
  {
    if cells != [] {
      NanMinSpec(cells[1..]);
      AllUndefinedSplit(cells);
      assert forall c :: c in cells <==> c == cells[0] || c in cells[1..];
    }
  }

  /** `nanmax` is NaN exactly when every cell is, and otherwise a defined cell that
      is at least every defined cell. */
  lemma {:induction false} NanMaxSpec(cells: Cells)
    ensures NanMax(cells).None? <==> AllUndefined(cells)
    ensures NanMax(cells).Some? ==> NanMax(cells) in cells
    ensures NanMax(cells).Some? ==> forall c :: c in cells && c.Some? ==> c.value <= NanMax(cells).value
  {
    if cells != [] {
      NanMaxSpec(cells[1..]);
      AllUndefinedSplit(cells);
      assert forall c :: c in cells <==> c == cells[0] || c in cells[1..];
    }
  }

  /** `nanmean` is NaN exactly when every cell is, and otherwise the sum of the
      defined cells divided by their number. */
  lemma NanMeanSpec(cells: Cells)
    ensures NanMean(cells).None? <==> AllUndefined(cells)
    ensures NanMean(cells).Some? ==>
              DefinedCount(cells) > 0 &&
              NanMean(cells).value * DefinedCount(cells) as real == DefinedSum(cells)
  {
    DefinedCountSpec(cells);
  }

  lemma {:induction false} SumAtLeast(cells: Cells, lo: real)
    requires forall c :: c in cells && c.Some? ==> lo <= c.value
    ensures DefinedSum(cells) >= DefinedCount(cells) as real * lo
  {
    if cells != [] {
      assert forall c :: c in cells[1..] ==> c in cells;
      SumAtLeast(cells[1..], lo);
      assert cells[0] in cells;
    }
  }

  lemma {:induction false} SumAtMost(cells: Cells, hi: real)
    requires forall c :: c in cells && c.Some? ==> c.value <= hi
    ensures DefinedSum(cells) <= DefinedCount(cells) as real * hi
  {
    if cells != [] {
      assert forall c :: c in cells[1..] ==> c in cells;
      SumAtMost(cells[1..], hi);
      assert cells[0] in cells;
    }
  }

  /** The invariant of every statistics triple: all three are NaN exactly when every cell
      is, and otherwise `min <= mean <= max`, with the minimum and maximum cells of the array. */
  lemma ReduceSpec(cells: Cells)
    ensures Consistent(Reduce(cells))
    ensures Reduce(cells).mean.None? <==> AllUndefined(cells)
    ensures Reduce(cells).min.Some? ==> Reduce(cells).min in cells && Reduce(cells).max in cells
  {
    NanMinSpec(cells);
    NanMaxSpec(cells);
    NanMeanSpec(cells);
    if !AllUndefined(cells) {
      MinAtMostMean(cells);
      MeanAtMostMax(cells);
    }
  }

  lemma MinAtMostMean(cells: Cells)
    requires !AllUndefined(cells)
    ensures NanMin(cells).Some? && NanMean(cells).Some? && NanMin(cells).value <= NanMean(cells).value
  {
    NanMinSpec(cells);
    DefinedCountSpec(cells);
    var lo := NanMin(cells).value;
    SumAtLeast(cells, lo);
    QuotientAtLeast(lo, DefinedSum(cells), DefinedCount(cells));
  }

  lemma MeanAtMostMax(cells: Cells)
    requires !AllUndefined(cells)
    ensures NanMax(cells).Some? && NanMean(cells).Some? && NanMean(cells).value <= NanMax(cells).value
  {
    NanMaxSpec(cells);
    DefinedCountSpec(cells);
    var hi := NanMax(cells).value;
    SumAtMost(cells, hi);
    QuotientAtMost(DefinedSum(cells), hi, DefinedCount(cells));
  }

  lemma QuotientAtLeast(lo: real, s: real, n: nat)
    requires n > 0 && s >= n as real * lo
    ensures lo <= s / n as real
  {
  }

  lemma QuotientAtMost(s: real, hi: real, n: nat)
    requires n > 0 && s <= n as real * hi
    ensures s / n as real <= hi
  {
  }

  /** Undefined cells play no part: the reduction sees only the defined ones. */
  lemma {:induction false} IgnoresUndefined(cells: Cells)
    ensures Reduce(Defined(cells)) == Reduce(cells)
  {
    SameFolds(cells);
  }

  lemma {:induction false} SameFolds(cells: Cells)
    ensures DefinedCount(Defined(cells)) == DefinedCount(cells)
    ensures DefinedSum(Defined(cells)) == DefinedSum(cells)
    ensures NanMin(Defined(cells)) == NanMin(cells)
    ensures NanMax(Defined(cells)) == NanMax(cells)
  {
    if cells != [] {
      SameFolds(cells[1..]);
      if cells[0].Some? {
        var d := [cells[0]] + Defined(cells[1..]);
        assert d[1..] == Defined(cells[1..]);
      }
    }
  }
}
