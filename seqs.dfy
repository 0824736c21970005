/** Sequence helpers mirroring Python list slicing and flattening. */
module Seqs {

  /** Concatenation of a list of lists, left to right (row-major flattening). */
  function Concat<T>(ss: seq<seq<T>>): (r: seq<T>)
  {
    if |ss| == 0 then [] else Concat(ss[..|ss| - 1]) + ss[|ss| - 1]
  }

  /** Python's `s[-1:0:-1]`: every element but the first, last to first. */
  function FromLastDownToSecond<T>(s: seq<T>): (r: seq<T>)
  {
    if |s| == 0 then [] else seq(|s| - 1, j requires 0 <= j < |s| - 1 => s[|s| - 1 - j])
  }

  /** Python's `s[-2:0:-1]`: every element but the first and the last, last to first. */
  function FromPenultimateDownToSecond<T>(s: seq<T>): (r: seq<T>)
  {
    if |s| < 2 then [] else seq(|s| - 2, j requires 0 <= j < |s| - 2 => s[|s| - 2 - j])
  }

  /**
   * The two reversed slices that back-propagation zips together line up:
   * for weights `ws` and a z-trace `zs` one longer, both have |ws| - 1
   * entries and entry j of each belongs to layer |ws| - 1 - j.
   */
  lemma ReversedSlicesAlign<A, B>(ws: seq<A>, zs: seq<B>)
    requires |ws| >= 1 && |zs| == |ws| + 1
    ensures |FromLastDownToSecond(ws)| == |ws| - 1
    ensures |FromPenultimateDownToSecond(zs)| == |ws| - 1
    ensures forall j :: 0 <= j < |ws| - 1 ==>
              FromLastDownToSecond(ws)[j] == ws[|ws| - 1 - j] &&
              FromPenultimateDownToSecond(zs)[j] == zs[|ws| - 1 - j]
  {
  }
}
