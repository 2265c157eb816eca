/** The 3x3 grid shared by both games: cell indices 0..8 in row-major order,
    the eight winning lines, and the "indices of the free cells" query. */
module Grid {

  datatype Option<T> = None | Some(value: T)

  /** A cell index of the 3x3 board. */
  type Index = i: int | 0 <= i < 9

  /** The eight winning combinations, in the order the web game scans them:
      three rows, three columns, then the two diagonals. */
  const Lines: seq<(Index, Index, Index)> :=
    [(0, 1, 2), (3, 4, 5), (6, 7, 8),
     (0, 3, 6), (1, 4, 7), (2, 5, 8),
     (0, 4, 8), (2, 4, 6)]

  /** Line `k` is occupied by `s` in all three of its cells. */
  predicate Filled<T(==)>(b: seq<T>, k: int, s: T)
    requires |b| == 9 && 0 <= k < |Lines|
  {
    b[Lines[k].0] == s && b[Lines[k].1] == s && b[Lines[k].2] == s
  }

  /** Cell `sq` is one of the three cells of line `k`. */
  predicate OnLine(k: int, sq: int)
    requires 0 <= k < |Lines|
  {
    sq == Lines[k].0 || sq == Lines[k].1 || sq == Lines[k].2
  }

  /** Every line index is one of the eight; lets the verifier split a symbolic
      line index into the eight concrete ones. */
  lemma LineCases(k: int)
    requires 0 <= k < |Lines|
    ensures k == 0 || k == 1 || k == 2 || k == 3 || k == 4 || k == 5 || k == 6 || k == 7
  {
  }

  /** The three cells of every line are pairwise distinct. */
  lemma LineCellsDistinct(k: int)
    requires 0 <= k < |Lines|
    ensures Lines[k].0 != Lines[k].1 && Lines[k].1 != Lines[k].2 && Lines[k].0 != Lines[k].2
  {
    LineCases(k);
  }

  /** Line `r` for `r < 3` is row `r`. */
  lemma RowLine(r: int)
    requires 0 <= r < 3
    ensures Lines[r] == (3 * r, 3 * r + 1, 3 * r + 2)
  {
    assert r == 0 || r == 1 || r == 2;
  }

  /** Line `3 + c` for `c < 3` is column `c`. */
  lemma ColumnLine(c: int)
    requires 0 <= c < 3
    ensures Lines[3 + c] == (c, c + 3, c + 6)
  {
    assert c == 0 || c == 1 || c == 2;
  }

  /** The indices `i` with `lo <= i < |s|` and `s[i] == x`, in ascending order. */
  function IndicesFrom<T(==)>(s: seq<T>, x: T, lo: nat): (r: seq<nat>)
    requires lo <= |s|
    ensures forall i :: i in r <==> lo <= i < |s| && s[i] == x
    ensures forall j, k :: 0 <= j < k < |r| ==> r[j] < r[k]
    decreases |s| - lo
  {
    if lo == |s| then []
    else
      var rest := IndicesFrom(s, x, lo + 1);
      if s[lo] == x then
        assert forall k :: 0 <= k < |rest| ==> lo < rest[k] by {
          forall k | 0 <= k < |rest| ensures lo < rest[k] {
            assert rest[k] in rest;
          }
        }
        [lo] + rest
      else rest
  }

  /** The indices of all occurrences of `x` in `s`, in ascending order. */
  function IndicesOf<T(==)>(s: seq<T>, x: T): (r: seq<nat>)
    ensures forall i :: i in r <==> 0 <= i < |s| && s[i] == x
    ensures forall j, k :: 0 <= j < k < |r| ==> r[j] < r[k]
  {
    IndicesFrom(s, x, 0)
  }
}
