/** Three-dimensional integer label volumes: the segmentation after it has been aligned to LPS,
    its `(2, 1, 0)` axis transpose, and the per-class 0/1 masks built from it. */
module Volumes {

  /** A voxel grid with its three extents; `voxels[a][b][c]` is the label at index (a, b, c). */
  datatype Volume = Volume(d0: nat, d1: nat, d2: nat, voxels: seq<seq<seq<int>>>)

  /** The nested sequences have exactly the extents the volume records (a numpy array is always
      rectangular, and its shape survives even when an extent is zero). */
  predicate WellFormed(v: Volume) {
    && |v.voxels| == v.d0
    && (forall a | 0 <= a < v.d0 :: |v.voxels[a]| == v.d1)
    && (forall a, b | 0 <= a < v.d0 && 0 <= b < v.d1 :: |v.voxels[a][b]| == v.d2)
  }

  type Grid = v: Volume | WellFormed(v) witness Volume(0, 0, 0, [])

  /** numpy's `np.transpose(x, (2, 1, 0))`: the first and last axes swap places, turning an LPS
      (Columns, Rows, Slices) volume into (Slices, Rows, Columns). */
  function Transpose210(v: Grid): (t: Grid)
    ensures t.d0 == v.d2 && t.d1 == v.d1 && t.d2 == v.d0
    ensures forall a, b, c | 0 <= a < v.d0 && 0 <= b < v.d1 && 0 <= c < v.d2 :: t.voxels[c][b][a] == v.voxels[a][b][c]
  {
    Volume(v.d2, v.d1, v.d0,
      seq(v.d2, c requires 0 <= c < v.d2 =>
        seq(v.d1, b requires 0 <= b < v.d1 =>
          seq(v.d0, a requires 0 <= a < v.d0 => v.voxels[a][b][c]))))
  }

  /** Two grids with the same extents and the same voxel everywhere are the same grid. */
  lemma {:induction false} GridExtensionality(u: Grid, v: Grid)
    requires u.d0 == v.d0 && u.d1 == v.d1 && u.d2 == v.d2
    requires forall a, b, c | 0 <= a < u.d0 && 0 <= b < u.d1 && 0 <= c < u.d2 :: u.voxels[a][b][c] == v.voxels[a][b][c]
    ensures u == v
  {
    forall a | 0 <= a < u.d0 ensures u.voxels[a] == v.voxels[a] {
      forall b | 0 <= b < u.d1 ensures u.voxels[a][b] == v.voxels[a][b] {
        assert forall c | 0 <= c < u.d2 :: u.voxels[a][b][c] == v.voxels[a][b][c];
      }
    }
  }

  /** The transpose loses nothing: applying it twice gives the volume back. */
  lemma TransposeInvolutive(v: Grid)
    ensures Transpose210(Transpose210(v)) == v
  {
    var t := Transpose210(v);
    var tt := Transpose210(t);
    forall a, b, c | 0 <= a < tt.d0 && 0 <= b < tt.d1 && 0 <= c < tt.d2 ensures tt.voxels[a][b][c] == v.voxels[a][b][c] {
      assert 0 <= c < t.d0 && 0 <= b < t.d1 && 0 <= a < t.d2;
    }
    GridExtensionality(tt, v);
  }

  /** Some voxel of `v` carries the label `index`. */
  predicate HasLabel(v: Grid, index: int) {
    exists a, b, c | 0 <= a < v.d0 && 0 <= b < v.d1 && 0 <= c < v.d2 :: v.voxels[a][b][c] == index
  }

  /** numpy's `np.any(m)` on an integer or boolean volume. */
  predicate AnyNonZero(m: Grid) {
    exists a, b, c | 0 <= a < m.d0 && 0 <= b < m.d1 && 0 <= c < m.d2 :: m.voxels[a][b][c] != 0
  }

  /** Every voxel of `m` is 0 or 1 (a boolean mask cast with `astype(np.uint8)`). */
  predicate IsBinary(m: Grid) {
    forall a, b, c | 0 <= a < m.d0 && 0 <= b < m.d1 && 0 <= c < m.d2 :: m.voxels[a][b][c] == 0 || m.voxels[a][b][c] == 1
  }

  /** `(v == index).astype(np.uint8)`: the 0/1 mask of the voxels of `v` that equal `index`. */
  function ClassMask(v: Grid, index: int): (m: Grid)
    ensures m.d0 == v.d0 && m.d1 == v.d1 && m.d2 == v.d2
    ensures IsBinary(m)
    ensures forall a, b, c | 0 <= a < v.d0 && 0 <= b < v.d1 && 0 <= c < v.d2 :: m.voxels[a][b][c] == 1 <==> v.voxels[a][b][c] == index
  {
    Volume(v.d0, v.d1, v.d2,
      seq(v.d0, a requires 0 <= a < v.d0 =>
        seq(v.d1, b requires 0 <= b < v.d1 =>
          seq(v.d2, c requires 0 <= c < v.d2 => if v.voxels[a][b][c] == index then 1 else 0))))
  }

  /** The mask of a class is non-empty exactly when the volume holds that class. */
  lemma MaskAnyIffPresent(v: Grid, index: int)
    ensures AnyNonZero(ClassMask(v, index)) <==> HasLabel(v, index)
  {
    var m := ClassMask(v, index);
    if HasLabel(v, index) {
      var a, b, c :| 0 <= a < v.d0 && 0 <= b < v.d1 && 0 <= c < v.d2 && v.voxels[a][b][c] == index;
      assert m.voxels[a][b][c] != 0;
    }
    if AnyNonZero(m) {
      var a, b, c :| 0 <= a < m.d0 && 0 <= b < m.d1 && 0 <= c < m.d2 && m.voxels[a][b][c] != 0;
      assert v.voxels[a][b][c] == index;
    }
  }

  /** A class index is present in the transposed volume exactly when it is present in the original. */
  lemma TransposeKeepsLabels(v: Grid, index: int)
    ensures HasLabel(Transpose210(v), index) <==> HasLabel(v, index)
  {
    var t := Transpose210(v);
    if HasLabel(v, index) {
      var a, b, c :| 0 <= a < v.d0 && 0 <= b < v.d1 && 0 <= c < v.d2 && v.voxels[a][b][c] == index;
      assert t.voxels[c][b][a] == index;
    }
    if HasLabel(t, index) {
      var c, b, a :| 0 <= c < t.d0 && 0 <= b < t.d1 && 0 <= a < t.d2 && t.voxels[c][b][a] == index;
      assert 0 <= a < v.d0 && 0 <= b < v.d1 && 0 <= c < v.d2;
    }
  }
}
