/** The rank check that guards the reorientation of a segmentation to LPS axis codes. The
    reorientation itself (deriving an orientation from the affine and applying the axis
    permutation and flips) is a library computation over floating-point matrices; it enters the
    model as the parameter `applyLps`. */
module Orientation {
  import opened Results
  import opened Volumes

  /** The array `get_fdata()` returns: its shape (one extent per axis) and its values in C order. */
  datatype NdArray = NdArray(shape: seq<nat>, values: seq<int>)

  /** A NIfTI image: its affine, left abstract, and its voxel array. */
  datatype Image<A> = Image(affine: A, data: NdArray)

  const NotThreeDMessage := "Segmentation image must be 3D to convert to RT Struct."

  /** The number of axes of an array (numpy's `ndim`). */
  function Rank(a: NdArray): nat {
    |a.shape|
  }

  /** `_reorient_to_lps`: any array that is not three-dimensional is refused with a ValueError;
      a three-dimensional one is handed to the reorientation. */
  function ReorientToLps<A>(img: Image<A>, applyLps: (A, NdArray) -> Grid): (r: Result<Grid>)
    ensures r.Failure? <==> Rank(img.data) != 3
    ensures r.Failure? ==> r.error == ValueError(NotThreeDMessage)
    ensures r.Success? ==> r.value == applyLps(img.affine, img.data)
  {
    if Rank(img.data) != 3 then Failure(ValueError(NotThreeDMessage))
    else Success(applyLps(img.affine, img.data))
  }
}
