/** Export of a multi-class segmentation as an RT Struct: one ROI per class of the selected class
    map that has at least one voxel, added in map order to a builder that is saved once. */
module RtStructExport {
  import opened Results
  import opened Volumes
  import opened Orientation

  /** One region of interest as handed to `add_roi`: its name and its 0/1 mask in
      (Slices, Rows, Columns) order. */
  datatype Roi = Roi(name: string, mask: Grid)

  /** The selected classes in the order `dict.items()` yields them: (class index, class name). */
  type ClassMap = seq<(int, string)>

  /** The RT Struct builder: the reference series it was created from, the ROIs added so far and
      the paths it has been saved to. */
  class RTStruct {
    const referenceSeries: string
    var rois: seq<Roi>
    var savedTo: seq<string>

    /** `RTStructBuilder.create_new`: a document with no ROI, not yet saved. */
    constructor CreateNew(dicomSeriesPath: string)
      ensures referenceSeries == dicomSeriesPath
      ensures rois == [] && savedTo == []
    {
      referenceSeries := dicomSeriesPath;
      rois := [];
      savedTo := [];
    }

    /** `add_roi`: appends one ROI. */
    method AddRoi(mask: Grid, name: string)
      modifies this
      ensures rois == old(rois) + [Roi(name, mask)]
      ensures savedTo == old(savedTo)
    {
      rois := rois + [Roi(name, mask)];
    }

    /** `save`: serialises the document to `path`. */
    method Save(path: string)
      modifies this
      ensures savedTo == old(savedTo) + [path]
      ensures rois == old(rois)
    {
      savedTo := savedTo + [path];
    }
  }

  /** The ROIs the export loop adds for `classes` over the (Slices, Rows, Columns) volume `v`:
      for each class in order, its mask, skipped when `np.any` finds it empty. */
  function ExportedRois(v: Grid, classes: ClassMap): seq<Roi>
  {
    if classes == [] then []
    else
      var (index, name) := classes[|classes| - 1];
      var mask := ClassMask(v, index);
      ExportedRois(v, classes[..|classes| - 1]) + (if AnyNonZero(mask) then [Roi(name, mask)] else [])
  }

  /** Reference definition: the positions in `classes` of the classes whose index occurs in `v`. */
  function PresentPositions(v: Grid, classes: ClassMap): seq<nat>
  {
    if classes == [] then []
    else
      var n := |classes| - 1;
      PresentPositions(v, classes[..n]) + (if HasLabel(v, classes[n].0) then [n] else [])
  }

  predicate StrictlyIncreasing(s: seq<nat>) {
    forall m, n | 0 <= m < n < |s| :: s[m] < s[n]
  }

  /** The reference positions are increasing, in range, and name exactly the classes whose index
      occurs in the volume. */
  lemma {:induction false} PresentPositionsSelectPresentClasses(v: Grid, classes: ClassMap)
    ensures var pos := PresentPositions(v, classes);
      && StrictlyIncreasing(pos)
      && (forall n | 0 <= n < |pos| :: pos[n] < |classes|)
      && (forall i | 0 <= i < |classes| :: i in pos <==> HasLabel(v, classes[i].0))
  {
    if classes != [] {
      var k := |classes| - 1;
      PresentPositionsSelectPresentClasses(v, classes[..k]);
      assert forall i | 0 <= i < k :: classes[i] == classes[..k][i];
    }
  }

  /** The ROIs are exactly the classes of the map whose index occurs in the volume, in map order
      (the positions are those of `PresentPositions`), each named after its class and masked by
      that class: no class without voxels is added and none with voxels is missed. */
  lemma {:induction false} ExportedRoisAreThePresentClasses(v: Grid, classes: ClassMap)
    ensures var pos := PresentPositions(v, classes);
      && |ExportedRois(v, classes)| == |pos|
      && (forall n | 0 <= n < |pos| :: pos[n] < |classes| &&
            ExportedRois(v, classes)[n] == Roi(classes[pos[n]].1, ClassMask(v, classes[pos[n]].0)))
  {
    if classes != [] {
      var k := |classes| - 1;
      var init := classes[..k];
      ExportedRoisAreThePresentClasses(v, init);
      PresentPositionsSelectPresentClasses(v, init);
      MaskAnyIffPresent(v, classes[k].0);
      var pos0, e0 := PresentPositions(v, init), ExportedRois(v, init);
      var pos, e := PresentPositions(v, classes), ExportedRois(v, classes);
      if HasLabel(v, classes[k].0) {
        assert pos == pos0 + [k];
        assert e == e0 + [Roi(classes[k].1, ClassMask(v, classes[k].0))];
      } else {
        assert pos == pos0 && e == e0;
      }
      forall n | 0 <= n < |pos|
        ensures pos[n] < |classes| && e[n] == Roi(classes[pos[n]].1, ClassMask(v, classes[pos[n]].0))
      {
        if n < |pos0| {
          assert classes[pos0[n]] == init[pos0[n]];
        }
      }
    }
  }

  /** Every ROI the export adds has a 0/1 mask of the volume's shape with at least one voxel set. */
  lemma {:induction false} ExportedMasksAreNonEmpty(v: Grid, classes: ClassMap)
    ensures forall r | r in ExportedRois(v, classes) ::
      && AnyNonZero(r.mask) && IsBinary(r.mask)
      && r.mask.d0 == v.d0 && r.mask.d1 == v.d1 && r.mask.d2 == v.d2
  {
    if classes != [] {
      ExportedMasksAreNonEmpty(v, classes[..|classes| - 1]);
    }
  }

  /** A class index without voxels in the volume never yields an ROI, whatever its name. */
  lemma AbsentClassIsNeverExported(v: Grid, classes: ClassMap, index: int)
    requires !HasLabel(v, index)
    ensures forall r | r in ExportedRois(v, classes) :: r.mask != ClassMask(v, index)
  {
    ExportedMasksAreNonEmpty(v, classes);
    MaskAnyIffPresent(v, index);
  }

  /** Index 0 gets no special treatment: when the map lists it and the volume has background
      voxels, an ROI is exported for it. */
  lemma ListedBackgroundIsExported(v: Grid, classes: ClassMap, name: string)
    requires (0, name) in classes && HasLabel(v, 0)
    ensures Roi(name, ClassMask(v, 0)) in ExportedRois(v, classes)
  {
    ExportedRoisAreThePresentClasses(v, classes);
    PresentPositionsSelectPresentClasses(v, classes);
    var pos := PresentPositions(v, classes);
    var i :| 0 <= i < |classes| && classes[i] == (0, name);
    var n :| 0 <= n < |pos| && pos[n] == i;
    assert ExportedRois(v, classes)[n] == Roi(name, ClassMask(v, 0));
  }

  /** Two classes, the first present and the second absent: exactly one ROI, for the first. */
  lemma OnePresentOneAbsent(v: Grid, first: string, second: string)
    requires HasLabel(v, 1) && !HasLabel(v, 2)
    ensures ExportedRois(v, [(1, first), (2, second)]) == [Roi(first, ClassMask(v, 1))]
  {
    MaskAnyIffPresent(v, 1);
    MaskAnyIffPresent(v, 2);
    var classes := [(1, first), (2, second)];
    assert classes[..1] == [(1, first)];
    assert [(1, first)][..0] == [];
    assert ExportedRois(v, [(1, first)]) == [Roi(first, ClassMask(v, 1))];
    assert ExportedRois(v, classes) == ExportedRois(v, classes[..1]);
  }

  const NotNiftiMessage := "segmentation_img must be a nibabel.Nifti1Image instance"

  /** What `save_mask_as_rtstruct` is given as `segmentation_img`. */
  datatype Segmentation<A> = Nifti1Image(image: Image<A>) | NotNifti1Image

  /** `save_mask_as_rtstruct`: refuses anything but a NIfTI image, refuses data that is not 3-D,
      then transposes the LPS volume to (Slices, Rows, Columns), adds one ROI per present class in
      map order and saves the document once to `outputPath`. */
  method SaveMaskAsRtstruct<A>(segmentation: Segmentation<A>, selectedClasses: ClassMap,
                               dcmReferenceFile: string, outputPath: string,
                               applyLps: (A, NdArray) -> Grid)
    returns (r: Result<RTStruct>)
    ensures segmentation.NotNifti1Image? ==> r == Failure(TypeError(NotNiftiMessage))
    ensures segmentation.Nifti1Image? && Rank(segmentation.image.data) != 3 ==>
      r == Failure(ValueError(NotThreeDMessage))
    ensures segmentation.Nifti1Image? && Rank(segmentation.image.data) == 3 ==>
      && r.Success? && fresh(r.value)
      && r.value.referenceSeries == dcmReferenceFile
      && r.value.rois == ExportedRois(Transpose210(applyLps(segmentation.image.affine, segmentation.image.data)), selectedClasses)
      && r.value.savedTo == [outputPath]
  {
    if segmentation.NotNifti1Image? {
      return Failure(TypeError(NotNiftiMessage));
    }
    var lps := ReorientToLps(segmentation.image, applyLps);
    if lps.Failure? {
      return Failure(lps.error);
    }
    var slicesFirst := Transpose210(lps.value);
    var rtstruct := new RTStruct.CreateNew(dcmReferenceFile);
    for n := 0 to |selectedClasses|
      invariant rtstruct.referenceSeries == dcmReferenceFile
      invariant rtstruct.rois == ExportedRois(slicesFirst, selectedClasses[..n])
      invariant rtstruct.savedTo == []
    {
      var (classIndex, className) := selectedClasses[n];
      assert selectedClasses[..n + 1][..n] == selectedClasses[..n];
      var mask := ClassMask(slicesFirst, classIndex);
      if !AnyNonZero(mask) {
        continue;
      }
      rtstruct.AddRoi(mask, className);
    }
    assert selectedClasses[..|selectedClasses|] == selectedClasses;
    rtstruct.Save(outputPath);
    return Success(rtstruct);
  }
}
