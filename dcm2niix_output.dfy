/** What `dcm_to_nifti_LEGACY` does to the output folder after dcm2niix has run: check that the
    expected file exists, weed out extra `.nii.gz` files, and remove the JSON sidecar. The folder
    is its ordered listing of file names; deleting a file removes its name from the listing. */
module Dcm2niixOutput {
  import opened Results
  import opened Paths

  predicate Distinct(s: seq<string>) {
    forall m, n | 0 <= m < n < |s| :: s[m] != s[n]
  }

  /** The elements of `s` that satisfy `p`, in order. */
  function Filter(s: seq<string>, p: string -> bool): (r: seq<string>)
    ensures |r| <= |s|
  {
    if s == [] then [] else (if p(s[0]) then [s[0]] else []) + Filter(s[1..], p)
  }

  lemma {:induction false} FilterMembers(s: seq<string>, p: string -> bool)
    ensures forall x :: x in Filter(s, p) <==> x in s && p(x)
  {
    if s != [] {
      FilterMembers(s[1..], p);
    }
  }

  /** `s` without the elements that occur in `xs`, in order. */
  function RemoveAll(s: seq<string>, xs: seq<string>): (r: seq<string>)
    ensures |r| <= |s|
  {
    if s == [] then [] else (if s[0] in xs then [] else [s[0]]) + RemoveAll(s[1..], xs)
  }

  lemma {:induction false} RemoveAllMembers(s: seq<string>, xs: seq<string>)
    ensures forall x :: x in RemoveAll(s, xs) <==> x in s && x !in xs
  {
    if s != [] {
      RemoveAllMembers(s[1..], xs);
    }
  }

  /** A name `glob("*.nii.gz")` matches. */
  predicate IsNifti(name: string) {
    EndsWith(name, NiftiSuffix)
  }

  /** A name the disambiguation treats as a region-of-interest artifact. */
  predicate IsRoiArtifact(name: string) {
    Contains(name, "ROI")
  }

  predicate IsNotRoiArtifact(name: string) {
    !IsRoiArtifact(name)
  }

  predicate IsNotNifti(name: string) {
    !IsNifti(name)
  }

  /** `list(output_path.parent.glob("*.nii.gz"))`, in listing order. */
  function Niftis(names: seq<string>): seq<string> {
    Filter(names, IsNifti)
  }

  /** Everything in the folder that is not a `.nii.gz` file. */
  function OtherFiles(names: seq<string>): seq<string> {
    Filter(names, IsNotNifti)
  }

  /** Step one: with more than one `.nii.gz` file, every one whose name contains "ROI" goes. */
  function DropRoiNiftis(names: seq<string>): seq<string> {
    var nii := Niftis(names);
    if |nii| > 1 then RemoveAll(names, Filter(nii, IsRoiArtifact)) else names
  }

  /** Step two: with more than one `.nii.gz` file still there, all but the first listed go. */
  function KeepFirstNifti(names: seq<string>): seq<string> {
    var nii := Niftis(names);
    if |nii| > 1 then RemoveAll(names, nii[1..]) else names
  }

  /** The JSON sidecar dcm2niix writes beside `<stem>.nii.gz`, as a name in the same folder. */
  function SidecarName(outputName: string): string {
    DropLast7(outputName) + SidecarSuffix
  }

  const ConversionFailedMessage := "dcm2niix failed to convert dicom to nifti."

  /** The folder after the post-processing of `dcm_to_nifti_LEGACY`. */
  function LegacyNames(names: seq<string>, outputName: string): seq<string> {
    if outputName !in names then names
    else RemoveAll(KeepFirstNifti(DropRoiNiftis(names)), [SidecarName(outputName)])
  }

  /** How the post-processing of `dcm_to_nifti_LEGACY` ends for a folder at `dir`. */
  function LegacyOutcome(dir: string, names: seq<string>, outputName: string): Outcome {
    if outputName !in names then Fail(ValueError(ConversionFailedMessage))
    else if SidecarName(outputName) in KeepFirstNifti(DropRoiNiftis(names)) then Pass
    else Fail(FileNotFoundError(Join(dir, SidecarName(outputName))))
  }

  // ----- lemmas about the sequence operations -----

  lemma {:induction false} FilterAppend(s: seq<string>, t: seq<string>, p: string -> bool)
    ensures Filter(s + t, p) == Filter(s, p) + Filter(t, p)
  {
    if s != [] {
      assert (s + t)[0] == s[0];
      assert (s + t)[1..] == s[1..] + t;
      FilterAppend(s[1..], t, p);
    } else {
      assert s + t == t;
    }
  }

  /** Filtering one more element of a prefix. */
  lemma FilterPrefixStep(s: seq<string>, i: nat, p: string -> bool)
    requires i < |s|
    ensures Filter(s[..i + 1], p) == Filter(s[..i], p) + (if p(s[i]) then [s[i]] else [])
  {
    assert s[..i + 1] == s[..i] + [s[i]];
    FilterAppend(s[..i], [s[i]], p);
  }

  lemma {:induction false} RemoveAllAppend(s: seq<string>, t: seq<string>, xs: seq<string>)
    ensures RemoveAll(s + t, xs) == RemoveAll(s, xs) + RemoveAll(t, xs)
  {
    if s != [] {
      assert (s + t)[0] == s[0];
      assert (s + t)[1..] == s[1..] + t;
      RemoveAllAppend(s[1..], t, xs);
    } else {
      assert s + t == t;
    }
  }

  lemma {:induction false} RemoveAllNothing(s: seq<string>)
    ensures RemoveAll(s, []) == s
  {
    if s != [] {
      RemoveAllNothing(s[1..]);
    }
  }

  lemma {:induction false} FilterKeepsDistinct(s: seq<string>, p: string -> bool)
    requires Distinct(s)
    ensures Distinct(Filter(s, p))
  {
    if s != [] {
      FilterKeepsDistinct(s[1..], p);
      FilterMembers(s[1..], p);
    }
  }

  lemma {:induction false} RemoveAllKeepsDistinct(s: seq<string>, xs: seq<string>)
    requires Distinct(s)
    ensures Distinct(RemoveAll(s, xs))
  {
    if s != [] {
      RemoveAllKeepsDistinct(s[1..], xs);
      RemoveAllMembers(s[1..], xs);
    }
  }

  /** Removing the names of `xs` one at a time, as the loops do, is removing them all at once. */
  lemma {:induction false} RemoveAllStep(s: seq<string>, xs: seq<string>, x: string)
    ensures RemoveAll(RemoveAll(s, xs), [x]) == RemoveAll(s, xs + [x])
  {
    if s != [] {
      var head := if s[0] in xs then [] else [s[0]];
      RemoveAllStep(s[1..], xs, x);
      RemoveAllAppend(head, RemoveAll(s[1..], xs), [x]);
      assert s[0] in xs + [x] <==> s[0] in xs || s[0] == x;
    }
  }

  /** Filtering commutes with removal. */
  lemma {:induction false} FilterRemoveAll(s: seq<string>, xs: seq<string>, p: string -> bool)
    ensures Filter(RemoveAll(s, xs), p) == RemoveAll(Filter(s, p), xs)
  {
    if s != [] {
      var head := if s[0] in xs then [] else [s[0]];
      var kept := if p(s[0]) then [s[0]] else [];
      FilterRemoveAll(s[1..], xs, p);
      FilterAppend(head, RemoveAll(s[1..], xs), p);
      RemoveAllAppend(kept, Filter(s[1..], p), xs);
      assert Filter(head, p) == RemoveAll(kept, xs);
    }
  }

  /** Removing only names that fail `p` leaves the elements satisfying `p` as they were. */
  lemma {:induction false} RemoveAllOutsideFilter(s: seq<string>, xs: seq<string>, p: string -> bool)
    requires forall x | x in xs :: !p(x)
    ensures Filter(RemoveAll(s, xs), p) == Filter(s, p)
  {
    if s != [] {
      RemoveAllOutsideFilter(s[1..], xs, p);
      FilterAppend(if s[0] in xs then [] else [s[0]], RemoveAll(s[1..], xs), p);
    }
  }

  /** In a sequence without repetitions, removing all but the first element leaves the first. */
  lemma {:induction false} RemoveAllButFirst(s: seq<string>)
    requires Distinct(s) && s != []
    ensures RemoveAll(s, s[1..]) == [s[0]]
  {
    assert s[0] !in s[1..];
    RemoveAllNone(s[1..], s[1..]);
  }

  lemma {:induction false} RemoveAllNone(s: seq<string>, xs: seq<string>)
    requires forall x | x in s :: x in xs
    ensures RemoveAll(s, xs) == []
  {
    if s != [] {
      RemoveAllNone(s[1..], xs);
    }
  }

  // ----- properties of the disambiguation policy -----

  /** Step one only deletes `.nii.gz` files whose name contains "ROI", only when more than one
      `.nii.gz` file is present, and then deletes all of them; other files are untouched. */
  lemma DropRoiNiftisRemovesOnlyRoiNiftis(names: seq<string>)
    ensures |Niftis(names)| <= 1 ==> DropRoiNiftis(names) == names
    ensures forall x :: x in DropRoiNiftis(names) <==>
      x in names && !(|Niftis(names)| > 1 && IsNifti(x) && IsRoiArtifact(x))
    ensures OtherFiles(DropRoiNiftis(names)) == OtherFiles(names)
  {
    var nii := Niftis(names);
    if |nii| > 1 {
      FilterMembers(names, IsNifti);
      FilterMembers(nii, IsRoiArtifact);
      RemoveAllMembers(names, Filter(nii, IsRoiArtifact));
      RemoveAllOutsideFilter(names, Filter(nii, IsRoiArtifact), IsNotNifti);
    }
  }

  /** Step two leaves at most one `.nii.gz` file, the first one listed, and touches nothing else. */
  lemma KeepFirstNiftiLeavesTheFirst(names: seq<string>)
    requires Distinct(names)
    ensures var nii := Niftis(names);
      Niftis(KeepFirstNifti(names)) == if nii == [] then [] else [nii[0]]
    ensures OtherFiles(KeepFirstNifti(names)) == OtherFiles(names)
  {
    var nii := Niftis(names);
    if |nii| > 1 {
      FilterRemoveAll(names, nii[1..], IsNifti);
      FilterKeepsDistinct(names, IsNifti);
      RemoveAllButFirst(nii);
      FilterMembers(names, IsNifti);
      assert forall x | x in nii[1..] :: x in nii;
      RemoveAllOutsideFilter(names, nii[1..], IsNotNifti);
    } else if |nii| == 1 {
      assert nii == [nii[0]];
    }
  }

  /** Both steps together: when several `.nii.gz` files were written, the one kept is the first
      listed whose name does not contain "ROI", and none is kept when all contain it. With a
      single `.nii.gz` file, nothing is removed. */
  lemma {:induction false} DisambiguationKeepsFirstNonRoi(names: seq<string>)
    requires Distinct(names)
    ensures var nii := Niftis(names);
      var candidates := Filter(nii, IsNotRoiArtifact);
      && (|nii| <= 1 ==> KeepFirstNifti(DropRoiNiftis(names)) == names)
      && (|nii| > 1 ==>
            Niftis(KeepFirstNifti(DropRoiNiftis(names))) == if candidates == [] then [] else [candidates[0]])
    ensures OtherFiles(KeepFirstNifti(DropRoiNiftis(names))) == OtherFiles(names)
  {
    var nii := Niftis(names);
    var dropped := DropRoiNiftis(names);
    DropRoiNiftisRemovesOnlyRoiNiftis(names);
    RemoveAllKeepsDistinct(names, Filter(nii, IsRoiArtifact));
    KeepFirstNiftiLeavesTheFirst(dropped);
    if |nii| > 1 {
      FilterRemoveAll(names, Filter(nii, IsRoiArtifact), IsNifti);
      FilterKeepsDistinct(names, IsNifti);
      RemoveRoisIsFilter(nii);
    }
  }

  /** Removing the "ROI" names of a repetition-free listing keeps exactly the others, in order. */
  lemma {:induction false} RemoveRoisIsFilter(s: seq<string>)
    requires Distinct(s)
    ensures RemoveAll(s, Filter(s, IsRoiArtifact)) == Filter(s, IsNotRoiArtifact)
  {
    if s != [] {
      var rest := s[1..];
      var rois := Filter(s, IsRoiArtifact);
      assert s[0] !in rest by {
        assert forall n | 0 <= n < |rest| :: rest[n] == s[n + 1];
      }
      RemoveRoisIsFilter(rest);
      if IsRoiArtifact(s[0]) {
        assert rois == [s[0]] + Filter(rest, IsRoiArtifact);
        RemoveAllTail(rest, Filter(rest, IsRoiArtifact), s[0]);
      } else {
        assert rois == Filter(rest, IsRoiArtifact);
        FilterMembers(rest, IsRoiArtifact);
        assert s[0] !in rois;
      }
    }
  }

  /** Adding to the removal list a value absent from the sequence changes nothing. */
  lemma {:induction false} RemoveAllTail(s: seq<string>, xs: seq<string>, y: string)
    requires y !in s
    ensures RemoveAll(s, [y] + xs) == RemoveAll(s, xs)
  {
    if s != [] {
      RemoveAllTail(s[1..], xs, y);
    }
  }

  /** The sidecar is named after the output's stem, lies in the output's own folder, and is never
      a `.nii.gz` file, so removing it cannot remove a converted volume. */
  lemma SidecarIsBesideTheOutput(dir: string, outputName: string)
    requires IsNifti(outputName)
    ensures Join(dir, SidecarName(outputName)) == DropLast7(Join(dir, outputName)) + SidecarSuffix
    ensures !IsNifti(SidecarName(outputName))
    ensures SidecarName(outputName) != outputName
  {
    DropLast7OfJoin(dir, outputName);
    assert Join(dir, DropLast7(outputName)) + SidecarSuffix == Join(dir, SidecarName(outputName));
    var sc := SidecarName(outputName);
    assert sc[|sc| - 1] == 'n';
    assert outputName[|outputName| - 1] == 'z';
  }

  /** The folder `dcm_to_nifti_LEGACY` leaves behind. When the expected output was written, at
      most one `.nii.gz` file is left (the one the two clean-up steps keep), and of the other
      files exactly the output's JSON sidecar is gone; otherwise the folder is untouched. */
  lemma LegacyFolder(names: seq<string>, outputName: string)
    requires Distinct(names) && IsNifti(outputName)
    ensures outputName !in names ==> LegacyNames(names, outputName) == names
    ensures outputName in names ==>
      Niftis(LegacyNames(names, outputName)) == Niftis(KeepFirstNifti(DropRoiNiftis(names)))
    ensures outputName in names ==> |Niftis(LegacyNames(names, outputName))| <= 1
    ensures outputName in names ==>
      OtherFiles(LegacyNames(names, outputName)) == RemoveAll(OtherFiles(names), [SidecarName(outputName)])
    ensures SidecarName(outputName) !in LegacyNames(names, outputName) <==>
      outputName in names || SidecarName(outputName) !in names
  {
    var sidecar := SidecarName(outputName);
    if outputName in names {
      var kept := KeepFirstNifti(DropRoiNiftis(names));
      SidecarIsBesideTheOutput("", outputName);
      RemoveAllOutsideFilter(kept, [sidecar], IsNifti);
      FilterRemoveAll(kept, [sidecar], IsNotNifti);
      DisambiguationKeepsFirstNonRoi(names);
      RemoveAllMembers(kept, [sidecar]);
    }
  }

  /** The post-processing fails only over the expected output or its sidecar: without the output
      it is the conversion ValueError, and with it the run succeeds exactly when dcm2niix wrote the
      sidecar, and otherwise raises FileNotFoundError for the sidecar's path. */
  lemma LegacyOutcomeFailsOnlyWithoutSidecar(dir: string, names: seq<string>, outputName: string)
    requires Distinct(names) && IsNifti(outputName)
    ensures outputName !in names ==> LegacyOutcome(dir, names, outputName) == Fail(ValueError(ConversionFailedMessage))
    ensures outputName in names ==> (LegacyOutcome(dir, names, outputName) == Pass <==> SidecarName(outputName) in names)
    ensures outputName in names && SidecarName(outputName) !in names ==>
      LegacyOutcome(dir, names, outputName) == Fail(FileNotFoundError(DropLast7(Join(dir, outputName)) + SidecarSuffix))
  {
    if outputName in names {
      var sidecar := SidecarName(outputName);
      var kept := KeepFirstNifti(DropRoiNiftis(names));
      SidecarIsBesideTheOutput(dir, outputName);
      DisambiguationKeepsFirstNonRoi(names);
      FilterMembers(names, IsNotNifti);
      FilterMembers(kept, IsNotNifti);
      assert sidecar in kept <==> sidecar in OtherFiles(kept);
    }
  }

  /** The expected output is not protected: when dcm2niix lists another `.nii.gz` file without
      "ROI" in its name before it, the post-processing deletes the expected output and still
      finishes without error. */
  lemma ExpectedOutputMayBeDeleted(dir: string, names: seq<string>, outputName: string)
    requires Distinct(names) && IsNifti(outputName)
    requires |Niftis(names)| > 1 && Niftis(names)[1] == outputName
    requires forall x | x in Niftis(names) :: !IsRoiArtifact(x)
    requires SidecarName(outputName) in names
    ensures outputName in names
    ensures outputName !in LegacyNames(names, outputName)
    ensures LegacyOutcome(dir, names, outputName) == Pass
  {
    var nii := Niftis(names);
    var sidecar := SidecarName(outputName);
    var kept := KeepFirstNifti(DropRoiNiftis(names));
    FilterMembers(names, IsNifti);
    assert outputName in names;
    DisambiguationKeepsFirstNonRoi(names);
    FilterAll(nii, IsNotRoiArtifact);
    FilterKeepsDistinct(names, IsNifti);
    assert nii[0] != outputName;
    assert Niftis(kept) == [nii[0]];
    FilterMembers(kept, IsNifti);
    assert outputName !in kept;
    SidecarIsBesideTheOutput(dir, outputName);
    FilterMembers(names, IsNotNifti);
    FilterMembers(kept, IsNotNifti);
    assert sidecar in OtherFiles(names);
    assert sidecar in kept;
    RemoveAllMembers(kept, [sidecar]);
  }

  lemma {:induction false} FilterAll(s: seq<string>, p: string -> bool)
    requires forall x | x in s :: p(x)
    ensures Filter(s, p) == s
  {
    if s != [] {
      FilterAll(s[1..], p);
    }
  }

  /** The output folder of a conversion: its path and its listing. File names in a folder are
      unique. */
  class Directory {
    const path: string
    var names: seq<string>

    ghost predicate Valid()
      reads this
    {
      Distinct(names)
    }

    constructor (path: string, listing: seq<string>)
      requires Distinct(listing)
      ensures Valid() && this.path == path && names == listing
    {
      this.path := path;
      names := listing;
    }

    /** `os.remove`: deletes the file, or reports that there was none (FileNotFoundError). */
    method Remove(name: string) returns (removed: bool)
      requires Valid()
      modifies this
      ensures Valid()
      ensures removed <==> name in old(names)
      ensures names == RemoveAll(old(names), [name])
    {
      removed := name in names;
      RemoveAllKeepsDistinct(names, [name]);
      names := RemoveAll(names, [name]);
    }
  }

  /** A listed `.nii.gz` file that the loop has not reached yet is still in the folder, so
      `os.remove` on it cannot fail. */
  lemma NotYetRemoved(names: seq<string>, nii: seq<string>, i: nat, done: seq<string>)
    requires nii == Niftis(names) && Distinct(nii) && i < |nii|
    requires forall x | x in done :: x in nii[..i]
    ensures nii[i] in RemoveAll(names, done)
  {
    FilterMembers(names, IsNifti);
    RemoveAllMembers(names, done);
    assert nii[i] !in nii[..i];
  }

  /** The first clean-up step of `dcm_to_nifti_LEGACY`: with more than one `.nii.gz` file
      listed, delete each listed one whose name contains "ROI". */
  method DeleteRoiNiftis(outputDir: Directory)
    requires outputDir.Valid()
    modifies outputDir
    ensures outputDir.Valid()
    ensures outputDir.names == DropRoiNiftis(old(outputDir.names))
  {
    ghost var before := outputDir.names;
    var niiFiles := Niftis(outputDir.names);
    FilterKeepsDistinct(outputDir.names, IsNifti);
    if |niiFiles| > 1 {
      RemoveAllNothing(before);
      for i := 0 to |niiFiles|
        invariant outputDir.Valid()
        invariant outputDir.names == RemoveAll(before, Filter(niiFiles[..i], IsRoiArtifact))
      {
        ghost var done := Filter(niiFiles[..i], IsRoiArtifact);
        FilterPrefixStep(niiFiles, i, IsRoiArtifact);
        if IsRoiArtifact(niiFiles[i]) {
          FilterMembers(niiFiles[..i], IsRoiArtifact);
          NotYetRemoved(before, niiFiles, i, done);
          RemoveAllStep(before, done, niiFiles[i]);
          var removed := outputDir.Remove(niiFiles[i]);
          assert removed;
          assert outputDir.names == RemoveAll(before, done + [niiFiles[i]]);
        } else {
          assert done + [] == done;
        }
      }
      assert niiFiles[..|niiFiles|] == niiFiles;
    }
  }

  /** The second clean-up step of `dcm_to_nifti_LEGACY`: with more than one `.nii.gz` file
      still listed, delete all but the first. */
  method DeleteAllButFirstNifti(outputDir: Directory)
    requires outputDir.Valid()
    modifies outputDir
    ensures outputDir.Valid()
    ensures outputDir.names == KeepFirstNifti(old(outputDir.names))
  {
    ghost var before := outputDir.names;
    var niiFiles := Niftis(outputDir.names);
    FilterKeepsDistinct(outputDir.names, IsNifti);
    if |niiFiles| > 1 {
      RemoveAllNothing(before);
      assert niiFiles[1..1] == [];
      for i := 1 to |niiFiles|
        invariant outputDir.Valid()
        invariant outputDir.names == RemoveAll(before, niiFiles[1..i])
      {
        assert niiFiles[1..i + 1] == niiFiles[1..i] + [niiFiles[i]];
        NotYetRemoved(before, niiFiles, i, niiFiles[1..i]);
        RemoveAllStep(before, niiFiles[1..i], niiFiles[i]);
        var removed := outputDir.Remove(niiFiles[i]);
        assert removed;
      }
      assert niiFiles[1..|niiFiles|] == niiFiles[1..];
    }
  }

  /** The post-processing of `dcm_to_nifti_LEGACY` on the folder dcm2niix wrote into (the run of
      dcm2niix itself is outside the model): a missing output is a ValueError; otherwise the
      extra `.nii.gz` files are weeded out and the sidecar removed, which raises when it is
      missing. */
  method DcmToNiftiLegacy(outputDir: Directory, outputName: string) returns (r: Outcome)
    requires outputDir.Valid() && IsNifti(outputName)
    modifies outputDir
    ensures outputDir.Valid()
    ensures outputDir.names == LegacyNames(old(outputDir.names), outputName)
    ensures r == LegacyOutcome(outputDir.path, old(outputDir.names), outputName)
  {
    if outputName !in outputDir.names {
      return Fail(ValueError(ConversionFailedMessage));
    }
    DeleteRoiNiftis(outputDir);
    DeleteAllButFirstNifti(outputDir);
    var sidecarRemoved := outputDir.Remove(SidecarName(outputName));
    if sidecarRemoved {
      r := Pass;
    } else {
      r := Fail(FileNotFoundError(Join(outputDir.path, SidecarName(outputName))));
    }
  }
}
