# DICOM I/O decision rules of TotalSegmentator, modelled in Dafny

This project models the deterministic core of `totalsegmentator/dicom_io.py`: the logic that
sits between the external tools (nibabel, dicom2nifti, rt_utils and the dcm2niix binary).

- **RT Struct export** (`save_mask_as_rtstruct`). A non-NIfTI input is refused with a TypeError.
  Data that is not three-dimensional is refused with a ValueError. Otherwise the LPS volume is
  transposed with axes `(2, 1, 0)` into (Slices, Rows, Columns). The selected class map is then
  walked in order, and one ROI is added for each class whose 0/1 mask is not empty. Finally the
  document is saved once. The builder is the class `RTStruct`, whose `rois` sequence `AddRoi`
  appends to. The export loop is a method proved against the function `ExportedRois`. Lemmas show
  that the ROIs are exactly the classes present in the volume, in map order.
- **Rank check before reorientation** (`_reorient_to_lps`). The reorientation itself is a
  parameter of the model.
- **dcm2niix output clean-up** (`dcm_to_nifti_LEGACY`). The output folder is the class
  `Directory`, holding the ordered listing of file names. Deleting a file removes its name. A
  missing expected output is a ValueError. With more than one `.nii.gz` file, those whose name
  contains "ROI" are deleted. If more than one is still left, all but the first listed are
  deleted. Then the JSON sidecar is deleted, and `os.remove` raises FileNotFoundError when it is
  missing. Lemmas show which file survives and that other files are untouched.
- **dcm2niix location, download and invocation.** `download_dcm2niix` (lines 40-78) picks the
  release archive by system (lines 44-60). Any other system raises a ValueError before anything
  is fetched or made executable. `dcm_to_nifti_LEGACY` (lines 92-102) runs dcm2niix from the
  search path when it is there. Otherwise it runs the private copy in the configuration folder,
  downloading it first when missing. For an output name `<stem>.nii.gz` with a non-empty stem,
  the file stem it passes asks dcm2niix to write exactly that name. That holds only while the
  shell hands the paths over intact (see "## Left out").
- **Zip input redirection** (`dcm_to_nifti`). A zip input needs `tmp_dir`, and is read from
  `tmp_dir/extracted_dcm`.

Modules: `Results` (exceptions as values), `Paths` (string helpers: `Join` for pathlib's `/`,
`DropLast7` for Python's `s[:-7]`), `Volumes`, `Orientation`, `RtStructExport`,
`Dcm2niixOutput`, `Dcm2niixBinary`, `SeriesIngest`.

Behaviours of the code worth knowing, which the model keeps as written:
- The class map's index 0 is not treated as background. If the map lists 0 and the volume
  has voxels equal to 0, an ROI is exported for it (`ListedBackgroundIsExported`).
- Every error the code raises is a plain `ValueError`, except the `TypeError` for a non-NIfTI
  input and the `FileNotFoundError` of a missing sidecar. There are no dedicated configuration,
  platform, geometry or conversion error types.
- The "first by listing order" rule does not protect the expected output file. If another
  `.nii.gz` file without "ROI" in its name is listed first, the expected output is deleted and
  the function still returns normally (`ExpectedOutputMayBeDeleted`).

## Model

| member | source | states |
|---|---|---|
| `Volumes.Transpose210` | totalsegmentator/dicom_io.py:179 | the transposed volume has the input's extents reversed, and voxel (c, b, a) of it is voxel (a, b, c) of the input |
| `Volumes.TransposeInvolutive` | totalsegmentator/dicom_io.py:179 | transposing twice gives back the original volume, so the axis reorder loses no voxel |
| `Volumes.TransposeKeepsLabels` | totalsegmentator/dicom_io.py:179 | a class index occurs in the transposed volume exactly when it occurs in the LPS volume |
| `Volumes.ClassMask` | totalsegmentator/dicom_io.py:184-189 | the mask has the volume's shape, holds only 0 and 1, and is 1 exactly where the volume equals the class index |
| `Volumes.MaskAnyIffPresent` | totalsegmentator/dicom_io.py:184-186 | `np.any` of a class mask is true exactly when some voxel carries that class index |
| `Orientation.ReorientToLps` | totalsegmentator/dicom_io.py:159-163 | it fails, with the 3-D ValueError message, exactly when the data's rank is not 3; otherwise it yields the reoriented volume |
| `RtStructExport.RTStruct.CreateNew` | totalsegmentator/dicom_io.py:181 | a new builder for the reference series has no ROI and has not been saved |
| `RtStructExport.RTStruct.AddRoi` | totalsegmentator/dicom_io.py:188-191 | appends exactly one ROI with the given name and mask; nothing else changes |
| `RtStructExport.RTStruct.Save` | totalsegmentator/dicom_io.py:193 | records one save to the path; the ROIs are unchanged |
| `RtStructExport.SaveMaskAsRtstruct` | totalsegmentator/dicom_io.py:166-193 | a non-NIfTI input gives the TypeError; non-3-D data gives the ValueError; otherwise a fresh builder holds exactly `ExportedRois` of the transposed volume and was saved exactly once, to the output path |
| `RtStructExport.PresentPositionsSelectPresentClasses` | totalsegmentator/dicom_io.py:183-186 | the reference positions are strictly increasing, lie in the map, and include a position exactly when that class index occurs in the volume |
| `RtStructExport.ExportedRoisAreThePresentClasses` | totalsegmentator/dicom_io.py:183-191 | the n-th ROI is the n-th present class of the map, named after it and masked by it; there are as many ROIs as present classes |
| `RtStructExport.ExportedMasksAreNonEmpty` | totalsegmentator/dicom_io.py:184-191 | every exported mask is 0/1, has the volume's shape and has at least one voxel set |
| `RtStructExport.AbsentClassIsNeverExported` | totalsegmentator/dicom_io.py:185-186 | a class index with no voxel in the volume never yields an ROI |
| `RtStructExport.ListedBackgroundIsExported` | totalsegmentator/dicom_io.py:183-191 | index 0 gets no special treatment: when listed and present, its ROI is exported |
| `RtStructExport.OnePresentOneAbsent` | totalsegmentator/dicom_io.py:183-191 | with map {1, 2}, class 1 present and class 2 absent, exactly one ROI results, the one for class 1 |
| `Paths.DropLast7` | totalsegmentator/dicom_io.py:102 | Python's `s[:-7]`: seven characters shorter when possible, empty otherwise, and always a prefix |
| `Paths.StemRoundTrip` | totalsegmentator/dicom_io.py:102 | for a `.nii.gz` name, the stem given to dcm2niix plus `.nii.gz` is the name again |
| `Paths.DropLast7OfJoin` | totalsegmentator/dicom_io.py:128 | stripping seven characters from a full path only touches its last component when that has at least seven characters |
| `Dcm2niixBinary.DownloadUrl` | totalsegmentator/dicom_io.py:44-60 | succeeds exactly for Windows, Darwin and Linux, with a v1.0.20230411 release `.zip` URL; any other system gives the ValueError |
| `Dcm2niixBinary.DownloadUrlIdentifiesSystem` | totalsegmentator/dicom_io.py:44-60 | two systems with the same download URL are the same system |
| `Dcm2niixBinary.MacUrlIgnoresMachine` | totalsegmentator/dicom_io.py:47-55 | on Darwin, ARM and Intel machines get the same macOS archive |
| `Dcm2niixBinary.BinaryFileName` | totalsegmentator/dicom_io.py:95-98 | the private copy's file name is `dcm2niix` with an `.exe` extension exactly on Windows |
| `Dcm2niixBinary.DownloadDcm2niix` | totalsegmentator/dicom_io.py:44-72 | fails with the unknown-system ValueError exactly on an unsupported system; otherwise it fetches `DownloadUrl`'s archive and makes the configuration folder's `BinaryFileName` executable |
| `Dcm2niixBinary.LocateDcm2niix` | totalsegmentator/dicom_io.py:92-100 | the binary on the search path is used when present; otherwise the private copy in the configuration folder, downloaded first exactly when it is missing |
| `Dcm2niixBinary.Dcm2niixToRun` | totalsegmentator/dicom_io.py:92-100 | the search-path binary when present, else the private copy; fails, with the download's unknown-system ValueError, exactly when the private copy is missing on an unsupported system |
| `Dcm2niixBinary.DownloadProvidesTheLocatedBinary` | totalsegmentator/dicom_io.py:60-72 | a download happens only for a missing private copy; on a supported system it makes executable exactly the private copy the conversion then runs, on any other it ends in the unknown-system ValueError |
| `Dcm2niixBinary.Dcm2niixInvocation` | totalsegmentator/dicom_io.py:102 | compressed output into the output folder, standard output discarded unless verbose, and for a `.nii.gz` output name with a non-empty stem, a non-empty `-f` stem that makes dcm2niix write exactly that file |
| `Dcm2niixOutput.Directory.Remove` | totalsegmentator/dicom_io.py:116 | `os.remove`: reports whether the name was present and removes exactly that name |
| `Dcm2niixOutput.NotYetRemoved` | totalsegmentator/dicom_io.py:113-125 | a listed `.nii.gz` file the loops have not reached is still present, so no `os.remove` in the loops can fail |
| `Dcm2niixOutput.DeleteRoiNiftis` | totalsegmentator/dicom_io.py:109-117 | the folder afterwards is `DropRoiNiftis` of the folder before |
| `Dcm2niixOutput.DeleteAllButFirstNifti` | totalsegmentator/dicom_io.py:119-125 | the folder afterwards is `KeepFirstNifti` of the folder before |
| `Dcm2niixOutput.DcmToNiftiLegacy` | totalsegmentator/dicom_io.py:104-128 | a missing expected output is the ValueError and changes nothing; otherwise the folder ends as `LegacyNames` and the outcome is `LegacyOutcome`, failing only when the sidecar is missing |
| `Dcm2niixOutput.DropRoiNiftisRemovesOnlyRoiNiftis` | totalsegmentator/dicom_io.py:109-117 | with one `.nii.gz` file nothing is removed; otherwise exactly the `.nii.gz` files containing "ROI" are removed; non-`.nii.gz` files are untouched |
| `Dcm2niixOutput.KeepFirstNiftiLeavesTheFirst` | totalsegmentator/dicom_io.py:119-125 | afterwards at most one `.nii.gz` file remains, the first listed, and non-`.nii.gz` files are untouched |
| `Dcm2niixOutput.DisambiguationKeepsFirstNonRoi` | totalsegmentator/dicom_io.py:109-125 | with several `.nii.gz` files, the one kept is the first listed without "ROI", or none if all contain it; with at most one, nothing changes |
| `Dcm2niixOutput.SidecarIsBesideTheOutput` | totalsegmentator/dicom_io.py:128 | the sidecar path is `<output stem>.json` in the output's own folder, and it is neither the output nor any `.nii.gz` file |
| `Dcm2niixOutput.ExpectedOutputMayBeDeleted` | totalsegmentator/dicom_io.py:119-128 | when another non-"ROI" `.nii.gz` file is listed first, the expected output is deleted and the function still succeeds |
| `Dcm2niixOutput.LegacyOutcomeFailsOnlyWithoutSidecar` | totalsegmentator/dicom_io.py:104-128 | without the expected output it is the conversion ValueError; with it the run succeeds exactly when the sidecar was written, and otherwise raises FileNotFoundError for `<output stem>.json` |
| `Dcm2niixOutput.LegacyFolder` | totalsegmentator/dicom_io.py:104-128 | with the expected output written, at most one `.nii.gz` file remains (the one the clean-up keeps) and of the other files only the sidecar is gone; without it the folder is untouched |
| `SeriesIngest.DcmToNifti` | totalsegmentator/dicom_io.py:140-150 | fails with the tmp_dir ValueError exactly for a zip input without `tmp_dir`, before any extraction; a zip is extracted into `tmp_dir/extracted_dcm`, which the decoder reads; other inputs pass through; reorientation is requested |
| `SeriesIngest.ExtractionStaysInTmpDir` | totalsegmentator/dicom_io.py:144-147 | an extraction only ever happens inside the given `tmp_dir`, and the decoder reads the extracted folder |

## Left out

- The effects themselves are not modelled: running dcm2niix through the shell, `urlretrieve`,
  unpacking the zip archives, `chmod`, and the conversion by `dicom2nifti.dicom_series_to_nifti`.
  The dcm2niix run enters as the folder listing it leaves behind. The command line is kept as its
  argument fields (`Dcm2niixCall`), not as the shell string.
- `Dcm2niixBinary.Dcm2niixInvocation`: line 102 runs the command through the shell and quotes
  only the binary. Its fields are what dcm2niix receives only when all of these hold:
  - the output folder, the stem and the input path contain no whitespace or shell
    metacharacters;
  - the stem is non-empty.
  
  Otherwise the shell splits or rewrites them. A folder with a space passes a truncated `-o`. An
  output named just `.nii.gz` makes the input path the stem. The model does not capture either.
  `quiet` means only that standard output goes to `/dev/null`: error output is still shown, and
  on Windows the `/dev/null` redirect itself is not valid.
- Reorientation to LPS (`io_orientation`, `axcodes2ornt`, `ornt_transform`,
  `apply_orientation`) computes over floating-point affines in a library. It enters as the
  function parameter `applyLps`, and the affine is left abstract. So orientation round-trip and
  idempotence are not modelled.
- `get_fdata()` returns floats. Labels are modelled as integers, so comparing a non-integer
  voxel value with a class index is not modelled.
- rt_utils: contour construction from a mask and the serialisation done by `save` are not
  modelled. The builder keeps only the appended ROIs and the save paths.
- `zipfile.is_zipfile`, `shutil.which`, `platform.system()` and `platform.machine()` become
  inputs (`isZip`, `onSearchPath`, `system`, `machine`). A bytes payload is treated like a path.
- The fallback `os.path.splitext(input_path)[0]` on line 144 cannot be reached, because line
  141 has already raised when `tmp_dir` is None. The model has no branch for it.
- After a download, `download_dcm2niix` deletes `dcm2niix.zip` and `dcm2niibatch` if present.
  These deletions in the configuration folder are not modelled. Neither is `get_weights_dir`.
- `print`, `logging.basicConfig` and `tqdm` have no behaviour to state. Neither does the folder
  listing printed before the conversion error.
- `Dcm2niixOutput.DcmToNiftiLegacy` lists the `.nii.gz` files again after the "ROI" deletions
  (line 119). The model takes that second listing to keep the order of the first (line 109), with
  the deleted names left out. "Keep the first" means first in that order. `glob` itself
  guarantees no order.
- `Dcm2niixBinary.WrittenVolume` is the dcm2niix binary's documented naming, not derived from
  code: with `-z y -f <stem>` it writes `<stem>.nii.gz` into the `-o` folder. It also writes the
  `<stem>.json` sidecar. Extra files that dcm2niix names with suffixes enter only through the
  folder listing.
- `Dcm2niixOutput.DcmToNiftiLegacy` requires the output name to end in `.nii.gz`, as the
  docstring ("a nifti file path") asks of callers. Shorter names, where `[:-7]` would cut into
  the parent folder's path, are not modelled.
