/** How `dcm_to_nifti` resolves its input before handing it to the in-process DICOM decoder: a
    zip archive is extracted into a scratch folder, which must have been given; a folder of
    slices passes through. Whether the input is a zip archive (`zipfile.is_zipfile`, which
    inspects the content) enters the model as the flag `isZip`. */
module SeriesIngest {
  import opened Results
  import opened Paths

  const MissingTmpDirMessage := "tmp_dir must be set when input_path is a zip file or bytes object of zip file"
  const ExtractedFolder := "extracted_dcm"

  /** The work `dcm_to_nifti` asks for: the folder it extracts the archive into, if any, and the
      call `dicom_series_to_nifti(source, output, reorient_nifti=True)`. */
  datatype Conversion = Conversion(extractInto: Option<string>, source: string, output: string, reorientNifti: bool)

  /** `dcm_to_nifti`: a zip input without `tmp_dir` is a ValueError raised before anything is
      extracted; a zip input with `tmp_dir` is extracted into `tmp_dir/extracted_dcm`, which the
      decoder then reads; any other input is read as it is. */
  function DcmToNifti(inputPath: string, isZip: bool, tmpDir: Option<string>, outputPath: string): (r: Result<Conversion>)
    ensures r.Failure? <==> isZip && tmpDir.None?
    ensures r.Failure? ==> r.error == ValueError(MissingTmpDirMessage)
    ensures r.Success? ==> r.value.output == outputPath && r.value.reorientNifti
    ensures r.Success? ==> (r.value.extractInto.Some? <==> isZip)
    ensures r.Success? && isZip ==>
      r.value.extractInto == Some(Join(tmpDir.value, ExtractedFolder)) && r.value.source == r.value.extractInto.value
    ensures r.Success? && !isZip ==> r.value.source == inputPath
  {
    if isZip then
      if tmpDir.None? then Failure(ValueError(MissingTmpDirMessage))
      else
        var extractDir := Join(tmpDir.value, ExtractedFolder);
        Success(Conversion(Some(extractDir), extractDir, outputPath, true))
    else Success(Conversion(None, inputPath, outputPath, true))
  }

  /** Nothing is ever extracted outside the scratch folder the caller gave, and the decoder always
      reads the folder the archive was extracted into. */
  lemma ExtractionStaysInTmpDir(inputPath: string, isZip: bool, tmpDir: Option<string>, outputPath: string)
    ensures var r := DcmToNifti(inputPath, isZip, tmpDir, outputPath);
      r.Success? && r.value.extractInto.Some? ==>
        && tmpDir.Some?
        && r.value.extractInto.value[..|tmpDir.value| + 1] == tmpDir.value + "/"
        && r.value.source == r.value.extractInto.value
  {
    var r := DcmToNifti(inputPath, isZip, tmpDir, outputPath);
    if r.Success? && r.value.extractInto.Some? {
      var p := Join(tmpDir.value, ExtractedFolder);
      assert p[..|tmpDir.value| + 1] == tmpDir.value + "/";
    }
  }
}
