/** Locating, downloading and invoking the dcm2niix binary for `dcm_to_nifti_LEGACY`: which
    release archive suits the platform, where the private copy lives, and what the binary is
    asked to write. The download, unpacking, `chmod` and the subprocess are effects outside the
    model; the platform queries enter as the strings `system` (`platform.system()`) and
    `machine` (`platform.machine()`). */
module Dcm2niixBinary {
  import opened Results
  import opened Paths

  const ReleaseBase := "https://github.com/rordenlab/dcm2niix/releases/download/v1.0.20230411/"
  const WindowsAsset := "dcm2niix_win.zip"
  const MacAsset := "dcm2niix_macos.zip"
  const LinuxAsset := "dcm2niix_lnx.zip"
  const UnknownSystemMessage := "Unknown operating system. Can not download the right version of dcm2niix."

  predicate StartsWith(s: string, prefix: string) {
    |prefix| <= |s| && s[..|prefix|] == prefix
  }

  /** Python's `platform.machine().startswith("arm") or ...startswith("aarch")`. */
  predicate IsArmMachine(machine: string) {
    StartsWith(machine, "arm") || StartsWith(machine, "aarch")
  }

  predicate IsSupportedSystem(system: string) {
    system == "Windows" || system == "Darwin" || system == "Linux"
  }

  /** `download_dcm2niix`'s choice of release archive: one per supported system, a ValueError for
      any other. */
  function DownloadUrl(system: string, machine: string): (r: Result<string>)
    ensures r.Success? <==> IsSupportedSystem(system)
    ensures r.Failure? ==> r.error == ValueError(UnknownSystemMessage)
    ensures r.Success? ==> StartsWith(r.value, ReleaseBase) && EndsWith(r.value, ".zip")
  {
    if system == "Windows" then Success(ReleaseBase + WindowsAsset)
    else if system == "Darwin" then
      if IsArmMachine(machine) then Success(ReleaseBase + MacAsset)
      else Success(ReleaseBase + MacAsset)
    else if system == "Linux" then Success(ReleaseBase + LinuxAsset)
    else Failure(ValueError(UnknownSystemMessage))
  }

  /** Each supported system gets its own archive, so the URL tells which system it is for. */
  lemma DownloadUrlIdentifiesSystem(system1: string, machine1: string, system2: string, machine2: string)
    requires DownloadUrl(system1, machine1).Success? && DownloadUrl(system2, machine2).Success?
    requires DownloadUrl(system1, machine1).value == DownloadUrl(system2, machine2).value
    ensures system1 == system2
  {
    var u1 := DownloadUrl(system1, machine1).value;
    var u2 := DownloadUrl(system2, machine2).value;
    assert u1[|ReleaseBase| + 9] == u2[|ReleaseBase| + 9];
  }

  /** On macOS the machine does not matter: ARM and Intel get the same archive. */
  lemma MacUrlIgnoresMachine(machine1: string, machine2: string)
    ensures DownloadUrl("Darwin", machine1) == DownloadUrl("Darwin", machine2) == Success(ReleaseBase + MacAsset)
  {
  }

  /** The file name of the binary on `system`: the Windows build carries the `.exe` extension. */
  function BinaryFileName(system: string): (name: string)
    ensures StartsWith(name, "dcm2niix")
    ensures EndsWith(name, ".exe") <==> system == "Windows"
  {
    if system == "Windows" then "dcm2niix.exe" else "dcm2niix"
  }

  /** What `download_dcm2niix` fetches and then makes executable, in that order. */
  datatype Download = Download(url: string, executable: string)

  /** `download_dcm2niix` up to its `chmod`: the URL is chosen first, so an unsupported system
      raises before anything is fetched or made executable. */
  function DownloadDcm2niix(system: string, machine: string, configDir: string): (r: Result<Download>)
    ensures r.Failure? <==> !IsSupportedSystem(system)
    ensures r.Failure? ==> r.error == ValueError(UnknownSystemMessage)
    ensures r.Success? ==> r.value.url == DownloadUrl(system, machine).value
    ensures r.Success? ==> r.value.executable == Join(configDir, BinaryFileName(system))
  {
    match DownloadUrl(system, machine)
    case Failure(e) => Failure(e)
    case Success(url) =>
      // `download_dcm2niix` spells the two names out again (lines 69-72) rather than sharing them
      // with `dcm_to_nifti_LEGACY` (lines 95-98); the ensures above ties the two spellings together.
      var executable := if system == "Windows" then Join(configDir, "dcm2niix.exe") else Join(configDir, "dcm2niix");
      Success(Download(url, executable))
  }

  /** Where `dcm_to_nifti_LEGACY` finds dcm2niix: on the search path, or as the private copy in
      the configuration folder, downloaded first when it is not there yet. */
  datatype Dcm2niixLocation = OnSearchPath | PrivateCopy(path: string, downloadFirst: bool)

  function LocateDcm2niix(onSearchPath: bool, system: string, configDir: string, privateCopyExists: bool): (loc: Dcm2niixLocation)
    ensures onSearchPath <==> loc.OnSearchPath?
    ensures loc.PrivateCopy? ==> (loc.downloadFirst <==> !privateCopyExists)
    ensures loc.PrivateCopy? ==> loc.path == Join(configDir, BinaryFileName(system))
  {
    if onSearchPath then OnSearchPath
    else PrivateCopy(Join(configDir, BinaryFileName(system)), !privateCopyExists)
  }

  /** The binary `dcm_to_nifti_LEGACY` goes on to run, or the error the download raises on the
      way: the name on the search path, the private copy, or the private copy once downloaded. */
  function Dcm2niixToRun(onSearchPath: bool, system: string, machine: string, configDir: string, privateCopyExists: bool): (r: Result<string>)
    ensures r.Failure? <==> !onSearchPath && !privateCopyExists && !IsSupportedSystem(system)
    ensures r.Failure? ==> r.error == ValueError(UnknownSystemMessage)
    ensures r.Success? && onSearchPath ==> r.value == "dcm2niix"
    ensures r.Success? && !onSearchPath ==> r.value == Join(configDir, BinaryFileName(system))
  {
    match LocateDcm2niix(onSearchPath, system, configDir, privateCopyExists)
    case OnSearchPath => Success("dcm2niix")
    case PrivateCopy(path, downloadFirst) =>
      if !downloadFirst then Success(path)
      else match DownloadDcm2niix(system, machine, configDir)
        case Failure(e) => Failure(e)
        case Success(d) => Success(path)
  }

  /** A download is only ever triggered for a missing private copy, and on a supported system
      the file it makes executable is the one the conversion then runs. On any other system the
      download raises before fetching anything (see `Dcm2niixToRun`). */
  lemma DownloadProvidesTheLocatedBinary(system: string, machine: string, configDir: string, privateCopyExists: bool)
    ensures !LocateDcm2niix(true, system, configDir, privateCopyExists).PrivateCopy?
    ensures var loc := LocateDcm2niix(false, system, configDir, privateCopyExists);
      loc.downloadFirst && IsSupportedSystem(system) ==>
        DownloadDcm2niix(system, machine, configDir).Success? &&
        DownloadDcm2niix(system, machine, configDir).value.executable == loc.path
    ensures var loc := LocateDcm2niix(false, system, configDir, privateCopyExists);
      loc.downloadFirst && !IsSupportedSystem(system) ==>
        DownloadDcm2niix(system, machine, configDir) == Failure(ValueError(UnknownSystemMessage))
  {
  }

  /** The arguments dcm2niix is run with: `-o <outputDir> -z y -f <fileStem> <inputDir>`, with
      its console output discarded unless verbose. */
  datatype Dcm2niixCall = Dcm2niixCall(binary: string, outputDir: string, compress: bool,
                                       fileStem: string, inputDir: string, quiet: bool)

  /** The volume dcm2niix writes for a call, as the binary documents it: with `-z y` it writes
      `<fileStem>.nii.gz` into the `-o` folder. This is the assumed contract of the external
      binary, not something the model derives. */
  function WrittenVolume(call: Dcm2niixCall): (string, string) {
    (call.outputDir, call.fileStem + NiftiSuffix)
  }

  /** The subprocess call of `dcm_to_nifti_LEGACY`: compressed output, standard output discarded
      unless verbose, and, for an output path named `*.nii.gz` with a non-empty stem, a file stem
      that makes dcm2niix write exactly that file into the output folder. The fields are what
      dcm2niix receives only when the shell leaves them whole (see the README). */
  function Dcm2niixInvocation(binary: string, outputDir: string, outputName: string, inputDir: string, verbose: bool): (call: Dcm2niixCall)
    ensures call.binary == binary && call.inputDir == inputDir && call.outputDir == outputDir
    ensures call.compress
    ensures call.quiet <==> !verbose
    ensures EndsWith(outputName, NiftiSuffix) && |outputName| > |NiftiSuffix| ==>
      call.fileStem != "" && WrittenVolume(call) == (outputDir, outputName)
  {
    var call := Dcm2niixCall(binary, outputDir, true, DropLast7(outputName), inputDir, !verbose);
    if EndsWith(outputName, NiftiSuffix) then StemRoundTrip(outputName); call else call
  }
}
