/**
 * Selection of the vendored `protoc` binary by the Rust build script.
 *
 * The script reads the target's operating system and architecture from the compiler's
 * constants; here they are the parameters `os` and `arch` of `Detect` and
 * `ProtocBinPath`. A path is a string.
 */
module ProtocPath {
  import opened Wrappers

  datatype Arch =
    | LinuxX86_32
    | LinuxX86_64
    | LinuxAarch64
    | LinuxPpcle64
    | MacosAarch64
    | MacosX86_64
    | Win32

  /** The pair of constants for which no binary is vendored. */
  datatype Error = Error(os: string, arch: string)

  const VendoredDir: string := "vendored_protoc/"

  /**
   * Maps (os, arch) to the vendored architecture: six exact linux/macos pairs, every
   * windows architecture to `Win32`, and any other pair to an error carrying it.
   */
  function Detect(os: string, arch: string): (r: Result<Arch, Error>)
    ensures os == "windows" ==> r == Success(Win32)
    ensures r.Failure? ==> r.error == Error(os, arch)
    ensures r.Success? && r.value != Win32 ==> os in {"linux", "macos"}
  {
    match (os, arch)
    case ("linux", "x86") => Success(LinuxX86_32)
    case ("linux", "x86_64") => Success(LinuxX86_64)
    case ("linux", "aarch64") => Success(LinuxAarch64)
    case ("linux", "powerpc64") => Success(LinuxPpcle64)
    case ("macos", "x86_64") => Success(MacosX86_64)
    case ("macos", "aarch64") => Success(MacosAarch64)
    case ("windows", _) => Success(Win32)
    case (os, arch) => Failure(Error(os, arch))
  }

  /** Path of the vendored binary for one architecture. */
  function ArchPath(a: Arch): (p: string)
    ensures |p| > |VendoredDir| && p[..|VendoredDir|] == VendoredDir
    ensures ArchOfPath(p) == Some(a)
  {
    match a
    case LinuxX86_32 => "vendored_protoc/linux-x86_32/protoc"
    case LinuxX86_64 => "vendored_protoc/linux-x86_64/protoc"
    case LinuxAarch64 => "vendored_protoc/linux-aarch_64/protoc"
    case LinuxPpcle64 => "vendored_protoc/linux-ppcle_64/protoc"
    case MacosX86_64 => "vendored_protoc/macos-x86_64/protoc"
    case MacosAarch64 => "vendored_protoc/macos-aarch_64/protoc"
    case Win32 => "vendored_protoc/win32/protoc.exe"
  }

  /** Inverse of `ArchPath`: which architecture a vendored path belongs to. */
  function ArchOfPath(p: string): Option<Arch>
  {
    match p
    case "vendored_protoc/linux-x86_32/protoc" => Some(LinuxX86_32)
    case "vendored_protoc/linux-x86_64/protoc" => Some(LinuxX86_64)
    case "vendored_protoc/linux-aarch_64/protoc" => Some(LinuxAarch64)
    case "vendored_protoc/linux-ppcle_64/protoc" => Some(LinuxPpcle64)
    case "vendored_protoc/macos-x86_64/protoc" => Some(MacosX86_64)
    case "vendored_protoc/macos-aarch_64/protoc" => Some(MacosAarch64)
    case "vendored_protoc/win32/protoc.exe" => Some(Win32)
    case _ => None
  }

  /**
   * Path to the vendored `protoc` for (os, arch); the error of `Detect` is passed on
   * unchanged.
   */
  function ProtocBinPath(os: string, arch: string): (r: Result<string, Error>)
    ensures r.Failure? <==> Detect(os, arch).Failure?
    ensures r.Failure? ==> r.error == Error(os, arch)
    ensures r.Success? ==> |r.value| > |VendoredDir| && r.value[..|VendoredDir|] == VendoredDir
    ensures r.Success? ==> ArchOfPath(r.value) == Some(Detect(os, arch).value)
  {
    match Detect(os, arch)
    case Failure(e) => Failure(e)
    case Success(a) => Success(ArchPath(a))
  }

  /** Distinct architectures have distinct paths. */
  lemma ArchPathsDistinct(a: Arch, b: Arch)
    ensures ArchPath(a) == ArchPath(b) ==> a == b
  {
    assert ArchOfPath(ArchPath(a)) == Some(a);
  }

  /**
   * `Detect` succeeds exactly on the six named linux/macos pairs and on windows, and
   * maps each of them to its named variant.
   */
  lemma DetectTable(os: string, arch: string)
    ensures Detect(os, arch).Success? <==>
              os == "windows" ||
              (os, arch) in {("linux", "x86"), ("linux", "x86_64"), ("linux", "aarch64"),
                             ("linux", "powerpc64"), ("macos", "x86_64"), ("macos", "aarch64")}
    ensures Detect("linux", "x86") == Success(LinuxX86_32)
    ensures Detect("linux", "x86_64") == Success(LinuxX86_64)
    ensures Detect("linux", "aarch64") == Success(LinuxAarch64)
    ensures Detect("linux", "powerpc64") == Success(LinuxPpcle64)
    ensures Detect("macos", "x86_64") == Success(MacosX86_64)
    ensures Detect("macos", "aarch64") == Success(MacosAarch64)
  {
  }

  /** Windows resolves to the win32 executable for every architecture. */
  lemma WindowsPath(arch: string)
    ensures ProtocBinPath("windows", arch) == Success("vendored_protoc/win32/protoc.exe")
  {
  }
}
