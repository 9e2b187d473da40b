/** Where the bundled yt-dlp binary lives (src/main/download.ts:31-51): a name chosen
    by the host platform at module load, under a directory that depends on whether the
    application runs from its source tree or packaged. */
module Locator {
  import opened Wrappers
  import opened Text

  const UNSUPPORTED := "Unsupported platform: "

  /** The binary's file name for `process.platform`, or the message of the error thrown
      at module load for any other platform. */
  function BinaryName(platform: string): (r: Result<string, string>)
    ensures r.Ok? <==> platform == "win32" || platform == "darwin" || platform == "linux"
    ensures r.Ok? ==> |r.value| > 6 && r.value[..6] == "yt-dlp" && '/' !in r.value
    ensures r.Err? ==> r.error == UNSUPPORTED + platform
  {
    match platform
    case "win32" => Ok("yt-dlp.exe")
    case "darwin" => Ok("yt-dlp_macos")
    case "linux" => Ok("yt-dlp_linux")
    case _ => Err(UNSUPPORTED + platform)
  }

  /** Distinct platforms never share a binary name, nor an error message. */
  lemma BinaryNameInjective(p: string, q: string)
    requires BinaryName(p) == BinaryName(q)
    ensures p == q
  {
    if BinaryName(p).Err? {
      assert p == (UNSUPPORTED + p)[|UNSUPPORTED|..];
      assert q == (UNSUPPORTED + q)[|UNSUPPORTED|..];
    }
  }

  /** `path.join(...parts)` for parts that carry no leading or trailing separator. */
  function JoinPath(parts: seq<string>): string
    requires |parts| >= 1
  {
    Join(parts, '/')
  }

  /** `ytDlpPath`'s two branches: `<appPath>/resources/bin/<name>` in development,
      otherwise `<resourcesPath>/bin/<name>`. */
  function BinaryPath(isDev: bool, appPath: string, resourcesPath: string, name: string): (r: string)
    ensures r == (if isDev then appPath + "/" + "resources" else resourcesPath) + "/" + "bin" + "/" + name
  {
    if isDev then
      JoinFour(appPath, "resources", "bin", name);
      JoinPath([appPath, "resources", "bin", name])
    else
      JoinThree(resourcesPath, "bin", name);
      JoinPath([resourcesPath, "bin", name])
  }

  lemma JoinThree(a: string, b: string, c: string)
    ensures JoinPath([a, b, c]) == (a + "/" + b) + "/" + c
  {
    var parts := [a, b, c];
    assert parts[1..] == [b, c] && parts[1..][1..] == [c];
    assert Join([c], '/') == c;
    assert Join([b, c], '/') == b + "/" + c;
    assert Join(parts, '/') == a + "/" + (b + "/" + c);
  }

  lemma JoinFour(a: string, b: string, c: string, d: string)
    ensures JoinPath([a, b, c, d]) == (a + "/" + b + "/" + c) + "/" + d
  {
    var parts := [a, b, c, d];
    assert parts[1..] == [b, c, d];
    JoinThree(b, c, d);
    assert Join(parts, '/') == a + "/" + ((b + "/" + c) + "/" + d);
  }

  /** The last two segments of `dir/bin/name`. */
  lemma {:induction false} InBinDirectory(parent: string, name: string)
    requires '/' !in name
    ensures var path := (parent + "/" + "bin") + "/" + name;
      Basename(path) == name && Basename(path[..|path| - |name| - 1]) == "bin"
  {
    var dir := parent + "/" + "bin";
    var path := dir + "/" + name;
    BasenameAfterSlash(dir, name);
    assert path[..|path| - |name| - 1] == dir;
    BasenameAfterSlash(parent, "bin");
  }

  /** The path of the binary, in both modes, ends in the file name chosen for the platform,
      in a directory named `bin`. */
  lemma {:induction false} LocatedBinary(platform: string, isDev: bool, appPath: string, resourcesPath: string)
    requires BinaryName(platform).Ok?
    ensures var name := BinaryName(platform).value;
      var path := BinaryPath(isDev, appPath, resourcesPath, name);
      Basename(path) == name && Basename(path[..|path| - |name| - 1]) == "bin"
  {
    var name := BinaryName(platform).value;
    InBinDirectory(if isDev then appPath + "/" + "resources" else resourcesPath, name);
  }

  /** What module load reads from the host: `process.platform`, `app.isPackaged`,
      `app.getAppPath()` and `process.resourcesPath`. */
  datatype Host = Host(platform: string, isPackaged: bool, appPath: string, resourcesPath: string)

  /** `ytDlpPath` as module load computes it, or the message it throws. */
  function YtDlpPath(host: Host): (r: Result<string, string>)
    ensures r.Ok? <==> BinaryName(host.platform).Ok?
    ensures r.Err? ==> r.error == UNSUPPORTED + host.platform
    ensures r.Ok? ==> Basename(r.value) == BinaryName(host.platform).value
  {
    match BinaryName(host.platform)
    case Err(message) => Err(message)
    case Ok(name) =>
      LocatedBinary(host.platform, !host.isPackaged, host.appPath, host.resourcesPath);
      Ok(BinaryPath(!host.isPackaged, host.appPath, host.resourcesPath, name))
  }
}
