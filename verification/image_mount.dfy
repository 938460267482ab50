/**
  Developer-image resolution and mounting (controller/mount.go): version
  aliasing, the download URLs, the local application directory, the version
  gate, the cached-zip check, the download loop, the choice of zip entries and
  the final mount decision.

  The file system, HTTP and the zip reader are an environment of outcomes:
  whether the unpacked image is already present, what state the cached zip is
  in, what each URL's download leaves behind, and each zip entry's fate.

  Three places in mount.go behave differently from what they are evidently
  meant to do. Each is modelled both as written and as corrected, selected by
  `Build`; the lemmas under "Findings" exhibit the difference.
*/
module ImageMount {
  import opened Wrappers
  import opened Values
  import opened Errors

  datatype Build = AsWritten | Corrected

  // ---------------------------------------------------------------------
  // Strings

  predicate IsPrefix(p: string, s: string) {
    |p| <= |s| && s[..|p|] == p
  }

  /** `sub` occurs in `s` starting at position `j`. */
  predicate OccursAt(s: string, sub: string, j: nat) {
    j + |sub| <= |s| && s[j..j + |sub|] == sub
  }

  /** The first occurrence of `sub` in `s` at or after position `k`. */
  function IndexFrom(s: string, sub: string, k: nat): (r: Option<nat>)
    requires k <= |s|
    ensures r.Some? ==> k <= r.value && OccursAt(s, sub, r.value)
    ensures r.Some? ==> forall j :: k <= j < r.value ==> !OccursAt(s, sub, j)
    ensures r.None? ==> forall j :: k <= j ==> !OccursAt(s, sub, j)
    decreases |s| - k
  {
    if k + |sub| > |s| then None
    else if OccursAt(s, sub, k) then Some(k)
    else IndexFrom(s, sub, k + 1)
  }

  /** `strings.Index`: the first position at which `sub` occurs in `s`, None for Go's -1. */
  function Index(s: string, sub: string): (r: Option<nat>)
    ensures r.Some? ==> OccursAt(s, sub, r.value)
    ensures r.Some? ==> forall j :: 0 <= j < r.value ==> !OccursAt(s, sub, j)
    ensures r.None? ==> forall j :: 0 <= j ==> !OccursAt(s, sub, j)
  {
    IndexFrom(s, sub, 0)
  }

  /** `strings.Replace(s, old, new, 1)`. */
  function ReplaceFirst(s: string, pattern: string, replacement: string): (r: string)
    ensures Index(s, pattern).None? ==> r == s
    ensures Index(s, pattern).Some? ==>
      var i := Index(s, pattern).value;
      r == s[..i] + replacement + s[i + |pattern|..]
  {
    match Index(s, pattern)
    case None => s
    case Some(i) => s[..i] + replacement + s[i + |pattern|..]
  }

  /** The path with its trailing separators removed. */
  function TrimTrailingSlash(p: string): (r: string)
    ensures |r| <= |p| && r == p[..|r|]
    ensures |r| > 0 ==> r[|r| - 1] != '/'
    decreases |p|
  {
    if |p| > 0 && p[|p| - 1] == '/' then TrimTrailingSlash(p[..|p| - 1]) else p
  }

  /** `filepath.Join` of two elements, with empty elements ignored. */
  function Join(a: string, b: string): (r: string)
    ensures b == "" ==> r == a
    ensures a == "" ==> r == b
    ensures a != "" && b != "" ==> r == TrimTrailingSlash(a) + "/" + b
    ensures b != "" ==> r != ""
  {
    if b == "" then a else if a == "" then b else TrimTrailingSlash(a) + "/" + b
  }

  // ---------------------------------------------------------------------
  // Versions, URLs, directories

  /** The version aliases (controller/mount.go:18-21). */
  const Alias: map<string, string> := map["12.5" := "12.4", "15.8" := "15.5"]

  /** `alias[v]` when it is non-empty, else `v`. */
  function ResolveVersion(v: string): (r: string)
    ensures v == "12.5" ==> r == "12.4"
    ensures v == "15.8" ==> r == "15.5"
    ensures v != "12.5" && v != "15.8" ==> r == v
  {
    if v in Alias && Alias[v] != "" then Alias[v] else v
  }

  const OriginPrefix: string := "https://github.com"
  const MirrorPrefix: string := "https://tool.appetizer.io"
  const RepoPath: string := "/JinjunHan/iOSDeviceSupport/raw/master/iOSDeviceSupport/"

  /** `getImageUrlByVersion` (controller/mount.go:138-147). */
  function ImageUrls(version: string): (urls: seq<string>)
    ensures |urls| == 2
    ensures urls[0] == OriginPrefix + RepoPath + version + ".zip"
    ensures urls[1] == ReplaceFirst(urls[0], OriginPrefix, MirrorPrefix)
  {
    var origin := OriginPrefix + RepoPath + version + ".zip";
    [origin, ReplaceFirst(origin, OriginPrefix, MirrorPrefix)]
  }

  /** The mirror URL is the origin URL with its host swapped, for every version. */
  lemma MirrorUrlSwapsHost(version: string)
    ensures ImageUrls(version)[1] == MirrorPrefix + RepoPath + version + ".zip"
  {
    var origin := OriginPrefix + RepoPath + version + ".zip";
    assert origin[..|OriginPrefix|] == OriginPrefix;
    assert Index(origin, OriginPrefix) == Some(0);
    assert origin[|OriginPrefix|..] == RepoPath + version + ".zip";
  }

  /** `getAppDir` (controller/mount.go:149-161): `<home>/.GOS`, joined with `p` when it is non-empty. */
  function AppDir(home: string, p: string): (r: string)
    ensures p == "" ==> r == Join(home, ".GOS")
    ensures p != "" ==> r == Join(Join(home, ".GOS"), p)
  {
    var appdir := Join(home, ".GOS");
    if |p| > 0 then Join(appdir, p) else appdir
  }

  /** Below a home directory, the application directory is `<home>/.GOS/<p>`. */
  lemma AppDirLayout(home: string, p: string)
    requires home != "" && home[|home| - 1] != '/' && p != ""
    ensures AppDir(home, p) == home + "/.GOS/" + p
  {
    assert TrimTrailingSlash(home) == home;
    var base := home + "/.GOS";
    assert base[|base| - 1] == 'S';
    assert TrimTrailingSlash(base) == base;
  }

  // ---------------------------------------------------------------------
  // The version gate

  /** The gate as written: `strings.Index(version, "17.") > 0`. */
  predicate RejectsVersion(build: Build, version: string) {
    match build
    case AsWritten => Index(version, "17.").Some? && Index(version, "17.").value > 0
    case Corrected => IsPrefix("17.", version)
  }

  /** The corrected gate rejects exactly the versions of major release 17. */
  lemma CorrectedGateRejects17(version: string)
    ensures RejectsVersion(Corrected, version) <==> |version| >= 3 && version[..3] == "17."
  {
  }

  /** As written, no version that starts with "17." is rejected: the gate never fires for iOS 17. */
  lemma AsWrittenGateAdmits17(version: string)
    requires IsPrefix("17.", version)
    ensures !RejectsVersion(AsWritten, version)
    ensures RejectsVersion(Corrected, version)
  {
    assert version[0..3] == "17.";
    assert Index(version, "17.") == Some(0);
  }

  /** Concretely, "17.0" passes the gate as written. */
  lemma AsWrittenGateExample()
    ensures !RejectsVersion(AsWritten, "17.0") && RejectsVersion(Corrected, "17.0")
  {
    AsWrittenGateAdmits17("17.0");
  }

  // ---------------------------------------------------------------------
  // The cached zip and the download loop

  /** What is at a path on disk. */
  datatype FileState = Missing | NotZip | ValidZip

  /**
    `checkZipFile` (controller/mount.go:122-136). As written, a file that exists
    but is not a zip makes `zip.OpenReader` return a nil reader, and the deferred
    `r.Close()` on it panics.
  */
  function CheckZipFile(build: Build, f: FileState): (r: Result<bool, Error>)
    ensures build == Corrected ==> r == Success(f == ValidZip)
    ensures build == AsWritten && f != NotZip ==> r == Success(f == ValidZip)
    ensures build == AsWritten && f == NotZip ==> r.Failure? && r.error.Panic?
  {
    match f
    case Missing => Success(false)
    case ValidZip => Success(true)
    case NotZip => if build == AsWritten then Failure(Panic("nil pointer dereference in Close")) else Success(false)
  }

  /** What fetching one URL leaves: whether `urlRetrive` reported success, and the file it left. */
  datatype Download = Download(retrieved: bool, file: FileState)

  /**
    A download that ends the URL loop: as written, any retrieved file that exists
    (a valid zip is returned, anything else panics in `checkZipFile`); corrected,
    only a retrieved valid zip.
  */
  predicate Decides(build: Build, d: Download) {
    d.retrieved && (if build == AsWritten then d.file != Missing else d.file == ValidZip)
  }

  /**
    The loop over the URLs (controller/mount.go:198-205), in order: the first
    deciding download settles the outcome, and without one the result is "".
  */
  function TryUrls(build: Build, urls: seq<string>, fetch: string -> Download, zipPath: string)
    : (r: Result<string, Error>)
    ensures r.Success? ==> r.value == "" || r.value == zipPath
    ensures build == Corrected ==> r.Success?
    ensures (forall i :: 0 <= i < |urls| ==> !Decides(build, fetch(urls[i]))) ==> r == Success("")
    ensures forall i ::
      (0 <= i < |urls| && Decides(build, fetch(urls[i]))
       && forall j :: 0 <= j < i ==> !Decides(build, fetch(urls[j]))) ==>
      && (fetch(urls[i]).file == ValidZip ==> r == Success(zipPath))
      && (fetch(urls[i]).file == NotZip ==> r.Failure? && r.error.Panic?)
    ensures build == Corrected && zipPath != "" ==>
      (r.value == zipPath <==> exists i :: 0 <= i < |urls| && fetch(urls[i]).retrieved && fetch(urls[i]).file == ValidZip)
    decreases |urls|
  {
    if |urls| == 0 then Success("")
    else
      var d := fetch(urls[0]);
      assert forall i :: 1 <= i < |urls| ==> urls[i] == urls[1..][i - 1];
      if !d.retrieved then TryUrls(build, urls[1..], fetch, zipPath)
      else match CheckZipFile(build, d.file)
        case Failure(e) => Failure(e)
        case Success(ok) => if ok then Success(zipPath) else TryUrls(build, urls[1..], fetch, zipPath)
  }

  /** The path the version's zip is stored at. */
  function ZipPath(home: string, version: string): (p: string)
    ensures p != ""
  {
    Join(AppDir(home, "device-support"), version + ".zip")
  }

  /**
    `downloadImage` (controller/mount.go:193-208). As written, an already valid
    cached zip yields "" (the download loop is skipped and nothing is returned);
    corrected, it yields the cached zip's path.
  */
  function DownloadImage(build: Build, home: string, version: string, cached: FileState, fetch: string -> Download)
    : (r: Result<string, Error>)
    ensures r.Success? ==> r.value == "" || r.value == ZipPath(home, version)
    // as written: a valid cache gives "", a corrupt one panics, and a missing one goes to the URLs
    ensures build == AsWritten && cached == ValidZip ==> r == Success("")
    ensures build == AsWritten && cached == NotZip ==> r.Failure? && r.error.Panic?
    ensures cached == Missing ==> r == TryUrls(build, ImageUrls(version), fetch, ZipPath(home, version))
    ensures build == Corrected && cached != ValidZip ==>
      r == TryUrls(build, ImageUrls(version), fetch, ZipPath(home, version))
    ensures build == Corrected ==> r.Success?
    // corrected: a usable zip is found exactly when it is cached or one URL delivers it
    ensures build == Corrected ==>
      (r.value == ZipPath(home, version) <==>
         cached == ValidZip ||
         exists i :: 0 <= i < 2 && fetch(ImageUrls(version)[i]).retrieved
                                && fetch(ImageUrls(version)[i]).file == ValidZip)
  {
    var zipPath := ZipPath(home, version);
    match CheckZipFile(build, cached)
    case Failure(e) => Failure(e)
    case Success(valid) =>
      if !valid then TryUrls(build, ImageUrls(version), fetch, zipPath)
      else if build == Corrected then Success(zipPath)
      else Success("")
  }

  /** As written, a valid cached zip is reported as "no image", while the corrected version returns it. */
  lemma AsWrittenDownloadLosesCache(home: string, version: string, fetch: string -> Download)
    ensures DownloadImage(AsWritten, home, version, ValidZip, fetch) == Success("")
    ensures DownloadImage(Corrected, home, version, ValidZip, fetch) == Success(ZipPath(home, version))
  {
  }

  /** As written, a corrupt cached zip panics instead of being downloaded again. */
  lemma AsWrittenCorruptCachePanics(home: string, version: string, fetch: string -> Download)
    ensures DownloadImage(AsWritten, home, version, NotZip, fetch).Failure?
    ensures DownloadImage(Corrected, home, version, NotZip, fetch).Success?
  {
  }

  // ---------------------------------------------------------------------
  // Choosing the zip entries

  /** One zip entry and what happens when it is unpacked. */
  datatype ZipEntry = ZipEntry(name: string, isDir: bool, opens: bool, creates: bool, copies: bool)

  function DmgName(version: string): string { version + "/DeveloperDiskImage.dmg" }
  function SigName(version: string): string { version + "/DeveloperDiskImage.dmg.signature" }

  /** An entry that sets one of the two paths: a file with exactly this name that opens and is created. */
  predicate Unpacks(e: ZipEntry, name: string) {
    !e.isDir && e.name == name && e.opens && e.creates
  }

  datatype ImagePaths = ImagePaths(dmg: string, signature: string)

  /**
    The entry loop (controller/mount.go:60-98) over the first `n` entries: the
    dmg and signature paths it has set, "" for one not yet set. A failed copy is
    reported but still sets the path.
  */
  function SelectEntries(version: string, base: string, entries: seq<ZipEntry>, n: nat): (p: ImagePaths)
    requires n <= |entries|
    ensures p.dmg != "" <==> exists i :: 0 <= i < n && Unpacks(entries[i], DmgName(version))
    ensures p.dmg != "" ==> p.dmg == Join(base, DmgName(version))
    ensures p.signature != "" <==> exists i :: 0 <= i < n && Unpacks(entries[i], SigName(version))
    ensures p.signature != "" ==> p.signature == Join(base, SigName(version))
    decreases n
  {
    if n == 0 then ImagePaths("", "")
    else
      var p := SelectEntries(version, base, entries, n - 1);
      var e := entries[n - 1];
      if e.isDir then p
      else if e.name != DmgName(version) && e.name != SigName(version) then p
      else if !e.opens || !e.creates then p
      else if e.name == DmgName(version) then p.(dmg := Join(base, e.name))
      else p.(signature := Join(base, e.name))
  }

  /** A near miss does not count: only the exact names below the version directory are taken. */
  lemma OnlyExactNamesSelected(version: string, base: string, other: string)
    requires other != DmgName(version) && other != SigName(version)
    ensures SelectEntries(version, base, [ZipEntry(other, false, true, true, true)], 1) == ImagePaths("", "")
  {
  }

  // ---------------------------------------------------------------------
  // Mount

  /** What `Mount` did when it returned nil. */
  datatype MountAction =
    | AlreadyMounted                          // the device already lists a developer image
    | Mounted(dmg: string, signature: string) // the mount was asked for with these paths
    | NothingToMount                          // one of the two paths was not found; nil is returned silently

  /** The outcomes `Mount` depends on. */
  datatype MountEnv = MountEnv(
    productVersion: Result<string, Error>,     // `dev.DeviceInfo()`
    images: Result<seq<Value>, Error>,         // `dev.Images()`
    home: string,                              // `os.UserHomeDir()`
    localImage: bool,                          // the unpacked DeveloperDiskImage.dmg is already present
    cached: FileState,                         // the cached `<version>.zip`
    fetch: string -> Download,                 // each URL's download
    zipOpens: bool,                            // `zip.OpenReader` of the downloaded zip
    entries: seq<ZipEntry>,                    // the zip's entries, in order
    mountError: Option<Error>)                 // `dev.MountDeveloperDiskImage`

  /** The dmg and signature paths `Mount` settles on, or the error that stops it. */
  function ResolveImage(build: Build, env: MountEnv, version: string): (r: Result<ImagePaths, Error>)
    ensures env.localImage ==> r.Success?
    ensures env.localImage ==>
      var dir := AppDir(env.home, "device-support/" + version);
      r.value == ImagePaths(Join(dir, "DeveloperDiskImage.dmg"), Join(dir, "DeveloperDiskImage.dmg.signature"))
    ensures !env.localImage && DownloadImage(build, env.home, version, env.cached, env.fetch) == Success("") ==>
      r == Failure(Message("can't find properties image"))
    // a download failure (a panic) propagates
    ensures !env.localImage && DownloadImage(build, env.home, version, env.cached, env.fetch).Failure? ==>
      r == Failure(DownloadImage(build, env.home, version, env.cached, env.fetch).error)
    // a downloaded zip that does not open is an error naming it; an open one yields its selected entries
    ensures !env.localImage && DownloadImage(build, env.home, version, env.cached, env.fetch).Success? ==>
      var zipPath := DownloadImage(build, env.home, version, env.cached, env.fetch).value;
      && (zipPath != "" && !env.zipOpens ==> r == Failure(Message("can't open zip file " + zipPath)))
      && (zipPath != "" && env.zipOpens ==>
            r == Success(SelectEntries(version, AppDir(env.home, "device-support/"), env.entries, |env.entries|)))
  {
    var imagePath := AppDir(env.home, "device-support/" + version);
    if env.localImage then
      Success(ImagePaths(Join(imagePath, "DeveloperDiskImage.dmg"), Join(imagePath, "DeveloperDiskImage.dmg.signature")))
    else
      match DownloadImage(build, env.home, version, env.cached, env.fetch)
      case Failure(e) => Failure(e)
      case Success(zipPath) =>
        if zipPath == "" then Failure(Message("can't find properties image"))
        else if !env.zipOpens then Failure(Message("can't open zip file " + zipPath))
        else Success(SelectEntries(version, AppDir(env.home, "device-support/"), env.entries, |env.entries|))
  }

  /** `Mount` after device selection (controller/mount.go:23-112). */
  function Mount(build: Build, env: MountEnv): (r: Result<MountAction, Error>)
    ensures env.productVersion.Failure? ==> r == Failure(env.productVersion.error)
    ensures env.productVersion.Success? && RejectsVersion(build, env.productVersion.value) ==>
      r == Failure(Message("iOS 17.x is not supported yet"))
    // an image already listed means success without mounting
    ensures (env.productVersion.Success? && !RejectsVersion(build, env.productVersion.value)
             && env.images.Success? && |env.images.value| > 0) ==> r == Success(AlreadyMounted)
    // a mount is asked for only with both paths
    ensures r.Success? && r.value.Mounted? ==> r.value.dmg != "" && r.value.signature != ""
    ensures r.Success? && r.value.Mounted? ==> env.mountError.None?
    // past the gate and the listing: the image's error, else a mount attempt with both paths, else a silent nil
    ensures env.productVersion.Success? && !RejectsVersion(build, env.productVersion.value)
            && !(env.images.Success? && |env.images.value| > 0) ==>
      var res := ResolveImage(build, env, ResolveVersion(env.productVersion.value));
      && (res.Failure? ==> r == Failure(res.error))
      && (res.Success? && res.value.dmg != "" && res.value.signature != "" ==>
            r == (if env.mountError.Some? then Failure(env.mountError.value)
                  else Success(Mounted(res.value.dmg, res.value.signature))))
      && (res.Success? && (res.value.dmg == "" || res.value.signature == "") ==> r == Success(NothingToMount))
  {
    match env.productVersion
    case Failure(e) => Failure(e)
    case Success(pv) =>
      if RejectsVersion(build, pv) then Failure(Message("iOS 17.x is not supported yet"))
      else if env.images.Success? && |env.images.value| > 0 then Success(AlreadyMounted)
      else
        match ResolveImage(build, env, ResolveVersion(pv))
        case Failure(e) => Failure(e)
        case Success(paths) =>
          if paths.dmg != "" && paths.signature != "" then
            if env.mountError.Some? then Failure(env.mountError.value)
            else Success(Mounted(paths.dmg, paths.signature))
          else Success(NothingToMount)
  }

  /** A zip lacking either file ends in a silent nil, with no mount attempted. */
  lemma MountNeedsBothPaths(build: Build, env: MountEnv)
    requires env.productVersion.Success? && !RejectsVersion(build, env.productVersion.value)
    requires !(env.images.Success? && |env.images.value| > 0)
    requires !env.localImage && env.zipOpens
    requires DownloadImage(build, env.home, ResolveVersion(env.productVersion.value), env.cached, env.fetch)
               == Success(ZipPath(env.home, ResolveVersion(env.productVersion.value)))
    requires forall i :: 0 <= i < |env.entries| ==>
               !Unpacks(env.entries[i], SigName(ResolveVersion(env.productVersion.value)))
    ensures Mount(build, env) == Success(NothingToMount)
  {
  }

  /** With the corrected download, a valid cached zip holding both files is mounted from the unpacked paths. */
  lemma CorrectedMountUsesCache(env: MountEnv, k: nat)
    requires env.productVersion.Success? && !RejectsVersion(Corrected, env.productVersion.value)
    requires !RejectsVersion(AsWritten, env.productVersion.value)
    requires !(env.images.Success? && |env.images.value| > 0)
    requires !env.localImage && env.cached == ValidZip && env.zipOpens && env.mountError.None?
    requires var v := ResolveVersion(env.productVersion.value);
      k < |env.entries| && Unpacks(env.entries[k], DmgName(v))
      && exists j :: 0 <= j < |env.entries| && Unpacks(env.entries[j], SigName(v))
    ensures var v := ResolveVersion(env.productVersion.value);
      var base := AppDir(env.home, "device-support/");
      Mount(Corrected, env) == Success(Mounted(Join(base, DmgName(v)), Join(base, SigName(v))))
    ensures Mount(AsWritten, env) == Failure(Message("can't find properties image"))
  {
  }
}
