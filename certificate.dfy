/**
 * The certificate selection of `CertificateInstaller.install`: which mitmproxy CA
 * certificate URL a platform gets, and the file name it is saved under. The download
 * and the write that follow are not part of this model.
 */
module Certificate {
  import opened Wrappers

  /** An entry of `certificate_links`: one URL, or one per certificate format. */
  datatype Link = Fixed(url: string) | ByFormat(p12: string, pem: string)

  /** The `certificate_links` table. */
  const Links: map<string, Link> := map[
    "windows" := Fixed("http://mitm.it/cert/p12"),
    "linux" := Fixed("http://mitm.it/cert/pem"),
    "ios" := Fixed("http://mitm.it/cert/pem"),
    "macos" := Fixed("http://mitm.it/cert/pem"),
    "android" := Fixed("http://mitm.it/cert/cer"),
    "firefox" := Fixed("http://mitm.it/cert/pem"),
    "other-platforms" := ByFormat("http://mitm.it/cert/p12", "http://mitm.it/cert/pem")
  ]

  /** What `install` settles on before downloading: the URL and the file name. */
  datatype Selection = Selection(url: string, fileName: string)

  /** `str.lower` on ASCII letters. */
  function AsciiLower(s: string): (t: string)
    ensures |t| == |s|
    ensures forall i :: 0 <= i < |s| ==> t[i] == (if 'A' <= s[i] <= 'Z' then (s[i] as int + 32) as char else s[i])
  {
    seq(|s|, i requires 0 <= i < |s| => if 'A' <= s[i] <= 'Z' then (s[i] as int + 32) as char else s[i])
  }

  /** `url.rsplit("/", 1)[-1]`: the text after the last slash, or all of it when there is none. */
  function AfterLastSlash(s: string): (t: string)
    ensures |t| <= |s| && s[|s| - |t|..] == t
    ensures '/' !in t
    ensures |t| < |s| ==> s[|s| - |t| - 1] == '/'
    decreases |s|
  {
    if s == [] then []
    else if s[|s| - 1] == '/' then []
    else
      var init := s[..|s| - 1];
      var t := AfterLastSlash(init);
      assert init[|init| - |t|..] == t;
      assert s[|s| - (|t| + 1)..] == init[|init| - |t|..] + [s[|s| - 1]];
      t + [s[|s| - 1]]
  }

  /** The file a certificate is saved as: `mitmproxy-ca-cert-<platform>.<last URL segment>`. */
  function FileName(key: string, url: string): string {
    "mitmproxy-ca-cert-" + key + "." + AfterLastSlash(url)
  }

  /** The platform `install` works with: `platform or pf.system()`. */
  function ChosenPlatform(platform: Option<string>, system: string): string {
    OrElse(platform, system)
  }

  /** Whether the platform check at the top of `install` refuses a platform. */
  predicate Unsupported(p: string) {
    p != "" && AsciiLower(p) !in Links
  }

  /**
   * The part of `install` after the platform check: a missing `save_dir` cannot become
   * a path (`TypeError`); an empty platform has no table entry (`KeyError`); the
   * per-format entry takes `p12` or `pem` as asked, and `pem` for anything else.
   */
  function SelectFor(p: string, format: Option<string>, saveDir: Option<string>): (r: Result<Selection>)
    ensures saveDir.None? ==> r == Err(TypeError)
    ensures saveDir.Some? && AsciiLower(p) !in Links ==> r == Err(KeyError)
    ensures saveDir.Some? && AsciiLower(p) in Links ==> r.Ok?
    ensures r.Ok? ==> r.value.fileName == FileName(AsciiLower(p), r.value.url)
    ensures r.Ok? && Links[AsciiLower(p)].Fixed? ==> r.value.url == Links[AsciiLower(p)].url
    ensures r.Ok? && Links[AsciiLower(p)].ByFormat? ==>
      r.value.url == (if format == Some("p12") then Links[AsciiLower(p)].p12 else Links[AsciiLower(p)].pem)
  {
    if saveDir.None? then Err(TypeError)
    else
      var key := AsciiLower(p);
      if key !in Links then Err(KeyError)
      else
        var url := match Links[key]
          case Fixed(u) => u
          case ByFormat(p12, pem) =>
            if format.None? || format.value == "" || format.value !in {"pem", "p12"} then pem
            else if format.value == "p12" then p12
            else pem;
        Ok(Selection(url, FileName(key, url)))
  }

  /**
   * `install`, lines 38-58, as written: the platform check runs on the raw name, and
   * only then is "Darwin" renamed to "macOS".
   */
  function SelectCertificate(platform: Option<string>, system: string, format: Option<string>,
                             saveDir: Option<string>): (r: Result<Selection>)
    ensures var p := ChosenPlatform(platform, system);
      r == Err(ValueError) <==> Unsupported(p)
    ensures var p := ChosenPlatform(platform, system);
      !Unsupported(p) ==> r == SelectFor(if p == "Darwin" then "macOS" else p, format, saveDir)
  {
    var p := ChosenPlatform(platform, system);
    if Unsupported(p) then Err(ValueError)
    else
      var renamed := if p == "Darwin" then "macOS" else p;
      SelectFor(renamed, format, saveDir)
  }

  /** The rename is dead code: the system name "Darwin" is refused before it is reached. */
  lemma DarwinRefused(format: Option<string>, saveDir: Option<string>)
    ensures SelectCertificate(None, "Darwin", format, saveDir) == Err(ValueError)
  {
    assert Unsupported("Darwin") by {
      assert AsciiLower("Darwin") == "darwin";
      assert "darwin" !in Links;
    }
  }

  /** `install` with the rename moved before the check, as the rename evidently intends. */
  function SelectCertificateFixed(platform: Option<string>, system: string, format: Option<string>,
                                  saveDir: Option<string>): (r: Result<Selection>)
    ensures var p := ChosenPlatform(platform, system);
      p != "Darwin" ==> r == SelectCertificate(platform, system, format, saveDir)
  {
    var chosen := ChosenPlatform(platform, system);
    var p := if chosen == "Darwin" then "macOS" else chosen;
    if Unsupported(p) then Err(ValueError) else SelectFor(p, format, saveDir)
  }

  /** With the rename first, a macOS host named "Darwin" gets the macOS certificate. */
  lemma DarwinGetsMacosCertificate(format: Option<string>, dir: string)
    ensures SelectCertificateFixed(None, "Darwin", format, Some(dir))
         == Ok(Selection("http://mitm.it/cert/pem", "mitmproxy-ca-cert-macos.pem"))
  {
    MacosLower();
    assert !Unsupported("macOS");
    AfterLastSlashOf("http://mitm.it/cert/", "pem");
    assert FileName("macos", "http://mitm.it/cert/pem") == "mitmproxy-ca-cert-macos.pem";
  }

  lemma MacosLower()
    ensures AsciiLower("macOS") == "macos" && "macos" in Links
  {
  }

  /** The last segment of a URL ending in a slash-free segment is that segment. */
  lemma AfterLastSlashOf(prefix: string, segment: string)
    requires prefix != [] && prefix[|prefix| - 1] == '/' && '/' !in segment
    ensures AfterLastSlash(prefix + segment) == segment
  {
    var s := prefix + segment;
    assert s[|s| - |segment|..] == segment;
  }

  /** A single-format platform gets its fixed URL: android gets `.../cert/cer`, saved as a `.cer` file. */
  lemma AndroidGetsCer(format: Option<string>, dir: string)
    ensures SelectCertificate(Some("android"), "", format, Some(dir))
         == Ok(Selection("http://mitm.it/cert/cer", "mitmproxy-ca-cert-android.cer"))
  {
    AndroidLower();
    assert !Unsupported("android");
    AfterLastSlashOf("http://mitm.it/cert/", "cer");
    assert "http://mitm.it/cert/" + "cer" == "http://mitm.it/cert/cer";
    assert FileName("android", "http://mitm.it/cert/cer") == "mitmproxy-ca-cert-android.cer";
  }

  lemma AndroidLower()
    ensures AsciiLower("android") == "android" && "android" in Links
  {
  }

  /** The platform name is case-folded: "Windows" is accepted and gets the p12 certificate. */
  lemma WindowsIsCaseFolded(format: Option<string>, dir: string)
    ensures SelectCertificate(Some("Windows"), "", format, Some(dir)).Ok?
    ensures SelectCertificate(Some("Windows"), "", format, Some(dir)).value.url == "http://mitm.it/cert/p12"
  {
    assert AsciiLower("Windows") == "windows";
  }

  /** A falsy platform on a host whose system name is empty passes the check and fails at the table lookup. */
  lemma EmptyPlatformKeyError(format: Option<string>, dir: string)
    ensures SelectCertificate(Some(""), "", format, Some(dir)) == Err(KeyError)
  {
    assert ChosenPlatform(Some(""), "") == "";
    EmptyHasNoEntry();
    assert SelectFor("", format, Some(dir)) == Err(KeyError);
  }

  lemma EmptyHasNoEntry()
    ensures AsciiLower("") == "" && "" !in Links
  {
  }
}
