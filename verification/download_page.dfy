/** The download page's link choice (src/pages/landing/Download.tsx): with
    the latest release at hand, the first asset with the platform's file
    suffix and no `sig` in its name; otherwise, or when no asset fits, a
    fixed link per platform. The release fetch itself is an input: `None`
    while it is missing or after it failed. */
module DownloadPage {
  import opened Common

  datatype ReleaseAsset = ReleaseAsset(name: string, browserDownloadUrl: string)

  datatype GithubRelease = GithubRelease(tagName: string, publishedAt: string, assets: seq<ReleaseAsset>)

  const Platforms: seq<string> := ["Windows", "macOS", "Linux"]

  /** `defaultLinks[os]`, undefined for any other platform. */
  function DefaultLink(os: string): (r: Option<string>)
    ensures r.Some? <==> os in Platforms
  {
    if os == "Windows" then Some("https://github.com/qetqet910/Notia/releases/latest/download/Notia_x64-setup.exe")
    else if os == "macOS" then Some("https://github.com/qetqet910/Notia/releases/latest/download/Notia_universal.app.tar.gz")
    else if os == "Linux" then Some("https://github.com/qetqet910/Notia/releases/latest/download/Notia_amd64.AppImage")
    else None
  }

  /** The platform's installer suffix test. */
  predicate HasInstallerSuffix(os: string, name: string) {
    if os == "Windows" then EndsWith(name, ".exe")
    else if os == "macOS" then EndsWith(name, ".dmg") || EndsWith(name, ".app.tar.gz")
    else if os == "Linux" then EndsWith(name, ".AppImage")
    else false
  }

  /** The asset test of the platform's `find`. */
  function Installer(os: string): ReleaseAsset -> bool {
    (a: ReleaseAsset) => HasInstallerSuffix(os, a.name) && !Contains(a.name, "sig")
  }

  /** `getDownloadLink(os)`; `None` is `undefined`. */
  function GetDownloadLink(release: Option<GithubRelease>, os: string): (r: Option<string>)
    ensures release.None? ==> r == Some(if os in Platforms then DefaultLink(os).value else "#")
    ensures release.Some? && os !in Platforms ==> r.None?
    ensures release.Some? && os in Platforms ==>
              var k := FindIndex(release.value.assets, Installer(os));
              (k.None? ==> r == DefaultLink(os))
              && (k.Some? ==> r == Some(release.value.assets[k.value].browserDownloadUrl))
  {
    if release.None? then
      match DefaultLink(os)
      case Some(link) => Some(link)
      case None => Some("#")
    else
      var assets := release.value.assets;
      var asset := if os in Platforms then FindIndex(assets, Installer(os)) else None;
      if asset.Some? then Some(assets[asset.value].browserDownloadUrl) else DefaultLink(os)
  }

  /** The three platforms the page asks for always get a link. */
  lemma PlatformsAlwaysLinked(release: Option<GithubRelease>, os: string)
    requires os in Platforms
    ensures GetDownloadLink(release, os).Some?
  {
  }

  /** A link taken from the release belongs to the first asset that has
      the platform's suffix and no `sig` in its name: every asset before
      it lacks the suffix or carries `sig`. */
  lemma ChosenAsset(release: GithubRelease, os: string)
    requires os in Platforms
    ensures GetDownloadLink(Some(release), os) != DefaultLink(os) ==>
              exists k :: 0 <= k < |release.assets|
                && GetDownloadLink(Some(release), os) == Some(release.assets[k].browserDownloadUrl)
                && HasInstallerSuffix(os, release.assets[k].name) && !Contains(release.assets[k].name, "sig")
                && forall j :: 0 <= j < k ==>
                     !HasInstallerSuffix(os, release.assets[j].name) || Contains(release.assets[j].name, "sig")
  {
    var k := FindIndex(release.assets, Installer(os));
    if k.Some? {
      assert Installer(os)(release.assets[k.value]);
    }
  }
}
