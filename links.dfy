/** The link shapes the pages build by concatenating a base, a tag and a version. */
module SiteLinks {

  /** A documentation wiki page of a given version: "/doc/" + version + "/index.php?title=" + title. */
  function DocLink(version: string, title: string): (url: string)
  {
    "/doc/" + version + "/index.php?title=" + title
  }

  /** The release download folder of a GitHub repository for a tag. */
  function ReleaseBase(repository: string, tag: string): string
  {
    repository + "/releases/download/" + tag + "/"
  }

  /** An artifact of a release: base + "JPPF-" + version + "-" + artifact. */
  function ArtifactUrl(base: string, version: string, artifact: string): string
  {
    base + "JPPF-" + version + "-" + artifact
  }

  /** The web installer of a version, served by the site itself. */
  function WebInstallerUrl(version: string): string
  {
    "/download/" + version + "/JPPF-" + version + "-Web-Installer.jar"
  }

  /** The SourceForge folder of an older version. */
  function SourceForgeBase(version: string): string
  {
    "http://sourceforge.net/projects/jppf-project/files/jppf-project/jppf%20" + version + "/"
  }

  /** A SourceForge artifact link: the artifact URL followed by "/download". */
  function SourceForgeUrl(version: string, artifact: string): string
  {
    ArtifactUrl(SourceForgeBase(version), version, artifact) + "/download"
  }

  /** The source archive of a tag. */
  function ArchiveUrl(tag: string): string
  {
    "https://github.com/lolocohen/JPPF/archive/" + tag + ".zip"
  }

  predicate StartsWith(s: string, prefix: string)
  {
    |prefix| <= |s| && s[..|prefix|] == prefix
  }

  predicate EndsWith(s: string, suffix: string)
  {
    |suffix| <= |s| && s[|s| - |suffix|..] == suffix
  }

  /**
   * An artifact link is its base, then "JPPF-", the version and "-", then the artifact name;
   * the artifact name can be read back from the link, so distinct artifacts get distinct links.
   */
  lemma ArtifactUrlParts(base: string, version: string, artifact: string)
    ensures var url := ArtifactUrl(base, version, artifact);
      StartsWith(url, base + "JPPF-" + version + "-") && EndsWith(url, artifact)
      && url[|base + "JPPF-" + version + "-"|..] == artifact
  {
  }

  lemma {:induction false} ArtifactUrlInjective(base: string, version: string, a1: string, a2: string)
    ensures ArtifactUrl(base, version, a1) == ArtifactUrl(base, version, a2) ==> a1 == a2
  {
    ArtifactUrlParts(base, version, a1);
    ArtifactUrlParts(base, version, a2);
  }

  /** A SourceForge link starts with its version folder and ends with "/download". */
  lemma SourceForgeUrlParts(version: string, artifact: string)
    ensures StartsWith(SourceForgeUrl(version, artifact), SourceForgeBase(version) + "JPPF-" + version + "-")
    ensures EndsWith(SourceForgeUrl(version, artifact), artifact + "/download")
  {
  }

  /** A documentation link names its version right after "/doc/". */
  lemma DocLinkParts(version: string, title: string)
    ensures StartsWith(DocLink(version, title), "/doc/" + version + "/")
    ensures EndsWith(DocLink(version, title), "/index.php?title=" + title)
  {
  }
}
