/** Package-URL ("purl") resolution: `mdbom/bom/urls.py`.

    A purl is matched against `pkg:<type>/<rest>` where `<type>` is one or more
    lower-case ASCII letters and `<rest>` the longest run of non-whitespace
    characters after the slash (possibly empty). Matching only anchors at the
    start, so anything from the first whitespace on is ignored. The type picks a
    URL builder; the builder splits the rest on `@` into package and version
    and puts them behind a fixed registry prefix. Nothing here fails: every
    input that does not fit gives the empty URL. */
module Urls {
  import opened Wrappers
  import opened Strings

  const GolangType := "golang"
  const GithubType := "github"
  const NpmType := "npm"
  const NugetType := "nuget"
  const PyPiType := "pypi"

  const Scheme := "pkg:"
  const PyPiUrlPrefix := "https://pypi.org/project/"
  const NpmUrlPrefix := "https://www.npmjs.com/package/"

  /** The regular-expression class `[a-z]`. */
  predicate IsLowerAscii(c: char)
  {
    'a' <= c <= 'z'
  }

  /** The characters Python's `\s` matches in a `str` pattern: those for which
      `str.isspace()` holds. */
  predicate IsSpace(c: char)
  {
    '\t' <= c <= '\r' || '\U{1C}' <= c <= ' ' || c == '\U{85}' || c == '\U{A0}' ||
    c == '\U{1680}' || '\U{2000}' <= c <= '\U{200A}' || c == '\U{2028}' || c == '\U{2029}' ||
    c == '\U{202F}' || c == '\U{205F}' || c == '\U{3000}'
  }

  /** The regular-expression class `\S`. */
  predicate IsNonSpace(c: char)
  {
    !IsSpace(c)
  }

  /** The two named groups of a successful match. */
  datatype PurlMatch = PurlMatch(kind: string, rest: string)

  /** What it means for `pkg:(?P<type>[a-z]+)\/(?P<rest>\S*)` to match at the
      start of `purl` with groups `kind` and `rest`: the matched text is a prefix
      of `purl`, and `rest` cannot be extended because the input ends or the
      next character is whitespace. */
  ghost predicate IsMatch(purl: string, kind: string, rest: string)
  {
    && |kind| > 0
    && (forall i :: 0 <= i < |kind| ==> IsLowerAscii(kind[i]))
    && (forall i :: 0 <= i < |rest| ==> IsNonSpace(rest[i]))
    && var matched := Scheme + kind + "/" + rest;
       matched <= purl && (|purl| == |matched| || IsSpace(purl[|matched|]))
  }

  /** `purl_reg.match(purl)`: a hand-written matcher for the purl pattern. A
      match it reports is a match of the pattern. */
  function MatchPurl(purl: string): (m: Option<PurlMatch>)
    ensures m.Some? ==> IsMatch(purl, m.value.kind, m.value.rest)
  {
    if |purl| < |Scheme| || purl[..|Scheme|] != Scheme then None
    else
      var afterScheme := purl[|Scheme|..];
      var n := Span(afterScheme, IsLowerAscii);
      if n == 0 || n == |afterScheme| || afterScheme[n] != '/' then None
      else
        var tail := afterScheme[n + 1..];
        var k := Span(tail, IsNonSpace);
        var kind, rest := afterScheme[..n], tail[..k];
        assert Scheme + kind + "/" + rest == purl[..|Scheme| + n + 1 + k];
        Some(PurlMatch(kind, rest))
  }

  /** Every match of the pattern is the one MatchPurl reports: the match is
      unique and MatchPurl finds it. */
  lemma MatchPurlComplete(purl: string, kind: string, rest: string)
    requires IsMatch(purl, kind, rest)
    ensures MatchPurl(purl) == Some(PurlMatch(kind, rest))
  {
    var matched := Scheme + kind + "/" + rest;
    assert purl[..|Scheme|] == matched[..|Scheme|] == Scheme;
    var afterScheme := purl[|Scheme|..];
    var n := |kind|;
    assert afterScheme[..n] == kind;
    assert afterScheme[n] == matched[|Scheme| + n] == '/';
    SpanUnique(afterScheme, IsLowerAscii, n);
    var tail := afterScheme[n + 1..];
    assert tail[..|rest|] == rest;
    assert |tail| == |rest| || tail[|rest|] == purl[|matched|];
    SpanUnique(tail, IsNonSpace, |rest|);
  }

  /** The callable `get_url_builder` returns, as a tag. */
  datatype UrlBuilder = Empty | PyPi | Npm

  /** The dispatch table of `get_url_builder`. */
  const Types: map<string, UrlBuilder> := map[PyPiType := PyPi, NpmType := Npm]

  /** `get_url_builder(purl)`: the pypi builder exactly for purls of type
      `pypi`, the npm builder exactly for type `npm`, the empty builder for
      everything else. */
  function GetUrlBuilder(purl: string): (b: UrlBuilder)
    ensures b == PyPi <==> MatchPurl(purl).Some? && MatchPurl(purl).value.kind == PyPiType
    ensures b == Npm <==> MatchPurl(purl).Some? && MatchPurl(purl).value.kind == NpmType
  {
    match MatchPurl(purl)
    case None => Empty
    case Some(m) => if m.kind !in Types then Empty else Types[m.kind]
  }

  /** Calls the builder `b` on `purl`: the empty builder gives "", the other
      two give "" or a URL under their registry's prefix. */
  function Build(b: UrlBuilder, purl: string): (url: string)
    ensures b == Empty ==> url == ""
    ensures b == PyPi ==> url == "" || PyPiUrlPrefix <= url
    ensures b == Npm ==> url == "" || NpmUrlPrefix <= url
  {
    match b
    case Empty => EmptyUrlBuilder(purl)
    case PyPi => PyPiUrlBuilder(purl)
    case Npm => NpmUrlBuilder(purl)
  }

  /** `get_url_builder(purl)(purl)`: the URL of a purl, which is "" or a URL
      under the prefix of the registry its type selects. */
  function ResolveUrl(purl: string): (url: string)
    ensures url == ""
      || (GetUrlBuilder(purl) == PyPi && PyPiUrlPrefix <= url)
      || (GetUrlBuilder(purl) == Npm && NpmUrlPrefix <= url)
  {
    Build(GetUrlBuilder(purl), purl)
  }

  /** `_empty_url_builder`: ignores its argument. */
  function EmptyUrlBuilder(purl: string): (url: string)
    ensures url == ""
  {
    ""
  }

  /** `_get_package_and_version`: the two halves of the rest of a matching purl
      around its only `@`, and two empty strings for a purl that does not match
      or whose rest has no `@` or more than one. */
  function GetPackageAndVersion(purl: string): (pv: (string, string))
    ensures MatchPurl(purl).None? ==> pv == ("", "")
    ensures MatchPurl(purl).Some? && Count(MatchPurl(purl).value.rest, '@') != 1 ==> pv == ("", "")
    ensures MatchPurl(purl).Some? && Count(MatchPurl(purl).value.rest, '@') == 1 ==>
      pv.0 + "@" + pv.1 == MatchPurl(purl).value.rest && '@' !in pv.0 && '@' !in pv.1
  {
    match MatchPurl(purl)
    case None => ("", "")
    case Some(m) =>
      var parts := Split(m.rest, '@');
      if |parts| == 2 then
        assert Join(parts[1..], '@') == parts[1];
        (parts[0], parts[1])
      else ("", "")
  }

  /** `_pypi_url_builder`: either empty or a pypi.org project URL. */
  function PyPiUrlBuilder(purl: string): (url: string)
    ensures url == "" || PyPiUrlPrefix <= url
  {
    var (package, version) := GetPackageAndVersion(purl);
    if package != "" && version != "" then PyPiUrlPrefix + package + "/" + version else ""
  }

  /** `_npm_url_builder`: either empty or an npmjs.com package URL. Unlike
      `NpmProcessor.construct_urls` it puts no `/v/` segment before the version. */
  function NpmUrlBuilder(purl: string): (url: string)
    ensures url == "" || NpmUrlPrefix <= url
  {
    var (package, version) := GetPackageAndVersion(purl);
    if package != "" && version != "" then NpmUrlPrefix + package + "/" + version else ""
  }

  /** A purl whose rest is `package@version` (neither half holding `@`) is split
      into exactly those halves, empty halves included. */
  lemma PackageAndVersionOf(purl: string, kind: string, package: string, version: string)
    requires IsMatch(purl, kind, package + "@" + version)
    requires '@' !in package && '@' !in version
    ensures GetPackageAndVersion(purl) == (package, version)
  {
    var rest := package + "@" + version;
    MatchPurlComplete(purl, kind, rest);
    SplitJoin([package, version], '@');
    assert Join([package, version], '@') == rest by {
      assert [package, version][1..] == [version];
    }
  }

  /** A purl whose rest does not hold exactly one `@` gets no package and version. */
  lemma NoPackageAndVersion(purl: string, kind: string, rest: string)
    requires IsMatch(purl, kind, rest)
    requires Count(rest, '@') != 1
    ensures GetPackageAndVersion(purl) == ("", "")
  {
    MatchPurlComplete(purl, kind, rest);
  }

  /** `get_url_builder` on a matching purl depends only on the type; the other
      type constants of the module (golang, github, nuget) are not in the
      table and get the empty builder. */
  lemma GetUrlBuilderOf(purl: string, kind: string, rest: string)
    requires IsMatch(purl, kind, rest)
    ensures GetUrlBuilder(purl) == if kind == PyPiType then PyPi else if kind == NpmType then Npm else Empty
  {
    MatchPurlComplete(purl, kind, rest);
  }

  /** A string that does not match the pattern gets the empty builder. */
  lemma GetUrlBuilderNoMatch(purl: string)
    requires forall kind, rest :: !IsMatch(purl, kind, rest)
    ensures GetUrlBuilder(purl) == Empty
  {
  }

  /** The URL of a purl `pkg:<kind>/<package>@<version>`: the pypi or npm URL
      when the type is supported and both halves are non-empty, the empty string
      otherwise. */
  lemma ResolveUrlOf(purl: string, kind: string, package: string, version: string)
    requires IsMatch(purl, kind, package + "@" + version)
    requires '@' !in package && '@' !in version
    ensures package == "" || version == "" ==> ResolveUrl(purl) == ""
    ensures package != "" && version != "" && kind == PyPiType ==>
      ResolveUrl(purl) == PyPiUrlPrefix + package + "/" + version
    ensures package != "" && version != "" && kind == NpmType ==>
      ResolveUrl(purl) == NpmUrlPrefix + package + "/" + version
    ensures kind != PyPiType && kind != NpmType ==> ResolveUrl(purl) == ""
  {
    GetUrlBuilderOf(purl, kind, package + "@" + version);
    PackageAndVersionOf(purl, kind, package, version);
  }

  /** The URL of a purl is non-empty exactly when the purl matches, its type is
      pypi or npm, and its rest is `package@version` with one `@` and both
      halves non-empty. */
  lemma ResolveUrlNonEmpty(purl: string)
    ensures ResolveUrl(purl) != "" <==>
      && MatchPurl(purl).Some?
      && MatchPurl(purl).value.kind in {PyPiType, NpmType}
      && Count(MatchPurl(purl).value.rest, '@') == 1
      && GetPackageAndVersion(purl).0 != ""
      && GetPackageAndVersion(purl).1 != ""
  {
  }

  /** `pkg:<kind>/<package>@<version>` built from its parts. */
  function PurlOf(kind: string, package: string, version: string): string
  {
    Scheme + kind + "/" + package + "@" + version
  }

  /** The URL of a purl built from its parts, for a type of lower-case letters
      and halves without whitespace or `@`: the examples of the package's tests
      (`pkg:pypi/django@1.11.1` and `pkg:npm/foobar@12.3.1`) are instances. */
  lemma ResolveUrlOfParts(kind: string, package: string, version: string)
    requires |kind| > 0 && forall i :: 0 <= i < |kind| ==> IsLowerAscii(kind[i])
    requires forall i :: 0 <= i < |package| ==> IsNonSpace(package[i])
    requires forall i :: 0 <= i < |version| ==> IsNonSpace(version[i])
    requires package != "" && version != "" && '@' !in package && '@' !in version
    ensures ResolveUrl(PurlOf(kind, package, version)) ==
      if kind == PyPiType then PyPiUrlPrefix + package + "/" + version
      else if kind == NpmType then NpmUrlPrefix + package + "/" + version
      else ""
  {
    var rest := package + "@" + version;
    assert PurlOf(kind, package, version) == Scheme + kind + "/" + rest;
    assert IsMatch(PurlOf(kind, package, version), kind, rest);
    ResolveUrlOf(PurlOf(kind, package, version), kind, package, version);
  }

  /** The empty string is no purl; its URL is empty. */
  lemma ResolveEmptyPurl()
    ensures GetUrlBuilder("") == Empty && ResolveUrl("") == ""
  {
  }
}
