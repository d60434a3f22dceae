/** URL attachment for PyPI packages: `PyPiProcessor` in `mdbom/bom/pypi.py`. */
module PyPi {
  import opened Bom
  import Processor
  import Urls

  const ProcessorName := "PyPiProcessor"
  const UrlPrefix := "https://pypi.org/project/"

  /** The project page `construct_urls` gives a package, with a trailing slash. */
  function PackageUrl(name: string, version: string): string
  {
    UrlPrefix + name + "/" + version + "/"
  }

  /** `result` is `packages` with every URL replaced by the package's project
      page: same length, same order, every other field unchanged. */
  ghost predicate UrlsConstructed(packages: seq<Package>, result: seq<Package>)
  {
    && |result| == |packages|
    && forall i :: 0 <= i < |packages| ==>
         result[i] == packages[i].(url := PackageUrl(packages[i].name, packages[i].version))
  }

  /** `PyPiProcessor`: a processor named "PyPiProcessor". The base class's
      behaviour is reached through `base`. */
  class PyPiProcessor {
    const base: Processor.Processor

    /** `PyPiProcessor()`: the fixed name is non-empty, so this never fails. */
    constructor ()
      ensures fresh(base) && base.processorName == ProcessorName
    {
      base := new Processor.Processor(ProcessorName);
    }

    /** `construct_urls(packages)`: a fresh list with the PyPI URL of every
        package. */
    method ConstructUrls(packages: seq<Package>) returns (newPackages: seq<Package>)
      ensures UrlsConstructed(packages, newPackages)
    {
      newPackages := [];
      for i := 0 to |packages|
        invariant UrlsConstructed(packages[..i], newPackages)
      {
        var package := packages[i];
        newPackages := newPackages + [
          Package(package.name, package.version, package.kind, package.licenses,
                  UrlPrefix + package.name + "/" + package.version + "/")];
      }
      assert packages[..|packages|] == packages;
    }
  }

  /** The incoming URLs are ignored, so constructing twice gives the same list
      as constructing once. */
  lemma ConstructUrlsIdempotent(packages: seq<Package>, once: seq<Package>, twice: seq<Package>)
    requires UrlsConstructed(packages, once)
    requires UrlsConstructed(once, twice)
    ensures twice == once
  {
    assert forall i :: 0 <= i < |once| ==> twice[i] == once[i];
  }

  /** Two lists that differ only in their URLs get the same result. */
  lemma ConstructUrlsIgnoresUrls(packages: seq<Package>, others: seq<Package>, r1: seq<Package>, r2: seq<Package>)
    requires |packages| == |others|
    requires forall i :: 0 <= i < |packages| ==> packages[i].(url := "") == others[i].(url := "")
    requires UrlsConstructed(packages, r1) && UrlsConstructed(others, r2)
    ensures r1 == r2
  {
    forall i | 0 <= i < |packages|
      ensures r1[i] == r2[i]
    {
      assert packages[i].name == packages[i].(url := "").name;
      assert others[i].name == others[i].(url := "").name;
    }
  }

  /** The URL attached here is the URL the purl resolver gives the package's
      purl `pkg:pypi/<name>@<version>`, plus a trailing slash. */
  lemma AgreesWithResolver(name: string, version: string)
    requires name != "" && version != "" && '@' !in name && '@' !in version
    requires forall i :: 0 <= i < |name| ==> Urls.IsNonSpace(name[i])
    requires forall i :: 0 <= i < |version| ==> Urls.IsNonSpace(version[i])
    ensures PackageUrl(name, version) == Urls.ResolveUrl(Urls.PurlOf(Urls.PyPiType, name, version)) + "/"
  {
    Urls.ResolveUrlOfParts(Urls.PyPiType, name, version);
  }
}
