/** BOM extraction: `Processor` in `mdbom/bom/processor.py`.

    A processor has a non-empty name. It turns the `components` array of a BOM
    document into one `Package` per component, in order: name, version and
    type are copied, the licence is the comma-joined `license.name` of every
    licence entry, and the URL is a single-space placeholder that the
    ecosystem-specific processors replace. A missing key anywhere raises
    `KeyError`; nothing is defaulted. */
module Processor {
  import opened Wrappers
  import opened Strings
  import opened Bom

  /** The URL every extracted package starts with. */
  const PlaceholderUrl := " "

  /** `component_license["license"]["name"]`. */
  function LicenseName(entry: LicenseEntry): Result<string, BomError>
  {
    match entry.license
    case None => Failure(KeyError("license"))
    case Some(license) =>
      match license.name
      case None => Failure(KeyError("name"))
      case Some(name) => Success(name)
  }

  /** The package of one component, with the keys read in the source's order:
      `licenses`, each entry's `license` and `name`, then `name`, `version` and
      `type`. */
  function PackageOf(component: Component): (r: Result<Package, BomError>)
    ensures r.Failure? ==> r.error.KeyError?
    ensures r.Success? ==>
      && component.name == Some(r.value.name)
      && component.version == Some(r.value.version)
      && component.kind == Some(r.value.kind)
      && r.value.url == PlaceholderUrl
  {
    match component.licenses
    case None => Failure(KeyError("licenses"))
    case Some(entries) =>
      match Traverse(entries, LicenseName)
      case Failure(e) => Failure(e)
      case Success(names) =>
        if component.name.None? then Failure(KeyError("name"))
        else if component.version.None? then Failure(KeyError("version"))
        else if component.kind.None? then Failure(KeyError("type"))
        else Success(Package(component.name.value, component.version.value, component.kind.value,
                             Join(names, ','), PlaceholderUrl))
  }

  /** The packages of a whole document: one per component, or the `KeyError`
      of the first missing key. */
  function ExtractPackages(doc: BomDocument): (r: Result<seq<Package>, BomError>)
    ensures r.Failure? ==> r.error.KeyError?
    ensures r.Success? ==> doc.components.Some? && |r.value| == |doc.components.value|
    ensures r.Success? ==> forall i :: 0 <= i < |r.value| ==> PackageOf(doc.components.value[i]) == Success(r.value[i])
  {
    match doc.components
    case None => Failure(KeyError("components"))
    case Some(components) => Traverse(components, PackageOf)
  }

  /** A component holding every key the extraction reads. */
  ghost predicate WellFormed(component: Component)
  {
    && component.licenses.Some?
    && (forall e :: e in component.licenses.value ==> e.license.Some? && e.license.value.name.Some?)
    && component.name.Some? && component.version.Some? && component.kind.Some?
  }

  /** The licence names of a well-formed component, in order. */
  ghost function LicenseNamesOf(component: Component): (names: seq<string>)
    requires WellFormed(component)
  {
    var entries := component.licenses.value;
    seq(|entries|, i requires 0 <= i < |entries| => entries[i].license.value.name.value)
  }

  /** The package a well-formed component describes. */
  ghost function ExpectedPackage(component: Component): Package
    requires WellFormed(component)
  {
    Package(component.name.value, component.version.value, component.kind.value,
            Join(LicenseNamesOf(component), ','), PlaceholderUrl)
  }

  /** A component yields a package exactly when it is well-formed, and then the
      package copies its fields, joins its licence names with commas and has
      the placeholder URL. */
  lemma PackageOfSpec(component: Component)
    ensures PackageOf(component).Success? <==> WellFormed(component)
    ensures WellFormed(component) ==> PackageOf(component) == Success(ExpectedPackage(component))
  {
    if component.licenses.Some? {
      var entries := component.licenses.value;
      var t := Traverse(entries, LicenseName);
      if t.Success? {
        forall e | e in entries
          ensures e.license.Some? && e.license.value.name.Some?
        {
          var i :| 0 <= i < |entries| && entries[i] == e;
          assert LicenseName(entries[i]).Success?;
        }
        if WellFormed(component) {
          assert t.value == LicenseNamesOf(component);
        }
      } else {
        var k :| 0 <= k < |entries| && LicenseName(entries[k]) == Failure(t.error);
        assert entries[k] in entries;
      }
    }
  }

  /** A component that is not well-formed fails on the first key missing in
      reading order; there is no default such as "unknown". */
  lemma PackageOfFailure(component: Component)
    ensures component.licenses.None? ==> PackageOf(component) == Failure(KeyError("licenses"))
    ensures component.licenses.Some? &&
            (forall i :: 0 <= i < |component.licenses.value| ==> LicenseName(component.licenses.value[i]).Success?) ==>
      && (component.name.None? ==> PackageOf(component) == Failure(KeyError("name")))
      && (component.name.Some? && component.version.None? ==> PackageOf(component) == Failure(KeyError("version")))
      && (component.name.Some? && component.version.Some? && component.kind.None? ==>
            PackageOf(component) == Failure(KeyError("type")))
    ensures forall k ::
      (&& component.licenses.Some? && 0 <= k < |component.licenses.value|
       && LicenseName(component.licenses.value[k]).Failure?
       && forall i :: 0 <= i < k ==> LicenseName(component.licenses.value[i]).Success?)
      ==> PackageOf(component) == Failure(LicenseName(component.licenses.value[k]).error)
  {
  }

  /** A document yields packages exactly when it has a `components` array of
      well-formed components; then there is one package per component, in
      order, each the package that component describes. */
  lemma {:induction false} ExtractPackagesSpec(doc: BomDocument)
    ensures ExtractPackages(doc).Success? <==>
      doc.components.Some? && forall i :: 0 <= i < |doc.components.value| ==> WellFormed(doc.components.value[i])
    ensures ExtractPackages(doc).Success? ==>
      && |ExtractPackages(doc).value| == |doc.components.value|
      && forall i :: 0 <= i < |doc.components.value| ==>
           ExtractPackages(doc).value[i] == ExpectedPackage(doc.components.value[i])
  {
    if doc.components.Some? {
      var components := doc.components.value;
      forall i | 0 <= i < |components|
        ensures PackageOf(components[i]).Success? <==> WellFormed(components[i])
        ensures WellFormed(components[i]) ==> PackageOf(components[i]) == Success(ExpectedPackage(components[i]))
      {
        PackageOfSpec(components[i]);
      }
    }
  }

  /** The licence string can be split back into the licence names when there
      is at least one and none holds a comma. */
  lemma LicensesSplitBack(component: Component)
    requires WellFormed(component) && |component.licenses.value| > 0
    requires forall i :: 0 <= i < |component.licenses.value| ==>
      ',' !in component.licenses.value[i].license.value.name.value
    ensures Split(ExpectedPackage(component).licenses, ',') == LicenseNamesOf(component)
  {
    SplitJoin(LicenseNamesOf(component), ',');
  }

  /** A BOM processor: `Processor` in `mdbom/bom/processor.py`. */
  class Processor {
    const processorName: string

    /** Builds a processor whose name has already been checked. */
    constructor (name: string)
      requires name != ""
      ensures processorName == name
    {
      processorName := name;
    }

    /** `Processor(processor_name)`: refuses an empty name with
        "No processor name defined", otherwise keeps the name unchanged. */
    static method New(name: string) returns (r: Result<Processor, BomError>)
      ensures r.Success? <==> name != ""
      ensures r.Failure? ==> r.error == ProcessingError(NoProcessorName)
      ensures r.Success? ==> fresh(r.value) && r.value.processorName == name
    {
      var checked := CheckProcessorName(name);
      if checked.Failure? {
        return Failure(checked.error);
      }
      var p := new Processor(checked.value);
      return Success(p);
    }

    /** `get_packages_from_bom(filename)`: loads the file and extracts its
        packages, failing with the load error or the first missing key. */
    method GetPackagesFromBom(filename: string, fs: FileSystem) returns (r: Result<seq<Package>, BomError>)
      ensures LoadBom(filename, fs).Failure? ==> r == Failure(LoadBom(filename, fs).error)
      ensures LoadBom(filename, fs).Success? ==> r == ExtractPackages(LoadBom(filename, fs).value)
    {
      var loaded := LoadBom(filename, fs);
      if loaded.Failure? {
        return Failure(loaded.error);
      }
      var content := loaded.value;
      if content.components.None? {
        return Failure(KeyError("components"));
      }
      var components := content.components.value;
      var packages: seq<Package> := [];
      for i := 0 to |components|
        invariant Traverse(components[..i], PackageOf) == Success(packages)
      {
        var component := components[i];
        TraverseStep(components, i, packages, PackageOf);
        if component.licenses.None? {
          return Failure(KeyError("licenses"));
        }
        var entries := component.licenses.value;
        var licenses: seq<string> := [];
        for j := 0 to |entries|
          invariant Traverse(entries[..j], LicenseName) == Success(licenses)
        {
          var entry := entries[j];
          TraverseStep(entries, j, licenses, LicenseName);
          if entry.license.None? {
            return Failure(KeyError("license"));
          }
          if entry.license.value.name.None? {
            return Failure(KeyError("name"));
          }
          licenses := licenses + [entry.license.value.name.value];
        }
        assert entries[..|entries|] == entries;
        if component.name.None? {
          return Failure(KeyError("name"));
        }
        if component.version.None? {
          return Failure(KeyError("version"));
        }
        if component.kind.None? {
          return Failure(KeyError("type"));
        }
        var package := Package(component.name.value, component.version.value, component.kind.value,
                               Join(licenses, ','), PlaceholderUrl);
        packages := packages + [package];
      }
      assert components[..|components|] == components;
      return Success(packages);
    }
  }
}
