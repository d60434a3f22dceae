# mdbom core, modelled in Dafny

mdbom turns a CycloneDX-style bill of materials (BOM) into a Markdown list of
third-party packages. This project models the parts of it that hold logic:

- **Package-URL resolution** (`urls.dfy`, module `Urls`). A purl string is
  matched against `pkg:<type>/<rest>`. The type picks a URL builder: pypi,
  npm, or the empty builder. The builder splits the rest on `@` into package
  and version and puts them behind a registry prefix. The regular expression
  is a hand-written matcher, `MatchPurl`. It is proved equal to an independent
  description of what the pattern matches, `IsMatch`, in both directions. The
  callable that `get_url_builder` returns is a tag, `UrlBuilder`. `Build`
  calls it, and `ResolveUrl` is `get_url_builder(p)(p)`.
- **BOM records and guards** (`bom.dfy`, module `Bom`). This covers the
  `Package` record, the errors, and the parsed BOM document. Missing JSON keys
  are `None`. It also holds the guards of the processor constructor and of
  `_load_bom`. The file system is a map from existing file names to parsed
  documents.
- **BOM extraction** (`processor.dfy`, module `Processor`). The class
  `Processor` has a factory `New` that refuses an empty name. Its method
  `GetPackagesFromBom` keeps the source's nested loops. It is proved equal to
  the specification function `ExtractPackages`. The lemmas state that function's
  meaning: one package per component, in order, with the licence names
  comma-joined, and the first missing key as the error.
- **URL attachment** (`pypi.dfy`, `npm.dfy`). `construct_urls` is a loop that
  rebuilds the list with new URLs. The lemmas say it changes only the URL, is
  idempotent, and how its URL relates to the purl resolver. For a non-empty
  name and version without `@` or whitespace, the pypi URL is the resolver's
  URL plus `/`, and the npm URL never equals the resolver's. Outside those
  conditions the two can part in other ways, while `construct_urls` always
  builds a URL from the name and version as they are:
  - the resolver gives "" for an empty name or version, or one holding `@`
    (an empty version gives `https://pypi.org/project/django//` from
    `construct_urls`);
  - the resolver cuts the version at its first inner whitespace, because
    `\S*` stops there (version `1.0 beta` gives
    `https://pypi.org/project/django/1.0`).
- **Configuration** (`config_types.dfy`, `config_operations.dfy`). The class
  `ConfigStore` holds the files and the module-level `ConfigParser` state. An
  INI file is a map of sections. Its methods cover `get_config`,
  `create_config` and `_write_config`. The pure `ValidateConfig` models
  `_validate_config`.

Shared helpers sit in `wrappers.dfy` (Option, Result, Outcome, and `Traverse`:
a loop that appends and stops at the first exception) and in `strings.dfy`.
The latter models Python's `str.split`, `str.join` and `str.count`, plus greedy
character-class repetition.

`mdbom/bom/processor.py` repeats the guard code of `mdbom/bom/bom.py` word for
word: the constructor check at :28-31 and `_load_bom` at :68-76. Both files are
modelled by `Bom.CheckProcessorName` and `Bom.LoadBom`, and the class in
`Processor` calls them.

## Model

| member | source | states |
|---|---|---|
| Strings.Split | mdbom/bom/urls.py:60 | `str.split("@")` gives one more piece than there are separators; no piece holds the separator; joining the pieces with it gives the input back |
| Strings.SplitJoin | mdbom/bom/urls.py:60-61 | splitting undoes joining for a non-empty list of separator-free pieces |
| Strings.Span | mdbom/bom/urls.py:16 | a greedy class repetition stops at the first character outside the class or at the end |
| Strings.SpanUnique | mdbom/bom/urls.py:16 | that stopping point is unique, so the regular expression has at most one match |
| Urls.MatchPurl | mdbom/bom/urls.py:16 | every match the matcher reports satisfies the pattern: "pkg:", one or more `[a-z]` as the type, "/", then the longest non-whitespace run as the rest |
| Urls.MatchPurlComplete | mdbom/bom/urls.py:16 | every match of the pattern is the one the matcher reports; with MatchPurl, the two agree in both directions |
| Urls.GetUrlBuilder | mdbom/bom/urls.py:18-32 | the pypi builder iff the purl matches with type `pypi`; the npm builder iff type `npm`; the empty builder otherwise |
| Urls.GetUrlBuilderOf | mdbom/bom/urls.py:9-32 | for a matching purl the builder depends only on the type; golang, github, nuget and every other type get the empty builder |
| Urls.GetUrlBuilderNoMatch | mdbom/bom/urls.py:30-32 | a string that does not match gets the empty builder |
| Urls.EmptyUrlBuilder | mdbom/bom/urls.py:35-36 | `_empty_url_builder` gives "" whatever the purl |
| Urls.Build | mdbom/bom/urls.py:18-54 | calling a builder on a purl: the empty builder gives ""; the pypi and npm builders give "" or a URL under their own registry's prefix |
| Urls.ResolveUrl | mdbom/bom/urls.py:18-54 | `get_url_builder(p)(p)` is "" or a URL under the prefix of the builder the purl's type selects; ResolveUrlNonEmpty says when it is non-empty, ResolveUrlOf what it is |
| Urls.ResolveEmptyPurl | mdbom/bom/urls.py:30-36 | `get_url_builder("")("")` is the empty builder's "" |
| Urls.GetPackageAndVersion | mdbom/bom/urls.py:56-64 | ("", "") unless the purl matches and its rest has exactly one `@`; then package + "@" + version is the rest and neither half holds `@` |
| Urls.PackageAndVersionOf | mdbom/bom/urls.py:56-64 | a rest `package@version` gives exactly those halves, empty halves included (`pkg:pypi/some-package@`, `pkg:pypi/@1.2.3`) |
| Urls.NoPackageAndVersion | mdbom/bom/urls.py:59-61 | a rest with no `@` or several gives ("", "") (`pkg:pypi/some-package_1.2.3`) |
| Urls.PyPiUrlBuilder | mdbom/bom/urls.py:38-45 | the result is "" or starts with `https://pypi.org/project/` |
| Urls.NpmUrlBuilder | mdbom/bom/urls.py:47-54 | the result is "" or starts with `https://www.npmjs.com/package/` |
| Urls.ResolveUrlOf | mdbom/bom/urls.py:18-54 | for a purl of type t with rest package@version: "" if a half is empty or t is unsupported; otherwise the pypi URL `prefix + package + "/" + version` or the npm URL with no `/v/` |
| Urls.ResolveUrlNonEmpty | mdbom/bom/urls.py:18-64 | the URL is non-empty iff the purl matches, its type is pypi or npm, its rest has one `@`, and both halves are non-empty |
| Urls.ResolveUrlOfParts | mdbom/bom/urls.py:38-54 | `pkg:<t>/<p>@<v>`, built from parts, resolves to the pypi or npm URL for those types and to "" for others; `pkg:pypi/django@1.11.1` is an instance |
| Bom.CheckProcessorName | mdbom/bom/bom.py:43-46 | construction succeeds iff the name is non-empty and keeps it unchanged; otherwise "No processor name defined" |
| Bom.LoadBom | mdbom/bom/bom.py:79-87 | the file is read iff the name is non-empty and exists; an empty name gives "No file provided" whatever exists; a missing name gives "Provided file does not exist" |
| Wrappers.Traverse | mdbom/bom/processor.py:44-56 | an appending loop succeeds iff every step does; it then has one result per element, in order; otherwise it fails with the first failing step's error |
| Processor.PackageOf | mdbom/bom/processor.py:44-56 | one component's package: a failure is always a `KeyError`; a package copies the component's name, version and type and has URL " " (PackageOfSpec and PackageOfFailure give the rest) |
| Processor.ExtractPackages | mdbom/bom/processor.py:43-57 | a failure is always a `KeyError`; on success `components` exists and each package is PackageOf of the component at the same position (ExtractPackagesSpec gives when it succeeds) |
| Processor.PackageOfSpec | mdbom/bom/processor.py:44-56 | a component yields a package iff it has every key read; the package copies name, version and type, joins the licence names with "," and has URL " " |
| Processor.PackageOfFailure | mdbom/bom/processor.py:44-52 | a component missing a key fails with KeyError on the first missing one, in the order licenses, license, name (of the licence), name, version, type; nothing defaults to "unknown" |
| Processor.ExtractPackagesSpec | mdbom/bom/processor.py:43-57 | a document yields packages iff it has `components` and every component is well-formed; then there is one package per component, in order |
| Processor.LicensesSplitBack | mdbom/bom/processor.py:45-53 | the licence string splits back on "," into the licence names when there is at least one and none holds a comma |
| Processor.Processor.New | mdbom/bom/processor.py:28-31 | an empty name fails with "No processor name defined"; any other name gives a fresh processor holding that name |
| Processor.Processor.GetPackagesFromBom | mdbom/bom/processor.py:33-57 | the nested loops return the load error, or else exactly what ExtractPackages gives for the loaded document |
| PyPi.PyPiProcessor.constructor | mdbom/bom/pypi.py:12-14 | construction never fails; the processor is named "PyPiProcessor" |
| PyPi.PyPiProcessor.ConstructUrls | mdbom/bom/pypi.py:16-40 | a fresh list of the same length and order; each package is unchanged except its URL, which becomes `https://pypi.org/project/<name>/<version>/` |
| PyPi.ConstructUrlsIdempotent | mdbom/bom/pypi.py:27-38 | constructing twice equals constructing once |
| PyPi.ConstructUrlsIgnoresUrls | mdbom/bom/pypi.py:28-37 | lists that differ only in their URLs get the same result |
| PyPi.AgreesWithResolver | mdbom/bom/pypi.py:33-37 | for a non-empty name and version without `@` or whitespace, the attached URL is the purl resolver's URL for `pkg:pypi/<name>@<version>` plus a trailing "/" |
| Npm.NpmProcessor.constructor | mdbom/bom/npm.py:12-14 | construction never fails; the processor is named "NpmProcessor" |
| Npm.NpmProcessor.ConstructUrls | mdbom/bom/npm.py:16-39 | a fresh list of the same length and order; each package is unchanged except its URL, which becomes `https://www.npmjs.com/package/<name>/v/<version>` |
| Npm.ConstructUrlsIdempotent | mdbom/bom/npm.py:27-37 | constructing twice equals constructing once |
| Npm.ConstructUrlsIgnoresUrls | mdbom/bom/npm.py:28-36 | lists that differ only in their URLs get the same result |
| Npm.DisagreesWithResolver | mdbom/bom/npm.py:33-36 | for a non-empty name and version without `@` or whitespace, the attached URL never equals the purl resolver's URL for `pkg:npm/<name>@<version>`, which lacks the `/v/` segment |
| ConfigOperations.ValidateConfig | mdbom/config/operations.py:94-100 | a configuration passes iff its BOM, template and Markdown file names are all non-empty |
| ConfigOperations.ValidateConfigFirstEmpty | mdbom/config/operations.py:94-100 | the first empty name in the order BOM, template, Markdown decides the message |
| ConfigOperations.ValidateConfigIgnoresBomType | mdbom/config/operations.py:94-100 | the BOM type is never validated |
| ConfigOperations.Dirname | mdbom/config/operations.py:104-106 | `os.path.dirname` is the prefix before the last "/", with its trailing slashes removed unless it is slashes only; it is empty exactly for a path without "/" |
| ConfigOperations.ReadInto | mdbom/config/operations.py:36-41 | `config_parser.read` of a file: the parser then has the sections of both; within a section the file's keys override and the parser's other keys stay |
| ConfigOperations.ConfigFromParser | mdbom/config/operations.py:45-57 | the lookups succeed iff `INPUT` and `OUTPUT` exist and hold `bom_file`, `bom_type`, `template_file` and `markdown_file`; the configuration then holds exactly those values; a missing key raises `KeyError` in the order `INPUT`, `OUTPUT`, then the four keys |
| ConfigOperations.CheckedConfig | mdbom/config/operations.py:45-61 | what `get_config` returns after reading is a configuration taken from the parser, and it always passes validation |
| ConfigOperations.WriteThenRead | mdbom/config/operations.py:111-120 | round trip: a file written for a configuration reads back as that configuration, whatever the reading parser held |
| ConfigOperations.ConfigStore.GetConfig | mdbom/config/operations.py:21-61 | a missing given path gives "Unable to read provided config"; with no path, a missing `mdbom.ini` gives "Unable to read default config"; otherwise the file is merged into the parser and the validated configuration is returned |
| ConfigOperations.ConfigStore.WriteConfig | mdbom/config/operations.py:103-120 | as written: a path without a directory part fails in `os.makedirs("")` and changes nothing; otherwise the parser gets the two sections, the file gets the parser, and the file reads back as the configuration |
| ConfigOperations.ConfigStore.StoreConfig | mdbom/config/operations.py:111-120 | any path, with or without a directory part: the parser gets the two sections, the file gets the parser, only that file changes, and it reads back as the configuration into any parser |
| ConfigOperations.ConfigStore.CreateTarget | mdbom/config/operations.py:80-89 | the target is the given path or `mdbom.ini`; an invalid configuration fails with its validation message; a valid one fails only when the target exists and force is not set |
| ConfigOperations.ConfigStore.CreateConfig | mdbom/config/operations.py:64-91 | validation comes first and an invalid configuration changes nothing; an empty path means `mdbom.ini`; an existing target without force fails and changes nothing; otherwise the target is written once, as written |
| ConfigOperations.ConfigStore.CreateConfigIntended | mdbom/config/operations.py:64-91 | the same checks with the same errors; otherwise the target, `mdbom.ini` included, is always stored and reads back as the configuration |
| ConfigOperations.CreateDefaultAsWritten | mdbom/config/operations.py:80-91 | creating a valid configuration at the default path, in any store without `mdbom.ini`, fails with `FileNotFoundError("")`, and no file is created |
| ConfigOperations.CreateDefaultIntended | mdbom/config/operations.py:21-61 | for any store without `mdbom.ini`, the same call with the corrected write succeeds, and `get_config` without a path then returns the configuration |

## Behaviour the code has that its tests or documentation expect otherwise

The model follows the code. These differences are stated by lemmas or left out on purpose:

- `_npm_url_builder` (mdbom/bom/urls.py:51) builds `.../package/<p>/<v>`. The
  tests expect `.../package/<p>/v/<v>` (tests/bom/test_urls.py:63), which is
  what `NpmProcessor.construct_urls` builds. See `Npm.DisagreesWithResolver`.
- The tests import `get_url`, `_convert_purl_to_url`, a module-level
  `get_packages_from_bom`, `filter_packages_by_type` and `_load_bom`. None of
  them exists in the code. Neither does a 6-field `Package` with a `purl`, an
  `"unknown"` licence default, a `license.id` fallback, or a golang URL. None
  of these is modelled.
- `_write_config` calls `os.makedirs(os.path.dirname(file_name))` whenever the
  directory does not exist. For a bare file name the directory is "". So
  `os.makedirs("")` raises `FileNotFoundError`, and the handler re-raises
  anything other than `EEXIST`. As written, `create_config` therefore fails for
  the default `mdbom.ini` and for any path without "/". The test of that case
  replaces `_write_config` with a mock and does not see it. See "## Findings".

## Findings

| source | as written | input that shows it | evidently intended | confidence | as-written member | corrected member |
|---|---|---|---|---|---|---|
| mdbom/config/operations.py:104-109 | `os.makedirs(os.path.dirname(file_name))` runs whenever that directory does not exist, including when it is "". `os.makedirs("")` raises `FileNotFoundError` (ENOENT), and the handler re-raises every errno but EEXIST | `create_config(valid_config)` with no `mdbom.ini` present: the default path `mdbom.ini` has dirname "" | create the directory only when the path has one, so a bare file name is written in the current directory | high (not executed) | ConfigOperations.CreateDefaultAsWritten | ConfigOperations.CreateDefaultIntended |

`ConfigStore.WriteConfig` and `ConfigStore.CreateConfig` keep the code as
written. `ConfigStore.StoreConfig` is the write without the failing directory
step. `ConfigStore.CreateConfigIntended` uses it.

## Left out

- Logging: the warnings of mdbom/bom/urls.py:26, :31, :44, :53 are side effects and are dropped.
- JSON parsing and file reading: a BOM file is given already parsed. Invalid JSON, a top-level value that is not an object, JSON `null`, and non-string values are not modelled. A missing key and a `null` `licenses` both fail; the model treats both as the missing key.
- INI text: a configuration file is its parsed sections. The model leaves out the following, and so its round trip assumes plain values:
  - `ConfigParser` interpolation of `%`;
  - stripping of surrounding whitespace;
  - multi-line values;
  - key case folding;
  - the `DEFAULT` section;
  - parse errors.
- Directories: `os.path.exists` is membership among the files. Three things follow:
  - a configuration path that names a directory is not modelled;
  - `os.makedirs` of a non-empty directory is taken to succeed;
  - errors from `open` are not modelled.
- ConfigOperations.ConfigStore.GetConfig: does not model a path that exists as a directory. `ConfigParser.read` silently skips such a path.
- Urls.IsSpace: fixes Python's `str.isspace` set to the ASCII whitespace, U+001C to U+001F, and the fixed list of Unicode spaces. Changes in later Unicode versions are not followed.
- The `Processor.get_packages_from_bom` of mdbom/bom/bom.py:48-68 is not modelled, because it cannot run:
  - it passes `self` twice to `_load_bom`, which raises `TypeError`;
  - it seeds its list with the `Package` class;
  - it returns nothing.
- The abstract `construct_urls` hooks and inheritance (mdbom/bom/bom.py:70-77, mdbom/bom/processor.py:59-66) are replaced:
  - `PyPiProcessor` and `NpmProcessor` hold their base `Processor` in a field `base`;
  - `construct_urls` is a method of each.
- Python lists are values here, so "the input list is not modified" holds by construction and is not stated.
- mdbom/md/md.py (template rendering), mdbom/mdbom.py (command-line wiring) and the behaviour-free mdbom/config/types.py: the last is transcribed as datatypes only.
