/** `write_package_json`: turns the crate descriptor into the npm package
    manifest (pkg/package.json). Generated file names are all derived from
    the crate name with hyphens turned into underscores; a registry scope
    only changes the package name. */
module Manifest {
  import opened Wrappers
  import opened Descriptor

  /** The repository entry of package.json: always an explicit type and url. */
  datatype Repository = Repository(kind: string, url: string)

  /** The fields of the generated package.json. Only the set of `files`
      matters to a consumer; the entry point named by `main` is packed by npm
      whether or not it is listed. */
  datatype NpmPackage = NpmPackage(
    name: string,
    collaborators: seq<string>,
    description: string,
    version: string,
    license: string,
    repository: Option<Repository>,
    files: seq<string>,
    main: string,
    types: Option<string>)

  /** The target whose output needs the separate `_bg.js` glue module. */
  const NodeTarget: string := "nodejs"

  /** The repository type assumed for a bare repository URL. */
  const GitKind: string := "git"

  function Underscore(c: char): char {
    if c == '-' then '_' else c
  }

  /** The file-name stem of a crate: every `-` of the name replaced by `_`,
      every other character kept in place. */
  function Stem(name: string): (r: string)
    ensures |r| == |name|
    ensures '-' !in r
    ensures forall i :: 0 <= i < |name| && name[i] != '-' ==> r[i] == name[i]
    ensures forall i :: 0 <= i < |name| && name[i] == '-' ==> r[i] == '_'
  {
    seq(|name|, i requires 0 <= i < |name| => Underscore(name[i]))
  }

  /** The stem computed the way a string replacement does it: one scan over
      the name, copying each character and rewriting each `-` as `_`. */
  method ReplaceHyphens(name: string) returns (r: string)
    ensures r == Stem(name)
  {
    r := [];
    var i := 0;
    while i < |name|
      invariant 0 <= i <= |name|
      invariant r == Stem(name[..i])
    {
      assert name[..i + 1] == name[..i] + [name[i]];
      r := r + [Underscore(name[i])];
      i := i + 1;
    }
    assert name[..i] == name;
  }

  /** The package name: `@scope/name` for a non-empty scope, the crate name
      itself otherwise. The hyphenated crate name is used, never the stem. */
  function PackageName(crateName: string, scope: Option<string>): (r: string)
    ensures scope.None? || scope.value == "" ==> r == crateName
    ensures scope.Some? && scope.value != "" ==>
      |r| == |scope.value| + |crateName| + 2
      && r[0] == '@' && r[1..|scope.value| + 1] == scope.value
      && r[|scope.value| + 1] == '/' && r[|scope.value| + 2..] == crateName
  {
    match scope
    case Some(s) => if s == "" then crateName else "@" + s + "/" + crateName
    case None => crateName
  }

  /** A bare URL becomes a git repository; a table is kept as given; an
      absent repository stays absent. */
  function NormalizeRepository(spec: Option<RepositorySpec>): (r: Option<Repository>)
    ensures r.Some? <==> spec.Some?
    ensures spec.Some? ==> r.value.url == spec.value.url
    ensures spec.Some? && spec.value.PlainUrl? ==> r.value.kind == GitKind
    ensures spec.Some? && spec.value.Table? ==> r.value.kind == spec.value.kind
  {
    match spec
    case None => None
    case Some(PlainUrl(url)) => Some(Repository(GitKind, url))
    case Some(Table(kind, url)) => Some(Repository(kind, url))
  }

  function WasmFile(stem: string): string { stem + "_bg.wasm" }
  function GlueFile(stem: string): string { stem + "_bg.js" }
  function DeclarationFile(stem: string): string { stem + ".d.ts" }
  function EntryFile(stem: string): string { stem + ".js" }

  /** The `files` list: the compiled module, the node glue module for the
      node target, and the declarations unless they are disabled. The order
      of the list is this model's own fixed choice; only its set of entries
      is prescribed. */
  function PackageFiles(stem: string, disableDts: bool, target: string): (r: seq<string>)
    ensures |r| > 0 && r[0] == WasmFile(stem)
    ensures GlueFile(stem) in r <==> target == NodeTarget
    ensures DeclarationFile(stem) in r <==> !disableDts
    ensures forall f :: f in r ==> f == WasmFile(stem) || f == GlueFile(stem) || f == DeclarationFile(stem)
    ensures forall i, j :: 0 <= i < j < |r| ==> r[i] != r[j]
  {
    [WasmFile(stem)]
      + (if target == NodeTarget then [GlueFile(stem)] else [])
      + (if disableDts then [] else [DeclarationFile(stem)])
  }

  /** The set of packed files, the view in which two manifests are compared. */
  function FileSet(p: NpmPackage): set<string> {
    set f | f in p.files
  }

  /** The manifest for an already-read descriptor. */
  function IntoNpm(d: CrateDescriptor, scope: Option<string>, disableDts: bool, target: string): (p: NpmPackage)
    ensures p.name == PackageName(d.name, scope)
    ensures p.main == EntryFile(Stem(d.name))
    ensures p.types == (if disableDts then None else Some(DeclarationFile(Stem(d.name))))
    ensures p.types.Some? ==> p.types.value in p.files
    ensures WasmFile(Stem(d.name)) in p.files
    ensures p.files == PackageFiles(Stem(d.name), disableDts, target)
    ensures p.repository == NormalizeRepository(d.repository)
    ensures p.collaborators == d.authors && p.version == d.version
      && p.description == d.description && p.license == d.license
  {
    var stem := Stem(d.name);
    NpmPackage(
      PackageName(d.name, scope),
      d.authors,
      d.description,
      d.version,
      d.license,
      NormalizeRepository(d.repository),
      PackageFiles(stem, disableDts, target),
      EntryFile(stem),
      if disableDts then None else Some(DeclarationFile(stem)))
  }

  /** `write_package_json(path, scope, disable_dts, target)`: reads the
      descriptor, builds the manifest and writes it to pkg/package.json.
      `written` is whether the filesystem accepted the write; on success the
      result is the manifest now on disk. */
  function WritePackageJson(found: Option<CrateDescriptor>, scope: Option<string>, disableDts: bool,
                            target: string, written: bool): (r: Result<NpmPackage, Error>)
    ensures r.Success? <==> found.Some? && found.value.name != "" && written
    ensures r.Success? ==> r.value == IntoNpm(found.value, scope, disableDts, target)
    ensures r.Failure? && found.Some? && found.value.name != "" ==> r.error == ManifestWriteError
    ensures found.None? ==> r == Failure(MissingDescriptor)
    ensures found.Some? && found.value.name == "" ==> r == Failure(MalformedDescriptor)
  {
    var d :- ReadDescriptor(found);
    if written then Success(IntoNpm(d, scope, disableDts, target)) else Failure(ManifestWriteError)
  }
}
