/** The build descriptor (Cargo.toml) of the crate being packaged, as the
    manifest layer sees it once parsed, and the error kinds of the layer. */
module Descriptor {
  import opened Wrappers

  /** The `repository` key of Cargo.toml: a bare URL string, or a table with
      an explicit `type` and `url`. */
  datatype RepositorySpec = PlainUrl(url: string) | Table(kind: string, url: string)

  /** The parsed descriptor. `crateTypes` is the `[lib] crate-type` list (empty
      when the `[lib]` table or its key is absent); `dependencies` holds the
      names under `[dependencies]`. An absent `name` key is an empty `name`. */
  datatype CrateDescriptor = CrateDescriptor(
    name: string,
    version: string,
    description: string,
    license: string,
    authors: seq<string>,
    repository: Option<RepositorySpec>,
    crateTypes: set<string>,
    dependencies: set<string>)

  /** Every way the manifest layer fails. */
  datatype Error =
    | MissingDescriptor          // no Cargo.toml at the given path
    | MalformedDescriptor        // Cargo.toml without a usable package name
    | InvalidLibraryKind         // `[lib] crate-type` lacks "cdylib"
    | MissingBindingsDependency  // `wasm-bindgen` is not a dependency
    | ManifestWriteError         // pkg/package.json could not be written

  /** Loads the descriptor found at a crate path: `found` is `None` when no
      descriptor exists there. A descriptor without a name is rejected, so a
      successful read always carries a non-empty name. */
  function ReadDescriptor(found: Option<CrateDescriptor>): (r: Result<CrateDescriptor, Error>)
    ensures r.Success? <==> found.Some? && found.value.name != ""
    ensures r.Success? ==> r.value == found.value && r.value.name != ""
    ensures found.None? ==> r == Failure(MissingDescriptor)
    ensures found.Some? && found.value.name == "" ==> r == Failure(MalformedDescriptor)
  {
    match found
    case None => Failure(MissingDescriptor)
    case Some(d) => if d.name == "" then Failure(MalformedDescriptor) else Success(d)
  }

  /** `get_crate_name`: the crate's name exactly as declared, hyphens and case
      untouched; the reader's errors are passed on unchanged. */
  function GetCrateName(found: Option<CrateDescriptor>): (r: Result<string, Error>)
    ensures r.Success? <==> found.Some? && found.value.name != ""
    ensures r.Success? ==> r.value == found.value.name
    ensures r.Failure? ==> r.error == ReadDescriptor(found).error
    ensures r.Failure? ==> r.error == MissingDescriptor || r.error == MalformedDescriptor
  {
    var d :- ReadDescriptor(found);
    Success(d.name)
  }
}
