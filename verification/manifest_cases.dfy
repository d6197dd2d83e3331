/** The scenarios of the manifest test suite, one lemma each. The fixture
    crates are lemma inputs constrained by the facts each scenario relies on:
    the crate's name, its crate types, its dependencies, its repository. */
module ManifestCases {
  import opened Wrappers
  import opened Descriptor
  import opened CrateConfig
  import opened Manifest
  import opened ManifestProperties

  const OwnRepositoryUrl: string := "https://github.com/ashleygwilliams/wasm-pack.git"

  lemma StemOfOwnCrate()
    ensures Stem("wasm-pack") == "wasm_pack"
  {
  }

  /** The packaging tool's own crate is named `wasm-pack`. */
  lemma CrateNameOfOwnCrate(d: CrateDescriptor)
    requires d.name == "wasm-pack"
    ensures GetCrateName(Some(d)) == Success("wasm-pack")
  {
  }

  /** The `js-hello-world` fixture keeps its hyphens. */
  lemma CrateNameOfHelloWorld(d: CrateDescriptor)
    requires d.name == "js-hello-world"
    ensures GetCrateName(Some(d)) == Success("js-hello-world")
  {
  }

  /** The tool's own crate builds no cdylib, so it is rejected. */
  lemma OwnCrateIsNotCdylib(d: CrateDescriptor)
    requires d.name == "wasm-pack" && CdylibKind !in d.crateTypes
    ensures CheckCrateConfigAt(Some(d)) == Failure(InvalidLibraryKind)
  {
  }

  /** `js-hello-world` declares the cdylib crate type and `wasm-bindgen`. */
  lemma HelloWorldConfigAccepted(d: CrateDescriptor)
    requires d.name == "js-hello-world"
    requires CdylibKind in d.crateTypes && BindgenCrate in d.dependencies
    ensures CheckCrateConfigAt(Some(d)).Success?
  {
  }

  /** `bad-cargo-toml` has a wrong crate type or lacks `wasm-bindgen`; either
      omission alone is rejected. */
  lemma BadCargoTomlRejected(d: CrateDescriptor)
    requires d.name == "bad-cargo-toml"
    requires CdylibKind !in d.crateTypes || BindgenCrate !in d.dependencies
    ensures CheckCrateConfigAt(Some(d)).Failure?
    ensures CheckCrateConfigAt(Some(d)).error in {InvalidLibraryKind, MissingBindingsDependency}
  {
  }

  /** Default target, no scope, declarations on. */
  lemma DefaultPackageJson(d: CrateDescriptor)
    requires d.name == "wasm-pack" && d.repository == Some(PlainUrl(OwnRepositoryUrl))
    ensures var r := WritePackageJson(Some(d), None, false, "", true);
      && r.Success?
      && r.value.name == "wasm-pack"
      && r.value.repository == Some(Repository("git", OwnRepositoryUrl))
      && r.value.main == "wasm_pack.js"
      && r.value.types.UnwrapOr("") == "wasm_pack.d.ts"
      && FileSet(r.value) == {"wasm_pack_bg.wasm", "wasm_pack.d.ts"}
  {
    StemOfOwnCrate();
    FileSetExact(d, None, false, "");
    assert WasmFile(Stem(d.name)) == "wasm_pack_bg.wasm";
    assert DeclarationFile(Stem(d.name)) == "wasm_pack.d.ts";
  }

  lemma StemOfHelloWorld()
    ensures Stem("js-hello-world") == "js_hello_world"
  {
  }

  /** A fixture crate's files are named after its underscored stem. */
  lemma HelloWorldPackageJson(d: CrateDescriptor)
    requires d.name == "js-hello-world"
    ensures var r := WritePackageJson(Some(d), None, false, "", true);
      && r.Success?
      && r.value.name == "js-hello-world"
      && r.value.main == "js_hello_world.js"
      && FileSet(r.value) == {"js_hello_world_bg.wasm", "js_hello_world.d.ts"}
  {
    StemOfHelloWorld();
    FileSetExact(d, None, false, "");
    assert WasmFile(Stem(d.name)) == "js_hello_world_bg.wasm";
    assert DeclarationFile(Stem(d.name)) == "js_hello_world.d.ts";
  }

  lemma StemOfScopesFixture()
    ensures Stem("scopes-hello-world") == "scopes_hello_world"
  {
  }

  lemma ScopedNameOfFixture(name: string)
    requires name == "scopes-hello-world"
    ensures PackageName(name, Some("test")) == "@test/scopes-hello-world"
  {
  }

  /** Scope `test` prefixes the hyphenated name; files keep the plain stem. */
  lemma ScopedPackageJson(d: CrateDescriptor)
    requires d.name == "scopes-hello-world"
    ensures var r := WritePackageJson(Some(d), Some("test"), false, "", true);
      && r.Success?
      && r.value.name == "@test/scopes-hello-world"
      && r.value.main == "scopes_hello_world.js"
      && FileSet(r.value) == {"scopes_hello_world_bg.wasm", "scopes_hello_world.d.ts"}
  {
    StemOfScopesFixture();
    FileSetExact(d, Some("test"), false, "");
    ScopedNameOfFixture(d.name);
    assert WasmFile(Stem(d.name)) == "scopes_hello_world_bg.wasm";
    assert DeclarationFile(Stem(d.name)) == "scopes_hello_world.d.ts";
  }

  /** The node target also packs the `_bg.js` glue module. */
  lemma NodePackageJson(d: CrateDescriptor)
    requires d.name == "wasm-pack" && d.repository == Some(PlainUrl(OwnRepositoryUrl))
    ensures var r := WritePackageJson(Some(d), None, false, "nodejs", true);
      && r.Success?
      && r.value.name == "wasm-pack"
      && r.value.repository == Some(Repository("git", OwnRepositoryUrl))
      && r.value.main == "wasm_pack.js"
      && r.value.types.UnwrapOr("") == "wasm_pack.d.ts"
      && FileSet(r.value) == {"wasm_pack_bg.wasm", "wasm_pack_bg.js", "wasm_pack.d.ts"}
  {
    StemOfOwnCrate();
    FileSetExact(d, None, false, "nodejs");
    assert WasmFile(Stem(d.name)) == "wasm_pack_bg.wasm";
    assert GlueFile(Stem(d.name)) == "wasm_pack_bg.js";
    assert DeclarationFile(Stem(d.name)) == "wasm_pack.d.ts";
  }

  /** With declarations disabled only the compiled module is packed. */
  lemma NoTypesPackageJson(d: CrateDescriptor)
    requires d.name == "wasm-pack" && d.repository == Some(PlainUrl(OwnRepositoryUrl))
    ensures var r := WritePackageJson(Some(d), None, true, "", true);
      && r.Success?
      && r.value.name == "wasm-pack"
      && r.value.repository == Some(Repository("git", OwnRepositoryUrl))
      && r.value.main == "wasm_pack.js"
      && r.value.types == None
      && FileSet(r.value) == {"wasm_pack_bg.wasm"}
  {
    StemOfOwnCrate();
    FileSetExact(d, None, true, "");
    assert WasmFile(Stem(d.name)) == "wasm_pack_bg.wasm";
  }
}
