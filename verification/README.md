# wasm-pack manifest layer, modelled in Dafny

This project models the `manifest` module of wasm-pack, the tool that packages
a Rust crate compiled to WebAssembly for the npm registry. The module does
three things:

- `get_crate_name` reads the crate's `Cargo.toml` and returns its name.
- `check_crate_config` refuses a crate that does not build a `cdylib` or
  does not depend on `wasm-bindgen`.
- `write_package_json` synthesises `pkg/package.json`. It sets the package
  name, which carries an optional `@scope/` prefix. It sets the `main` entry
  point and the `types` declaration file. It also sets the `files`
  allow-list, which depends on the target and on whether `.d.ts` generation
  is disabled.

The implementation of the module is not part of this model. Only its test
suite, `tests/manifest/main.rs`, is. The model is built from the behaviour
those tests assert. Where the tests leave a choice open, the model makes
these decisions:

- The `cdylib` rule is checked before the `wasm-bindgen` rule. A crate
  cannot produce a loadable module without the `cdylib` output, so that is
  the more basic misconfiguration and is reported first.
- Each failed rule has its own error kind (`InvalidLibraryKind`,
  `MissingBindingsDependency`). The user can then see which declaration to
  add.
- A scope of `Some("")` behaves like no scope. Otherwise it would produce the
  malformed npm name `@/name`.
- The order of the `files` list (wasm module, node glue module, declarations)
  is a fixed choice of the model. The tests compare `files` as a set, so they
  do not observe any order.
- A descriptor without a name is refused with `MalformedDescriptor`. Every
  operation that reads the descriptor passes its errors on unchanged.

Layout:

- `wrappers.dfy` (`Wrappers`): `Option` and `Result`.
- `descriptor.dfy` (`Descriptor`): the parsed `Cargo.toml` (`CrateDescriptor`),
  the error kinds, the descriptor read and `GetCrateName`.
- `crate_config.dfy` (`CrateConfig`): the validator. It is an ordered list of
  `Check`s run by `RunChecks`, so the first failing rule decides the error.
- `manifest.dfy` (`Manifest`): the file-name stem (defined per character, and
  computed by a scanning method proved equal to it), the scoped package name,
  repository normalisation, the `files` list, `IntoNpm` and
  `WritePackageJson`.
- `manifest_properties.dfy` (`ManifestProperties`): properties that hold for
  every crate name, scope, target and declaration setting.
- `manifest_cases.dfy` (`ManifestCases`): one lemma per test scenario. Each
  fixture crate is a lemma input, constrained only by the facts the scenario
  relies on.

## Model

| member | source | states |
|---|---|---|
| Descriptor.ReadDescriptor | tests/manifest/main.rs:22 | a read succeeds exactly when a descriptor exists and names the crate, and then returns that descriptor; a missing file gives `MissingDescriptor`, a nameless one `MalformedDescriptor` |
| Descriptor.GetCrateName | tests/manifest/main.rs:14-27 | succeeds exactly when the descriptor is readable and returns the declared name verbatim (hyphens kept); otherwise it passes on the reader's error |
| CrateConfig.RunChecks | tests/manifest/main.rs:29-45 | succeeds iff every rule holds; on failure the error is that of a failing rule all of whose predecessors hold (first failure wins) |
| CrateConfig.CheckCrateConfig | tests/manifest/main.rs:35-45 | succeeds iff `cdylib` is a crate type and `wasm-bindgen` a dependency; a missing `cdylib` gives `InvalidLibraryKind`; `cdylib` present without `wasm-bindgen` gives `MissingBindingsDependency` |
| CrateConfig.CheckCrateConfigAt | tests/manifest/main.rs:174-184 | on a path: succeeds iff the descriptor is readable and both rules hold; each missing declaration gives its own error; a missing descriptor gives `MissingDescriptor` and a nameless one `MalformedDescriptor` |
| Manifest.Stem | tests/manifest/main.rs:84-93 | the stem has the name's length and no hyphen; each `-` becomes `_` and every other character stays in place |
| Manifest.ReplaceHyphens | tests/manifest/main.rs:84-86 | a single left-to-right scan that rewrites each `-` as `_` produces exactly the stem |
| Manifest.PackageName | tests/manifest/main.rs:96-108 | no scope (or an empty one) keeps the crate name; a scope gives `@`, the scope, `/`, then the hyphenated crate name, position by position |
| Manifest.NormalizeRepository | tests/manifest/main.rs:58-62 | a repository is present iff one was declared and keeps its URL; a bare URL gets type `git`; a table keeps its type |
| Manifest.PackageFiles | tests/manifest/main.rs:67-72 | the list always holds `stem_bg.wasm` (first, in the model's chosen order); it holds `stem_bg.js` iff the target is `nodejs` and `stem.d.ts` iff declarations are on; it holds nothing else and has no duplicates |
| Manifest.IntoNpm | tests/manifest/main.rs:56-72 | the package name is the scoped crate name; `main` is `stem.js`; `types` is `stem.d.ts` iff declarations are on and is then listed in `files`; the compiled module is always listed; the repository is normalised; authors, version, description and license are carried over |
| Manifest.WritePackageJson | tests/manifest/main.rs:47-55 | succeeds iff the descriptor is readable and the write goes through, and then yields the synthesised manifest; a failed write gives `ManifestWriteError`; a missing descriptor gives `MissingDescriptor` and a nameless one `MalformedDescriptor`, passed on unchanged |
| ManifestProperties.StemIdempotent | tests/manifest/main.rs:84-86 | taking the stem of a stem changes nothing |
| ManifestProperties.StemFixedIffNoHyphen | tests/manifest/main.rs:84-86 | a name is its own stem exactly when it contains no hyphen (both directions) |
| ManifestProperties.StemOfConcat | tests/manifest/main.rs:84-93 | the stem of a concatenation is the concatenation of the stems |
| ManifestProperties.StemOfHyphenated | tests/manifest/main.rs:84-93 | joining two words with `-` yields a stem that joins their stems with `_` |
| ManifestProperties.StemIgnoresSeparatorChoice | tests/manifest/main.rs:84-93 | two names that differ only in using `-` or `_` get the same stem, and therefore the same file names |
| ManifestProperties.GeneratedNamesDistinct | tests/manifest/main.rs:139-145 | the `_bg.wasm`, `_bg.js`, `.d.ts` and `.js` names built from one stem are pairwise different |
| ManifestProperties.FileSetExact | tests/manifest/main.rs:119-172 | the packed file set is exactly `{stem_bg.wasm}`, plus `stem_bg.js` on `nodejs`, plus `stem.d.ts` unless disabled; the `main` file `stem.js` is not listed |
| ManifestProperties.ScopeOnlyRenames | tests/manifest/main.rs:107-116 | a scoped manifest equals the unscoped one in every field except the name |
| ManifestProperties.UnscopedNameIsCrateName | tests/manifest/main.rs:56-57 | without a scope, a written manifest's name is the name `get_crate_name` returns |
| ManifestProperties.NodeAddsGlueFile | tests/manifest/main.rs:135-145 | compared with any other target, `nodejs` adds exactly `stem_bg.js` to the file set, and that file was not already there; all other fields are equal |
| ManifestProperties.DisableDtsDropsDeclaration | tests/manifest/main.rs:164-171 | disabling declarations removes exactly `stem.d.ts` from the file set and clears `types`; all other fields are equal |
| ManifestProperties.NormalizeRepositoryCases | tests/manifest/main.rs:58-62 | the normaliser's two cases on concrete values: a bare URL becomes `{type: "git", url}` with the same URL; a normalised repository written back as a table normalises to itself, so normalising is a fixpoint on its own output |
| ManifestCases.StemOfOwnCrate | tests/manifest/main.rs:63 | the stem of `wasm-pack` is `wasm_pack` |
| ManifestCases.CrateNameOfOwnCrate | tests/manifest/main.rs:14-18 | the tool's own crate name reads back as `wasm-pack` |
| ManifestCases.CrateNameOfHelloWorld | tests/manifest/main.rs:20-27 | the fixture's name reads back as `js-hello-world` |
| ManifestCases.OwnCrateIsNotCdylib | tests/manifest/main.rs:29-33 | a crate without the `cdylib` type is rejected with `InvalidLibraryKind` |
| ManifestCases.HelloWorldConfigAccepted | tests/manifest/main.rs:35-39 | a crate declaring `cdylib` and `wasm-bindgen` passes the check |
| ManifestCases.BadCargoTomlRejected | tests/manifest/main.rs:41-45 | a wrong crate type or a missing `wasm-bindgen` is rejected with one of the two configuration errors |
| ManifestCases.DefaultPackageJson | tests/manifest/main.rs:47-73 | default case: name `wasm-pack`, git repository, main `wasm_pack.js`, types `wasm_pack.d.ts`, files `{wasm_pack_bg.wasm, wasm_pack.d.ts}` |
| ManifestCases.StemOfHelloWorld | tests/manifest/main.rs:86 | the stem of `js-hello-world` is `js_hello_world` |
| ManifestCases.HelloWorldPackageJson | tests/manifest/main.rs:75-94 | fixture case: name `js-hello-world`, main `js_hello_world.js`, files `{js_hello_world_bg.wasm, js_hello_world.d.ts}` |
| ManifestCases.StemOfScopesFixture | tests/manifest/main.rs:109 | the stem of `scopes-hello-world` is `scopes_hello_world` |
| ManifestCases.ScopedNameOfFixture | tests/manifest/main.rs:108 | scope `test` turns `scopes-hello-world` into `@test/scopes-hello-world` |
| ManifestCases.ScopedPackageJson | tests/manifest/main.rs:96-117 | scoped case: name `@test/scopes-hello-world`, while main and files still use `scopes_hello_world` |
| ManifestCases.NodePackageJson | tests/manifest/main.rs:119-146 | `nodejs` case: files `{wasm_pack_bg.wasm, wasm_pack_bg.js, wasm_pack.d.ts}`, main `wasm_pack.js`, types `wasm_pack.d.ts` |
| ManifestCases.NoTypesPackageJson | tests/manifest/main.rs:148-172 | declarations disabled: files `{wasm_pack_bg.wasm}`, no `types`, main `wasm_pack.js` |

Re-running synthesis on the same inputs gives the same manifest. This follows
from `WritePackageJson` being a pure function, so no lemma states it.

## Left out

- The implementation file of the `manifest` module is not part of this model. The decisions listed at the top stand in for its unseen details.
- Manifest.PackageFiles: the order of the list is the model's own choice. The tests compare `files` as a `HashSet`, and no order is prescribed. Only the set of entries and the absence of duplicates reflect the source.
- Filesystem work is modelled only as outcomes. Directory creation, reading `Cargo.toml` and writing `pkg/package.json` are left out. A missing descriptor is `None`, and the write outcome is the `written` parameter.
- TOML parsing of `Cargo.toml` and JSON serialisation of `package.json` are left out. The model works on the parsed `CrateDescriptor` and the `NpmPackage` record. The deterministic field order and formatting of the output file are not modelled.
- The progress-bar `Step` handle and the diagnostic text emitted on a configuration error are left out. They are UI output and do not affect results.
- `dev-dependencies` are not consulted by the `wasm-bindgen` rule. The descriptor has a single dependency-name set.
- `module` and `browser` manifest fields for module-aware targets are not modelled. The target is the plain string the tests pass (`""` or `"nodejs"`), and only `"nodejs"` changes the output.
- The fixture crates' `Cargo.toml` files are not modelled as files. Each test scenario takes the fixture's relevant content as lemma hypotheses.
