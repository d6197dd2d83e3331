/** `check_crate_config`: the crate must build a C-compatible dynamic library
    and must depend on `wasm-bindgen`. The rules are an ordered list of
    independent checks; the first one that fails decides the error. */
module CrateConfig {
  import opened Wrappers
  import opened Descriptor

  /** The crate type that yields a loadable WebAssembly module. */
  const CdylibKind: string := "cdylib"

  /** The code-generation dependency every packaged crate must declare. */
  const BindgenCrate: string := "wasm-bindgen"

  /** One configuration rule and the error reported when it does not hold. */
  datatype Check =
    | RequireCrateType(kind: string, err: Error)
    | RequireDependency(dep: string, err: Error)

  predicate Holds(c: Check, d: CrateDescriptor) {
    match c
    case RequireCrateType(kind, _) => kind in d.crateTypes
    case RequireDependency(dep, _) => dep in d.dependencies
  }

  /** The rules, in the order they are checked. */
  const Checks: seq<Check> := [
    RequireCrateType(CdylibKind, InvalidLibraryKind),
    RequireDependency(BindgenCrate, MissingBindingsDependency)
  ]

  /** Runs `checks` in order and stops at the first that fails. */
  function RunChecks(checks: seq<Check>, d: CrateDescriptor): (r: Result<(), Error>)
    ensures r.Success? <==> forall i :: 0 <= i < |checks| ==> Holds(checks[i], d)
    ensures r.Failure? ==>
      exists i :: 0 <= i < |checks| && !Holds(checks[i], d) && r.error == checks[i].err
        && forall j :: 0 <= j < i ==> Holds(checks[j], d)
  {
    if checks == [] then Success(())
    else if !Holds(checks[0], d) then Failure(checks[0].err)
    else RunChecks(checks[1..], d)
  }

  /** The validator on an already-read descriptor. */
  function CheckCrateConfig(d: CrateDescriptor): (r: Result<(), Error>)
    ensures r.Success? <==> CdylibKind in d.crateTypes && BindgenCrate in d.dependencies
    ensures CdylibKind !in d.crateTypes ==> r == Failure(InvalidLibraryKind)
    ensures CdylibKind in d.crateTypes && BindgenCrate !in d.dependencies ==>
      r == Failure(MissingBindingsDependency)
  {
    var r := RunChecks(Checks, d);
    assert Holds(Checks[0], d) <==> CdylibKind in d.crateTypes;
    assert Holds(Checks[1], d) <==> BindgenCrate in d.dependencies;
    r
  }

  /** `check_crate_config(path)`: reads the descriptor, then validates it. */
  function CheckCrateConfigAt(found: Option<CrateDescriptor>): (r: Result<(), Error>)
    ensures r.Success? <==>
      found.Some? && found.value.name != ""
      && CdylibKind in found.value.crateTypes && BindgenCrate in found.value.dependencies
    ensures found.Some? && found.value.name != "" && CdylibKind !in found.value.crateTypes ==>
      r == Failure(InvalidLibraryKind)
    ensures (found.Some? && found.value.name != "" && CdylibKind in found.value.crateTypes &&
             BindgenCrate !in found.value.dependencies) ==> r == Failure(MissingBindingsDependency)
    ensures found.None? ==> r == Failure(MissingDescriptor)
    ensures found.Some? && found.value.name == "" ==> r == Failure(MalformedDescriptor)
  {
    var d :- ReadDescriptor(found);
    CheckCrateConfig(d)
  }
}
