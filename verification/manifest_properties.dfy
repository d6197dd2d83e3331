/** General properties of manifest synthesis, over every crate name, scope,
    target and declaration setting. */
module ManifestProperties {
  import opened Wrappers
  import opened Descriptor
  import opened Manifest

  /** The stem is already file-name safe: deriving it again changes nothing. */
  lemma StemIdempotent(name: string)
    ensures Stem(Stem(name)) == Stem(name)
  {
  }

  /** A name is its own stem exactly when it has no hyphen. */
  lemma StemFixedIffNoHyphen(name: string)
    ensures Stem(name) == name <==> '-' !in name
  {
  }

  /** The stem is computed character by character, so it distributes over
      concatenation. */
  lemma StemOfConcat(a: string, b: string)
    ensures Stem(a + b) == Stem(a) + Stem(b)
  {
  }

  /** Joining two words with `-` gives a stem joining their stems with `_`. */
  lemma StemOfHyphenated(a: string, b: string)
    ensures Stem(a + "-" + b) == Stem(a) + "_" + Stem(b)
  {
  }

  /** Two names that differ only in choosing `-` or `_` as separator share
      their stem, hence every generated file name. */
  lemma StemIgnoresSeparatorChoice(a: string, b: string)
    requires |a| == |b|
    requires forall i :: 0 <= i < |a| ==> a[i] == b[i] || (a[i] in "-_" && b[i] in "-_")
    ensures Stem(a) == Stem(b)
  {
  }

  /** The suffixes of the generated files differ in length, so no two kinds
      of file share a name, and the entry point is never listed in `files`. */
  lemma GeneratedNamesDistinct(stem: string)
    ensures WasmFile(stem) != GlueFile(stem) && WasmFile(stem) != DeclarationFile(stem)
    ensures GlueFile(stem) != DeclarationFile(stem)
    ensures EntryFile(stem) != WasmFile(stem) && EntryFile(stem) != GlueFile(stem)
    ensures EntryFile(stem) != DeclarationFile(stem)
  {
  }

  /** The packed file set, exactly: the compiled module, the glue module on
      the node target, the declarations unless disabled, and nothing else. */
  lemma FileSetExact(d: CrateDescriptor, scope: Option<string>, disableDts: bool, target: string)
    ensures var stem := Stem(d.name);
      FileSet(IntoNpm(d, scope, disableDts, target))
        == {WasmFile(stem)}
           + (if target == NodeTarget then {GlueFile(stem)} else {})
           + (if disableDts then {} else {DeclarationFile(stem)})
    ensures EntryFile(Stem(d.name)) !in FileSet(IntoNpm(d, scope, disableDts, target))
  {
  }

  /** A scope renames the package and changes nothing else: main, types and
      files stay those of the unscoped manifest. */
  lemma ScopeOnlyRenames(d: CrateDescriptor, scope: Option<string>, disableDts: bool, target: string)
    ensures IntoNpm(d, scope, disableDts, target)
      == IntoNpm(d, None, disableDts, target).(name := PackageName(d.name, scope))
  {
  }

  /** Without a scope the package name is the crate name reported by
      `get_crate_name`. */
  lemma UnscopedNameIsCrateName(found: Option<CrateDescriptor>, disableDts: bool, target: string, written: bool)
    ensures var r := WritePackageJson(found, None, disableDts, target, written);
      r.Success? ==> GetCrateName(found).Success? && r.value.name == GetCrateName(found).value
  {
  }

  /** The node target adds the glue module as one more packed file and leaves
      every other field as on any other target. */
  lemma NodeAddsGlueFile(d: CrateDescriptor, scope: Option<string>, disableDts: bool, target: string)
    requires target != NodeTarget
    ensures var node := IntoNpm(d, scope, disableDts, NodeTarget);
      var other := IntoNpm(d, scope, disableDts, target);
      && FileSet(node) == FileSet(other) + {GlueFile(Stem(d.name))}
      && GlueFile(Stem(d.name)) !in FileSet(other)
      && node.(files := other.files) == other
  {
  }

  /** Disabling declarations removes exactly the `.d.ts` file and the `types`
      field; the entry point and the other files are unchanged. */
  lemma DisableDtsDropsDeclaration(d: CrateDescriptor, scope: Option<string>, target: string)
    ensures var with := IntoNpm(d, scope, false, target);
      var without := IntoNpm(d, scope, true, target);
      && FileSet(with) == FileSet(without) + {DeclarationFile(Stem(d.name))}
      && DeclarationFile(Stem(d.name)) !in FileSet(without)
      && without.types == None
      && with.types == Some(DeclarationFile(Stem(d.name)))
      && without.(files := with.files, types := with.types) == with
  {
  }

  /** The two declared shapes of a repository on concrete values: a bare URL
      becomes a git repository with that URL, and a normalized repository
      written back as a table normalizes to itself (normalization is a
      fixpoint on its own output). */
  lemma NormalizeRepositoryCases(url: string, r: Repository)
    ensures NormalizeRepository(Some(PlainUrl(url))) == Some(Repository(GitKind, url))
    ensures NormalizeRepository(Some(Table(r.kind, r.url))) == Some(r)
  {
  }
}
