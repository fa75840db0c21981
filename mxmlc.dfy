/**
 * MxmlcMojo.execute and executeModules as a planner of compile requests.
 *
 * From one base configuration the mojo issues the primary compile, then one
 * variant per runtime locale, then one variant per module. Each variant is a
 * clone of the base with a few fields overwritten; a clone with an assigned
 * field is a datatype update here. The compiler itself, the security-sandbox
 * update and the wait for results are outside the model: a plan is the
 * ordered list of requests handed to the compiler.
 */
module Mxmlc {
  import opened Strings
  import opened Artifacts

  /** A module entry of the mojo's configuration. */
  datatype Module = Module(sourceFile: string, finalName: Option<string>, destinationPath: Option<string>, optimize: bool)

  /** The fields of MxmlcMojo that execute reads or a variant overwrites (null lists are empty). */
  datatype MxmlcConfig = MxmlcConfig(
    runtimeLocales: seq<string>,
    modules: seq<Module>,
    fullSynchronization: bool,
    compilerLocales: seq<string>,
    classifier: Option<string>,
    targetDirectory: Path,
    finalName: string,
    loadExterns: seq<Path>)

  /**
   * What execute asks of the project and the file system:
   * PathUtil.exist(getSourcePath()), getSourceFile(), SourceFileResolver over
   * the compile source roots, the build's final name and directory, and
   * PathUtil.getFiles applied to the main link report.
   */
  datatype BuildEnvironment = BuildEnvironment(
    sourcePathExists: bool,
    primarySource: Option<Path>,
    resolveModuleSource: string -> Path,
    buildFinalName: string,
    buildDirectory: Path,
    mainLinkReportExterns: seq<Path>)

  /** One call of executeCompiler: a configuration holder and whether to wait for it. */
  datatype CompileRequest = CompileRequest(config: MxmlcConfig, sourceFile: Option<Path>, synchronize: bool)

  /** The five fields a variant may overwrite are the only ones in which it differs from the base. */
  predicate DerivedFrom(c: MxmlcConfig, base: MxmlcConfig) {
    c.(compilerLocales := base.compilerLocales, classifier := base.classifier, targetDirectory := base.targetDirectory,
       finalName := base.finalName, loadExterns := base.loadExterns) == base
  }

  // ---------------------------------------------------------------------
  // Module derivations

  /** A module's classifier: the lower-cased base name of its resolved source file. */
  function ModuleClassifier(source: Path): (r: string)
    ensures |r| == |BaseName(FileName(source))|
    ensures forall i :: 0 <= i < |r| ==> !('A' <= r[i] <= 'Z')
  {
    ToLower(BaseName(FileName(source)))
  }

  /** A classifier holds no path separator and no upper-case letter. */
  lemma ModuleClassifierShape(source: Path)
    ensures var r := ModuleClassifier(source);
      '/' !in r && '\\' !in r && forall i :: 0 <= i < |r| ==> !('A' <= r[i] <= 'Z')
  {
    var name := BaseName(FileName(source));
    var r := ModuleClassifier(source);
    assert r == ToLower(name);
    forall i | 0 <= i < |r| ensures r[i] != '/' && r[i] != '\\' {
      assert r[i] == ToLowerChar(name[i]);
      assert name[i] in name;
    }
  }

  /** For a source file dir/stem.ext the classifier is the lower-cased stem. */
  lemma ModuleClassifierOfPath(dir: Path, stem: string, ext: string)
    requires '/' !in stem && '\\' !in stem
    requires '/' !in ext && '\\' !in ext && '.' !in ext
    ensures ModuleClassifier(dir + "/" + stem + "." + ext) == ToLower(stem)
  {
    var name := stem + "." + ext;
    assert dir + "/" + stem + "." + ext == dir + "/" + name;
    FileNameOf(dir, name);
    BaseNameOf(stem, ext);
  }

  /** The file name of dir/name is name. */
  lemma FileNameOf(dir: Path, name: string)
    requires '/' !in name
    ensures FileName(dir + "/" + name) == name
  {
    LastIndexOfCharLast(dir, '/', name);
    assert dir + "/" + name == dir + ['/'] + name;
  }

  /** The base name of stem.ext is stem when ext has no dot and neither part a separator. */
  lemma BaseNameOf(stem: string, ext: string)
    requires '/' !in stem && '\\' !in stem
    requires '/' !in ext && '\\' !in ext && '.' !in ext
    ensures BaseName(stem + "." + ext) == stem
  {
    var name := stem + "." + ext;
    assert name == stem + ['.'] + ext;
    assert '/' !in name && '\\' !in name;
    assert AfterLast(name, '/') == name;
    assert AfterLast(AfterLast(name, '/'), '\\') == name;
    LastIndexOfCharLast(stem, '.', ext);
    assert name[..|stem|] == stem;
  }

  /** A module's final name: its own if set, else the build's final name and the classifier. */
  function ModuleFinalName(m: Module, buildFinalName: string, classifier: string): (r: string)
    ensures m.finalName.Some? ==> r == m.finalName.value
    ensures m.finalName.None? ==> |r| == |buildFinalName| + 1 + |classifier| && buildFinalName <= r && r[|buildFinalName|] == '-' && r[|buildFinalName| + 1..] == classifier
  {
    if m.finalName.Some? then m.finalName.value else buildFinalName + "-" + classifier
  }

  /** A module's output directory: the destination path under the build directory, if set. */
  function ModuleOutputDirectory(m: Module, buildDirectory: Path): (r: Path)
    ensures m.destinationPath.None? ==> r == buildDirectory
    ensures m.destinationPath.Some? && buildDirectory != "" ==> buildDirectory <= r
    ensures m.destinationPath.Some? ==> var d := m.destinationPath.value; |d| <= |r| && r[|r| - |d|..] == d
    ensures var d := m.destinationPath;
      (d.Some? && buildDirectory != "" && buildDirectory != "/" && d.value != "" && d.value[0] != '/') ==>
        r == buildDirectory + "/" + d.value
  {
    if m.destinationPath.Some? then Join(buildDirectory, m.destinationPath.value) else buildDirectory
  }

  // ---------------------------------------------------------------------
  // The requests

  /** The primary compile: the base configuration itself, synchronously. */
  function Primary(base: MxmlcConfig, env: BuildEnvironment): (r: CompileRequest)
    ensures r.config == base && r.sourceFile == env.primarySource && r.synchronize
  {
    CompileRequest(base, env.primarySource, true)
  }

  /** The variant for one runtime locale. */
  function LocaleVariant(base: MxmlcConfig, locale: string): (r: CompileRequest)
    ensures r.config.compilerLocales == [locale] && r.config.classifier == Some(locale)
    ensures r.sourceFile == None && r.synchronize == base.fullSynchronization
    ensures r.config.(compilerLocales := base.compilerLocales, classifier := base.classifier) == base
  {
    var cfg := base.(compilerLocales := [locale], classifier := Some(locale));
    CompileRequest(cfg, None, base.fullSynchronization)
  }

  /** The variant for one module. */
  function ModuleVariant(base: MxmlcConfig, env: BuildEnvironment, m: Module): (r: CompileRequest)
    ensures var source := env.resolveModuleSource(m.sourceFile);
      && r.sourceFile == Some(source)
      && r.synchronize == base.fullSynchronization
      && r.config.classifier == Some(ModuleClassifier(source))
    ensures DerivedFrom(r.config, base) && r.config.compilerLocales == base.compilerLocales
    ensures r.config.finalName == ModuleFinalName(m, env.buildFinalName, r.config.classifier.value)
    ensures r.config.targetDirectory == ModuleOutputDirectory(m, env.buildDirectory)
    ensures r.config.loadExterns == if m.optimize then env.mainLinkReportExterns else base.loadExterns
  {
    var moduleSource := env.resolveModuleSource(m.sourceFile);
    var classifier := ModuleClassifier(moduleSource);
    var cfg := base.(classifier := Some(classifier),
                     targetDirectory := ModuleOutputDirectory(m, env.buildDirectory),
                     finalName := ModuleFinalName(m, env.buildFinalName, classifier));
    var cfg := if m.optimize then cfg.(loadExterns := env.mainLinkReportExterns) else cfg;
    CompileRequest(cfg, Some(moduleSource), base.fullSynchronization)
  }

  /** `f` applied to each element of `xs`, in order. */
  function Map<A, B>(f: A -> B, xs: seq<A>): (r: seq<B>)
    ensures |r| == |xs|
    ensures forall j :: 0 <= j < |xs| ==> r[j] == f(xs[j])
  {
    if xs == [] then [] else [f(xs[0])] + Map(f, xs[1..])
  }

  /** Mapping one more element appends its image. */
  lemma MapAppend<A, B>(f: A -> B, xs: seq<A>, x: A)
    ensures Map(f, xs + [x]) == Map(f, xs) + [f(x)]
  {
    var a := Map(f, xs + [x]);
    forall j | 0 <= j < |xs| ensures a[j] == f(xs[j]) {
      assert (xs + [x])[j] == xs[j];
    }
  }

  /** One variant per locale, in order. */
  function LocaleVariants(base: MxmlcConfig, locales: seq<string>): (r: seq<CompileRequest>)
    ensures |r| == |locales|
    ensures forall i :: 0 <= i < |locales| ==> r[i] == LocaleVariant(base, locales[i])
  {
    Map(locale => LocaleVariant(base, locale), locales)
  }

  /** One variant per module, in order. */
  function ModuleVariants(base: MxmlcConfig, env: BuildEnvironment, modules: seq<Module>): (r: seq<CompileRequest>)
    ensures |r| == |modules|
    ensures forall j :: 0 <= j < |modules| ==> r[j] == ModuleVariant(base, env, modules[j])
  {
    Map(m => ModuleVariant(base, env, m), modules)
  }

  /**
   * The requests execute issues, in order: none when the source path is
   * missing, else the primary, the locale variants and the module variants.
   */
  function Plan(base: MxmlcConfig, env: BuildEnvironment): (r: seq<CompileRequest>)
    ensures !env.sourcePathExists ==> r == []
    ensures env.sourcePathExists ==> |r| == 1 + |base.runtimeLocales| + |base.modules|
    ensures env.sourcePathExists ==> r[0] == CompileRequest(base, env.primarySource, true)
    ensures env.sourcePathExists ==> r[1..1 + |base.runtimeLocales|] == LocaleVariants(base, base.runtimeLocales)
    ensures env.sourcePathExists ==> r[1 + |base.runtimeLocales|..] == ModuleVariants(base, env, base.modules)
  {
    if !env.sourcePathExists then []
    else [Primary(base, env)] + LocaleVariants(base, base.runtimeLocales) + ModuleVariants(base, env, base.modules)
  }

  /** Every request of `rs` compiles a clone of the base differing only in the five variant fields, with the base's synchronization. */
  predicate AllDerivedFrom(rs: seq<CompileRequest>, base: MxmlcConfig) {
    forall k :: 0 <= k < |rs| ==> DerivedFrom(rs[k].config, base) && rs[k].synchronize == base.fullSynchronization
  }

  /** The locale variants are clones of the base. */
  lemma LocaleVariantsDerived(base: MxmlcConfig, locales: seq<string>)
    ensures AllDerivedFrom(LocaleVariants(base, locales), base)
  {
    var rs := LocaleVariants(base, locales);
    forall k | 0 <= k < |rs| ensures DerivedFrom(rs[k].config, base) {
      assert rs[k] == LocaleVariant(base, locales[k]);
    }
  }

  /** The module variants are clones of the base. */
  lemma ModuleVariantsDerived(base: MxmlcConfig, env: BuildEnvironment, modules: seq<Module>)
    ensures AllDerivedFrom(ModuleVariants(base, env, modules), base)
  {
    var rs := ModuleVariants(base, env, modules);
    forall k | 0 <= k < |rs| ensures DerivedFrom(rs[k].config, base) {
      assert rs[k] == ModuleVariant(base, env, modules[k]);
    }
  }

  /** Cutting a suffix in two. */
  lemma SplitAt<T>(r: seq<T>, i: int, j: int)
    requires 0 <= i <= j <= |r|
    ensures r[i..] == r[i..j] + r[j..]
  {
  }

  /** Clones of the base, followed by clones of the base. */
  lemma AllDerivedFromConcat(a: seq<CompileRequest>, b: seq<CompileRequest>, base: MxmlcConfig)
    requires AllDerivedFrom(a, base) && AllDerivedFrom(b, base)
    ensures AllDerivedFrom(a + b, base)
  {
  }

  /**
   * Every request compiles a clone of the base that differs from it at most in
   * the locales, classifier, target directory, final name and load-externs,
   * and waits for its result only under full synchronization (the primary,
   * the base itself, always waits).
   */
  lemma {:induction false} PlanDerivedFromBase(base: MxmlcConfig, env: BuildEnvironment)
    ensures env.sourcePathExists ==> AllDerivedFrom(Plan(base, env)[1..], base)
  {
    if env.sourcePathExists {
      var r := Plan(base, env);
      var n := 1 + |base.runtimeLocales|;
      var locales := LocaleVariants(base, base.runtimeLocales);
      var modules := ModuleVariants(base, env, base.modules);
      LocaleVariantsDerived(base, base.runtimeLocales);
      ModuleVariantsDerived(base, env, base.modules);
      AllDerivedFromConcat(locales, modules, base);
      SplitAt(r, 1, n);
    }
  }

  // ---------------------------------------------------------------------
  // The mojo's methods

  /** execute: skip without a source path, else compile the primary, the locales and the modules. */
  method Execute(base: MxmlcConfig, env: BuildEnvironment) returns (issued: seq<CompileRequest>)
    ensures issued == Plan(base, env)
  {
    if !env.sourcePathExists {
      return [];
    }
    issued := [CompileRequest(base, env.primarySource, true)];
    var locales := base.runtimeLocales;
    for i := 0 to |locales|
      invariant |issued| == 1 + i
      invariant issued[0] == Primary(base, env)
      invariant forall k :: 0 <= k < i ==> issued[1 + k] == LocaleVariant(base, locales[k])
    {
      var cfg := base;
      cfg := cfg.(compilerLocales := [locales[i]]);
      cfg := cfg.(classifier := Some(locales[i]));
      issued := issued + [CompileRequest(cfg, None, base.fullSynchronization)];
    }
    assert issued == [Primary(base, env)] + LocaleVariants(base, locales);
    var moduleRequests := ExecuteModules(base, env);
    issued := issued + moduleRequests;
  }

  /** Taking one more element of a sequence appends it; taking all of it is the sequence. */
  lemma TakeOneMore<T>(s: seq<T>, j: int)
    requires 0 <= j <= |s|
    ensures j < |s| ==> s[..j + 1] == s[..j] + [s[j]]
    ensures s[..|s|] == s
  {
  }

  /** executeModules: one compile per module, each from a fresh clone of the base. */
  method ExecuteModules(base: MxmlcConfig, env: BuildEnvironment) returns (issued: seq<CompileRequest>)
    ensures issued == ModuleVariants(base, env, base.modules)
  {
    issued := [];
    var modules := base.modules;
    for j := 0 to |modules|
      invariant issued == ModuleVariants(base, env, modules[..j])
    {
      var m := modules[j];
      TakeOneMore(modules, j);
      MapAppend(md => ModuleVariant(base, env, md), modules[..j], m);
      var moduleSource := env.resolveModuleSource(m.sourceFile);
      var classifier := ModuleClassifier(moduleSource);
      var moduleFinalName;
      if m.finalName.Some? {
        moduleFinalName := m.finalName.value;
      } else {
        moduleFinalName := env.buildFinalName + "-" + classifier;
      }
      var moduleOutputDir;
      if m.destinationPath.Some? {
        moduleOutputDir := Join(env.buildDirectory, m.destinationPath.value);
      } else {
        moduleOutputDir := env.buildDirectory;
      }
      var cfg := base;
      cfg := cfg.(classifier := Some(classifier));
      cfg := cfg.(targetDirectory := moduleOutputDir);
      cfg := cfg.(finalName := moduleFinalName);
      if m.optimize {
        cfg := cfg.(loadExterns := env.mainLinkReportExterns);
      }
      assert CompileRequest(cfg, Some(moduleSource), base.fullSynchronization) == ModuleVariant(base, env, m);
      issued := issued + [CompileRequest(cfg, Some(moduleSource), base.fullSynchronization)];
    }
    TakeOneMore(modules, |modules|);
  }
}
