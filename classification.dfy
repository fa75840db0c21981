/**
 * The artifact classifier of FlexDependencySorter as a function of its state.
 *
 * One function per method of the sorter (sortSWCArtifact, sortGlobalArtifact,
 * checkFDKConfigAndVersion, sortArtifact, sort), each taking the sorter's
 * fields as a SorterState value and returning the new value. The class in
 * DependencySorter is proved to follow these functions field for field; the
 * lemmas here say what a whole run over the project's artifacts produces.
 */
module Classification {
  import opened Strings
  import opened Artifacts

  /** The two MojoExecutionExceptions the sorter raises. */
  datatype SortError =
    | GlobalNotFound
    | GlobalAlreadySpecified(first: Artifact, second: Artifact)

  datatype Result<T> = Ok(value: T) | Err(error: SortError)

  /** The fields of a FlexDependencySorter (null is None). */
  datatype SorterState = SorterState(
    fdkVersion: Option<string>,
    fdkConfigFile: Option<Path>,
    isAIR: bool,
    linkReports: seq<Path>,
    externalLibraries: seq<Path>,
    internalLibraries: seq<Path>,
    mergedLibraries: seq<Path>,
    testLibraries: seq<Path>,
    resourceBundleArtifacts: seq<Artifact>,
    globalLibraries: seq<Path>,
    globalArtifact: Option<Artifact>)

  /** A freshly constructed sorter. */
  const Initial := SorterState(None, None, false, [], [], [], [], [], [], [], None)

  /** The state after sortArtifact and the boolean it returns. */
  datatype Step = Step(state: SorterState, sorted: bool)

  /** The state after sort and the exception it raised, if any. */
  datatype Run = Run(state: SorterState, error: Option<SortError>)

  /** The five buckets that collect files. */
  datatype FileBucket = LinkReports | ExternalLibraries | InternalLibraries | MergedLibraries | TestLibraries

  function Files(s: SorterState, b: FileBucket): seq<Path> {
    match b
    case LinkReports => s.linkReports
    case ExternalLibraries => s.externalLibraries
    case InternalLibraries => s.internalLibraries
    case MergedLibraries => s.mergedLibraries
    case TestLibraries => s.testLibraries
  }

  // ---------------------------------------------------------------------
  // What an artifact is, by its tags alone

  predicate IsLinkReport(a: Artifact) {
    a.classifier == Some(LinkReport)
  }

  /** playerglobal or airglobal, as a SWC that is not a link report. */
  predicate IsGlobalCandidate(a: Artifact) {
    !IsLinkReport(a) && a.artifactType == Swc && (a.artifactId == PlayerGlobal || a.artifactId == AirGlobal)
  }

  /** A SWC library other than the runtime libraries. */
  predicate IsLibrary(a: Artifact) {
    !IsLinkReport(a) && a.artifactType == Swc && a.artifactId != PlayerGlobal && a.artifactId != AirGlobal
  }

  /** The bucket `b` is the one the artifact's tags select. */
  predicate Selects(b: FileBucket, a: Artifact) {
    match b
    case LinkReports => IsLinkReport(a)
    case ExternalLibraries => IsLibrary(a) && (a.scope == ScopeCompile || a.scope == ScopeExternal)
    case InternalLibraries => IsLibrary(a) && a.scope == ScopeInternal
    case MergedLibraries => IsLibrary(a) && a.scope == ScopeMerged
    case TestLibraries => IsLibrary(a) && a.scope == ScopeTest
  }

  predicate IsResourceBundle(a: Artifact) {
    !IsLinkReport(a) && a.artifactType == RbSwc
  }

  /** Some entry strictly between the project (first) and the artifact itself (last) is a SWC. */
  predicate PassesThroughSwc(trail: seq<string>) {
    exists i :: 1 <= i < |trail| - 1 && LastIndexOf(trail[i], DependencyTrailSwc) != -1
  }

  /** A global candidate that the project declares itself rather than through another SWC. */
  predicate IsDirectGlobal(a: Artifact) {
    IsGlobalCandidate(a) && !PassesThroughSwc(a.dependencyTrail)
  }

  /** A framework artifact that falls through to the FDK check (whether it gets there depends on the state). */
  predicate IsFrameworkMetadata(a: Artifact) {
    !IsLinkReport(a) && a.artifactType != Swc && a.artifactType != RbSwc && a.groupId == FrameworkGroup
  }

  predicate IsFdkConfig(a: Artifact) {
    IsFrameworkMetadata(a) && a.classifier == Some(Configs)
  }

  predicate IsFdkVersionPom(a: Artifact) {
    IsFrameworkMetadata(a) && a.classifier != Some(Configs) && a.artifactType == Pom && a.artifactId in FdkVersionArtifactIds
  }

  // ---------------------------------------------------------------------
  // Invariants and measures of the state

  /** One global library per accepted global artifact, and none without one. */
  predicate GlobalConsistent(s: SorterState) {
    |s.globalLibraries| == if s.globalArtifact.Some? then 1 else 0
  }

  /** Every list of `s` is a prefix of the same list of `t`: the lists only grow at the end. */
  ghost predicate Extends(s: SorterState, t: SorterState) {
    && s.linkReports <= t.linkReports
    && s.externalLibraries <= t.externalLibraries
    && s.internalLibraries <= t.internalLibraries
    && s.mergedLibraries <= t.mergedLibraries
    && s.testLibraries <= t.testLibraries
    && s.resourceBundleArtifacts <= t.resourceBundleArtifacts
    && s.globalLibraries <= t.globalLibraries
  }

  /** The number of entries in all seven lists together. */
  function Size(s: SorterState): nat {
    |s.linkReports| + |s.externalLibraries| + |s.internalLibraries| + |s.mergedLibraries|
      + |s.testLibraries| + |s.resourceBundleArtifacts| + |s.globalLibraries|
  }

  // ---------------------------------------------------------------------
  // The sorter's methods

  /** addToDefaultScope: compile scope means external unless a subclass says otherwise. */
  function AddToDefaultScope(s: SorterState, a: Artifact): (r: SorterState)
    ensures r.externalLibraries == s.externalLibraries + [a.file]
    ensures r.(externalLibraries := s.externalLibraries) == s
  {
    s.(externalLibraries := s.externalLibraries + [a.file])
  }

  /** sortSWCArtifact: route a library by its scope; an unknown scope sorts nothing. */
  function SortSwcArtifact(s: SorterState, a: Artifact): (r: Step)
    ensures r.sorted <==> a.scope in [ScopeCompile, ScopeExternal, ScopeInternal, ScopeMerged, ScopeTest]
    ensures !r.sorted ==> r.state == s
    ensures r.state.externalLibraries == s.externalLibraries + if a.scope == ScopeCompile || a.scope == ScopeExternal then [a.file] else []
    ensures r.state.internalLibraries == s.internalLibraries + if a.scope == ScopeInternal then [a.file] else []
    ensures r.state.mergedLibraries == s.mergedLibraries + if a.scope == ScopeMerged then [a.file] else []
    ensures r.state.testLibraries == s.testLibraries + if a.scope == ScopeTest then [a.file] else []
    ensures r.state.(externalLibraries := s.externalLibraries, internalLibraries := s.internalLibraries,
                     mergedLibraries := s.mergedLibraries, testLibraries := s.testLibraries) == s
  {
    if a.scope == ScopeCompile then Step(AddToDefaultScope(s, a), true)
    else if a.scope == ScopeExternal then Step(s.(externalLibraries := s.externalLibraries + [a.file]), true)
    else if a.scope == ScopeInternal then Step(s.(internalLibraries := s.internalLibraries + [a.file]), true)
    else if a.scope == ScopeMerged then Step(s.(mergedLibraries := s.mergedLibraries + [a.file]), true)
    else if a.scope == ScopeTest then Step(s.(testLibraries := s.testLibraries + [a.file]), true)
    else Step(s, false)
  }

  /**
   * sortGlobalArtifact: a candidate pulled in through another SWC is ignored;
   * otherwise it becomes the global artifact unless one is already known.
   * `artifactFile` stands for MavenUtils.getArtifactFile on the project's build.
   */
  function SortGlobalArtifact(s: SorterState, a: Artifact, artifactFile: Artifact -> Path): (r: Result<SorterState>)
    ensures PassesThroughSwc(a.dependencyTrail) ==> r == Ok(s)
    ensures r.Err? <==> !PassesThroughSwc(a.dependencyTrail) && s.globalArtifact.Some?
    ensures r.Err? ==> r.error == GlobalAlreadySpecified(s.globalArtifact.value, a)
    ensures r.Ok? ==> r.value.(globalArtifact := s.globalArtifact, globalLibraries := s.globalLibraries) == s
    ensures r.Ok? && !PassesThroughSwc(a.dependencyTrail) ==>
      r.value.globalArtifact == Some(a) && r.value.globalLibraries == s.globalLibraries + [artifactFile(a)]
    ensures r.Ok? && GlobalConsistent(s) ==> GlobalConsistent(r.value)
  {
    if PassesThroughSwc(a.dependencyTrail) then Ok(s)
    else if s.globalArtifact.Some? then Err(GlobalAlreadySpecified(s.globalArtifact.value, a))
    else Ok(s.(globalArtifact := Some(a), globalLibraries := s.globalLibraries + [artifactFile(a)]))
  }

  /**
   * checkFDKConfigAndVersion: a "configs" artifact records the config file
   * (and the version if none is known); otherwise a framework POM records the
   * version if none is known.
   */
  function CheckFdkConfigAndVersion(s: SorterState, a: Artifact): (r: SorterState)
    ensures r.(fdkVersion := s.fdkVersion, fdkConfigFile := s.fdkConfigFile) == s
    ensures r.fdkConfigFile == if a.classifier == Some(Configs) then Some(a.file) else s.fdkConfigFile
    ensures s.fdkVersion.Some? ==> r.fdkVersion == s.fdkVersion
    ensures r.fdkVersion != s.fdkVersion ==>
      r.fdkVersion == Some(a.version) && (a.classifier == Some(Configs) || (a.artifactType == Pom && a.artifactId in FdkVersionArtifactIds))
    ensures s.fdkVersion.None? && (a.classifier == Some(Configs) || (a.artifactType == Pom && a.artifactId in FdkVersionArtifactIds)) ==>
      r.fdkVersion == Some(a.version)
  {
    if a.classifier == Some(Configs) then
      s.(fdkConfigFile := Some(a.file), fdkVersion := if s.fdkVersion.None? then Some(a.version) else s.fdkVersion)
    else if s.fdkVersion.None? && a.artifactType == Pom && a.artifactId in FdkVersionArtifactIds then
      s.(fdkVersion := Some(a.version))
    else s
  }

  /** sortArtifact: the priority-ordered decision chain for one artifact. */
  function SortArtifact(s: SorterState, a: Artifact, artifactFile: Artifact -> Path): (r: Result<Step>)
    ensures r.Err? <==> IsDirectGlobal(a) && s.globalArtifact.Some?
    ensures r.Err? ==> r.error == GlobalAlreadySpecified(s.globalArtifact.value, a)
    ensures IsLinkReport(a) ==> r == Ok(Step(s.(linkReports := s.linkReports + [a.file]), true))
    ensures r.Ok? ==> r.value.state.resourceBundleArtifacts == s.resourceBundleArtifacts + if IsResourceBundle(a) then [a] else []
    ensures r.Ok? ==> r.value.state.globalArtifact == (if IsDirectGlobal(a) then Some(a) else s.globalArtifact)
    ensures r.Ok? ==> r.value.state.globalLibraries == s.globalLibraries + if IsDirectGlobal(a) then [artifactFile(a)] else []
    ensures r.Ok? && !r.value.sorted ==> r.value.state == s
    ensures r.Ok? ==> (r.value.sorted <==>
      IsLinkReport(a) || IsGlobalCandidate(a) || IsResourceBundle(a)
      || (IsLibrary(a) && a.scope in [ScopeCompile, ScopeExternal, ScopeInternal, ScopeMerged, ScopeTest])
      || (IsFrameworkMetadata(a) && s.fdkConfigFile.None?))
    ensures r.Ok? ==> r.value.state.isAIR == s.isAIR
    ensures r.Ok? && s.fdkConfigFile.None? ==> r.value.state.fdkConfigFile == if IsFdkConfig(a) then Some(a.file) else None
    ensures r.Ok? && s.fdkConfigFile.Some? ==> r.value.state.fdkConfigFile == s.fdkConfigFile
    ensures r.Ok? && s.fdkVersion.Some? ==> r.value.state.fdkVersion == s.fdkVersion
    ensures r.Ok? && r.value.state.fdkVersion != s.fdkVersion ==>
      s.fdkConfigFile.None? && r.value.state.fdkVersion == Some(a.version) && (IsFdkConfig(a) || IsFdkVersionPom(a))
    ensures r.Ok? && GlobalConsistent(s) ==> GlobalConsistent(r.value.state)
  {
    if a.classifier == Some(LinkReport) then
      Ok(Step(s.(linkReports := s.linkReports + [a.file]), true))
    else if a.artifactType == Swc then
      if a.artifactId == PlayerGlobal || a.artifactId == AirGlobal then
        match SortGlobalArtifact(s, a, artifactFile)
        case Ok(t) => Ok(Step(t, true))
        case Err(e) => Err(e)
      else
        Ok(SortSwcArtifact(s, a))
    else if a.artifactType == RbSwc then
      Ok(Step(s.(resourceBundleArtifacts := s.resourceBundleArtifacts + [a]), true))
    else if s.fdkConfigFile.None? && a.groupId == FrameworkGroup then
      Ok(Step(CheckFdkConfigAndVersion(s, a), true))
    else
      Ok(Step(s, false))
  }

  /** The artifact loop of sort: stops at the first exception. */
  function SortAll(s: SorterState, artifacts: seq<Artifact>, artifactFile: Artifact -> Path): (r: Run)
    ensures r.state.isAIR == s.isAIR
    ensures GlobalConsistent(s) ==> GlobalConsistent(r.state)
    ensures s.fdkConfigFile.Some? ==> r.state.fdkConfigFile == s.fdkConfigFile
    ensures s.fdkVersion.Some? ==> r.state.fdkVersion == s.fdkVersion
    ensures r.error.Some? ==> r.error.value.GlobalAlreadySpecified? && r.state.globalArtifact.Some?
    decreases |artifacts|
  {
    if artifacts == [] then Run(s, None)
    else
      match SortArtifact(s, artifacts[0], artifactFile)
      case Err(e) => Run(s, Some(e))
      case Ok(step) => SortAll(step.state, artifacts[1..], artifactFile)
  }

  /** sort: classify every artifact, then insist on a global artifact and derive isAIR from it. */
  function Sort(s: SorterState, artifacts: seq<Artifact>, artifactFile: Artifact -> Path): (r: Run)
    ensures r.error.None? ==> r.state.globalArtifact.Some? && (r.state.isAIR <==> r.state.globalArtifact.value.artifactId == AirGlobal)
    ensures r.state.globalArtifact.None? ==> r.error == Some(GlobalNotFound)
    ensures r.error == Some(GlobalNotFound) ==> r.state.globalArtifact.None?
    ensures GlobalConsistent(s) ==> GlobalConsistent(r.state)
    ensures GlobalConsistent(s) && r.error.None? ==> |r.state.globalLibraries| == 1
  {
    var run := SortAll(s, artifacts, artifactFile);
    if run.error.Some? then run
    else if run.state.globalArtifact.None? then Run(run.state, Some(GlobalNotFound))
    else Run(run.state.(isAIR := run.state.globalArtifact.value.artifactId == AirGlobal), None)
  }

  /** sortArtifact appends the artifact's file to the bucket it selects and leaves the other buckets alone. */
  lemma SortArtifactFiles(s: SorterState, a: Artifact, artifactFile: Artifact -> Path, b: FileBucket)
    requires SortArtifact(s, a, artifactFile).Ok?
    ensures Files(SortArtifact(s, a, artifactFile).value.state, b) == Files(s, b) + if Selects(b, a) then [a.file] else []
  {
  }

  /** sortArtifact only appends, and at most one entry in all. */
  lemma SortArtifactAppends(s: SorterState, a: Artifact, artifactFile: Artifact -> Path)
    requires SortArtifact(s, a, artifactFile).Ok?
    ensures var t := SortArtifact(s, a, artifactFile).value.state; Extends(s, t) && Size(t) <= Size(s) + 1
  {
    SortArtifactFiles(s, a, artifactFile, LinkReports);
    SortArtifactFiles(s, a, artifactFile, ExternalLibraries);
    SortArtifactFiles(s, a, artifactFile, InternalLibraries);
    SortArtifactFiles(s, a, artifactFile, MergedLibraries);
    SortArtifactFiles(s, a, artifactFile, TestLibraries);
  }

  /** The artifact loop only appends to the sorter's lists, whether or not it raises. */
  lemma {:induction false} SortAllAppends(s: SorterState, artifacts: seq<Artifact>, artifactFile: Artifact -> Path)
    ensures Extends(s, SortAll(s, artifacts, artifactFile).state)
    decreases |artifacts|
  {
    if artifacts != [] {
      var r := SortArtifact(s, artifacts[0], artifactFile);
      if r.Ok? {
        SortArtifactAppends(s, artifacts[0], artifactFile);
        SortAllAppends(r.value.state, artifacts[1..], artifactFile);
        ExtendsTransitive(s, r.value.state, SortAll(r.value.state, artifacts[1..], artifactFile).state);
      }
    }
  }

  lemma ExtendsTransitive(s: SorterState, t: SorterState, u: SorterState)
    requires Extends(s, t) && Extends(t, u)
    ensures Extends(s, u)
  {
  }

  // ---------------------------------------------------------------------
  // Reference definitions: what a whole run collects, in input order

  /** The files of the artifacts that select bucket `b`, in order. */
  function SelectedFiles(artifacts: seq<Artifact>, b: FileBucket): seq<Path> {
    if artifacts == [] then []
    else (if Selects(b, artifacts[0]) then [artifacts[0].file] else []) + SelectedFiles(artifacts[1..], b)
  }

  /** The resource-bundle artifacts, in order. */
  function ResourceBundles(artifacts: seq<Artifact>): seq<Artifact> {
    if artifacts == [] then []
    else (if IsResourceBundle(artifacts[0]) then [artifacts[0]] else []) + ResourceBundles(artifacts[1..])
  }

  /** The direct global candidates, in order. */
  function DirectGlobals(artifacts: seq<Artifact>): seq<Artifact> {
    if artifacts == [] then []
    else (if IsDirectGlobal(artifacts[0]) then [artifacts[0]] else []) + DirectGlobals(artifacts[1..])
  }

  /** The file of the first FDK config artifact. */
  function FirstFdkConfig(artifacts: seq<Artifact>): Option<Path> {
    if artifacts == [] then None
    else if IsFdkConfig(artifacts[0]) then Some(artifacts[0].file)
    else FirstFdkConfig(artifacts[1..])
  }

  /** The version of the first FDK config artifact or FDK framework POM. */
  function FirstFdkVersion(artifacts: seq<Artifact>): Option<string> {
    if artifacts == [] then None
    else if IsFdkConfig(artifacts[0]) || IsFdkVersionPom(artifacts[0]) then Some(artifacts[0].version)
    else FirstFdkVersion(artifacts[1..])
  }

  // ---------------------------------------------------------------------
  // Lemmas about whole runs

  /** A run that raises nothing appends to file bucket `b` exactly the files of the artifacts that select it, in input order. */
  lemma {:induction false} SortAllBucket(s: SorterState, artifacts: seq<Artifact>, artifactFile: Artifact -> Path, b: FileBucket)
    requires SortAll(s, artifacts, artifactFile).error.None?
    ensures Files(SortAll(s, artifacts, artifactFile).state, b) == Files(s, b) + SelectedFiles(artifacts, b)
    decreases |artifacts|
  {
    if artifacts != [] {
      var a := artifacts[0];
      var next := SortAllCons(s, artifacts, artifactFile);
      SortArtifactFiles(s, a, artifactFile, b);
      SortAllBucket(next, artifacts[1..], artifactFile, b);
      AppendAssoc(Files(s, b), if Selects(b, a) then [a.file] else [], SelectedFiles(artifacts[1..], b));
    }
  }

  /** A run that raises nothing appends exactly the resource-bundle artifacts, in input order. */
  lemma {:induction false} SortAllResourceBundles(s: SorterState, artifacts: seq<Artifact>, artifactFile: Artifact -> Path)
    requires SortAll(s, artifacts, artifactFile).error.None?
    ensures SortAll(s, artifacts, artifactFile).state.resourceBundleArtifacts == s.resourceBundleArtifacts + ResourceBundles(artifacts)
    decreases |artifacts|
  {
    if artifacts != [] {
      var a := artifacts[0];
      var next := SortAllCons(s, artifacts, artifactFile);
      SortAllResourceBundles(next, artifacts[1..], artifactFile);
      AppendAssoc(s.resourceBundleArtifacts, if IsResourceBundle(a) then [a] else [], ResourceBundles(artifacts[1..]));
    }
  }

  /** A run that raises nothing went through its first artifact and continued from the state that left. */
  lemma SortAllCons(s: SorterState, artifacts: seq<Artifact>, artifactFile: Artifact -> Path) returns (next: SorterState)
    requires artifacts != [] && SortAll(s, artifacts, artifactFile).error.None?
    ensures SortArtifact(s, artifacts[0], artifactFile).Ok?
    ensures next == SortArtifact(s, artifacts[0], artifactFile).value.state
    ensures SortAll(s, artifacts, artifactFile) == SortAll(next, artifacts[1..], artifactFile)
    ensures SortAll(next, artifacts[1..], artifactFile).error.None?
  {
    next := SortArtifact(s, artifacts[0], artifactFile).value.state;
  }

  lemma AppendAssoc<T>(x: seq<T>, y: seq<T>, z: seq<T>)
    ensures x + y + z == x + (y + z)
  {
  }

  /**
   * The global artifact of a run: the first direct candidate is accepted, a
   * second one (or one after a global already known) raises, and candidates
   * reached through another SWC are passed over.
   */
  lemma {:induction false} SortAllGlobals(s: SorterState, artifacts: seq<Artifact>, artifactFile: Artifact -> Path)
    ensures var r := SortAll(s, artifacts, artifactFile); var d := DirectGlobals(artifacts);
      && r.error == (if s.globalArtifact.Some? then (if d == [] then None else Some(GlobalAlreadySpecified(s.globalArtifact.value, d[0])))
                     else if |d| <= 1 then None else Some(GlobalAlreadySpecified(d[0], d[1])))
      && (r.error.None? ==> r.state.globalArtifact == (if s.globalArtifact.Some? || d == [] then s.globalArtifact else Some(d[0])))
      && (r.error.None? ==> r.state.globalLibraries == s.globalLibraries + if d == [] then [] else [artifactFile(d[0])])
    decreases |artifacts|
  {
    if artifacts != [] {
      var a := artifacts[0];
      assert DirectGlobals(artifacts) == (if IsDirectGlobal(a) then [a] else []) + DirectGlobals(artifacts[1..]);
      match SortArtifact(s, a, artifactFile)
      case Err(e) =>
      case Ok(step) =>
        SortAllGlobals(step.state, artifacts[1..], artifactFile);
    }
  }

  /** The FDK config file is written once, by the first config artifact. */
  lemma {:induction false} SortAllFdkConfig(s: SorterState, artifacts: seq<Artifact>, artifactFile: Artifact -> Path)
    requires s.fdkConfigFile.None?
    requires SortAll(s, artifacts, artifactFile).error.None?
    ensures SortAll(s, artifacts, artifactFile).state.fdkConfigFile == FirstFdkConfig(artifacts)
    decreases |artifacts|
  {
    if artifacts != [] {
      var step := SortArtifact(s, artifacts[0], artifactFile).value;
      if !IsFdkConfig(artifacts[0]) {
        SortAllFdkConfig(step.state, artifacts[1..], artifactFile);
      }
    }
  }

  /** The FDK version is that of the first config artifact or framework POM, never overwritten. */
  lemma {:induction false} SortAllFdkVersion(s: SorterState, artifacts: seq<Artifact>, artifactFile: Artifact -> Path)
    requires s.fdkConfigFile.None? && s.fdkVersion.None?
    requires SortAll(s, artifacts, artifactFile).error.None?
    ensures SortAll(s, artifacts, artifactFile).state.fdkVersion == FirstFdkVersion(artifacts)
    decreases |artifacts|
  {
    if artifacts != [] {
      var a := artifacts[0];
      var step := SortArtifact(s, a, artifactFile).value;
      if !(IsFdkConfig(a) || IsFdkVersionPom(a)) {
        assert step.state.fdkConfigFile.None? && step.state.fdkVersion.None?;
        SortAllFdkVersion(step.state, artifacts[1..], artifactFile);
      } else {
        assert step.state.fdkVersion == Some(a.version);
      }
    }
  }

  /**
   * sort on a fresh sorter succeeds exactly when the project declares one
   * direct global candidate; it then holds that candidate alone, and isAIR
   * tells which runtime it is.
   */
  lemma SortFromInitialGlobal(artifacts: seq<Artifact>, artifactFile: Artifact -> Path)
    ensures var r := Sort(Initial, artifacts, artifactFile); var d := DirectGlobals(artifacts);
      && r.error == (if d == [] then Some(GlobalNotFound) else if |d| == 1 then None else Some(GlobalAlreadySpecified(d[0], d[1])))
      && (r.error.None? ==>
            && r.state.globalArtifact == Some(d[0])
            && r.state.globalLibraries == [artifactFile(d[0])]
            && (r.state.isAIR <==> d[0].artifactId == AirGlobal))
  {
    SortAllGlobals(Initial, artifacts, artifactFile);
  }

  /** With at most one direct global candidate, sort on a fresh sorter raises nothing and only sets isAIR after the loop. */
  lemma SortFromInitialRun(artifacts: seq<Artifact>, artifactFile: Artifact -> Path)
    requires |DirectGlobals(artifacts)| <= 1
    ensures SortAll(Initial, artifacts, artifactFile).error.None?
    ensures Sort(Initial, artifacts, artifactFile).state.(isAIR := false) == SortAll(Initial, artifacts, artifactFile).state
  {
    SortAllGlobals(Initial, artifacts, artifactFile);
  }

  /**
   * sort on a fresh sorter that meets at most one direct global candidate
   * fills every bucket from the artifacts alone, in order.
   */
  lemma SortFromInitialBuckets(artifacts: seq<Artifact>, artifactFile: Artifact -> Path)
    requires |DirectGlobals(artifacts)| <= 1
    ensures forall b :: Files(Sort(Initial, artifacts, artifactFile).state, b) == SelectedFiles(artifacts, b)
    ensures Sort(Initial, artifacts, artifactFile).state.resourceBundleArtifacts == ResourceBundles(artifacts)
  {
    SortFromInitialRun(artifacts, artifactFile);
    SortAllResourceBundles(Initial, artifacts, artifactFile);
    var r := Sort(Initial, artifacts, artifactFile);
    forall b ensures Files(r.state, b) == SelectedFiles(artifacts, b) {
      SortAllBucket(Initial, artifacts, artifactFile, b);
      assert Files(r.state, b) == Files(r.state.(isAIR := false), b);
    }
  }

  /**
   * sort on a fresh sorter that meets at most one direct global candidate
   * takes the FDK config file and version from the first artifacts that carry them.
   */
  lemma SortFromInitialFdk(artifacts: seq<Artifact>, artifactFile: Artifact -> Path)
    requires |DirectGlobals(artifacts)| <= 1
    ensures Sort(Initial, artifacts, artifactFile).state.fdkConfigFile == FirstFdkConfig(artifacts)
    ensures Sort(Initial, artifacts, artifactFile).state.fdkVersion == FirstFdkVersion(artifacts)
  {
    SortFromInitialRun(artifacts, artifactFile);
    SortAllFdkConfig(Initial, artifacts, artifactFile);
    SortAllFdkVersion(Initial, artifacts, artifactFile);
  }
}
