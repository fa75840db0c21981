/**
 * FlexDependencySorter as the mutable object it is: the sorter's fields, the
 * in-place appends to its buckets and its three loops (over the artifacts,
 * over a dependency trail, over the FDK framework ids). Every method is
 * proved to leave the fields exactly as the matching function of
 * Classification says.
 */
module DependencySorter {
  import opened Strings
  import opened Artifacts
  import opened Classification

  /** What sort needs of the Maven project: its artifacts in iteration order and MavenUtils.getArtifactFile on its build. */
  datatype MavenProject = MavenProject(artifacts: seq<Artifact>, artifactFile: Artifact -> Path)

  /** A void method that may raise. */
  datatype Outcome = Pass | Fail(error: SortError)

  class FlexDependencySorter {
    var project: Option<MavenProject>
    var fdkVersion: Option<string>
    var fdkConfigFile: Option<Path>
    var isAIR: bool
    var linkReports: seq<Path>
    var externalLibraries: seq<Path>
    var internalLibraries: seq<Path>
    var mergedLibraries: seq<Path>
    var testLibraries: seq<Path>
    var resourceBundleArtifacts: seq<Artifact>
    var globalLibraries: seq<Path>
    var globalArtifact: Option<Artifact>

    /** The classifier fields as one value. */
    function Snapshot(): SorterState
      reads this
    {
      SorterState(fdkVersion, fdkConfigFile, isAIR, linkReports, externalLibraries, internalLibraries,
                  mergedLibraries, testLibraries, resourceBundleArtifacts, globalLibraries, globalArtifact)
    }

    /** The object invariant: a global library is held exactly when a global artifact is. */
    predicate Valid()
      reads this
    {
      GlobalConsistent(Snapshot())
    }

    constructor ()
      ensures Valid() && Snapshot() == Initial && project == None
    {
      project := None;
      fdkVersion, fdkConfigFile, isAIR := None, None, false;
      linkReports, externalLibraries, internalLibraries, mergedLibraries, testLibraries := [], [], [], [], [];
      resourceBundleArtifacts, globalLibraries, globalArtifact := [], [], None;
    }

    // Getters, each returning the field as the last sort left it. The source
    // copies each file list into an array cached per list; here a getter
    // returns the list itself.

    function GetFDKConfigFile(): (r: Option<Path>) reads this ensures r == Snapshot().fdkConfigFile { fdkConfigFile }
    function GetFDKVersion(): (r: Option<string>) reads this ensures r == Snapshot().fdkVersion { fdkVersion }
    function IsAIR(): (r: bool) reads this ensures r == Snapshot().isAIR { isAIR }
    function GetGlobalArtifact(): (r: Option<Artifact>) reads this ensures r == Snapshot().globalArtifact { globalArtifact }
    function GetLinkReports(): (r: seq<Path>) reads this ensures r == Snapshot().linkReports { linkReports }
    function GetExternalLibraries(): (r: seq<Path>) reads this ensures r == Snapshot().externalLibraries { externalLibraries }
    function GetInternalLibraries(): (r: seq<Path>) reads this ensures r == Snapshot().internalLibraries { internalLibraries }
    function GetMergedLibraries(): (r: seq<Path>) reads this ensures r == Snapshot().mergedLibraries { mergedLibraries }
    function GetTestLibraries(): (r: seq<Path>) reads this ensures r == Snapshot().testLibraries { testLibraries }
    function GetResourceBundleArtifacts(): (r: seq<Artifact>) reads this ensures r == Snapshot().resourceBundleArtifacts { resourceBundleArtifacts }

    /** The global libraries: at most one, and one exactly when a global artifact was accepted. */
    function GetGlobalLibraries(): (r: seq<Path>)
      requires Valid()
      reads this
      ensures r == Snapshot().globalLibraries
      ensures |r| <= 1
      ensures |r| == 1 <==> globalArtifact.Some?
    {
      globalLibraries
    }

    /** sort: classify the project's artifacts, then require a global artifact. */
    method Sort(p: MavenProject) returns (r: Outcome)
      requires Valid()
      modifies this
      ensures Valid() && project == Some(p)
      ensures var run := Classification.Sort(old(Snapshot()), p.artifacts, p.artifactFile);
        Snapshot() == run.state && r == if run.error.Some? then Fail(run.error.value) else Pass
    {
      project := Some(p);
      ghost var start := Snapshot();
      for i := 0 to |p.artifacts|
        invariant project == Some(p) && Valid()
        invariant SortAll(Snapshot(), p.artifacts[i..], p.artifactFile) == SortAll(start, p.artifacts, p.artifactFile)
      {
        var sorted := SortArtifact(p.artifacts[i]);
        if sorted.Err? {
          return Fail(sorted.error);
        }
      }
      if globalArtifact.None? {
        return Fail(GlobalNotFound);
      }
      isAIR := globalArtifact.value.artifactId == AirGlobal;
      r := Pass;
    }

    /** sortArtifact: true when the artifact was sorted into some bucket. */
    method SortArtifact(a: Artifact) returns (r: Result<bool>)
      requires project.Some?
      modifies this
      ensures old(Valid()) ==> Valid()
      ensures project == old(project)
      ensures match Classification.SortArtifact(old(Snapshot()), a, project.value.artifactFile)
        case Ok(step) => Snapshot() == step.state && r == Ok(step.sorted)
        case Err(e) => Snapshot() == old(Snapshot()) && r == Err(e)
    {
      if a.classifier == Some(LinkReport) {
        linkReports := linkReports + [a.file];
      } else if a.artifactType == Swc {
        if a.artifactId == PlayerGlobal || a.artifactId == AirGlobal {
          var outcome := SortGlobalArtifact(a);
          if outcome.Fail? {
            return Err(outcome.error);
          }
        } else {
          var sorted := SortSWCArtifact(a);
          return Ok(sorted);
        }
      } else if a.artifactType == RbSwc {
        resourceBundleArtifacts := resourceBundleArtifacts + [a];
      } else if fdkConfigFile.None? && a.groupId == FrameworkGroup {
        CheckFDKConfigAndVersion(a);
      } else {
        return Ok(false);
      }
      r := Ok(true);
    }

    /** sortSWCArtifact: route a library by scope; false for a scope it does not know. */
    method SortSWCArtifact(a: Artifact) returns (sorted: bool)
      modifies this
      ensures old(Valid()) ==> Valid()
      ensures project == old(project)
      ensures var step := SortSwcArtifact(old(Snapshot()), a); Snapshot() == step.state && sorted == step.sorted
    {
      var scope := a.scope;
      if scope == ScopeCompile {
        AddToDefaultScope(a);
      } else if scope == ScopeExternal {
        externalLibraries := externalLibraries + [a.file];
      } else if scope == ScopeInternal {
        internalLibraries := internalLibraries + [a.file];
      } else if scope == ScopeMerged {
        mergedLibraries := mergedLibraries + [a.file];
      } else if scope == ScopeTest {
        testLibraries := testLibraries + [a.file];
      } else {
        return false;
      }
      sorted := true;
    }

    /** addToDefaultScope: a compile-scope library is external. */
    method AddToDefaultScope(a: Artifact)
      modifies this
      ensures old(Valid()) ==> Valid()
      ensures project == old(project)
      ensures Snapshot() == old(Snapshot()).(externalLibraries := old(externalLibraries) + [a.file])
    {
      externalLibraries := externalLibraries + [a.file];
    }

    /** sortGlobalArtifact: ignore a candidate reached through another SWC, refuse a second direct one. */
    method SortGlobalArtifact(a: Artifact) returns (r: Outcome)
      requires project.Some?
      modifies this
      ensures old(Valid()) ==> Valid()
      ensures project == old(project)
      ensures match Classification.SortGlobalArtifact(old(Snapshot()), a, project.value.artifactFile)
        case Ok(t) => Snapshot() == t && r == Pass
        case Err(e) => Snapshot() == old(Snapshot()) && r == Fail(e)
    {
      var dependencyTrail := a.dependencyTrail;
      // The first entry is the project and the last the artifact itself.
      var i, n := 1, |dependencyTrail| - 1;
      while i < n
        invariant 1 <= i
        invariant forall j :: 1 <= j < i && j < n ==> LastIndexOf(dependencyTrail[j], DependencyTrailSwc) == -1
      {
        if LastIndexOf(dependencyTrail[i], DependencyTrailSwc) != -1 {
          return Pass;
        }
        i := i + 1;
      }
      if globalArtifact.Some? {
        return Fail(GlobalAlreadySpecified(globalArtifact.value, a));
      }
      globalArtifact := Some(a);
      globalLibraries := globalLibraries + [project.value.artifactFile(a)];
      r := Pass;
    }

    /** checkFDKConfigAndVersion: record the FDK config file and version from a framework artifact. */
    method CheckFDKConfigAndVersion(a: Artifact)
      modifies this
      ensures old(Valid()) ==> Valid()
      ensures project == old(project)
      ensures Snapshot() == CheckFdkConfigAndVersion(old(Snapshot()), a)
    {
      if a.classifier == Some(Configs) {
        fdkConfigFile := Some(a.file);
        if fdkVersion.None? {
          fdkVersion := Some(a.version);
        }
      } else if fdkVersion.None? && a.artifactType == Pom {
        var artifactId := a.artifactId;
        for k := 0 to |FdkVersionArtifactIds|
          invariant project == old(project)
          invariant Snapshot() == old(Snapshot()).(fdkVersion := fdkVersion)
          invariant fdkVersion == if artifactId in FdkVersionArtifactIds[..k] then Some(a.version) else None
        {
          if artifactId == FdkVersionArtifactIds[k] {
            fdkVersion := Some(a.version);
          }
        }
        assert FdkVersionArtifactIds[..|FdkVersionArtifactIds|] == FdkVersionArtifactIds;
      }
    }
  }
}
