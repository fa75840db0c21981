/**
 * A resolved Maven artifact as the dependency sorter sees it, and the string
 * vocabulary it is compared against.
 *
 * The extension, classifier and scope constants live in FlexExtension,
 * FlexClassifier, FlexScopes, MavenExtension and Maven's Artifact, none of
 * which is part of this model. They are given their conventional values here;
 * every proof uses only the fact that they are pairwise distinct within each
 * kind of tag and that the dependency-trail marker is built from the SWC
 * extension.
 */
module Artifacts {
  import opened Strings

  datatype Option<T> = None | Some(value: T)

  /**
   * A resolved artifact. The classifier is optional (Maven's null); group,
   * scope and type are never null here (the sorter dereferences them).
   * `dependencyTrail` runs from the project artifact to this artifact, each
   * entry an artifact id of the form "group:artifact:type:version".
   */
  datatype Artifact = Artifact(
    groupId: string,
    artifactId: string,
    version: string,
    classifier: Option<string>,
    artifactType: string,
    scope: string,
    dependencyTrail: seq<string>,
    file: Path)

  // FlexExtension
  const Swc := "swc"
  const RbSwc := "rb.swc"
  // MavenExtension
  const Pom := "pom"
  // FlexClassifier
  const LinkReport := "link-report"
  const Configs := "configs"
  // Maven's Artifact scopes and FlexScopes
  const ScopeCompile := "compile"
  const ScopeExternal := "external"
  const ScopeInternal := "internal"
  const ScopeMerged := "merged"
  const ScopeTest := "test"

  /** The artifact ids of the two runtime libraries. */
  const PlayerGlobal := "playerglobal"
  const AirGlobal := "airglobal"

  /** The group whose config and framework POMs carry the FDK version. */
  const FrameworkGroup := "com.adobe.flex.framework"

  /** Framework POMs whose version is taken as the FDK version. */
  const FdkVersionArtifactIds: seq<string> := ["flex-framework", "air-framework", "framework", "airframework"]

  /** What marks a dependency-trail entry as a SWC library. */
  const DependencyTrailSwc := ":" + Swc + ":"
}
