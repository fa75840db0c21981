# Flexmojos dependency sorting and mxmlc compile planning, in Dafny

This project models two pieces of the Flexmojos Maven plugin for Adobe Flex:

- **`FlexDependencySorter`**: the object that, given a Maven project, walks its resolved artifacts once. It sorts each one into a bucket:
  - link reports;
  - external, internal, merged and test SWC libraries;
  - resource-bundle SWCs;
  - the single global runtime library (`playerglobal` or `airglobal`);
  - the FDK config file and FDK version taken from `com.adobe.flex.framework` artifacts.

  It fails when no global library is declared or when two are declared directly.
- **`MxmlcMojo.execute` / `executeModules`**: the mojo that compiles the application once, then once per runtime locale, then once per module. Each extra compile runs on a clone of the mojo with a few fields overwritten: locales, classifier, target directory, final name and load-externs.

Layout, one Dafny module per file:

| file | module | what it holds |
|---|---|---|
| `strings.dfy` | `Strings` | The string primitives the code relies on, written out for Unix paths: `String.lastIndexOf`, an ASCII `toLowerCase`, `File.getName`, `FilenameUtils.getBaseName` and `new File(parent, child)`. |
| `artifacts.dfy` | `Artifacts` | A resolved Maven artifact and the tag vocabulary it is compared against. |
| `classification.dfy` | `Classification` | The sorter as pure functions: one per method, over a `SorterState` value holding the sorter's fields. The lemmas say what a whole run yields compared with independent reference definitions. |
| `dependency_sorter.dfy` | `DependencySorter` | The class `FlexDependencySorter` with the source's fields. Its methods, including the three loops, update the fields in place and are proved to agree with the `Classification` functions field for field. |
| `mxmlc.dfy` | `Mxmlc` | The mojo's configuration as a value, where a clone plus a field assignment is a datatype update. `Plan` is the ordered list of compile requests. The methods `Execute` and `ExecuteModules` build that list with the source's loops and are proved equal to `Plan`. |

The global-runtime tie-break follows the code. The code looks only at the current candidate's own dependency trail (`FlexDependencySorter.java:224-232`). A candidate reached through some other SWC is skipped whatever its position, so a transitive candidate that comes first is dropped and a later direct one is kept. `Classification.SortAllGlobals` states the resulting rule: only the direct candidates count; the first becomes the global artifact, and a second one raises the error naming both.

## Model

| member | source | states |
|---|---|---|
| Strings.LastIndexOf | flexmojos-maven-plugin/src/main/java/org/sonatype/flexmojos/common/FlexDependencySorter.java:228 | The result is -1 or an index where the marker occurs, and the marker occurs at no greater index. |
| Strings.LastIndexOfChar | flexmojos-maven-plugin/src/main/java/org/sonatype/flexmojos/compiler/MxmlcMojo.java:163 | The result is -1 or an index holding the character, and no greater index holds it. |
| Strings.LastIndexOfCharLast | flexmojos-maven-plugin/src/main/java/org/sonatype/flexmojos/compiler/MxmlcMojo.java:163 | In `x + [c] + y`, where `y` has no `c`, the last `c` is at index `|x|`. |
| Strings.ToLowerChar | flexmojos-maven-plugin/src/main/java/org/sonatype/flexmojos/compiler/MxmlcMojo.java:163 | An upper-case ASCII letter becomes the matching lower-case letter, and every other character is unchanged. |
| Strings.ToLower | flexmojos-maven-plugin/src/main/java/org/sonatype/flexmojos/compiler/MxmlcMojo.java:163 | Same length, with every character lower-cased in place. |
| Strings.AfterLast | flexmojos-maven-plugin/src/main/java/org/sonatype/flexmojos/compiler/MxmlcMojo.java:163 | What follows the last separator contains no separator and is no longer than the input. |
| Strings.AfterLastSuffix | flexmojos-maven-plugin/src/main/java/org/sonatype/flexmojos/compiler/MxmlcMojo.java:163 | The result is the suffix of the input after the last occurrence of the separator; unless it is the whole input, the separator immediately precedes it. |
| Strings.FileName | flexmojos-maven-plugin/src/main/java/org/sonatype/flexmojos/compiler/MxmlcMojo.java:163 | `File.getName` holds no '/'. With `Strings.AfterLastSuffix`, it is the suffix after the last '/'. |
| Strings.BaseName | flexmojos-maven-plugin/src/main/java/org/sonatype/flexmojos/compiler/MxmlcMojo.java:163 | `getBaseName` holds neither '/' nor '\\'. |
| Strings.BaseNameNoDot | flexmojos-maven-plugin/src/main/java/org/sonatype/flexmojos/compiler/MxmlcMojo.java:163 | A name with no separator and no dot is its own base name. |
| Strings.Join | flexmojos-maven-plugin/src/main/java/org/sonatype/flexmojos/compiler/MxmlcMojo.java:178 | `new File(parent, child)`: starts with a nonempty parent and ends with the child; an empty child gives the parent. A relative child is joined to a parent other than "" and "/" with exactly one '/', and to an empty or root parent as "/" + child. An absolute child is appended to a parent other than "" and "/" as it stands, and is the result itself under an empty or root parent. |
| Classification.SortSwcArtifact | flexmojos-maven-plugin/src/main/java/org/sonatype/flexmojos/common/FlexDependencySorter.java:183-213 | Sorted iff the scope is one of the five known ones. Compile and external append the file to the external libraries, and internal, merged and test each to their own list. Nothing else changes, and an unknown scope changes nothing. |
| Classification.AddToDefaultScope | flexmojos-maven-plugin/src/main/java/org/sonatype/flexmojos/common/FlexDependencySorter.java:215-219 | A compile-scope library is appended to the external libraries, and nothing else changes. |
| Classification.SortGlobalArtifact | flexmojos-maven-plugin/src/main/java/org/sonatype/flexmojos/common/FlexDependencySorter.java:221-242 | A candidate whose trail passes through an inner SWC leaves the state unchanged. Otherwise it fails iff a global artifact is already held, with both artifacts named in the error. Acceptance sets the global artifact and appends its file, only the two global fields change, and "a global library iff a global artifact" is preserved. |
| Classification.CheckFdkConfigAndVersion | flexmojos-maven-plugin/src/main/java/org/sonatype/flexmojos/common/FlexDependencySorter.java:244-265 | A configs artifact sets the config file. The version is set once and never overwritten, and only by a configs artifact or a POM whose id is one of the four FDK ids. No other field changes. |
| Classification.SortArtifact | flexmojos-maven-plugin/src/main/java/org/sonatype/flexmojos/common/FlexDependencySorter.java:149-181 | Fails iff the artifact is a direct global and one is already held, with both named. The returned flag is true exactly for a link report, a global candidate (even a transitive one that is ignored), a resource bundle, a SWC library of one of the five known scopes, and a framework artifact met while no FDK config file is known (even one that records nothing). It is false for a library of an unknown scope and for an artifact matching no branch, and then nothing changes. A link report always goes to the link reports. The resource bundles, the global artifact and the global libraries each grow by exactly this artifact when it qualifies. `isAIR` is untouched, the FDK fields follow the write-once rules, and the global invariant is kept. |
| Classification.SortArtifactFiles | flexmojos-maven-plugin/src/main/java/org/sonatype/flexmojos/common/FlexDependencySorter.java:149-213 | Each of the five file buckets grows by the artifact's file exactly when the artifact selects that bucket, and is otherwise unchanged. |
| Classification.SortArtifactAppends | flexmojos-maven-plugin/src/main/java/org/sonatype/flexmojos/common/FlexDependencySorter.java:149-181 | One artifact only appends to the sorter's lists, and at most one entry in all. |
| Classification.SortAll | flexmojos-maven-plugin/src/main/java/org/sonatype/flexmojos/common/FlexDependencySorter.java:131-134 | The loop keeps `isAIR`, the global invariant and a set FDK config and version, and can stop only on a second global. |
| Classification.SortAllAppends | flexmojos-maven-plugin/src/main/java/org/sonatype/flexmojos/common/FlexDependencySorter.java:131-134 | The loop only appends to the sorter's lists, whether or not it stops on an error. |
| Classification.Sort | flexmojos-maven-plugin/src/main/java/org/sonatype/flexmojos/common/FlexDependencySorter.java:126-144 | Success means a global artifact is held, exactly one global library exists, and `isAIR` holds iff the global is `airglobal`. The error is "not found" exactly when no global artifact was found. |
| Classification.SortAllBucket | flexmojos-maven-plugin/src/main/java/org/sonatype/flexmojos/common/FlexDependencySorter.java:131-134 | Without an error, a file bucket ends as its start followed by the files of exactly the artifacts that select it, in input order. |
| Classification.SortAllResourceBundles | flexmojos-maven-plugin/src/main/java/org/sonatype/flexmojos/common/FlexDependencySorter.java:167-170 | Without an error, the resource bundles end as their start followed by exactly the resource-bundle artifacts, in input order. |
| Classification.SortAllGlobals | flexmojos-maven-plugin/src/main/java/org/sonatype/flexmojos/common/FlexDependencySorter.java:221-242 | Over a whole run only direct candidates matter. The run fails iff a global is held and there is a direct candidate, or there are two direct candidates; the error names the held global or the first candidate, and the offending one. Otherwise the global artifact and libraries are determined by the first direct candidate. |
| Classification.SortAllFdkConfig | flexmojos-maven-plugin/src/main/java/org/sonatype/flexmojos/common/FlexDependencySorter.java:171-173 | From an empty start, the FDK config file is that of the first framework configs artifact. |
| Classification.SortAllFdkVersion | flexmojos-maven-plugin/src/main/java/org/sonatype/flexmojos/common/FlexDependencySorter.java:244-265 | From an empty start, the FDK version is that of the first framework configs artifact or FDK POM, and later ones never overwrite it. |
| Classification.SortFromInitialGlobal | flexmojos-maven-plugin/src/main/java/org/sonatype/flexmojos/common/FlexDependencySorter.java:126-144 | From a fresh sorter: no direct global gives "not found", two give "already specified" naming the first two, and one succeeds. On success the global artifact and its library are determined, and `isAIR` holds iff that global is `airglobal`. |
| Classification.SortFromInitialRun | flexmojos-maven-plugin/src/main/java/org/sonatype/flexmojos/common/FlexDependencySorter.java:126-144 | From a fresh sorter with at most one direct global, the loop raises nothing and `sort` changes only `isAIR` after it. |
| Classification.SortFromInitialBuckets | flexmojos-maven-plugin/src/main/java/org/sonatype/flexmojos/common/FlexDependencySorter.java:126-181 | From a fresh sorter with at most one direct global, every file bucket and the resource bundles equal the reference definitions. |
| Classification.SortFromInitialFdk | flexmojos-maven-plugin/src/main/java/org/sonatype/flexmojos/common/FlexDependencySorter.java:171-173 | From a fresh sorter with at most one direct global, the FDK config file and version are those of the first framework artifacts that carry them. |
| DependencySorter.FlexDependencySorter.constructor | flexmojos-maven-plugin/src/main/java/org/sonatype/flexmojos/common/FlexDependencySorter.java:46-68 | All lists are empty, nothing is set, and the invariant holds. |
| DependencySorter.FlexDependencySorter.GetFDKConfigFile | flexmojos-maven-plugin/src/main/java/org/sonatype/flexmojos/common/FlexDependencySorter.java:70-72 | Returns the sorter's current FDK config file, the same field of the state the `Classification` lemmas describe. |
| DependencySorter.FlexDependencySorter.GetFDKVersion | flexmojos-maven-plugin/src/main/java/org/sonatype/flexmojos/common/FlexDependencySorter.java:75-77 | Returns the sorter's current FDK version, the same field of the state the `Classification` lemmas describe. |
| DependencySorter.FlexDependencySorter.IsAIR | flexmojos-maven-plugin/src/main/java/org/sonatype/flexmojos/common/FlexDependencySorter.java:80-82 | Returns the sorter's current AIR flag, the same field of the state the `Classification` lemmas describe. |
| DependencySorter.FlexDependencySorter.GetGlobalArtifact | flexmojos-maven-plugin/src/main/java/org/sonatype/flexmojos/common/FlexDependencySorter.java:85-87 | Returns the sorter's current global artifact, the same field of the state the `Classification` lemmas describe. |
| DependencySorter.FlexDependencySorter.GetLinkReports | flexmojos-maven-plugin/src/main/java/org/sonatype/flexmojos/common/FlexDependencySorter.java:95-97 | Returns the sorter's current link reports, the same field of the state the `Classification` lemmas describe. |
| DependencySorter.FlexDependencySorter.GetExternalLibraries | flexmojos-maven-plugin/src/main/java/org/sonatype/flexmojos/common/FlexDependencySorter.java:100-102 | Returns the sorter's current external libraries, the same field of the state the `Classification` lemmas describe. |
| DependencySorter.FlexDependencySorter.GetInternalLibraries | flexmojos-maven-plugin/src/main/java/org/sonatype/flexmojos/common/FlexDependencySorter.java:105-107 | Returns the sorter's current internal libraries, the same field of the state the `Classification` lemmas describe. |
| DependencySorter.FlexDependencySorter.GetMergedLibraries | flexmojos-maven-plugin/src/main/java/org/sonatype/flexmojos/common/FlexDependencySorter.java:110-112 | Returns the sorter's current merged libraries, the same field of the state the `Classification` lemmas describe. |
| DependencySorter.FlexDependencySorter.GetTestLibraries | flexmojos-maven-plugin/src/main/java/org/sonatype/flexmojos/common/FlexDependencySorter.java:115-117 | Returns the sorter's current test libraries, the same field of the state the `Classification` lemmas describe. |
| DependencySorter.FlexDependencySorter.GetResourceBundleArtifacts | flexmojos-maven-plugin/src/main/java/org/sonatype/flexmojos/common/FlexDependencySorter.java:120-122 | Returns the sorter's current resource-bundle artifacts, the same field of the state the `Classification` lemmas describe. |
| DependencySorter.FlexDependencySorter.GetGlobalLibraries | flexmojos-maven-plugin/src/main/java/org/sonatype/flexmojos/common/FlexDependencySorter.java:90-93 | Returns the sorter's global libraries, the same field of the state the `Classification` lemmas describe: at most one entry, and one exactly when a global artifact is held. |
| DependencySorter.FlexDependencySorter.Sort | flexmojos-maven-plugin/src/main/java/org/sonatype/flexmojos/common/FlexDependencySorter.java:126-144 | The project is stored, the fields end as `Classification.Sort` computes, the outcome carries its error, and the invariant is kept. |
| DependencySorter.FlexDependencySorter.SortArtifact | flexmojos-maven-plugin/src/main/java/org/sonatype/flexmojos/common/FlexDependencySorter.java:149-181 | The fields and the returned flag are those of `Classification.SortArtifact`. On its error the fields are untouched. The object invariant is kept. |
| DependencySorter.FlexDependencySorter.SortSWCArtifact | flexmojos-maven-plugin/src/main/java/org/sonatype/flexmojos/common/FlexDependencySorter.java:183-213 | The fields and the returned flag are those of `Classification.SortSwcArtifact`. The object invariant is kept. |
| DependencySorter.FlexDependencySorter.AddToDefaultScope | flexmojos-maven-plugin/src/main/java/org/sonatype/flexmojos/common/FlexDependencySorter.java:215-219 | The file is appended to the external libraries and nothing else changes. The object invariant is kept. |
| DependencySorter.FlexDependencySorter.SortGlobalArtifact | flexmojos-maven-plugin/src/main/java/org/sonatype/flexmojos/common/FlexDependencySorter.java:221-242 | The trail loop and the checks leave the fields as `Classification.SortGlobalArtifact` says. On its error the fields are untouched. The object invariant is kept. |
| DependencySorter.FlexDependencySorter.CheckFDKConfigAndVersion | flexmojos-maven-plugin/src/main/java/org/sonatype/flexmojos/common/FlexDependencySorter.java:244-265 | The loop over the FDK ids leaves the fields as `Classification.CheckFdkConfigAndVersion` says. The object invariant is kept. |
| Mxmlc.ModuleClassifierShape | flexmojos-maven-plugin/src/main/java/org/sonatype/flexmojos/compiler/MxmlcMojo.java:163 | A module classifier has no path separator and no upper-case letter. |
| Mxmlc.ModuleClassifier | flexmojos-maven-plugin/src/main/java/org/sonatype/flexmojos/compiler/MxmlcMojo.java:163 | The classifier has the length of the base name of the resolved source's file name and holds no upper-case letter. Its full shape is stated by `Mxmlc.ModuleClassifierShape` and its value for `dir/stem.ext` by `Mxmlc.ModuleClassifierOfPath`. |
| Mxmlc.ModuleClassifierOfPath | flexmojos-maven-plugin/src/main/java/org/sonatype/flexmojos/compiler/MxmlcMojo.java:163 | The classifier of `dir/stem.ext` is the lower-cased `stem`. |
| Mxmlc.FileNameOf | flexmojos-maven-plugin/src/main/java/org/sonatype/flexmojos/compiler/MxmlcMojo.java:163 | The file name of `dir/name` is `name`. |
| Mxmlc.BaseNameOf | flexmojos-maven-plugin/src/main/java/org/sonatype/flexmojos/compiler/MxmlcMojo.java:163 | The base name of `stem.ext` is `stem`. |
| Mxmlc.ModuleFinalName | flexmojos-maven-plugin/src/main/java/org/sonatype/flexmojos/compiler/MxmlcMojo.java:165-173 | The module's own final name if set, else the build's final name, a '-' and the classifier. |
| Mxmlc.ModuleOutputDirectory | flexmojos-maven-plugin/src/main/java/org/sonatype/flexmojos/compiler/MxmlcMojo.java:175-183 | Without a destination path, the build directory. With one, the result starts with a nonempty build directory and ends with the destination path. For a normal build directory and a relative destination it is exactly the build directory, '/' and the destination, as `new File(buildDir, dest)` gives. |
| Mxmlc.LocaleVariant | flexmojos-maven-plugin/src/main/java/org/sonatype/flexmojos/compiler/MxmlcMojo.java:139-142 | A clone with only the compiler locales set to the one locale and the classifier set to the locale. There is no source file, and it waits iff full synchronization. |
| Mxmlc.ModuleVariant | flexmojos-maven-plugin/src/main/java/org/sonatype/flexmojos/compiler/MxmlcMojo.java:160-196 | A clone of the base compiled from the resolved module source and classified by that file. Its final name and target directory follow the module rules, load-externs change only for an optimized module, no other field changes, and it waits iff full synchronization. |
| Mxmlc.LocaleVariants | flexmojos-maven-plugin/src/main/java/org/sonatype/flexmojos/compiler/MxmlcMojo.java:137-143 | One variant per locale, in order. |
| Mxmlc.ModuleVariants | flexmojos-maven-plugin/src/main/java/org/sonatype/flexmojos/compiler/MxmlcMojo.java:158-197 | One variant per module, in order. |
| Mxmlc.Primary | flexmojos-maven-plugin/src/main/java/org/sonatype/flexmojos/compiler/MxmlcMojo.java:132 | The primary compile is the base configuration itself, on the main source file, and waits for its result. |
| Mxmlc.Plan | flexmojos-maven-plugin/src/main/java/org/sonatype/flexmojos/compiler/MxmlcMojo.java:123-149 | No request when the source path is missing. Otherwise the primary, waited for, on the base with the main source. It is followed by exactly the locale variants and then exactly the module variants. |
| Mxmlc.LocaleVariantsDerived | flexmojos-maven-plugin/src/main/java/org/sonatype/flexmojos/compiler/MxmlcMojo.java:139-142 | Every locale variant differs from the base only in the variant fields and waits iff full synchronization. |
| Mxmlc.ModuleVariantsDerived | flexmojos-maven-plugin/src/main/java/org/sonatype/flexmojos/compiler/MxmlcMojo.java:188-196 | Every module variant differs from the base only in the variant fields and waits iff full synchronization. |
| Mxmlc.PlanDerivedFromBase | flexmojos-maven-plugin/src/main/java/org/sonatype/flexmojos/compiler/MxmlcMojo.java:123-201 | Every request after the primary compiles a clone of the base that differs only in locales, classifier, target directory, final name and load-externs, and waits iff full synchronization. |
| Mxmlc.Execute | flexmojos-maven-plugin/src/main/java/org/sonatype/flexmojos/compiler/MxmlcMojo.java:123-149 | The requests issued, in order, are exactly `Plan`, on the assumption that no compile and no wait raises. |
| Mxmlc.ExecuteModules | flexmojos-maven-plugin/src/main/java/org/sonatype/flexmojos/compiler/MxmlcMojo.java:151-201 | The module requests issued, in order, are exactly the module variants. |

## Left out

- The `toArray` cache (`listArrayMap`) behind the array getters: the getters return the list itself, since the cache only memoizes a copy.
- `MavenUtils.getArtifactFile`: a function parameter (`MavenProject.artifactFile`), because its code is not part of this model.
- The Maven project's artifact set: modelled as a sequence in the set's iteration order, which the source leaves to Maven.
- Null scope or null group id: the source would throw a `NullPointerException`, and the model assumes both are present.
- Subclasses overriding `addToDefaultScope`: the model fixes the base class behaviour (compile scope goes to the external libraries).
- Constant values: `FlexExtension`, `FlexClassifier`, `FlexScopes`, `MavenExtension` and Maven's scope constants are not part of this model. They carry their conventional values, and the proofs use only their distinctness.
- The compiler, the result `wait`, the Flash Player trust-file update in `doCompile`, and what full synchronization means for concurrency: the model records the ordered requests and the flag passed with each.
- Warning log output when the source path is missing: logging is not modelled.
- The mojo's configuration: reduced to the fields `execute` reads or a variant overwrites.
- `SourceFileResolver`: a function parameter, and its `null` result (which makes `getName` throw) is not modelled.
- `PathUtil.exist` on the source path: a boolean parameter.
- `getLinkReport` and `PathUtil.getFiles`: their result is a parameter.
- Strings.ToLower: lower-cases ASCII letters only. `String.toLowerCase` also maps non-ASCII letters and depends on the default locale.
- Strings.Join: assumes parent and child are already in `java.io.File` normal form, with no duplicate or trailing separators, and takes Unix separators.
- Mxmlc.Execute: the plan assumes that no `executeCompiler` and no `wait(results)` raises. In the source, an exception from a compile or from a wait stops `execute`, so only a prefix of `Plan` is issued (for example, a failing wait after the locale loop issues no module compile). Compile failures are not modelled.
- Strings.FileName: Unix separator only, like `java.io.File` on Unix.
- Null versus empty lists: `runtimeLocales == null` and `modules == null` are the empty sequence, which gives the same requests.
- The source's other files (`SDKDeployMojo`, `Gas3Listener`, `TestLibraryCompilerMojo`, `AbstractAsVmLauncherTest`): not part of this model.
