# Incremental class transform and method-entry tracking, in Dafny

This project models two pieces of an Android build plugin.

**The incremental transform driver** (`BaseTransform`). For every run the
build tool hands the transform a set of inputs: jars, and directories of
compiled classes. For a jar the tool reports a change status. For a directory
it reports the status of each changed file. The driver then does the
following:

- A run without a class function does nothing.
- A non-incremental run first clears every output.
- An ADDED or CHANGED jar is rewritten. The rewrite streams the jar's entries,
  stops at the first entry whose name fails the zip name check, and copies only
  the non-directory `.class` entries, each through the class function.
- A REMOVED jar's output is deleted.
- An ADDED or CHANGED class file of a directory is transformed to its mapped
  output path. A REMOVED file's output is deleted if present.
- A full build walks every file of every directory and transforms the class
  files.

Every output path is the output root joined with the input file's path
relative to the input root.

**The method-entry instrumentation** (`Track`). For each method of a class,
the ASM adviser `TrackMethodVisitor` emits a fixed group of instructions per
parameter, in parameter order:

1. A load of slot `i + 1`.
2. A box of the parameter's type.
3. A static call to the tracker's `c`, which depends on the class name:
   - `c(View)` for nested classes, whose names contain `$`;
   - the class name as a constant, then `c(View, String)`, for other classes;
   - nothing when the class name is null.

How the model is built:

- The output side of the driver is a class, `OutputStore`, whose map from
  output paths to contents the imperative driver updates in place.
- Each loop of the source is a method, proved against a fold that
  specifies it. The folds carry the properties: frames ("nothing else
  changes"), what full builds write, and how removals relate to additions.
- The method visitor `mv` is an append-only instruction buffer. The emission
  loop is proved equal to a pure function of the parameter types and the
  class name. The lemmas about that function give the length, the shape of
  each group, the number of calls and the uniformity of the calls.

Files:
- `wrappers.dfy`: Kotlin's nullable values as an `Option`.
- `base_transform.dfy`: module `BaseTransform`.
- `track.dfy`: module `Track`.

## Model

| member | source | states |
|---|---|---|
| BaseTransform.ClassFilterIsSuffixTest | buildSrc/src/main/kotlin/com/engineer/plugin/transforms/BaseTransform.kt:30-32 | a name passes the class filter exactly when it is some stem followed by ".class" |
| BaseTransform.ClassFilter | buildSrc/src/main/kotlin/com/engineer/plugin/transforms/BaseTransform.kt:30-32 | the `endsWith(".class")` test; `ClassFilterIsSuffixTest` proves it holds exactly for names that are a stem followed by ".class" |
| BaseTransform.RelativePath | buildSrc/src/main/kotlin/com/engineer/plugin/transforms/BaseTransform.kt:186 | for a file under the directory, the directory followed by the relative path is the file again |
| BaseTransform.ToOutputFile | buildSrc/src/main/kotlin/com/engineer/plugin/transforms/BaseTransform.kt:181-188 | the output path lies under the output root, and below it repeats the input file's path below the input root |
| BaseTransform.ToOutputFileRoundTrip | buildSrc/src/main/kotlin/com/engineer/plugin/transforms/BaseTransform.kt:181-188 | mapping an input file under the input root to its output path can be undone from the paths alone |
| BaseTransform.ToOutputFileInjective | buildSrc/src/main/kotlin/com/engineer/plugin/transforms/BaseTransform.kt:181-188 | two different input files never map to the same output path |
| BaseTransform.StatusOf | buildSrc/src/main/kotlin/com/engineer/plugin/transforms/BaseTransform.kt:80 | a missing status counts as NOTCHANGED; a present one is used as it is |
| BaseTransform.Apply | buildSrc/src/main/kotlin/com/engineer/plugin/transforms/BaseTransform.kt:190-200 | without a class function nothing is written to the output stream |
| BaseTransform.Rewrite | buildSrc/src/main/kotlin/com/engineer/plugin/transforms/BaseTransform.kt:158-160 | the entry written for a copied one keeps its name, is never a directory, and is empty when there is no class function |
| BaseTransform.JarOutput | buildSrc/src/main/kotlin/com/engineer/plugin/transforms/BaseTransform.kt:156-164 | never longer than the input jar; `JarOutputIsFilteredPrefix`, `JarOutputOnlyClasses` and `JarOutputStopsAtInvalid` prove it is the class entries of the valid-name prefix, in order, each rewritten |
| BaseTransform.FirstInvalid | buildSrc/src/main/kotlin/com/engineer/plugin/transforms/BaseTransform.kt:157 | the entries before the result all have valid names, and the entry at the result (if any) does not |
| BaseTransform.RewriteAll | buildSrc/src/main/kotlin/com/engineer/plugin/transforms/BaseTransform.kt:158-160 | each copied entry keeps its name, is not a directory, and holds the function applied to the input bytes |
| BaseTransform.JarOutputOnlyClasses | buildSrc/src/main/kotlin/com/engineer/plugin/transforms/BaseTransform.kt:156-164 | no resource and no directory entry ever reaches the output jar |
| BaseTransform.JarOutputIsFilteredPrefix | buildSrc/src/main/kotlin/com/engineer/plugin/transforms/BaseTransform.kt:156-164 | the output jar is the class entries of the valid-name prefix, in their original order, each rewritten |
| BaseTransform.JarOutputStopsAtInvalid | buildSrc/src/main/kotlin/com/engineer/plugin/transforms/BaseTransform.kt:157 | nothing at or after the first invalid name is written, valid class entries included |
| BaseTransform.JarStep | buildSrc/src/main/kotlin/com/engineer/plugin/transforms/BaseTransform.kt:78-92 | only the jar's own output location changes; NOTCHANGED (or no status) leaves it, REMOVED deletes it, ADDED, CHANGED and every full build write the rewritten jar there |
| BaseTransform.Lookup | buildSrc/src/main/kotlin/com/engineer/plugin/transforms/BaseTransform.kt:113-116 | a found node is in the tree at that path; a missing one means no node has that path |
| BaseTransform.ChangeStep | buildSrc/src/main/kotlin/com/engineer/plugin/transforms/BaseTransform.kt:104-127 | only the mapped output path changes; ADDED or CHANGED class files are transformed there, REMOVED deletes it, and everything else (NOTCHANGED, directories, non-class files) leaves the store as it was |
| BaseTransform.ChangedResourceIsIgnored | buildSrc/src/main/kotlin/com/engineer/plugin/transforms/BaseTransform.kt:113-117 | an ADDED or CHANGED report of a non-class file is accepted whether or not the file still exists, and changes nothing |
| BaseTransform.AllFiles | buildSrc/src/main/kotlin/com/engineer/plugin/transforms/BaseTransform.kt:129 | the listing holds exactly the nodes of the tree that are not directories |
| BaseTransform.FileStep | buildSrc/src/main/kotlin/com/engineer/plugin/transforms/BaseTransform.kt:129-135 | only the mapped output path changes; a class file is written there transformed, any other file changes nothing |
| BaseTransform.RunSpec | buildSrc/src/main/kotlin/com/engineer/plugin/transforms/BaseTransform.kt:51-142 | the whole run as a function of the old store: unchanged without a function, otherwise the inputs folded from the old store (incremental) or from an empty one; `IncrementalRunFrame`, `FullRunOutputsOnlyTargets` and `FullRunIsIdempotent` state its properties |
| BaseTransform.InputsFoldFrame | buildSrc/src/main/kotlin/com/engineer/plugin/transforms/BaseTransform.kt:69-138 | processing the inputs touches no output path other than the jar locations and the paths under directory locations |
| BaseTransform.IncrementalRunFrame | buildSrc/src/main/kotlin/com/engineer/plugin/transforms/BaseTransform.kt:51-142 | an incremental run leaves every output it does not target as it was |
| BaseTransform.FullRunOutputsOnlyTargets | buildSrc/src/main/kotlin/com/engineer/plugin/transforms/BaseTransform.kt:65-67 | after a non-incremental run no output is left outside the targeted locations, because the store was cleared first |
| BaseTransform.FullRunIsIdempotent | buildSrc/src/main/kotlin/com/engineer/plugin/transforms/BaseTransform.kt:65-67 | a non-incremental run does not depend on earlier outputs, so repeating it changes nothing |
| BaseTransform.FullFoldWrites | buildSrc/src/main/kotlin/com/engineer/plugin/transforms/BaseTransform.kt:129-135 | when walking files with distinct paths under the root, every class file's mapped path ends up holding its transformed bytes, whatever comes after it |
| BaseTransform.FullBuildWritesEveryClassFile | buildSrc/src/main/kotlin/com/engineer/plugin/transforms/BaseTransform.kt:128-136 | in a full build every class file of the tree is transformed to its mapped output path |
| BaseTransform.FullBuildSkipsOtherFiles | buildSrc/src/main/kotlin/com/engineer/plugin/transforms/BaseTransform.kt:128-136 | in a full build directories and non-class files leave their mapped output paths as they were |
| BaseTransform.RemovedDeletesWhatAddedWrote | buildSrc/src/main/kotlin/com/engineer/plugin/transforms/BaseTransform.kt:104-127 | a REMOVED report of a file deletes exactly the output that an ADDED or CHANGED report of it wrote |
| BaseTransform.RemovalIsIdempotent | buildSrc/src/main/kotlin/com/engineer/plugin/transforms/BaseTransform.kt:118-125 | deleting an output twice is the same as deleting it once, and deleting an absent output changes nothing |
| BaseTransform.OutputStore.constructor | buildSrc/src/main/kotlin/com/engineer/plugin/transforms/BaseTransform.kt:63 | the store starts with the given outputs |
| BaseTransform.OutputStore.DeleteAll | buildSrc/src/main/kotlin/com/engineer/plugin/transforms/BaseTransform.kt:66 | every output is gone |
| BaseTransform.OutputStore.Write | buildSrc/src/main/kotlin/com/engineer/plugin/transforms/BaseTransform.kt:177 | the path holds the written content and nothing else changes |
| BaseTransform.OutputStore.Delete | buildSrc/src/main/kotlin/com/engineer/plugin/transforms/BaseTransform.kt:124 | the path is absent afterwards and nothing else changes |
| BaseTransform.CopyEntries | buildSrc/src/main/kotlin/com/engineer/plugin/transforms/BaseTransform.kt:156-164 | the entries the streaming loop writes are exactly the specified jar output |
| BaseTransform.TransformJar | buildSrc/src/main/kotlin/com/engineer/plugin/transforms/BaseTransform.kt:145-169 | the output jar is replaced by the specified jar output and no other output changes |
| BaseTransform.TransformJarInput | buildSrc/src/main/kotlin/com/engineer/plugin/transforms/BaseTransform.kt:78-92 | the store changes as the per-jar step specifies |
| BaseTransform.TransformFile | buildSrc/src/main/kotlin/com/engineer/plugin/transforms/BaseTransform.kt:171-179 | the output file holds the function applied to the input bytes and nothing else changes |
| BaseTransform.TransformChangedFile | buildSrc/src/main/kotlin/com/engineer/plugin/transforms/BaseTransform.kt:105-126 | the store changes as the per-changed-file step specifies |
| BaseTransform.TransformChangedFiles | buildSrc/src/main/kotlin/com/engineer/plugin/transforms/BaseTransform.kt:104-127 | the loop over changed files applies the per-file step to each, in order |
| BaseTransform.TransformListedFile | buildSrc/src/main/kotlin/com/engineer/plugin/transforms/BaseTransform.kt:130-134 | the store changes as the full-build per-file step specifies |
| BaseTransform.TransformFiles | buildSrc/src/main/kotlin/com/engineer/plugin/transforms/BaseTransform.kt:129-135 | the full-build loop over a listing applies the per-file step to each listed file, in order |
| BaseTransform.TransformAllFiles | buildSrc/src/main/kotlin/com/engineer/plugin/transforms/BaseTransform.kt:129-135 | the full-build loop applies the per-file step to every file of the tree, in order |
| BaseTransform.TransformDirectory | buildSrc/src/main/kotlin/com/engineer/plugin/transforms/BaseTransform.kt:96-136 | an incremental run processes the changed files; a full build processes every file |
| BaseTransform.TransformJars | buildSrc/src/main/kotlin/com/engineer/plugin/transforms/BaseTransform.kt:70-93 | the jar loop applies the per-jar step to each jar, in order |
| BaseTransform.TransformDirectories | buildSrc/src/main/kotlin/com/engineer/plugin/transforms/BaseTransform.kt:95-137 | the directory loop processes each directory, in order |
| BaseTransform.TransformOneInput | buildSrc/src/main/kotlin/com/engineer/plugin/transforms/BaseTransform.kt:70-137 | one input's jars are processed first, then its directories |
| BaseTransform.TransformInputs | buildSrc/src/main/kotlin/com/engineer/plugin/transforms/BaseTransform.kt:69-138 | the inputs are processed one after the other, in order |
| BaseTransform.Transform | buildSrc/src/main/kotlin/com/engineer/plugin/transforms/BaseTransform.kt:51-142 | without a function the store is unchanged; otherwise the run is the specified fold, and a non-incremental one starts from an empty store, whatever was there before |
| Track.GroupSize | buildSrc/src/main/kotlin/com/engineer/plugin/transforms/track/TrackMethodVisitor.kt:29-50 | each group is a load and a box followed by the tracker call the class name selects (3, 4 or 2 instructions, counting the box as one abstract instruction) |
| Track.TrackerCall | buildSrc/src/main/kotlin/com/engineer/plugin/transforms/track/TrackMethodVisitor.kt:32-51 | the call closing a group is empty exactly for a null class name; otherwise it ends with the static `c` the class name selects, preceded by the unchanged class name constant when the class is not nested |
| Track.Group | buildSrc/src/main/kotlin/com/engineer/plugin/transforms/track/TrackMethodVisitor.kt:27-51 | one pass of the loop emits group-size instructions: the load of slot i + 1, then the box of that parameter's type |
| Track.EntryCode | buildSrc/src/main/kotlin/com/engineer/plugin/transforms/track/TrackMethodVisitor.kt:26-54 | the whole entry code, one group per parameter in order; `EntryCodeLength`, `EntryCodeGroupAt`, `EntryCodeShape`, `EntryCodeCalls` and `EntryCodeUniform` state its properties |
| Track.EntryCodeLength | buildSrc/src/main/kotlin/com/engineer/plugin/transforms/track/TrackMethodVisitor.kt:26-54 | a method with N parameters gets exactly N groups, so nothing for N = 0 |
| Track.EntryCodeGroupAt | buildSrc/src/main/kotlin/com/engineer/plugin/transforms/track/TrackMethodVisitor.kt:26-54 | group k sits at offset k times the group size and belongs to parameter k: the groups follow parameter order |
| Track.EntryCodeShape | buildSrc/src/main/kotlin/com/engineer/plugin/transforms/track/TrackMethodVisitor.kt:27-50 | group k loads slot k + 1 and boxes parameter k's own type; then nested classes call `c(View)`, other named classes push the class name and call `c(View, String)`, and a null name adds nothing |
| Track.EntryCodeCalls | buildSrc/src/main/kotlin/com/engineer/plugin/transforms/track/TrackMethodVisitor.kt:32-51 | the tracker is called once per parameter, or never when the class name is null |
| Track.EntryCodeUniform | buildSrc/src/main/kotlin/com/engineer/plugin/transforms/track/TrackMethodVisitor.kt:32-50 | every group uses the same call form: every call is the static `c` the class name selects, every constant is the unchanged class name of a class that is not nested, and every load is an ALOAD |
| Track.MethodWriter.VisitVarInsn | buildSrc/src/main/kotlin/com/engineer/plugin/transforms/track/TrackMethodVisitor.kt:29 | `mv.visitVarInsn` appends exactly that load after what `mv` held |
| Track.MethodWriter.VisitLdcInsn | buildSrc/src/main/kotlin/com/engineer/plugin/transforms/track/TrackMethodVisitor.kt:43 | `mv.visitLdcInsn` appends exactly that constant after what `mv` held |
| Track.MethodWriter.VisitMethodInsn | buildSrc/src/main/kotlin/com/engineer/plugin/transforms/track/TrackMethodVisitor.kt:34-49 | `mv.visitMethodInsn` appends exactly that call after what `mv` held |
| Track.TrackMethodVisitor.constructor | buildSrc/src/main/kotlin/com/engineer/plugin/transforms/track/TrackMethodVisitor.kt:15-20 | the visitor keeps the class name, the downstream visitor and the parsed argument types |
| Track.TrackMethodVisitor.Box | buildSrc/src/main/kotlin/com/engineer/plugin/transforms/track/TrackMethodVisitor.kt:30 | a single box of the given type is appended |
| Track.TrackMethodVisitor.EmitGroup | buildSrc/src/main/kotlin/com/engineer/plugin/transforms/track/TrackMethodVisitor.kt:27-51 | one pass of the loop appends exactly the group of that parameter to `mv` |
| Track.TrackMethodVisitor.OnMethodEnter | buildSrc/src/main/kotlin/com/engineer/plugin/transforms/track/TrackMethodVisitor.kt:22-55 | the downstream visitor receives exactly the specified entry code after what it already held |

## Left out

- Timing and logging in `transform` (`System.nanoTime`, `BeautyLog`, `println`). They do not affect the outputs.
- `super.transform` and the Gradle plumbing (`getScopes`, `getInputTypes`, `isIncremental`, `isEnabled`). Each input carries its output location as a field, in place of `getContentLocation`.
- Zip encoding and decoding, stream I/O, `Files.createParentDirs` and closing streams. A jar is its sequence of entries, and a written file is its content in the output store.
- `isValidZipEntryName` and the class function are uninterpreted parameters. `provideFunction` is given as an `Option`.
- `FileUtils.getAllFiles`: its traversal order is taken as the order of the given tree. Directories are excluded, as in the source.
- BaseTransform.JarOutput: `ZipOutputStream.putNextEntry` throws on a second entry with a name already written, which aborts the run and leaves a truncated jar. The model writes every class entry of the valid prefix, duplicate names included.
- BaseTransform.CopyEntries: for the same reason, the loop does not stop at a duplicate entry name.
- BaseTransform.Apply: exceptions are not modelled. The class function is total, so the unwrapping of `UncheckedIOException` (and any I/O error it would rethrow) is not represented.
- BaseTransform.OutputStore.Delete: `FileUtils.delete` on the REMOVED jar branch throws when the output jar is missing. The model deletes it if present and otherwise leaves the store unchanged, like `deleteIfExists`.
- BaseTransform.Transform: requires that every ADDED or CHANGED class file a directory input reports exists in its tree, because in an incremental run the source would throw when reading a missing one. The requirement also applies to full builds, which never read the report; the build tool hands those an empty report. A missing file with any other name counts as not a directory, as `File.isDirectory` answers, and is ignored as in the source.
- `Type.getArgumentTypes`: the descriptor parsing (JVM Specification SE 8, section 4.3.3) is not modelled. The argument types are given as a sequence.
- `box(type)`: its expansion belongs to ASM's adviser. It is emitted as one abstract box instruction. For object and array types ASM emits nothing there, so for those parameters the abstract instruction stands for no instruction at all, and group sizes count it as one.
- `Constants.tracker` is not part of this model. The tracker's internal name is a field of the visitor.
- `super.onMethodEnter` and the other `AdviceAdapter` state are not modelled.
