/**
 * The incremental transform driver of the build plugin (BaseTransform.kt).
 *
 * Input containers are read-only values: a jar is its ordered sequence of zip
 * entries, a directory is its file tree plus the changed-file report of the
 * build tool. The output side is a mutable store mapping output paths to the
 * content written there. The class transformation (a `BiConsumer` from input
 * to output stream) is an uninterpreted total function on bytes, wrapped in an
 * `Option` because the plugin may provide none; the zip entry name check of the
 * Android builder is an uninterpreted predicate on names.
 */
module BaseTransform {
  import opened Wrappers

  type Bytes = seq<bv8>

  /** A file path as its sequence of name components. */
  type Path = seq<string>

  /** The class rewriting a transform provides: input bytes to output bytes. */
  type ClassFunction = Bytes -> Bytes

  /** The zip entry name check, `isValidZipEntryName`. */
  type NameCheck = string -> bool

  const DOT_CLASS: string := ".class"

  // ---------------------------------------------------------------------------
  // Class filter
  // ---------------------------------------------------------------------------

  /** `classFilter`: a name qualifies when it ends with ".class". */
  predicate ClassFilter(className: string) {
    |DOT_CLASS| <= |className| && className[|className| - |DOT_CLASS|..] == DOT_CLASS
  }

  /** Every name formed by appending ".class" qualifies, and only such names do. */
  lemma ClassFilterIsSuffixTest(stem: string, className: string)
    ensures ClassFilter(stem + DOT_CLASS)
    ensures ClassFilter(className) <==>
              |className| >= 6 && className == className[..|className| - 6] + DOT_CLASS
  {
    assert (stem + DOT_CLASS)[|stem + DOT_CLASS| - |DOT_CLASS|..] == DOT_CLASS;
    if |className| >= 6 && className == className[..|className| - 6] + DOT_CLASS {
      assert className[|className| - 6..] == DOT_CLASS;
    }
  }

  // ---------------------------------------------------------------------------
  // Paths
  // ---------------------------------------------------------------------------

  /** `File.name`: the last component of a path. */
  function Name(p: Path): string {
    if p == [] then "" else p[|p| - 1]
  }

  predicate IsUnder(file: Path, dir: Path) {
    |dir| <= |file| && file[..|dir|] == dir
  }

  /**
   * `relativePossiblyNonExistingPath(file, dir)`: computed from the two paths
   * alone, so it works for files that no longer exist. A file outside `dir`
   * keeps its whole path, as `URI.relativize` returns its argument then.
   */
  function RelativePath(file: Path, dir: Path): (rel: Path)
    ensures IsUnder(file, dir) ==> dir + rel == file
  {
    if IsUnder(file, dir) then file[|dir|..] else file
  }

  /** `toOutputFile`: the output root joined with the path relative to the input root. */
  function ToOutputFile(outputDir: Path, inputDir: Path, inputFile: Path): (out: Path)
    ensures IsUnder(out, outputDir)
    ensures IsUnder(inputFile, inputDir) ==> out[|outputDir|..] == inputFile[|inputDir|..]
  {
    outputDir + RelativePath(inputFile, inputDir)
  }

  /** The input file an output path under `outputDir` was mapped from. */
  function FromOutputFile(outputDir: Path, inputDir: Path, out: Path): Path
    requires IsUnder(out, outputDir)
  {
    inputDir + out[|outputDir|..]
  }

  /** For files under the input root the mapping is undone by `FromOutputFile`. */
  lemma ToOutputFileRoundTrip(outputDir: Path, inputDir: Path, inputFile: Path)
    requires IsUnder(inputFile, inputDir)
    ensures FromOutputFile(outputDir, inputDir, ToOutputFile(outputDir, inputDir, inputFile)) == inputFile
  {
    var out := ToOutputFile(outputDir, inputDir, inputFile);
    assert out[|outputDir|..] == inputFile[|inputDir|..];
    assert inputDir + inputFile[|inputDir|..] == inputFile;
  }

  /** Two different files under the input root never share an output path. */
  lemma ToOutputFileInjective(outputDir: Path, inputDir: Path, f1: Path, f2: Path)
    requires IsUnder(f1, inputDir) && IsUnder(f2, inputDir)
    requires ToOutputFile(outputDir, inputDir, f1) == ToOutputFile(outputDir, inputDir, f2)
    ensures f1 == f2
  {
    ToOutputFileRoundTrip(outputDir, inputDir, f1);
    ToOutputFileRoundTrip(outputDir, inputDir, f2);
  }

  // ---------------------------------------------------------------------------
  // Data model
  // ---------------------------------------------------------------------------

  /** The change status the build tool reports (`Status`). */
  datatype Status = NotChanged | Added | Changed | Removed

  /** `status ?: Status.NOTCHANGED`: a missing status counts as NOTCHANGED. */
  function StatusOf(status: Option<Status>): (s: Status)
    ensures status.None? ==> s == NotChanged
    ensures status.Some? ==> s == status.value
  {
    OrElse(status, NotChanged)
  }

  /** A zip entry as it is streamed: its name, the directory flag and its bytes. */
  datatype Entry = Entry(name: string, isDirectory: bool, bytes: Bytes)

  /** What is stored at an output path: a plain file or a jar. */
  datatype Content = Blob(bytes: Bytes) | Archive(entries: seq<Entry>)

  type Store = map<Path, Content>

  /** A jar input: its entries, its status and its output location. */
  datatype JarInput = JarInput(entries: seq<Entry>, status: Option<Status>, location: Path)

  /** One node of an input directory tree as the file system holds it now. */
  datatype FileNode = FileNode(path: Path, isDirectory: bool, bytes: Bytes)

  /** One element of `changedFiles`: a file and its (possibly missing) status. */
  datatype ChangedFile = ChangedFile(file: Path, status: Option<Status>)

  /** A directory input: its root, its tree, its changed files and its output location. */
  datatype DirectoryInput = DirectoryInput(
    root: Path, tree: seq<FileNode>, changedFiles: seq<ChangedFile>, location: Path)

  datatype TransformInput = TransformInput(jarInputs: seq<JarInput>, directoryInputs: seq<DirectoryInput>)

  /** What the build tool hands to one run. */
  datatype Invocation = Invocation(isIncremental: bool, inputs: seq<TransformInput>)

  /** The two stores hold the same thing (or nothing) at `q`. */
  predicate Agree(a: Store, b: Store, q: Path) {
    (q in a <==> q in b) && (q in a ==> a[q] == b[q])
  }

  // ---------------------------------------------------------------------------
  // apply and transformJar
  // ---------------------------------------------------------------------------

  /** `apply`: a missing function writes nothing to the output stream. */
  function Apply(fn: Option<ClassFunction>, input: Bytes): (output: Bytes)
    ensures fn.None? ==> output == []
  {
    match fn
    case None => []
    case Some(f) => f(input)
  }

  /** An entry `transformJar` copies: not a directory, and a class by name. */
  predicate IsClassEntry(e: Entry) {
    !e.isDirectory && ClassFilter(e.name)
  }

  /** The entry written for a copied one: a fresh `ZipEntry` of the same name. */
  function Rewrite(e: Entry, fn: Option<ClassFunction>): (r: Entry)
    ensures r.name == e.name && !r.isDirectory
    ensures fn.None? ==> r.bytes == []
  {
    Entry(e.name, false, Apply(fn, e.bytes))
  }

  /**
   * The entries `transformJar` writes: it streams the input entries in order,
   * stops at the first entry whose name fails the check, skips directories and
   * resources, and writes every class entry transformed under its own name.
   */
  function JarOutput(entries: seq<Entry>, valid: NameCheck, fn: Option<ClassFunction>): (out: seq<Entry>)
    ensures |out| <= |entries|
  {
    if entries == [] || !valid(entries[0].name) then []
    else (if IsClassEntry(entries[0]) then [Rewrite(entries[0], fn)] else [])
         + JarOutput(entries[1..], valid, fn)
  }

  /** No resource and no directory entry ever reaches the output jar. */
  lemma {:induction false} JarOutputOnlyClasses(entries: seq<Entry>, valid: NameCheck, fn: Option<ClassFunction>)
    ensures forall e :: e in JarOutput(entries, valid, fn) ==> IsClassEntry(e)
  {
    if entries != [] && valid(entries[0].name) {
      JarOutputOnlyClasses(entries[1..], valid, fn);
    }
  }

  /** The number of leading entries whose names pass the check. */
  function FirstInvalid(entries: seq<Entry>, valid: NameCheck): (k: nat)
    ensures k <= |entries|
    ensures forall j :: 0 <= j < k ==> valid(entries[j].name)
    ensures k < |entries| ==> !valid(entries[k].name)
  {
    if entries == [] || !valid(entries[0].name) then 0
    else 1 + FirstInvalid(entries[1..], valid)
  }

  /** The class entries of a sequence, in their order. */
  function ClassEntries(entries: seq<Entry>): seq<Entry> {
    if entries == [] then []
    else (if IsClassEntry(entries[0]) then [entries[0]] else []) + ClassEntries(entries[1..])
  }

  function RewriteAll(entries: seq<Entry>, fn: Option<ClassFunction>): (out: seq<Entry>)
    ensures |out| == |entries|
    ensures forall k :: 0 <= k < |entries| ==> out[k] == Rewrite(entries[k], fn)
  {
    if entries == [] then [] else [Rewrite(entries[0], fn)] + RewriteAll(entries[1..], fn)
  }

  /**
   * The output jar is the class entries of the valid prefix, in their original
   * order and each transformed: a reference definition of `JarOutput`.
   */
  lemma {:induction false} JarOutputIsFilteredPrefix(entries: seq<Entry>, valid: NameCheck, fn: Option<ClassFunction>)
    ensures JarOutput(entries, valid, fn) == RewriteAll(ClassEntries(entries[..FirstInvalid(entries, valid)]), fn)
  {
    var k := FirstInvalid(entries, valid);
    if entries == [] || !valid(entries[0].name) {
      assert entries[..k] == [];
    } else {
      JarOutputIsFilteredPrefix(entries[1..], valid, fn);
      var rest := entries[1..];
      assert entries[..k] == [entries[0]] + rest[..FirstInvalid(rest, valid)];
      assert entries[..k][1..] == rest[..FirstInvalid(rest, valid)];
      RewriteAllAppend(if IsClassEntry(entries[0]) then [entries[0]] else [],
                       ClassEntries(rest[..FirstInvalid(rest, valid)]), fn);
    }
  }

  lemma RewriteAllAppend(a: seq<Entry>, b: seq<Entry>, fn: Option<ClassFunction>)
    ensures RewriteAll(a + b, fn) == RewriteAll(a, fn) + RewriteAll(b, fn)
  {
    var l, r := RewriteAll(a + b, fn), RewriteAll(a, fn) + RewriteAll(b, fn);
    assert |l| == |r|;
    forall k | 0 <= k < |l| ensures l[k] == r[k] {
      if k < |a| { assert (a + b)[k] == a[k]; } else { assert (a + b)[k] == b[k - |a|]; }
    }
  }

  /** Nothing at or after the first invalid entry is written, not even valid class entries. */
  lemma {:induction false} JarOutputStopsAtInvalid(
    prefix: seq<Entry>, bad: Entry, rest: seq<Entry>, valid: NameCheck, fn: Option<ClassFunction>)
    requires !valid(bad.name)
    ensures JarOutput(prefix + [bad] + rest, valid, fn) == JarOutput(prefix, valid, fn)
  {
    var all := prefix + [bad] + rest;
    if prefix == [] {
      assert all[0] == bad;
    } else {
      assert all[0] == prefix[0];
      assert all[1..] == prefix[1..] + [bad] + rest;
      JarOutputStopsAtInvalid(prefix[1..], bad, rest, valid, fn);
    }
  }

  // ---------------------------------------------------------------------------
  // One jar input, one changed file, one file of a full build
  // ---------------------------------------------------------------------------

  /** The per-jar branch of `transform`: status driven when incremental, rewrite otherwise. */
  function JarStep(files: Store, jar: JarInput, incremental: bool, valid: NameCheck, fn: Option<ClassFunction>): (r: Store)
    ensures forall q :: q != jar.location ==> Agree(r, files, q)
    ensures incremental && StatusOf(jar.status) == NotChanged ==> r == files
    ensures incremental && StatusOf(jar.status) == Removed ==> jar.location !in r
    ensures !incremental || StatusOf(jar.status) in {Added, Changed} ==>
              jar.location in r && r[jar.location] == Archive(JarOutput(jar.entries, valid, fn))
  {
    var written := files[jar.location := Archive(JarOutput(jar.entries, valid, fn))];
    if !incremental then written
    else match StatusOf(jar.status)
      case NotChanged => files
      case Added => written
      case Changed => written
      case Removed => files - {jar.location}
  }

  /** The first node of the tree at path `p`: what the file system answers for that file. */
  function Lookup(tree: seq<FileNode>, p: Path): (r: Option<FileNode>)
    ensures r.Some? ==> r.value in tree && r.value.path == p
    ensures r.None? ==> forall n :: n in tree ==> n.path != p
  {
    if tree == [] then None
    else if tree[0].path == p then Some(tree[0])
    else Lookup(tree[1..], p)
  }

  /**
   * `File.isDirectory` on the file system as it is now: false for a file that
   * does not exist.
   */
  predicate IsDirectoryNow(tree: seq<FileNode>, p: Path) {
    Lookup(tree, p).Some? && Lookup(tree, p).value.isDirectory
  }

  /**
   * An ADDED or CHANGED class file that is not a directory is read; the build
   * tool reports those only for files that exist.
   */
  predicate Present(di: DirectoryInput, c: ChangedFile) {
    StatusOf(c.status) in {Added, Changed} && ClassFilter(Name(c.file)) ==> Lookup(di.tree, c.file).Some?
  }

  predicate ChangesPresent(di: DirectoryInput) {
    forall c :: c in di.changedFiles ==> Present(di, c)
  }

  /** Whether an ADDED or CHANGED file is transformed: not a directory, and named *.class. */
  predicate IsTransformedChange(di: DirectoryInput, c: ChangedFile) {
    StatusOf(c.status) in {Added, Changed}
    && !IsDirectoryNow(di.tree, c.file)
    && ClassFilter(Name(c.file))
  }

  /** The incremental handling of one changed file of a directory input. */
  function ChangeStep(files: Store, di: DirectoryInput, c: ChangedFile, fn: Option<ClassFunction>): (r: Store)
    requires Present(di, c)
    ensures forall q :: q != ToOutputFile(di.location, di.root, c.file) ==> Agree(r, files, q)
    ensures IsTransformedChange(di, c) ==>
              r == files[ToOutputFile(di.location, di.root, c.file) :=
                         Blob(Apply(fn, Lookup(di.tree, c.file).value.bytes))]
    ensures StatusOf(c.status) == Removed ==> r == files - {ToOutputFile(di.location, di.root, c.file)}
    ensures StatusOf(c.status) != Removed && !IsTransformedChange(di, c) ==> r == files
  {
    var out := ToOutputFile(di.location, di.root, c.file);
    match StatusOf(c.status)
    case NotChanged => files
    case Removed => files - {out}
    case _ =>
      if !IsDirectoryNow(di.tree, c.file) && ClassFilter(Name(c.file))
      then files[out := Blob(Apply(fn, Lookup(di.tree, c.file).value.bytes))]
      else files
  }

  /** `FileUtils.getAllFiles`: the files of the tree (no directories), in traversal order. */
  function AllFiles(tree: seq<FileNode>): (files: seq<FileNode>)
    ensures forall n :: n in files <==> n in tree && !n.isDirectory
  {
    if tree == [] then []
    else (if tree[0].isDirectory then [] else [tree[0]]) + AllFiles(tree[1..])
  }

  /** The full-build handling of one file of a directory input. */
  function FileStep(files: Store, di: DirectoryInput, node: FileNode, fn: Option<ClassFunction>): (r: Store)
    ensures forall q :: q != ToOutputFile(di.location, di.root, node.path) ==> Agree(r, files, q)
    ensures ClassFilter(Name(node.path)) ==>
              ToOutputFile(di.location, di.root, node.path) in r
              && r[ToOutputFile(di.location, di.root, node.path)] == Blob(Apply(fn, node.bytes))
    ensures !ClassFilter(Name(node.path)) ==> r == files
  {
    if ClassFilter(Name(node.path))
    then files[ToOutputFile(di.location, di.root, node.path) := Blob(Apply(fn, node.bytes))]
    else files
  }

  // ---------------------------------------------------------------------------
  // The loops of `transform`, as folds over what has been processed so far
  // ---------------------------------------------------------------------------

  function JarsFold(files: Store, jars: seq<JarInput>, incremental: bool, valid: NameCheck, fn: Option<ClassFunction>): Store {
    if jars == [] then files
    else JarStep(JarsFold(files, jars[..|jars| - 1], incremental, valid, fn), jars[|jars| - 1], incremental, valid, fn)
  }

  function ChangesFold(files: Store, di: DirectoryInput, changes: seq<ChangedFile>, fn: Option<ClassFunction>): Store
    requires forall c :: c in changes ==> Present(di, c)
  {
    if changes == [] then files
    else ChangeStep(ChangesFold(files, di, changes[..|changes| - 1], fn), di, changes[|changes| - 1], fn)
  }

  function FullFold(files: Store, di: DirectoryInput, nodes: seq<FileNode>, fn: Option<ClassFunction>): Store {
    if nodes == [] then files
    else FileStep(FullFold(files, di, nodes[..|nodes| - 1], fn), di, nodes[|nodes| - 1], fn)
  }

  lemma JarsFoldSnoc(files: Store, jars: seq<JarInput>, jar: JarInput, incremental: bool, valid: NameCheck, fn: Option<ClassFunction>)
    ensures JarsFold(files, jars + [jar], incremental, valid, fn)
            == JarStep(JarsFold(files, jars, incremental, valid, fn), jar, incremental, valid, fn)
  {
    assert (jars + [jar])[..|jars|] == jars;
  }

  lemma ChangesFoldSnoc(files: Store, di: DirectoryInput, changes: seq<ChangedFile>, c: ChangedFile, fn: Option<ClassFunction>)
    requires forall c' :: c' in changes ==> Present(di, c')
    requires Present(di, c)
    ensures ChangesFold(files, di, changes + [c], fn) == ChangeStep(ChangesFold(files, di, changes, fn), di, c, fn)
  {
    assert (changes + [c])[..|changes|] == changes;
  }

  lemma FullFoldSnoc(files: Store, di: DirectoryInput, nodes: seq<FileNode>, node: FileNode, fn: Option<ClassFunction>)
    ensures FullFold(files, di, nodes + [node], fn) == FileStep(FullFold(files, di, nodes, fn), di, node, fn)
  {
    assert (nodes + [node])[..|nodes|] == nodes;
  }

  lemma FullFoldTake(files: Store, di: DirectoryInput, nodes: seq<FileNode>, n: nat, fn: Option<ClassFunction>)
    requires n < |nodes|
    ensures FullFold(files, di, nodes[..n + 1], fn) == FileStep(FullFold(files, di, nodes[..n], fn), di, nodes[n], fn)
  {
    assert nodes[..n + 1] == nodes[..n] + [nodes[n]];
    FullFoldSnoc(files, di, nodes[..n], nodes[n], fn);
  }

  /** One directory input: its changed files when incremental, all its files otherwise. */
  function DirStep(files: Store, di: DirectoryInput, incremental: bool, fn: Option<ClassFunction>): Store
    requires ChangesPresent(di)
  {
    if incremental then ChangesFold(files, di, di.changedFiles, fn)
    else FullFold(files, di, AllFiles(di.tree), fn)
  }

  function DirsFold(files: Store, dirs: seq<DirectoryInput>, incremental: bool, fn: Option<ClassFunction>): Store
    requires forall d :: d in dirs ==> ChangesPresent(d)
  {
    if dirs == [] then files
    else DirStep(DirsFold(files, dirs[..|dirs| - 1], incremental, fn), dirs[|dirs| - 1], incremental, fn)
  }

  lemma DirsFoldSnoc(files: Store, dirs: seq<DirectoryInput>, di: DirectoryInput, incremental: bool, fn: Option<ClassFunction>)
    requires forall d :: d in dirs ==> ChangesPresent(d)
    requires ChangesPresent(di)
    ensures DirsFold(files, dirs + [di], incremental, fn) == DirStep(DirsFold(files, dirs, incremental, fn), di, incremental, fn)
  {
    assert (dirs + [di])[..|dirs|] == dirs;
  }

  predicate InputWellFormed(ti: TransformInput) {
    forall d :: d in ti.directoryInputs ==> ChangesPresent(d)
  }

  predicate InputsWellFormed(inputs: seq<TransformInput>) {
    forall t :: t in inputs ==> InputWellFormed(t)
  }

  /** One input: its jars first, then its directories. */
  function InputStep(files: Store, ti: TransformInput, incremental: bool, valid: NameCheck, fn: Option<ClassFunction>): Store
    requires InputWellFormed(ti)
  {
    DirsFold(JarsFold(files, ti.jarInputs, incremental, valid, fn), ti.directoryInputs, incremental, fn)
  }

  function InputsFold(files: Store, inputs: seq<TransformInput>, incremental: bool, valid: NameCheck, fn: Option<ClassFunction>): Store
    requires InputsWellFormed(inputs)
  {
    if inputs == [] then files
    else InputStep(InputsFold(files, inputs[..|inputs| - 1], incremental, valid, fn), inputs[|inputs| - 1], incremental, valid, fn)
  }

  lemma InputsFoldSnoc(files: Store, inputs: seq<TransformInput>, ti: TransformInput, incremental: bool, valid: NameCheck, fn: Option<ClassFunction>)
    requires InputsWellFormed(inputs) && InputWellFormed(ti)
    ensures InputsWellFormed(inputs + [ti])
    ensures InputsFold(files, inputs + [ti], incremental, valid, fn)
            == InputStep(InputsFold(files, inputs, incremental, valid, fn), ti, incremental, valid, fn)
  {
    assert (inputs + [ti])[..|inputs|] == inputs;
  }

  /**
   * The whole of `transform`: without a function nothing happens; otherwise a
   * non-incremental run starts from an emptied store, and every input is processed.
   */
  function RunSpec(files: Store, inv: Invocation, valid: NameCheck, provided: Option<ClassFunction>): Store
    requires InputsWellFormed(inv.inputs)
  {
    if provided.None? then files
    else InputsFold(if inv.isIncremental then files else map[], inv.inputs, inv.isIncremental, valid, provided)
  }

  // ---------------------------------------------------------------------------
  // What a run may touch
  // ---------------------------------------------------------------------------

  /** The output paths a run may write or delete: jar locations and everything under directory locations. */
  predicate Targeted(inputs: seq<TransformInput>, q: Path) {
    (exists t, j :: t in inputs && j in t.jarInputs && j.location == q)
    || (exists t, d :: t in inputs && d in t.directoryInputs && IsUnder(q, d.location))
  }

  lemma {:induction false} JarsFoldFrame(files: Store, jars: seq<JarInput>, incremental: bool, valid: NameCheck, fn: Option<ClassFunction>, q: Path)
    requires forall j :: j in jars ==> j.location != q
    ensures Agree(JarsFold(files, jars, incremental, valid, fn), files, q)
  {
    if jars != [] {
      JarsFoldFrame(files, jars[..|jars| - 1], incremental, valid, fn, q);
    }
  }

  lemma {:induction false} ChangesFoldFrame(files: Store, di: DirectoryInput, changes: seq<ChangedFile>, fn: Option<ClassFunction>, q: Path)
    requires forall c :: c in changes ==> Present(di, c)
    requires !IsUnder(q, di.location)
    ensures Agree(ChangesFold(files, di, changes, fn), files, q)
  {
    if changes != [] {
      ChangesFoldFrame(files, di, changes[..|changes| - 1], fn, q);
    }
  }

  lemma {:induction false} FullFoldFrame(files: Store, di: DirectoryInput, nodes: seq<FileNode>, fn: Option<ClassFunction>, q: Path)
    requires forall n :: n in nodes && ClassFilter(Name(n.path)) ==> ToOutputFile(di.location, di.root, n.path) != q
    ensures Agree(FullFold(files, di, nodes, fn), files, q)
  {
    if nodes != [] {
      FullFoldFrame(files, di, nodes[..|nodes| - 1], fn, q);
    }
  }

  lemma {:induction false} DirsFoldFrame(files: Store, dirs: seq<DirectoryInput>, incremental: bool, fn: Option<ClassFunction>, q: Path)
    requires forall d :: d in dirs ==> ChangesPresent(d)
    requires forall d :: d in dirs ==> !IsUnder(q, d.location)
    ensures Agree(DirsFold(files, dirs, incremental, fn), files, q)
  {
    if dirs != [] {
      var before := DirsFold(files, dirs[..|dirs| - 1], incremental, fn);
      var di := dirs[|dirs| - 1];
      DirsFoldFrame(files, dirs[..|dirs| - 1], incremental, fn, q);
      if incremental {
        ChangesFoldFrame(before, di, di.changedFiles, fn, q);
      } else {
        FullFoldFrame(before, di, AllFiles(di.tree), fn, q);
      }
    }
  }

  /** A run never writes or deletes outside the jar locations and directory locations of its inputs. */
  lemma {:induction false} InputsFoldFrame(files: Store, inputs: seq<TransformInput>, incremental: bool, valid: NameCheck, fn: Option<ClassFunction>, q: Path)
    requires InputsWellFormed(inputs)
    requires !Targeted(inputs, q)
    ensures Agree(InputsFold(files, inputs, incremental, valid, fn), files, q)
  {
    if inputs != [] {
      var init := inputs[..|inputs| - 1];
      var ti := inputs[|inputs| - 1];
      assert ti in inputs;
      assert !Targeted(init, q) by {
        forall t | t in init ensures t in inputs { }
      }
      InputsFoldFrame(files, init, incremental, valid, fn, q);
      var before := InputsFold(files, init, incremental, valid, fn);
      JarsFoldFrame(before, ti.jarInputs, incremental, valid, fn, q);
      DirsFoldFrame(JarsFold(before, ti.jarInputs, incremental, valid, fn), ti.directoryInputs, incremental, fn, q);
    }
  }

  /** Incremental runs leave every untargeted output as it was. */
  lemma IncrementalRunFrame(files: Store, inv: Invocation, valid: NameCheck, provided: Option<ClassFunction>, q: Path)
    requires InputsWellFormed(inv.inputs)
    requires inv.isIncremental && !Targeted(inv.inputs, q)
    ensures Agree(RunSpec(files, inv, valid, provided), files, q)
  {
    if provided.Some? {
      InputsFoldFrame(files, inv.inputs, true, valid, provided, q);
    }
  }

  /** After a non-incremental run nothing is left outside the targeted outputs. */
  lemma FullRunOutputsOnlyTargets(files: Store, inv: Invocation, valid: NameCheck, provided: Option<ClassFunction>, q: Path)
    requires InputsWellFormed(inv.inputs)
    requires !inv.isIncremental && provided.Some? && !Targeted(inv.inputs, q)
    ensures q !in RunSpec(files, inv, valid, provided)
  {
    InputsFoldFrame(map[], inv.inputs, false, valid, provided, q);
  }

  /** A full build does not depend on what earlier runs left in the store: running it twice changes nothing. */
  lemma FullRunIsIdempotent(files: Store, inv: Invocation, valid: NameCheck, provided: Option<ClassFunction>)
    requires InputsWellFormed(inv.inputs)
    requires !inv.isIncremental
    ensures RunSpec(RunSpec(files, inv, valid, provided), inv, valid, provided) == RunSpec(files, inv, valid, provided)
  {
  }

  // ---------------------------------------------------------------------------
  // Directory inputs: full builds and removals
  // ---------------------------------------------------------------------------

  /** No two nodes of a tree share a path. */
  predicate DistinctPaths(tree: seq<FileNode>) {
    forall n1, n2 :: n1 in tree && n2 in tree && n1.path == n2.path ==> n1 == n2
  }

  predicate AllUnderRoot(di: DirectoryInput) {
    forall n :: n in di.tree ==> IsUnder(n.path, di.root)
  }

  lemma {:induction false} FullFoldWrites(files: Store, di: DirectoryInput, nodes: seq<FileNode>, fn: Option<ClassFunction>, node: FileNode)
    requires node in nodes && ClassFilter(Name(node.path))
    requires forall n :: n in nodes ==> IsUnder(n.path, di.root)
    requires forall n :: n in nodes && n.path == node.path ==> n == node
    ensures ToOutputFile(di.location, di.root, node.path) in FullFold(files, di, nodes, fn)
    ensures FullFold(files, di, nodes, fn)[ToOutputFile(di.location, di.root, node.path)] == Blob(Apply(fn, node.bytes))
  {
    var last := nodes[|nodes| - 1];
    var init := nodes[..|nodes| - 1];
    if last != node {
      assert node in init by { assert nodes == init + [last]; }
      FullFoldWrites(files, di, init, fn, node);
      if ToOutputFile(di.location, di.root, last.path) == ToOutputFile(di.location, di.root, node.path) {
        ToOutputFileInjective(di.location, di.root, last.path, node.path);
      }
    }
  }

  /** In a full build every class file of the tree ends up transformed at its mapped output path. */
  lemma FullBuildWritesEveryClassFile(files: Store, di: DirectoryInput, fn: Option<ClassFunction>, node: FileNode)
    requires DistinctPaths(di.tree) && AllUnderRoot(di)
    requires node in di.tree && !node.isDirectory && ClassFilter(Name(node.path))
    ensures ToOutputFile(di.location, di.root, node.path) in FullFold(files, di, AllFiles(di.tree), fn)
    ensures FullFold(files, di, AllFiles(di.tree), fn)[ToOutputFile(di.location, di.root, node.path)]
            == Blob(Apply(fn, node.bytes))
  {
    FullFoldWrites(files, di, AllFiles(di.tree), fn, node);
  }

  /** In a full build directories and non-class files produce nothing at their mapped paths. */
  lemma FullBuildSkipsOtherFiles(files: Store, di: DirectoryInput, fn: Option<ClassFunction>, node: FileNode)
    requires DistinctPaths(di.tree) && AllUnderRoot(di)
    requires node in di.tree && (node.isDirectory || !ClassFilter(Name(node.path)))
    ensures Agree(FullFold(files, di, AllFiles(di.tree), fn), files, ToOutputFile(di.location, di.root, node.path))
  {
    var out := ToOutputFile(di.location, di.root, node.path);
    forall n | n in AllFiles(di.tree) && ClassFilter(Name(n.path))
      ensures ToOutputFile(di.location, di.root, n.path) != out
    {
      if ToOutputFile(di.location, di.root, n.path) == out {
        ToOutputFileInjective(di.location, di.root, n.path, node.path);
      }
    }
    FullFoldFrame(files, di, AllFiles(di.tree), fn, out);
  }

  /** A REMOVED report deletes exactly the output an earlier ADDED or CHANGED report of the same file wrote. */
  lemma RemovedDeletesWhatAddedWrote(files: Store, di: DirectoryInput, added: ChangedFile, removed: ChangedFile, fn: Option<ClassFunction>)
    requires Present(di, added) && IsTransformedChange(di, added)
    requires removed.file == added.file && StatusOf(removed.status) == Removed
    ensures ToOutputFile(di.location, di.root, added.file) in ChangeStep(files, di, added, fn)
    ensures ChangeStep(ChangeStep(files, di, added, fn), di, removed, fn)
            == files - {ToOutputFile(di.location, di.root, added.file)}
  {
  }

  /**
   * An ADDED or CHANGED report of a file that is not a class file never reads
   * it, so whether it still exists does not matter: nothing changes.
   */
  lemma ChangedResourceIsIgnored(files: Store, di: DirectoryInput, c: ChangedFile, fn: Option<ClassFunction>)
    requires StatusOf(c.status) in {Added, Changed} && !ClassFilter(Name(c.file))
    ensures Present(di, c)
    ensures ChangeStep(files, di, c, fn) == files
  {
  }

  /** Deleting an output twice is deleting it once; deleting an absent one changes nothing. */
  lemma RemovalIsIdempotent(files: Store, di: DirectoryInput, removed: ChangedFile, fn: Option<ClassFunction>)
    requires StatusOf(removed.status) == Removed
    ensures ChangeStep(ChangeStep(files, di, removed, fn), di, removed, fn) == ChangeStep(files, di, removed, fn)
    ensures ToOutputFile(di.location, di.root, removed.file) !in files ==> ChangeStep(files, di, removed, fn) == files
  {
  }

  // ---------------------------------------------------------------------------
  // The output store and the imperative driver
  // ---------------------------------------------------------------------------

  /** The output locations the `TransformOutputProvider` hands out, with what is written there. */
  class OutputStore {
    var files: Store

    constructor (initial: Store)
      ensures files == initial
    {
      files := initial;
    }

    /** `outputProvider.deleteAll()`. */
    method DeleteAll()
      modifies this
      ensures files == map[]
    {
      files := map[];
    }

    /** Writing a whole file (a closed output stream). */
    method Write(p: Path, c: Content)
      modifies this
      ensures files == old(files)[p := c]
    {
      files := files[p := c];
    }

    /** `FileUtils.deleteIfExists`, and `FileUtils.delete` on an existing file. */
    method Delete(p: Path)
      modifies this
      ensures files == old(files) - {p}
    {
      if p in files {
        files := files - {p};
      }
    }
  }

  /**
   * One step of the `while` loop of `transformJar`: if `written` followed by
   * the output of the entries from `i` is the whole output, then so is
   * `written` extended by entry `i`'s contribution, followed by the rest.
   */
  lemma JarOutputStep(entries: seq<Entry>, i: nat, written: seq<Entry>, valid: NameCheck, fn: Option<ClassFunction>)
    requires i < |entries| && valid(entries[i].name)
    requires written + JarOutput(entries[i..], valid, fn) == JarOutput(entries, valid, fn)
    ensures (written + (if IsClassEntry(entries[i]) then [Rewrite(entries[i], fn)] else []))
            + JarOutput(entries[i + 1..], valid, fn) == JarOutput(entries, valid, fn)
  {
    assert entries[i..][0] == entries[i];
    assert entries[i..][1..] == entries[i + 1..];
    var step := if IsClassEntry(entries[i]) then [Rewrite(entries[i], fn)] else [];
    var rest := JarOutput(entries[i + 1..], valid, fn);
    assert JarOutput(entries[i..], valid, fn) == step + rest;
    assert (written + step) + rest == written + (step + rest);
  }

  /**
   * The `while` loop of `transformJar`: read entries until the stream ends or
   * a name is rejected, collecting what is written to the output stream.
   */
  method CopyEntries(inputJar: seq<Entry>, valid: NameCheck, fn: Option<ClassFunction>) returns (zos: seq<Entry>)
    ensures zos == JarOutput(inputJar, valid, fn)
  {
    zos := [];
    var i := 0;
    while i < |inputJar| && valid(inputJar[i].name)
      invariant 0 <= i <= |inputJar|
      invariant zos + JarOutput(inputJar[i..], valid, fn) == JarOutput(inputJar, valid, fn)
    {
      var entry := inputJar[i];
      JarOutputStep(inputJar, i, zos, valid, fn);
      if !entry.isDirectory && ClassFilter(entry.name) {
        zos := zos + [Entry(entry.name, false, Apply(fn, entry.bytes))];
      } else {
        // resources are not copied
      }
      i := i + 1;
    }
    assert JarOutput(inputJar[i..], valid, fn) == [] by {
      assert i < |inputJar| ==> inputJar[i..][0] == inputJar[i];
    }
  }

  /** `transformJar`: the output jar holds the copied entries. */
  method TransformJar(store: OutputStore, inputJar: seq<Entry>, outputJar: Path, valid: NameCheck, fn: Option<ClassFunction>)
    modifies store
    ensures store.files == old(store.files)[outputJar := Archive(JarOutput(inputJar, valid, fn))]
  {
    var zos := CopyEntries(inputJar, valid, fn);
    store.Write(outputJar, Archive(zos));
  }

  /** The body of the loop over `jarInputs` in `transform`. */
  method TransformJarInput(store: OutputStore, jarInput: JarInput, incremental: bool, valid: NameCheck, fn: Option<ClassFunction>)
    modifies store
    ensures store.files == JarStep(old(store.files), jarInput, incremental, valid, fn)
  {
    if incremental {
      match StatusOf(jarInput.status) {
        case NotChanged =>
        case Added | Changed => TransformJar(store, jarInput.entries, jarInput.location, valid, fn);
        case Removed => store.Delete(jarInput.location);
      }
    } else {
      TransformJar(store, jarInput.entries, jarInput.location, valid, fn);
    }
  }

  /** `transformFile`: the output file receives the transformed bytes of the input file. */
  method TransformFile(store: OutputStore, input: Bytes, outputFile: Path, fn: Option<ClassFunction>)
    modifies store
    ensures store.files == old(store.files)[outputFile := Blob(Apply(fn, input))]
  {
    store.Write(outputFile, Blob(Apply(fn, input)));
  }

  /** The body of the loop over `changedFiles` in `transform`: one reported file. */
  method TransformChangedFile(store: OutputStore, di: DirectoryInput, c: ChangedFile, fn: Option<ClassFunction>)
    requires Present(di, c)
    modifies store
    ensures store.files == ChangeStep(old(store.files), di, c, fn)
  {
    var out := ToOutputFile(di.location, di.root, c.file);
    match StatusOf(c.status) {
      case NotChanged =>
      case Added | Changed =>
        if !IsDirectoryNow(di.tree, c.file) && ClassFilter(Name(c.file)) {
          var inputFile := Lookup(di.tree, c.file).value;
          TransformFile(store, inputFile.bytes, out, fn);
        }
      case Removed =>
        var outputFile := ToOutputFile(di.location, di.root, c.file);
        store.Delete(outputFile);
    }
  }

  /** An incremental directory input: the loop over `changedFiles`. */
  method TransformChangedFiles(store: OutputStore, di: DirectoryInput, fn: Option<ClassFunction>)
    requires ChangesPresent(di)
    modifies store
    ensures store.files == ChangesFold(old(store.files), di, di.changedFiles, fn)
  {
    ghost var start := store.files;
    var n := 0;
    while n < |di.changedFiles|
      invariant 0 <= n <= |di.changedFiles|
      invariant store.files == ChangesFold(start, di, di.changedFiles[..n], fn)
    {
      var c := di.changedFiles[n];
      ghost var done := di.changedFiles[..n];
      assert Present(di, c) by {
        assert c in di.changedFiles;
      }
      TransformChangedFile(store, di, c, fn);
      assert di.changedFiles[..n + 1] == done + [c];
      ChangesFoldSnoc(start, di, done, c, fn);
      n := n + 1;
    }
    assert di.changedFiles[..n] == di.changedFiles;
  }

  /** The body of the loop over `FileUtils.getAllFiles` in `transform`: one file of the tree. */
  method TransformListedFile(store: OutputStore, di: DirectoryInput, inputFile: FileNode, fn: Option<ClassFunction>)
    modifies store
    ensures store.files == FileStep(old(store.files), di, inputFile, fn)
  {
    var out := ToOutputFile(di.location, di.root, inputFile.path);
    if ClassFilter(Name(inputFile.path)) {
      TransformFile(store, inputFile.bytes, out, fn);
    }
  }

  /** The loop of a full build over a listing of files. */
  method TransformFiles(store: OutputStore, di: DirectoryInput, files: seq<FileNode>, fn: Option<ClassFunction>)
    modifies store
    ensures store.files == FullFold(old(store.files), di, files, fn)
  {
    ghost var start := store.files;
    var n := 0;
    while n < |files|
      invariant 0 <= n <= |files|
      invariant store.files == FullFold(start, di, files[..n], fn)
    {
      var inputFile := files[n];
      TransformListedFile(store, di, inputFile, fn);
      FullFoldTake(start, di, files, n, fn);
      n := n + 1;
    }
    assert files[..n] == files;
  }

  /** A full build of a directory input: the loop over `FileUtils.getAllFiles`. */
  method TransformAllFiles(store: OutputStore, di: DirectoryInput, fn: Option<ClassFunction>)
    modifies store
    ensures store.files == FullFold(old(store.files), di, AllFiles(di.tree), fn)
  {
    var allFiles := AllFiles(di.tree);
    TransformFiles(store, di, allFiles, fn);
  }

  /** The body of the loop over `directoryInputs` in `transform`. */
  method TransformDirectory(store: OutputStore, di: DirectoryInput, incremental: bool, fn: Option<ClassFunction>)
    requires ChangesPresent(di)
    modifies store
    ensures store.files == DirStep(old(store.files), di, incremental, fn)
  {
    if incremental {
      TransformChangedFiles(store, di, fn);
    } else {
      TransformAllFiles(store, di, fn);
    }
  }

  /** The loop over `jarInputs` of one input. */
  method TransformJars(store: OutputStore, jars: seq<JarInput>, incremental: bool, valid: NameCheck, fn: Option<ClassFunction>)
    modifies store
    ensures store.files == JarsFold(old(store.files), jars, incremental, valid, fn)
  {
    ghost var start := store.files;
    var j := 0;
    while j < |jars|
      invariant 0 <= j <= |jars|
      invariant store.files == JarsFold(start, jars[..j], incremental, valid, fn)
    {
      var jarInput := jars[j];
      ghost var done := jars[..j];
      TransformJarInput(store, jarInput, incremental, valid, fn);
      assert jars[..j + 1] == done + [jarInput];
      JarsFoldSnoc(start, done, jarInput, incremental, valid, fn);
      j := j + 1;
    }
    assert jars[..j] == jars;
  }

  /** The loop over `directoryInputs` of one input. */
  method TransformDirectories(store: OutputStore, dirs: seq<DirectoryInput>, incremental: bool, fn: Option<ClassFunction>)
    requires forall d :: d in dirs ==> ChangesPresent(d)
    modifies store
    ensures store.files == DirsFold(old(store.files), dirs, incremental, fn)
  {
    ghost var start := store.files;
    var k := 0;
    while k < |dirs|
      invariant 0 <= k <= |dirs|
      invariant store.files == DirsFold(start, dirs[..k], incremental, fn)
    {
      var directoryInput := dirs[k];
      ghost var done := dirs[..k];
      assert ChangesPresent(directoryInput) by {
        assert directoryInput in dirs;
      }
      TransformDirectory(store, directoryInput, incremental, fn);
      assert dirs[..k + 1] == done + [directoryInput];
      DirsFoldSnoc(start, done, directoryInput, incremental, fn);
      k := k + 1;
    }
    assert dirs[..k] == dirs;
  }

  /** The body of the loop over `inputs` in `transform`: one input's jars, then its directories. */
  method TransformOneInput(store: OutputStore, input: TransformInput, incremental: bool, valid: NameCheck, fn: Option<ClassFunction>)
    requires InputWellFormed(input)
    modifies store
    ensures store.files == InputStep(old(store.files), input, incremental, valid, fn)
  {
    TransformJars(store, input.jarInputs, incremental, valid, fn);
    TransformDirectories(store, input.directoryInputs, incremental, fn);
  }

  /** The loop over `inputs` in `transform`. */
  method TransformInputs(store: OutputStore, inputs: seq<TransformInput>, incremental: bool, valid: NameCheck, fn: Option<ClassFunction>)
    requires InputsWellFormed(inputs)
    modifies store
    ensures store.files == InputsFold(old(store.files), inputs, incremental, valid, fn)
  {
    ghost var start := store.files;
    var i := 0;
    while i < |inputs|
      invariant 0 <= i <= |inputs|
      invariant InputsWellFormed(inputs[..i])
      invariant store.files == InputsFold(start, inputs[..i], incremental, valid, fn)
    {
      var input := inputs[i];
      ghost var done := inputs[..i];
      assert InputWellFormed(input) by {
        assert input in inputs;
      }
      TransformOneInput(store, input, incremental, valid, fn);
      assert inputs[..i + 1] == done + [input];
      InputsFoldSnoc(start, done, input, incremental, valid, fn);
      i := i + 1;
    }
    assert inputs[..i] == inputs;
  }

  /**
   * `transform`: one run of the driver. `provided` is what `provideFunction`
   * returned and `valid` the zip entry name check.
   */
  method Transform(store: OutputStore, inv: Invocation, valid: NameCheck, provided: Option<ClassFunction>)
    requires InputsWellFormed(inv.inputs)
    modifies store
    ensures store.files == RunSpec(old(store.files), inv, valid, provided)
    ensures provided.None? ==> store.files == old(store.files)
    ensures provided.Some? && !inv.isIncremental ==>
              store.files == InputsFold(map[], inv.inputs, false, valid, provided)
  {
    var fn := provided;
    if fn.None? {
      return;
    }
    if !inv.isIncremental {
      store.DeleteAll();
    }
    TransformInputs(store, inv.inputs, inv.isIncremental, valid, fn);
  }
}
