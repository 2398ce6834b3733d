// The licence tree (scripts/gen_licenses.py): what is generated, the writer that cleans and
// rewrites the tree, and the drift check CI runs against it.
module Licenses {
  import opened Json
  import opened Paths

  const NOTICE: Path := ["NOTICE"]
  const LICENSES: Path := ["LICENSES"]

  datatype Node = File(text: string) | Directory

  // licensing/<cloud> and what lies below it, without symbolic links. [] is that path itself,
  // which need not exist yet, and may be a file.
  type Tree = map<Path, Node>

  predicate IsDirectory(tree: Tree, p: Path) {
    p in tree && tree[p].Directory?
  }

  function Parent(p: Path): Path
    requires p != []
  {
    p[..|p| - 1]
  }

  predicate Rooted(tree: Tree) {
    forall p :: p in tree && p != [] ==> IsDirectory(tree, Parent(p))
  }

  lemma {:induction false} AncestorsAreDirectories(tree: Tree, p: Path, q: Path)
    requires Rooted(tree) && p in tree && q < p
    ensures IsDirectory(tree, q)
    decreases |p|
  {
    if q != Parent(p) {
      assert q < Parent(p);
      AncestorsAreDirectories(tree, Parent(p), q);
    }
  }

  // ---- Generated files ----

  // A generated path is the NOTICE or lies below LICENSES.
  predicate Managed(p: Path) {
    p == NOTICE || LICENSES < p
  }

  predicate Placed(outputs: map<Path, string>) {
    NOTICE in outputs && forall p :: p in outputs ==> Managed(p)
  }

  predicate Writable(outputs: map<Path, string>) {
    Placed(outputs) && forall p, q :: p in outputs && q in outputs ==> !(p < q)
  }

  predicate IsSeparator(c: char) {
    c == '-' || c == '_' || c == '.'
  }

  function Lower(c: char): char {
    if 'A' <= c <= 'Z' then c - 'A' + 'a' else c
  }

  // Every run of separators becomes one hyphen.
  function CanonicalDir(name: string): string {
    if name == "" then ""
    else if !IsSeparator(name[0]) then [Lower(name[0])] + CanonicalDir(name[1..])
    else if |name| > 1 && IsSeparator(name[1]) then CanonicalDir(name[1..])
    else "-" + CanonicalDir(name[1..])
  }

  lemma {:induction false} CanonicalDirIsCanonical(name: string)
    ensures CanonicalDir(CanonicalDir(name)) == CanonicalDir(name)
    ensures name != "" ==> CanonicalDir(name) != "" && IsSeparator(CanonicalDir(name)[0]) == IsSeparator(name[0])
  {
    if name != "" {
      CanonicalDirIsCanonical(name[1..]);
      var head, rest := if IsSeparator(name[0]) then '-' else Lower(name[0]), CanonicalDir(name[1..]);
      assert ([head] + rest)[1..] == rest;
    }
  }

  lemma {:induction false} CanonicalDirIsPlain(name: string)
    ensures
      var dir := CanonicalDir(name);
      && (forall i :: 0 <= i < |dir| ==> !('A' <= dir[i] <= 'Z') && dir[i] != '_' && dir[i] != '.')
      && (forall i, j :: 0 <= i < j == i + 1 < |dir| ==> !(dir[i] == '-' && dir[j] == '-'))
  {
    if name != "" {
      CanonicalDirIsPlain(name[1..]);
      if |name| > 1 { CanonicalDirIsCanonical(name[1..]); }
    }
  }

  // A word keeps its letters, in lower case.
  lemma {:induction false} WordIsLowered(word: string)
    requires forall i :: 0 <= i < |word| ==> !IsSeparator(word[i])
    ensures |CanonicalDir(word)| == |word|
    ensures forall i :: 0 <= i < |word| ==>
      CanonicalDir(word)[i] == if 'A' <= word[i] <= 'Z' then word[i] - 'A' + 'a' else word[i]
  {
    if word != "" {
      WordIsLowered(word[1..]);
    }
  }

  predicate AllSeparators(run: string) {
    forall i :: 0 <= i < |run| ==> run[i] in {'-', '_', '.'}
  }

  lemma {:induction false} LeadingRun(run: string, after: string)
    requires run != "" && AllSeparators(run)
    requires after != "" ==> after[0] !in {'-', '_', '.'}
    ensures CanonicalDir(run + after) == "-" + CanonicalDir(after)
  {
    if |run| > 1 {
      LeadingRun(run[1..], after);
      assert (run + after)[1..] == run[1..] + after;
    } else {
      assert (run + after)[1..] == after;
    }
  }

  // A whole run of separators becomes one hyphen, and what is on either side of it is read
  // on its own.
  lemma {:induction false} RunIsOneHyphen(before: string, run: string, after: string)
    requires run != "" && AllSeparators(run)
    requires before != "" ==> before[|before| - 1] !in {'-', '_', '.'}
    requires after != "" ==> after[0] !in {'-', '_', '.'}
    ensures CanonicalDir(before + run + after) == CanonicalDir(before) + "-" + CanonicalDir(after)
  {
    var name := before + run + after;
    if before == "" {
      LeadingRun(run, after);
      assert name == run + after;
    } else {
      hide AllSeparators;
      RunIsOneHyphen(before[1..], run, after);
      assert name[1..] == before[1..] + run + after;
      assert |before| > 1 ==> name[1] == before[1];
    }
  }

  datatype Package = Package(name: string, licenseFiles: map<Path, string>)

  function OutputPath(package: Package, rel: Path): Path {
    LICENSES + [CanonicalDir(package.name)] + rel
  }

  // The package whose text ends up at a path: the last to have a file there.
  predicate Supplies(packages: seq<Package>, i: nat, rel: Path)
    requires i < |packages|
  {
    && rel in packages[i].licenseFiles
    && forall j :: i < j < |packages| && CanonicalDir(packages[j].name) == CanonicalDir(packages[i].name) ==>
         rel !in packages[j].licenseFiles
  }

  // Every supplied file is there.
  ghost predicate Supplied(outputs: map<Path, string>, packages: seq<Package>) {
    forall i, rel :: 0 <= i < |packages| && Supplies(packages, i, rel) ==>
      OutputPath(packages[i], rel) in outputs && outputs[OutputPath(packages[i], rel)] == packages[i].licenseFiles[rel]
  }

  // And nothing else is, besides the NOTICE.
  ghost predicate Explained(outputs: map<Path, string>, packages: seq<Package>) {
    forall p :: p in outputs && p != NOTICE ==>
      exists i, rel :: 0 <= i < |packages| && Supplies(packages, i, rel) && p == OutputPath(packages[i], rel)
  }

  ghost predicate Generated(outputs: map<Path, string>, notice: string, packages: seq<Package>) {
    NOTICE in outputs && outputs[NOTICE] == notice && Supplied(outputs, packages) && Explained(outputs, packages)
  }

  function PathsOf(package: Package): set<Path> {
    set rel | rel in package.licenseFiles :: OutputPath(package, rel)
  }

  lemma OutputPathOf(package: Package, p: Path)
    ensures p in PathsOf(package) <==>
      |p| >= 2 && p[0] == "LICENSES" && p[1] == CanonicalDir(package.name) && p[2..] in package.licenseFiles
    ensures p in PathsOf(package) ==> p == OutputPath(package, p[2..])
  {
    forall rel | rel in package.licenseFiles
      ensures OutputPath(package, rel)[2..] == rel
    {
    }
    if |p| >= 2 && p[0] == "LICENSES" && p[1] == CanonicalDir(package.name) && p[2..] in package.licenseFiles {
      assert p == OutputPath(package, p[2..]);
    }
  }

  // One package's files laid over the outputs so far.
  ghost predicate Laid(before: map<Path, string>, after: map<Path, string>, package: Package) {
    && after.Keys == before.Keys + PathsOf(package)
    && (forall p :: p in before && p !in PathsOf(package) ==> after[p] == before[p])
    && (forall rel :: rel in package.licenseFiles ==>
          OutputPath(package, rel) in after && after[OutputPath(package, rel)] == package.licenseFiles[rel])
  }

  lemma SuppliesFurther(packages: seq<Package>, i: nat, k: nat, rel: Path)
    requires k <= i < |packages|
    ensures Supplies(packages[..i + 1], k, rel)
       <==> if k == i then rel in packages[i].licenseFiles
            else Supplies(packages[..i], k, rel) && OutputPath(packages[k], rel) !in PathsOf(packages[i])
  {
    OutputPathOf(packages[i], OutputPath(packages[k], rel));
    assert OutputPath(packages[k], rel)[2..] == rel;
    if k < i && Supplies(packages[..i], k, rel) && OutputPath(packages[k], rel) !in PathsOf(packages[i]) {
      assert packages[..i][k] == packages[k];
      forall j | k < j < i + 1 && CanonicalDir(packages[j].name) == CanonicalDir(packages[k].name)
        ensures rel !in packages[j].licenseFiles
      {
        if j < i {
          assert packages[..i][j] == packages[j];
        }
      }
    }
    if k < i && Supplies(packages[..i + 1], k, rel) {
      assert packages[..i + 1][i] == packages[i];
      forall j | k < j < i && CanonicalDir(packages[j].name) == CanonicalDir(packages[k].name)
        ensures rel !in packages[j].licenseFiles
      {
        assert packages[..i + 1][j] == packages[j];
      }
    }
  }

  lemma SuppliedFurther(before: map<Path, string>, after: map<Path, string>, packages: seq<Package>, i: nat)
    requires i < |packages| && Supplied(before, packages[..i]) && Laid(before, after, packages[i])
    ensures Supplied(after, packages[..i + 1])
  {
    var shorter, longer := packages[..i], packages[..i + 1];
    hide Supplies, OutputPath, PathsOf;
    forall k, rel | 0 <= k < |longer| && Supplies(longer, k, rel)
      ensures OutputPath(longer[k], rel) in after && after[OutputPath(longer[k], rel)] == longer[k].licenseFiles[rel]
    {
      SuppliesFurther(packages, i, k, rel);
      assert longer[k] == packages[k];
      if k < i {
        assert shorter[k] == packages[k];
      }
    }
  }

  lemma ExplainedFurther(before: map<Path, string>, after: map<Path, string>, packages: seq<Package>, i: nat)
    requires i < |packages| && Explained(before, packages[..i]) && Laid(before, after, packages[i])
    ensures Explained(after, packages[..i + 1])
  {
    var shorter, longer := packages[..i], packages[..i + 1];
    hide Supplies, OutputPath, PathsOf;
    forall p | p in after && p != NOTICE
      ensures exists k, rel :: 0 <= k < |longer| && Supplies(longer, k, rel) && p == OutputPath(longer[k], rel)
    {
      var k: nat, rel: Path;
      if p in PathsOf(packages[i]) {
        OutputPathOf(packages[i], p);
        k, rel := i, p[2..];
      } else {
        k, rel :| k < |shorter| && Supplies(shorter, k, rel) && p == OutputPath(shorter[k], rel);
        assert shorter[k] == packages[k];
      }
      SuppliesFurther(packages, i, k, rel);
      assert longer[k] == packages[k];
    }
  }

  lemma GeneratedFurther(
    before: map<Path, string>, after: map<Path, string>, notice: string, packages: seq<Package>, i: nat)
    requires i < |packages| && Generated(before, notice, packages[..i]) && Laid(before, after, packages[i])
    ensures Generated(after, notice, packages[..i + 1])
  {
    hide Supplied, Explained, PathsOf;
    SuppliedFurther(before, after, packages, i);
    ExplainedFurther(before, after, packages, i);
    OutputPathOf(packages[i], NOTICE);
  }

  method LayPackage(before: map<Path, string>, package: Package) returns (outputs: map<Path, string>)
    ensures Laid(before, outputs, package)
  {
    outputs := before;
    var todo := package.licenseFiles.Keys;
    while todo != {}
      invariant todo <= package.licenseFiles.Keys
      invariant outputs.Keys
        == before.Keys + set rel | rel in package.licenseFiles && rel !in todo :: OutputPath(package, rel)
      invariant forall p :: p in before && p !in PathsOf(package) ==> outputs[p] == before[p]
      invariant forall rel :: rel in package.licenseFiles && rel !in todo ==>
        outputs[OutputPath(package, rel)] == package.licenseFiles[rel]
      decreases todo
    {
      var rel :| rel in todo;
      forall other | OutputPath(package, other) == OutputPath(package, rel)
        ensures other == rel
      {
        assert other == OutputPath(package, other)[2..] && rel == OutputPath(package, rel)[2..];
      }
      outputs := outputs[OutputPath(package, rel) := package.licenseFiles[rel]];
      todo := todo - {rel};
    }
  }

  // A name used by two packages, or by two spellings of one, goes to the last of them.
  method BuildOutputs(notice: string, packages: seq<Package>) returns (outputs: map<Path, string>)
    requires forall i, rel :: 0 <= i < |packages| && rel in packages[i].licenseFiles ==> rel != []
    ensures Generated(outputs, notice, packages) && Placed(outputs)
  {
    outputs := map[NOTICE := notice];
    for i := 0 to |packages|
      invariant Generated(outputs, notice, packages[..i])
    {
      var before := outputs;
      outputs := LayPackage(before, packages[i]);
      GeneratedFurther(before, outputs, notice, packages, i);
    }
    assert packages[..|packages|] == packages;
  }

  // ---- Changes to the tree ----

  function Prefixes(p: Path): set<Path> {
    set i | 0 <= i <= |p| :: p[..i]
  }

  lemma PrefixesAre(p: Path, q: Path)
    ensures q in Prefixes(p) <==> q <= p
  {
    if q <= p {
      assert q == p[..|q|];
    }
  }

  function WithDirectories(tree: Tree, p: Path): Tree {
    tree + map q | q in Prefixes(p) && q !in tree :: Directory
  }

  predicate CanMakeDirectories(tree: Tree, p: Path) {
    forall q :: q in Prefixes(p) && q in tree ==> tree[q].Directory?
  }

  function WithFile(tree: Tree, p: Path, text: string): Tree
    requires p != []
  {
    WithDirectories(tree, Parent(p))[p := File(text)]
  }

  predicate CanWrite(tree: Tree, p: Path)
    requires p != []
  {
    CanMakeDirectories(tree, Parent(p)) && !IsDirectory(tree, p)
  }

  function Outside(tree: Tree): Tree {
    map p | p in tree && !(LICENSES < p) :: tree[p]
  }

  lemma DirectoriesThere(tree: Tree, p: Path)
    requires Rooted(tree) && IsDirectory(tree, p)
    ensures CanMakeDirectories(tree, p) && WithDirectories(tree, p) == tree
  {
    forall q | q in Prefixes(p)
      ensures IsDirectory(tree, q)
    {
      PrefixesAre(p, q);
      if q != p {
        AncestorsAreDirectories(tree, p, q);
      }
    }
  }

  // Nothing lies below a path that is not there.
  lemma NothingBelowNothing(tree: Tree)
    requires Rooted(tree) && [] !in tree
    ensures tree == map[]
  {
    forall p
      ensures p !in tree
    {
      if p in tree {
        AncestorsAreDirectories(tree, p, []);
      }
    }
  }

  lemma FirstDirectory(tree: Tree)
    requires tree == map[]
    ensures CanMakeDirectories(tree, []) && WithDirectories(tree, []) == tree[[] := Directory]
    ensures Rooted(tree[[] := Directory])
  {
    forall q
      ensures q in Prefixes([]) <==> q == []
    {
      PrefixesAre([], q);
    }
  }

  lemma OneMoreDirectory(tree: Tree, p: Path)
    requires p != [] && p !in tree
    ensures CanMakeDirectories(tree, p) <==> CanMakeDirectories(tree, Parent(p))
    ensures WithDirectories(tree, p) == WithDirectories(tree, Parent(p))[p := Directory]
  {
    forall q
      ensures q in Prefixes(p) <==> q == p || q in Prefixes(Parent(p))
    {
      PrefixesAre(p, q);
      PrefixesAre(Parent(p), q);
    }
  }

  lemma MadeDirectoriesAreRooted(tree: Tree, p: Path)
    requires Rooted(tree) && CanMakeDirectories(tree, p)
    ensures Rooted(WithDirectories(tree, p)) && IsDirectory(WithDirectories(tree, p), p)
  {
    var after := WithDirectories(tree, p);
    PrefixesAre(p, p);
    forall q | q in after && q != []
      ensures IsDirectory(after, Parent(q))
    {
      PrefixesAre(p, q);
      PrefixesAre(p, Parent(q));
    }
  }

  lemma WrittenFileIsRooted(tree: Tree, p: Path, text: string)
    requires Rooted(tree) && p != [] && CanWrite(tree, p)
    ensures Rooted(WithFile(tree, p, text))
  {
    MadeDirectoriesAreRooted(tree, Parent(p));
    var made := WithDirectories(tree, Parent(p));
    PrefixesAre(Parent(p), p);
    assert !IsDirectory(made, p);
  }

  predicate NothingInside(tree: Tree, p: Path) {
    forall q :: q in tree ==> !(p < q)
  }

  // What is left when the entries of `order` from i on have been deleted.
  function Remaining(tree: Tree, order: seq<Path>, i: nat): Tree
    requires i <= |order|
  {
    map p | p in tree && (LICENSES < p ==> p in order[..i]) :: tree[p]
  }

  lemma DeletionIsSafe(tree: Tree, order: seq<Path>, i: nat)
    requires i < |order| && IsSorted(order) && (forall p :: p in order <==> p in tree && LICENSES < p)
    ensures order[i] in Remaining(tree, order, i + 1)
    ensures Remaining(tree, order, i) == Remaining(tree, order, i + 1) - {order[i]}
    ensures NothingInside(Remaining(tree, order, i + 1), order[i])
  {
    assert order[i] in order && order[..i + 1] == order[..i] + [order[i]];
    if order[i] in order[..i] {
      var j :| 0 <= j < i && order[j] == order[i];
      Order(order[j], order[i], order[j]);
    }
    var left := Remaining(tree, order, i + 1);
    forall p | p in left
      ensures !(order[i] < p)
    {
      if order[i] < p {
        assert LICENSES < order[i];
        assert LICENSES < p;
        var j :| 0 <= j < i + 1 && order[j] == p;
        DescendantsComeLater(order, i, j);
      }
    }
  }

  lemma OutsideIsRooted(tree: Tree)
    requires Rooted(tree)
    ensures Rooted(Outside(tree))
    ensures LICENSES !in tree ==> Outside(tree) == tree
  {
    forall p | p in tree && LICENSES < p
      ensures IsDirectory(tree, LICENSES)
    {
      AncestorsAreDirectories(tree, p, LICENSES);
    }
  }

  // ---- What the writer leaves and the drift check compares ----

  // read_text translates newlines; write_text does not.
  function Universal(text: string): string {
    if text == "" then ""
    else if text[0] != '\r' then [text[0]] + Universal(text[1..])
    else "\n" + Universal(if |text| > 1 && text[1] == '\n' then text[2..] else text[1..])
  }

  // Texts are translated piece by piece, unless a pair is cut in two.
  lemma {:induction false} UniversalJoins(before: string, after: string)
    requires before == "" || after == "" || before[|before| - 1] != '\r' || after[0] != '\n'
    ensures Universal(before + after) == Universal(before) + Universal(after)
  {
    var text := before + after;
    if before == "" {
      assert text == after;
    } else {
      assert text[1..] == before[1..] + after;
      if before[0] == '\r' && |before| > 1 && before[1] == '\n' {
        assert text[2..] == before[2..] + after;
        UniversalJoins(before[2..], after);
      } else {
        UniversalJoins(before[1..], after);
      }
    }
  }

  // A carriage return, with or without the newline after it, reads as one newline.
  lemma PairIsNewline(before: string, after: string)
    ensures Universal(before + "\r\n" + after) == Universal(before) + "\n" + Universal(after)
  {
    var rest := "\r\n" + after;
    assert rest[2..] == after;
    assert Universal(rest) == "\n" + Universal(after);
    assert before + "\r\n" + after == before + rest;
    UniversalJoins(before, rest);
  }

  lemma LoneReturnIsNewline(before: string, after: string)
    requires after != "" ==> after[0] != '\n'
    ensures Universal(before + "\r" + after) == Universal(before) + "\n" + Universal(after)
  {
    var rest := "\r" + after;
    assert rest[1..] == after;
    assert Universal(rest) == "\n" + Universal(after);
    assert before + "\r" + after == before + rest;
    UniversalJoins(before, rest);
  }

  lemma {:induction false} UniversalKeeps(text: string)
    ensures '\r' !in Universal(text)
    ensures '\r' !in text ==> Universal(text) == text
  {
    if text != "" {
      if text[0] != '\r' {
        UniversalKeeps(text[1..]);
      } else {
        UniversalKeeps(if |text| > 1 && text[1] == '\n' then text[2..] else text[1..]);
      }
    }
  }

  // The generated files of a tree: its NOTICE and all files below LICENSES.
  function Files(tree: Tree): map<Path, string> {
    map p | p in tree && tree[p].File? && Managed(p) :: tree[p].text
  }

  // The same as the drift check reads them.
  function Committed(tree: Tree): map<Path, string> {
    map p | p in Files(tree) :: Universal(Files(tree)[p])
  }

  predicate IsFile(tree: Tree, p: Path) {
    p in tree && tree[p].File?
  }

  // Nothing can be written into a file; else the NOTICE can unless a directory has its name,
  // and any other output unless a file has the name LICENSES.
  predicate Possible(tree: Tree, p: Path) {
    !IsFile(tree, []) && if p == NOTICE then !IsDirectory(tree, NOTICE) else !IsFile(tree, LICENSES)
  }

  predicate Contains(p: Path, files: set<Path>) {
    exists q :: q in files && p < q
  }

  // The tree once some outputs have been written into the cleaned one.
  ghost predicate Progress(start: Tree, tree: Tree, outputs: map<Path, string>, done: set<Path>) {
    && Rooted(tree)
    && done <= outputs.Keys
    && (forall p :: p in done ==> p in tree && tree[p] == File(outputs[p]))
    && (forall p :: p in start && p !in done ==> p in tree && tree[p] == start[p])
    && (forall p :: p in tree && p !in done && p !in start ==>
          tree[p].Directory? && (p == [] || (LICENSES <= p && Contains(p, done))))
  }

  // Neither of the two paths above the outputs becomes a file, or stops being one.
  lemma FilesAboveStay(start: Tree, tree: Tree, outputs: map<Path, string>, done: set<Path>, p: Path)
    requires Progress(start, tree, outputs, done) && Placed(outputs) && (p == [] || p == LICENSES)
    ensures IsFile(tree, p) <==> IsFile(start, p)
  {
    hide Rooted, Contains;
    assert p !in done;
  }

  // What lies between LICENSES and an output is a directory, if it is there at all.
  lemma BetweenAreDirectories(
    start: Tree, tree: Tree, outputs: map<Path, string>, done: set<Path>, rel: Path, q: Path)
    requires Progress(start, tree, outputs, done) && Writable(outputs) && NothingInside(start, LICENSES)
    requires rel in outputs && LICENSES < q < rel && q in tree
    ensures tree[q].Directory?
  {
    hide Rooted, Contains;
    assert q !in done && q !in start;
  }

  lemma NoticeIsPossible(start: Tree, tree: Tree, outputs: map<Path, string>, done: set<Path>)
    requires Progress(start, tree, outputs, done) && Writable(outputs) && NOTICE !in done
    ensures CanWrite(tree, NOTICE) <==> Possible(start, NOTICE)
  {
    FilesAboveStay(start, tree, outputs, done, []);
    forall q
      ensures q in Prefixes(Parent(NOTICE)) <==> q == []
    {
      PrefixesAre(Parent(NOTICE), q);
    }
    hide Rooted, Contains, Prefixes;
    NoticeIsApart();
  }

  lemma NoticeIsApart()
    ensures !(LICENSES <= NOTICE) && LICENSES != NOTICE
  {
    assert |LICENSES[0]| == 8 && |NOTICE[0]| == 6;
  }

  lemma NotYetThere(
    start: Tree, tree: Tree, outputs: map<Path, string>, done: set<Path>, rel: Path)
    requires Progress(start, tree, outputs, done) && Writable(outputs) && NothingInside(start, LICENSES)
    requires rel in outputs && rel !in done && LICENSES < rel
    ensures rel !in tree
  {
    hide Rooted;
    assert rel !in start && !Contains(rel, done);
  }

  lemma WritingSucceedsIffPossible(start: Tree, tree: Tree, outputs: map<Path, string>, done: set<Path>, rel: Path)
    requires Progress(start, tree, outputs, done) && Writable(outputs) && NothingInside(start, LICENSES)
    requires rel in outputs && rel !in done
    ensures CanWrite(tree, rel) <==> Possible(start, rel)
  {
    if rel == NOTICE {
      NoticeIsPossible(start, tree, outputs, done);
    } else {
      var parent := Parent(rel);
      FilesAboveStay(start, tree, outputs, done, []);
      FilesAboveStay(start, tree, outputs, done, LICENSES);
      NotYetThere(start, tree, outputs, done, rel);
      PrefixesAre(parent, []);
      PrefixesAre(parent, LICENSES);
      hide Progress, NothingInside;
      forall q | q in Prefixes(parent) && q in tree && q != LICENSES && q != []
        ensures tree[q].Directory?
      {
        PrefixesAre(parent, q);
        assert q <= parent < rel && q[0] == rel[0];
        BetweenAreDirectories(start, tree, outputs, done, rel, q);
      }
    }
  }

  // What writing adds besides the file are directories above it.
  lemma NewEntries(start: Tree, tree: Tree, outputs: map<Path, string>, done: set<Path>, rel: Path, p: Path)
    requires Progress(start, tree, outputs, done) && Placed(outputs) && rel in outputs
    requires p in WithFile(tree, rel, outputs[rel]) && p !in done + {rel} && p !in start
    ensures WithFile(tree, rel, outputs[rel])[p].Directory?
    ensures p == [] || (LICENSES <= p && Contains(p, done + {rel}))
  {
    hide Rooted;
    if p != [] {
      if p in tree {
        var q :| q in done && p < q;
        assert q in done + {rel};
      } else {
        PrefixesAre(Parent(rel), p);
        assert p < rel && rel in done + {rel};
        assert rel == NOTICE ==> p == [];
      }
    }
  }

  lemma WritingKeepsTheRest(tree: Tree, p: Path, text: string)
    requires p != []
    ensures p in WithFile(tree, p, text) && WithFile(tree, p, text)[p] == File(text)
    ensures forall q :: q in tree && q != p ==> q in WithFile(tree, p, text) && WithFile(tree, p, text)[q] == tree[q]
  {
  }

  lemma WritingProgresses(start: Tree, tree: Tree, outputs: map<Path, string>, done: set<Path>, rel: Path)
    requires Progress(start, tree, outputs, done) && Writable(outputs)
    requires rel in outputs && rel !in done && CanWrite(tree, rel)
    ensures Progress(start, WithFile(tree, rel, outputs[rel]), outputs, done + {rel})
  {
    assert rel != [] && Placed(outputs);
    hide Rooted, Contains, CanWrite, Prefixes, Managed, WithFile, Writable, Placed, LICENSES;
    var after := WithFile(tree, rel, outputs[rel]);
    WrittenFileIsRooted(tree, rel, outputs[rel]);
    WritingKeepsTheRest(tree, rel, outputs[rel]);
    forall p | p in after && p !in done + {rel} && p !in start
      ensures after[p].Directory? && (p == [] || (LICENSES <= p && Contains(p, done + {rel})))
    {
      NewEntries(start, tree, outputs, done, rel, p);
    }
  }

  lemma NothingWritten(start: Tree, outputs: map<Path, string>)
    requires Rooted(start)
    ensures Progress(start, start, outputs, {})
  {
  }

  lemma NoEmptyPath(outputs: map<Path, string>)
    requires Writable(outputs)
    ensures forall p :: p in outputs ==> p != []
  {
  }

  lemma PossibleAfterCleaning(tree: Tree, outputs: map<Path, string>)
    ensures forall p :: p in outputs ==> (Possible(Outside(tree), p) <==> Possible(tree, p))
  {
  }

  lemma WrittenFiles(start: Tree, tree: Tree, outputs: map<Path, string>)
    requires Progress(start, tree, outputs, outputs.Keys) && Writable(outputs) && NothingInside(start, LICENSES)
    ensures Files(tree) == outputs
  {
    hide Rooted, Contains;
    forall p
      ensures p in Files(tree) <==> p in outputs
    {
      if p in tree && p !in outputs && p in start {
        assert !(LICENSES < p);
      }
    }
  }

  lemma RestUntouched(start: Tree, tree: Tree, outputs: map<Path, string>, p: Path)
    requires Progress(start, tree, outputs, outputs.Keys) && Placed(outputs)
    requires !Managed(p) && p != LICENSES && p != []
    ensures (p in tree <==> p in start) && (p in tree ==> tree[p] == start[p])
  {
    hide Rooted, Contains;
    assert p !in outputs && !(LICENSES <= p);
  }

  lemma WrittenTree(start: Tree, tree: Tree, outputs: map<Path, string>)
    requires Progress(start, tree, outputs, outputs.Keys) && Writable(outputs) && NothingInside(start, LICENSES)
    ensures Files(tree) == outputs
    ensures IsDirectory(tree, [])
    ensures forall p :: !Managed(p) && p != LICENSES && p != [] ==>
      (p in tree <==> p in start) && (p in tree ==> tree[p] == start[p])
  {
    WrittenFiles(start, tree, outputs);
    AncestorsAreDirectories(tree, NOTICE, []);
    hide Progress, Files, Managed, NothingInside;
    forall p | !Managed(p) && p != LICENSES && p != []
      ensures (p in tree <==> p in start) && (p in tree ==> tree[p] == start[p])
    {
      RestUntouched(start, tree, outputs, p);
    }
  }

  lemma CommittedIsFaithful(tree: Tree, outputs: map<Path, string>)
    requires Files(tree) == outputs
    ensures Committed(tree) == outputs <==> forall p :: p in outputs ==> '\r' !in outputs[p]
  {
    forall p | p in outputs
      ensures Universal(outputs[p]) == outputs[p] <==> '\r' !in outputs[p]
    {
      UniversalKeeps(outputs[p]);
    }
    if Committed(tree) == outputs {
      forall p | p in outputs ensures '\r' !in outputs[p] {
        assert Committed(tree)[p] == Universal(outputs[p]);
      }
    }
  }

  datatype Drift = Missing(path: Path) | Changed(path: Path) | Stale(path: Path)

  ghost predicate Reports(tree: Tree, outputs: map<Path, string>, drift: set<Drift>) {
    && (forall p :: Missing(p) in drift <==> p in outputs && p !in tree)
    && (forall p :: Changed(p) in drift <==>
          p in outputs && p in tree && tree[p].File? && Universal(tree[p].text) != outputs[p])
    && (forall p :: Stale(p) in drift <==> p in Files(tree) && p !in outputs)
  }

  // What comparing some of the outputs reports.
  ghost predicate Compared(tree: Tree, outputs: map<Path, string>, some: set<Path>, drift: set<Drift>) {
    && (forall p :: Missing(p) in drift <==> p in some && p in outputs && p !in tree)
    && (forall p :: Changed(p) in drift <==>
          p in some && p in outputs && p in tree && tree[p].File? && Universal(tree[p].text) != outputs[p])
    && (forall p :: Stale(p) !in drift)
  }

  lemma ReportsBoth(tree: Tree, outputs: map<Path, string>, found: set<Drift>, stale: set<Drift>, onDisk: set<Path>)
    requires Placed(outputs) && Compared(tree, outputs, outputs.Keys, found)
    requires forall p :: p != NOTICE ==> (p in onDisk <==> p in Files(tree))
    requires stale == set p | p in onDisk && p !in outputs :: Stale(p)
    ensures Reports(tree, outputs, found + stale)
  {
    hide Files, Universal, Managed;
  }

  lemma DirectoryIsDrift(tree: Tree, outputs: map<Path, string>)
    requires exists p :: p in outputs && IsDirectory(tree, p)
    ensures Committed(tree) != outputs
  {
    var p :| p in outputs && IsDirectory(tree, p);
    assert p !in Committed(tree);
  }

  lemma NoDriftMeansSame(tree: Tree, outputs: map<Path, string>, drift: set<Drift>)
    requires Placed(outputs) && Reports(tree, outputs, drift)
    requires forall p :: p in outputs ==> !IsDirectory(tree, p)
    ensures drift == {} <==> Committed(tree) == outputs
  {
    if drift == {} {
      forall p | p in outputs
        ensures p in Committed(tree) && Committed(tree)[p] == outputs[p]
      {
        assert Missing(p) !in drift && Changed(p) !in drift;
      }
      forall p | p in Committed(tree)
        ensures p in outputs
      {
        assert Stale(p) !in drift;
      }
    }
    if Committed(tree) == outputs {
      forall d: Drift
        ensures d !in drift
      {
        var p := d.path;
        assert p in outputs ==> Committed(tree)[p] == Universal(tree[p].text);
        assert p in Files(tree) ==> p in Committed(tree);
      }
    }
  }

  class FileTree {
    var nodes: Tree

    constructor (nodes: Tree)
      ensures this.nodes == nodes
    {
      this.nodes := nodes;
    }

    method Unlink(p: Path)
      requires p in nodes && nodes[p].File?
      modifies this
      ensures nodes == old(nodes) - {p}
    {
      nodes := nodes - {p};
    }

    // rmdir refuses a directory that is not empty.
    method Rmdir(p: Path)
      requires IsDirectory(nodes, p) && NothingInside(nodes, p)
      modifies this
      ensures nodes == old(nodes) - {p}
    {
      nodes := nodes - {p};
    }

    // mkdir(parents=True, exist_ok=True); false when it raises.
    method MakeDirectories(p: Path) returns (ok: bool)
      requires Rooted(nodes)
      modifies this
      ensures ok <==> CanMakeDirectories(old(nodes), p)
      ensures nodes == if ok then WithDirectories(old(nodes), p) else old(nodes)
      ensures Rooted(nodes)
      decreases |p|
    {
      PrefixesAre(p, p);
      if p in nodes {
        ok := nodes[p].Directory?;
        if ok {
          DirectoriesThere(nodes, p);
        }
      } else if p == [] {
        NothingBelowNothing(nodes);
        FirstDirectory(nodes);
        ok := true;
        nodes := nodes[p := Directory];
      } else {
        OneMoreDirectory(nodes, p);
        ok := MakeDirectories(Parent(p));
        if ok {
          MadeDirectoriesAreRooted(old(nodes), p);
          nodes := nodes[p := Directory];
        }
      }
    }

    // mkdir of the parent, then write_text; false when either raises.
    method WriteFile(p: Path, text: string) returns (ok: bool)
      requires Rooted(nodes) && p != []
      modifies this
      ensures ok <==> CanWrite(old(nodes), p)
      ensures ok ==> nodes == WithFile(old(nodes), p, text)
      ensures Rooted(nodes)
    {
      ok := MakeDirectories(Parent(p));
      PrefixesAre(Parent(p), p);
      if ok {
        ok := !(p in nodes && nodes[p].Directory?);
        if ok {
          WrittenFileIsRooted(old(nodes), p, text);
          nodes := nodes[p := File(text)];
        }
      }
    }

    // The clean-up of write_outputs: each rmdir meets an empty directory, and nothing is left
    // below LICENSES.
    method CleanLicenses()
      requires Rooted(nodes)
      modifies this
      ensures nodes == Outside(old(nodes)) && Rooted(nodes)
    {
      if LICENSES in nodes {
        var order := Sorted(set p | p in nodes && LICENSES < p);
        var i := |order|;
        assert order[..i] == order;
        while i > 0
          invariant 0 <= i <= |order|
          invariant nodes == Remaining(old(nodes), order, i)
        {
          i := i - 1;
          DeletionIsSafe(old(nodes), order, i);
          var child := order[i];
          if nodes[child].File? {
            Unlink(child);
          } else {
            Rmdir(child);
          }
        }
      }
      OutsideIsRooted(old(nodes));
    }

    // The order of a dict is its insertion order; here any order is allowed. False when
    // something that is in the way makes it raise.
    method WriteOutputs(outputs: map<Path, string>) returns (written: bool)
      requires Rooted(nodes) && Writable(outputs)
      modifies this
      ensures Rooted(nodes)
      ensures written <==> forall p :: p in outputs ==> Possible(old(nodes), p)
      ensures written ==> Files(nodes) == outputs
      ensures written ==> IsDirectory(nodes, [])
      ensures written ==> forall p :: !Managed(p) && p != LICENSES && p != [] ==>
        (p in nodes <==> p in old(nodes)) && (p in nodes ==> nodes[p] == old(nodes)[p])
    {
      CleanLicenses();
      ghost var start := nodes;
      PossibleAfterCleaning(old(nodes), outputs);
      assert NothingInside(start, LICENSES);
      hide Rooted, Possible, CanWrite, WithFile, Progress, Files, Managed, NothingInside, Writable;
      assert Progress(start, nodes, outputs, {}) by { NothingWritten(start, outputs); }
      assert forall p :: p in outputs ==> p != [] by { NoEmptyPath(outputs); }
      assert outputs.Keys - outputs.Keys == {};
      var todo := outputs.Keys;
      while todo != {}
        invariant todo <= outputs.Keys && Progress(start, nodes, outputs, outputs.Keys - todo)
        invariant forall p :: p in outputs && p !in todo ==> Possible(start, p)
        decreases todo
      {
        var rel :| rel in todo;
        WritingSucceedsIffPossible(start, nodes, outputs, outputs.Keys - todo, rel);
        if CanWrite(nodes, rel) {
          WritingProgresses(start, nodes, outputs, outputs.Keys - todo, rel);
        }
        assert outputs.Keys - (todo - {rel}) == (outputs.Keys - todo) + {rel};
        var ok := WriteFile(rel, outputs[rel]);
        if !ok {
          return false;
        }
        todo := todo - {rel};
      }
      assert outputs.Keys - todo == outputs.Keys;
      WrittenTree(start, nodes, outputs);
      return true;
    }

    // find_drift's first loop. None when an output's path is a directory, which cannot be
    // read.
    method CompareOutputs(outputs: map<Path, string>) returns (found: Option<set<Drift>>)
      ensures found.None? <==> exists p :: p in outputs && IsDirectory(nodes, p)
      ensures found.Some? ==> Compared(nodes, outputs, outputs.Keys, found.value)
    {
      hide Universal;
      var drift: set<Drift> := {};
      var todo := outputs.Keys;
      while todo != {}
        invariant todo <= outputs.Keys
        invariant forall p :: p in outputs && p !in todo ==> !IsDirectory(nodes, p)
        invariant Compared(nodes, outputs, outputs.Keys - todo, drift)
        decreases todo
      {
        var rel :| rel in todo;
        if rel !in nodes {
          drift := drift + {Missing(rel)};
        } else if nodes[rel].Directory? {
          return None;
        } else if Universal(nodes[rel].text) != outputs[rel] {
          drift := drift + {Changed(rel)};
        }
        todo := todo - {rel};
      }
      assert outputs.Keys - todo == outputs.Keys;
      return Some(drift);
    }

    method ListOnDisk() returns (onDisk: set<Path>)
      requires Rooted(nodes)
      ensures forall p :: p != NOTICE ==> (p in onDisk <==> p in Files(nodes))
    {
      onDisk := if NOTICE in nodes then {NOTICE} else {};
      if LICENSES in nodes {
        onDisk := onDisk + set p | p in nodes && LICENSES < p && nodes[p].File?;
      }
      forall p | p != NOTICE
        ensures p in onDisk <==> p in Files(nodes)
      {
        if p in nodes && LICENSES < p {
          AncestorsAreDirectories(nodes, p, LICENSES);
        }
      }
    }

    method FindDrift(outputs: map<Path, string>) returns (drift: Option<set<Drift>>)
      requires Rooted(nodes) && Placed(outputs)
      ensures drift.None? <==> exists p :: p in outputs && IsDirectory(nodes, p)
      ensures drift.Some? ==> Reports(nodes, outputs, drift.value)
      ensures drift == Some({}) <==> Committed(nodes) == outputs
    {
      var found := CompareOutputs(outputs);
      if found.None? {
        DirectoryIsDrift(nodes, outputs);
        return None;
      }
      var onDisk := ListOnDisk();
      var stale := set p | p in onDisk && p !in outputs :: Stale(p);
      ReportsBoth(nodes, outputs, found.value, stale, onDisk);
      NoDriftMeansSame(nodes, outputs, found.value + stale);
      return Some(found.value + stale);
    }
  }

  // Writing into any tree and then checking finds nothing, exactly when no text holds a
  // carriage return.
  method Regenerate(tree: FileTree, outputs: map<Path, string>) returns (written: bool, drift: Option<set<Drift>>)
    requires Rooted(tree.nodes) && Writable(outputs)
    modifies tree
    ensures written <==> forall p :: p in outputs ==> Possible(old(tree.nodes), p)
    ensures written ==> (drift == Some({}) <==> forall p :: p in outputs ==> '\r' !in outputs[p])
  {
    written := tree.WriteOutputs(outputs);
    drift := None;
    if written {
      drift := tree.FindDrift(outputs);
      CommittedIsFaithful(tree.nodes, outputs);
    }
  }

  // Texts that were themselves read with newlines translated, as the extractor reads the
  // licence files of an image, never drift.
  lemma TranslatedTextsNeverDrift(tree: Tree, outputs: map<Path, string>, originals: map<Path, string>)
    requires Files(tree) == outputs && outputs.Keys == originals.Keys
    requires forall p :: p in outputs ==> outputs[p] == Universal(originals[p])
    ensures Committed(tree) == outputs
  {
    CommittedIsFaithful(tree, outputs);
    forall p | p in outputs
      ensures '\r' !in outputs[p]
    {
      UniversalKeeps(originals[p]);
    }
  }

  // The exception, on the NOTICE alone.
  lemma CarriageReturnDrifts(tree: Tree)
    requires Files(tree) == map[NOTICE := "a\r\nb"]
    ensures Committed(tree)[NOTICE] == "a\nb"
  {
    assert Universal("b") == "b";
    assert "a\r\nb"[1..] == "\r\nb" && "\r\nb"[2..] == "b";
    assert Universal("\r\nb") == "\n" + Universal("b");
    assert Universal("a\r\nb") == "a" + Universal("\r\nb");
  }
}
