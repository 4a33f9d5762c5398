/** The code index: three tables that `index_project` rebuilds for one project at a time. */
module CodeIndex {
  import opened Sequences
  import opened ModuleResolution

  type FileId = nat

  datatype FileRow = FileRow(id: FileId, project: string, path: string, language: string, digest: string, updatedAt: string)

  /** What the source parser reports of one declaration. */
  datatype Declaration = Declaration(kind: string, name: string, signature: string, lineStart: int, lineEnd: int)

  datatype SymbolRow = SymbolRow(fileId: FileId, declaration: Declaration)

  datatype DependencyRow = DependencyRow(project: string, source: string, target: string, kind: string)

  /** An import as it stands in the source. */
  datatype Import = Import(target: string, kind: string)

  /** One scanned file with what the parser found in it. */
  datatype Scanned = Scanned(path: string, language: string, digest: string, updatedAt: string,
                             declarations: seq<Declaration>, imports: seq<Import>)

  datatype Tables = Tables(files: seq<FileRow>, symbols: seq<SymbolRow>, dependencies: seq<DependencyRow>, nextFile: FileId)

  // ------------------------------------------------------------------- deletions

  function OtherFiles(files: seq<FileRow>, project: string): seq<FileRow> {
    if files == [] then []
    else if files[0].project == project then OtherFiles(files[1..], project)
    else [files[0]] + OtherFiles(files[1..], project)
  }

  function IdsOf(files: seq<FileRow>, project: string): set<FileId> {
    set f | f in files && f.project == project :: f.id
  }

  function OtherSymbols(symbols: seq<SymbolRow>, ids: set<FileId>): seq<SymbolRow> {
    if symbols == [] then []
    else if symbols[0].fileId in ids then OtherSymbols(symbols[1..], ids)
    else [symbols[0]] + OtherSymbols(symbols[1..], ids)
  }

  function OtherDependencies(rows: seq<DependencyRow>, project: string): seq<DependencyRow> {
    if rows == [] then []
    else if rows[0].project == project then OtherDependencies(rows[1..], project)
    else [rows[0]] + OtherDependencies(rows[1..], project)
  }

  /** A deletion keeps exactly the rows of other projects. */
  lemma {:induction false} OtherFilesMembers(files: seq<FileRow>, project: string)
    ensures forall f :: f in OtherFiles(files, project) <==> f in files && f.project != project
  {
    if files != [] {
      OtherFilesMembers(files[1..], project);
      assert forall f :: f in files <==> f == files[0] || f in files[1..];
    }
  }

  lemma {:induction false} OtherSymbolsMembers(symbols: seq<SymbolRow>, ids: set<FileId>)
    ensures forall s :: s in OtherSymbols(symbols, ids) <==> s in symbols && s.fileId !in ids
  {
    if symbols != [] {
      OtherSymbolsMembers(symbols[1..], ids);
      assert forall s :: s in symbols <==> s == symbols[0] || s in symbols[1..];
    }
  }

  lemma {:induction false} OtherDependenciesMembers(rows: seq<DependencyRow>, project: string)
    ensures forall d :: d in OtherDependencies(rows, project) <==> d in rows && d.project != project
  {
    if rows != [] {
      OtherDependenciesMembers(rows[1..], project);
      assert forall d :: d in rows <==> d == rows[0] || d in rows[1..];
    }
  }

  // ------------------------------------- what a scan contributes, whatever was there before

  function Paths(scan: seq<Scanned>): set<string> {
    set f | f in scan :: f.path
  }

  function NewFiles(project: string, scan: seq<Scanned>, first: FileId): (r: seq<FileRow>)
    ensures |r| == |scan|
    ensures forall i | 0 <= i < |scan| ::
      r[i] == FileRow(first + i, project, scan[i].path, scan[i].language, scan[i].digest, scan[i].updatedAt)
  {
    if scan == [] then []
    else
      var last := scan[|scan| - 1];
      NewFiles(project, scan[..|scan| - 1], first)
      + [FileRow(first + |scan| - 1, project, last.path, last.language, last.digest, last.updatedAt)]
  }

  function SymbolsIn(declarations: seq<Declaration>, id: FileId): (r: seq<SymbolRow>)
    ensures |r| == |declarations| && forall i | 0 <= i < |r| :: r[i] == SymbolRow(id, declarations[i])
  {
    if declarations == [] then []
    else SymbolsIn(declarations[..|declarations| - 1], id) + [SymbolRow(id, declarations[|declarations| - 1])]
  }

  function NewSymbols(scan: seq<Scanned>, first: FileId): seq<SymbolRow> {
    if scan == [] then []
    else NewSymbols(scan[..|scan| - 1], first) + SymbolsIn(scan[|scan| - 1].declarations, first + |scan| - 1)
  }

  function Resolved(project: string, known: set<string>, source: string, i: Import): DependencyRow {
    DependencyRow(project, source, Resolve(known, source, i.target), i.kind)
  }

  /** INSERT OR IGNORE under the unique key, which is the whole row. */
  function Inserted(rows: seq<DependencyRow>, row: DependencyRow): seq<DependencyRow> {
    if row in rows then rows else rows + [row]
  }

  function WithImports(rows: seq<DependencyRow>, project: string, known: set<string>, source: string, imports: seq<Import>)
    : seq<DependencyRow>
  {
    if imports == [] then rows
    else
      var n := |imports| - 1;
      Inserted(WithImports(rows, project, known, source, imports[..n]), Resolved(project, known, source, imports[n]))
  }

  function NewDependencies(project: string, known: set<string>, scan: seq<Scanned>): seq<DependencyRow> {
    if scan == [] then []
    else
      var last := scan[|scan| - 1];
      WithImports(NewDependencies(project, known, scan[..|scan| - 1]), project, known, last.path, last.imports)
  }

  /** The imports a scan found, counting repeated ones. */
  function ImportCount(scan: seq<Scanned>): nat {
    if scan == [] then 0 else ImportCount(scan[..|scan| - 1]) + |scan[|scan| - 1].imports|
  }

  /** The tables after indexing: the other projects' rows as they were, then the scan's. */
  function Indexed(t: Tables, project: string, scan: seq<Scanned>): Tables {
    Tables(OtherFiles(t.files, project) + NewFiles(project, scan, t.nextFile),
           OtherSymbols(t.symbols, IdsOf(t.files, project)) + NewSymbols(scan, t.nextFile),
           OtherDependencies(t.dependencies, project) + NewDependencies(project, Paths(scan), scan),
           t.nextFile + |scan|)
  }

  function New(project: string, known: set<string>, scan: seq<Scanned>, first: FileId): Tables {
    Tables(NewFiles(project, scan, first), NewSymbols(scan, first), NewDependencies(project, known, scan), first + |scan|)
  }

  lemma NothingNew(project: string, known: set<string>, scan: seq<Scanned>, first: FileId) returns (r: Tables)
    requires scan == []
    ensures r == New(project, known, scan, first) == Tables([], [], [], first) && ImportCount(scan) == 0
  {
    r := Tables([], [], [], first);
  }

  /** What one more scanned file adds. */
  lemma NewStep(project: string, known: set<string>, scan: seq<Scanned>, i: nat, first: FileId)
    requires i < |scan|
    ensures var before, after := New(project, known, scan[..i], first), New(project, known, scan[..i + 1], first);
      var f := scan[i];
      && after.files == before.files + [FileRow(first + i, project, f.path, f.language, f.digest, f.updatedAt)]
      && after.symbols == before.symbols + SymbolsIn(f.declarations, first + i)
      && after.dependencies == WithImports(before.dependencies, project, known, f.path, f.imports)
      && ImportCount(scan[..i + 1]) == ImportCount(scan[..i]) + |f.imports|
  {
    hide WithImports, Resolve, SymbolsIn, Paths;
    assert scan[..i + 1][..i] == scan[..i] && scan[..i + 1][i] == scan[i];
  }

  // --------------------------------------------------------------------- the class

  predicate DistinctPaths(scan: seq<Scanned>) {
    forall i, j | 0 <= i < j < |scan| :: scan[i].path != scan[j].path
  }

  class Index {
    var files: seq<FileRow>
    var symbols: seq<SymbolRow>
    var dependencies: seq<DependencyRow>
    var nextFile: FileId

    constructor ()
      ensures State() == Tables([], [], [], 0)
    {
      files, symbols, dependencies, nextFile := [], [], [], 0;
    }

    ghost function State(): Tables
      reads this
    {
      Tables(files, symbols, dependencies, nextFile)
    }

    /** Rebuild one project's rows from a scan of its files. */
    method IndexProject(project: string, scan: seq<Scanned>) returns (symbolCount: nat, dependencyCount: nat)
      requires DistinctPaths(scan)
      modifies this
      ensures State() == Indexed(old(State()), project, scan)
      ensures symbolCount == |symbols| - |OtherSymbols(old(symbols), IdsOf(old(files), project))|
      ensures dependencyCount == ImportCount(scan)
    {
      hide NewFiles, NewSymbols, NewDependencies, OtherFiles, OtherSymbols, OtherDependencies, IdsOf, SymbolsIn, WithImports,
           ImportCount, Paths, DistinctPaths;
      OtherDependenciesMembers(dependencies, project);
      dependencies := OtherDependencies(dependencies, project);
      symbols := OtherSymbols(symbols, IdsOf(files, project));
      files := OtherFiles(files, project);
      symbolCount, dependencyCount := 0, 0;
      var known := Paths(scan);
      ghost var others := State();
      ghost var own := NothingNew(project, known, scan[..0], nextFile);
      for i := 0 to |scan|
        invariant nextFile == others.nextFile + i
        invariant own == New(project, known, scan[..i], others.nextFile)
        invariant files == others.files + own.files
        invariant symbols == others.symbols + own.symbols
        invariant dependencies == others.dependencies + own.dependencies
        invariant symbolCount == |own.symbols| && dependencyCount == ImportCount(scan[..i])
      {
        var record := scan[i];
        NewStep(project, known, scan, i, others.nextFile);
        var fileId := nextFile;
        nextFile := nextFile + 1;
        var file := FileRow(fileId, project, record.path, record.language, record.digest, record.updatedAt);
        Assoc(others.files, own.files, [file]);
        Assoc(others.symbols, own.symbols, SymbolsIn(record.declarations, fileId));
        files := files + [file];
        InsertSymbols(fileId, record.declarations);
        InsertDependencies(project, known, record.path, record.imports, others.dependencies, own.dependencies);
        symbolCount := symbolCount + |record.declarations|;
        dependencyCount := dependencyCount + |record.imports|;
        own := New(project, known, scan[..i + 1], others.nextFile);
      }
      assert scan[..|scan|] == scan;
    }

    method InsertSymbols(fileId: FileId, declarations: seq<Declaration>)
      modifies this`symbols
      ensures symbols == old(symbols) + SymbolsIn(declarations, fileId)
    {
      for i := 0 to |declarations|
        invariant symbols == old(symbols) + SymbolsIn(declarations[..i], fileId)
      {
        assert declarations[..i + 1][..i] == declarations[..i];
        symbols := symbols + [SymbolRow(fileId, declarations[i])];
      }
      assert declarations[..|declarations|] == declarations;
    }

    method InsertDependencies(project: string, known: set<string>, source: string, imports: seq<Import>,
                              ghost others: seq<DependencyRow>, ghost own: seq<DependencyRow>)
      requires dependencies == others + own && forall d | d in others :: d.project != project
      modifies this`dependencies
      ensures dependencies == others + WithImports(own, project, known, source, imports)
    {
      for i := 0 to |imports|
        invariant dependencies == others + WithImports(own, project, known, source, imports[..i])
      {
        assert imports[..i + 1][..i] == imports[..i];
        var target := Resolve(known, source, imports[i].target);
        var row := DependencyRow(project, source, target, imports[i].kind);
        if row !in dependencies {
          dependencies := dependencies + [row];
        }
      }
      assert imports[..|imports|] == imports;
    }
  }

  // ----------------------------------------------------------------- the invariant

  predicate DistinctFiles(files: seq<FileRow>) {
    forall i, j | 0 <= i < j < |files| ::
      files[i].id != files[j].id && !(files[i].project == files[j].project && files[i].path == files[j].path)
  }

  predicate DistinctRows(rows: seq<DependencyRow>) {
    forall i, j | 0 <= i < j < |rows| :: rows[i] != rows[j]
  }

  ghost predicate HasFile(files: seq<FileRow>, id: FileId) {
    exists i | 0 <= i < |files| :: files[i].id == id
  }

  /** The keys of the schema, and no symbol without its file. */
  ghost predicate Inv(t: Tables) {
    && DistinctFiles(t.files)
    && (forall i | 0 <= i < |t.files| :: t.files[i].id < t.nextFile)
    && (forall i | 0 <= i < |t.symbols| :: HasFile(t.files, t.symbols[i].fileId))
    && DistinctRows(t.dependencies)
  }

  lemma {:induction false} OtherFilesDistinct(files: seq<FileRow>, project: string)
    requires DistinctFiles(files)
    ensures DistinctFiles(OtherFiles(files, project))
  {
    if files != [] {
      OtherFilesDistinct(files[1..], project);
      OtherFilesMembers(files[1..], project);
      var rest := OtherFiles(files[1..], project);
      forall i | 0 <= i < |rest|
        ensures rest[i].id != files[0].id && !(rest[i].project == files[0].project && rest[i].path == files[0].path)
      {
        assert rest[i] in rest;
        var j :| 0 <= j < |files[1..]| && files[1..][j] == rest[i];
        assert files[j + 1] == rest[i];
      }
    }
  }

  lemma {:induction false} OtherDependenciesDistinct(rows: seq<DependencyRow>, project: string)
    requires DistinctRows(rows)
    ensures DistinctRows(OtherDependencies(rows, project))
  {
    if rows != [] {
      OtherDependenciesDistinct(rows[1..], project);
      OtherDependenciesMembers(rows[1..], project);
      var rest := OtherDependencies(rows[1..], project);
      forall i | 0 <= i < |rest|
        ensures rest[i] != rows[0]
      {
        assert rest[i] in rest;
        var j :| 0 <= j < |rows[1..]| && rows[1..][j] == rest[i];
        assert rows[j + 1] == rest[i];
      }
    }
  }

  ghost predicate ImportedFrom(project: string, known: set<string>, source: string, imports: seq<Import>, d: DependencyRow) {
    exists k | 0 <= k < |imports| :: d == Resolved(project, known, source, imports[k])
  }

  lemma ImportedFromStep(project: string, known: set<string>, source: string, imports: seq<Import>, d: DependencyRow)
    requires imports != []
    ensures var n := |imports| - 1;
      ImportedFrom(project, known, source, imports, d)
      <==> ImportedFrom(project, known, source, imports[..n], d) || d == Resolved(project, known, source, imports[n])
  {
    hide Resolved;
    var n := |imports| - 1;
    if ImportedFrom(project, known, source, imports, d) {
      var k :| 0 <= k < |imports| && d == Resolved(project, known, source, imports[k]);
      if k < n {
        assert imports[..n][k] == imports[k];
      }
    }
    if ImportedFrom(project, known, source, imports[..n], d) {
      var k :| 0 <= k < n && d == Resolved(project, known, source, imports[..n][k]);
      assert imports[..n][k] == imports[k];
    }
  }

  lemma InsertedRows(rows: seq<DependencyRow>, row: DependencyRow)
    requires DistinctRows(rows)
    ensures DistinctRows(Inserted(rows, row)) && forall d :: d in Inserted(rows, row) <==> d in rows || d == row
  {
  }

  /** Exactly the imports of one file, each row once. */
  lemma {:induction false} WithImportsRows(rows: seq<DependencyRow>, project: string, known: set<string>, source: string,
                                           imports: seq<Import>)
    requires DistinctRows(rows)
    ensures var r := WithImports(rows, project, known, source, imports);
      DistinctRows(r) && forall d :: d in r <==> d in rows || ImportedFrom(project, known, source, imports, d)
  {
    if imports != [] {
      hide Resolved, Inserted, ImportedFrom, DistinctRows;
      var n := |imports| - 1;
      WithImportsRows(rows, project, known, source, imports[..n]);
      InsertedRows(WithImports(rows, project, known, source, imports[..n]), Resolved(project, known, source, imports[n]));
      forall d
        ensures d in WithImports(rows, project, known, source, imports)
          <==> d in rows || ImportedFrom(project, known, source, imports, d)
      {
        ImportedFromStep(project, known, source, imports, d);
      }
    }
  }

  ghost predicate Imported(project: string, known: set<string>, scan: seq<Scanned>, d: DependencyRow) {
    exists i, k | 0 <= i < |scan| && 0 <= k < |scan[i].imports| ::
      d == Resolved(project, known, scan[i].path, scan[i].imports[k])
  }

  lemma ImportedStep(project: string, known: set<string>, scan: seq<Scanned>, d: DependencyRow)
    requires scan != []
    ensures var n := |scan| - 1; Imported(project, known, scan, d) <==>
      Imported(project, known, scan[..n], d)
      || ImportedFrom(project, known, scan[n].path, scan[n].imports, d)
  {
    hide Resolved;
    var n := |scan| - 1;
    if Imported(project, known, scan, d) {
      var i, k :| 0 <= i < |scan| && 0 <= k < |scan[i].imports|
        && d == Resolved(project, known, scan[i].path, scan[i].imports[k]);
      if i < n {
        assert scan[..n][i] == scan[i];
      }
    }
    if Imported(project, known, scan[..n], d) {
      var i, k :| 0 <= i < n && 0 <= k < |scan[..n][i].imports|
        && d == Resolved(project, known, scan[..n][i].path, scan[..n][i].imports[k]);
      assert scan[i] == scan[..n][i];
    }
  }

  /** The dependency rows of a project are exactly its resolved imports, each once. */
  lemma {:induction false} DependenciesAreTheImports(project: string, known: set<string>, scan: seq<Scanned>)
    ensures DistinctRows(NewDependencies(project, known, scan))
    ensures forall d :: d in NewDependencies(project, known, scan) <==> Imported(project, known, scan, d)
  {
    hide Resolved, WithImports, ImportedFrom;
    if scan != [] {
      var last := scan[|scan| - 1];
      DependenciesAreTheImports(project, known, scan[..|scan| - 1]);
      WithImportsRows(NewDependencies(project, known, scan[..|scan| - 1]), project, known, last.path, last.imports);
      forall d
        ensures d in NewDependencies(project, known, scan) <==> Imported(project, known, scan, d)
      {
        ImportedStep(project, known, scan, d);
      }
    }
  }

  /** Every target is an indexed path of the scan or the import as written. */
  lemma TargetsAreIndexedOrRaw(project: string, scan: seq<Scanned>, d: DependencyRow)
    requires d in NewDependencies(project, Paths(scan), scan)
    ensures exists i, k | 0 <= i < |scan| && 0 <= k < |scan[i].imports| ::
      d.source == scan[i].path && d.kind == scan[i].imports[k].kind
      && (d.target in Paths(scan) || d.target == scan[i].imports[k].target)
  {
    DependenciesAreTheImports(project, Paths(scan), scan);
    var i, k :| 0 <= i < |scan| && 0 <= k < |scan[i].imports|
      && d == Resolved(project, Paths(scan), scan[i].path, scan[i].imports[k]);
    assert d.source == scan[i].path;
  }

  lemma {:induction false} NewSymbolsHaveFiles(scan: seq<Scanned>, first: FileId)
    ensures forall s | s in NewSymbols(scan, first) :: first <= s.fileId < first + |scan|
  {
    if scan != [] {
      NewSymbolsHaveFiles(scan[..|scan| - 1], first);
    }
  }

  lemma IndexedFiles(t: Tables, project: string, scan: seq<Scanned>)
    requires Inv(t) && DistinctPaths(scan)
    ensures var r := Indexed(t, project, scan);
      DistinctFiles(r.files) && forall i | 0 <= i < |r.files| :: r.files[i].id < r.nextFile
  {
    var others, own := OtherFiles(t.files, project), NewFiles(project, scan, t.nextFile);
    OtherFilesDistinct(t.files, project);
    OtherFilesMembers(t.files, project);
    forall i | 0 <= i < |others|
      ensures others[i].id < t.nextFile && others[i].project != project
    {
      assert others[i] in others;
      var j :| 0 <= j < |t.files| && t.files[j] == others[i];
    }
    assert forall i | 0 <= i < |own| ::
      own[i].id == t.nextFile + i && own[i].project == project && own[i].path == scan[i].path;
  }

  lemma IndexedSymbols(t: Tables, project: string, scan: seq<Scanned>)
    requires Inv(t)
    ensures var r := Indexed(t, project, scan); forall i | 0 <= i < |r.symbols| :: HasFile(r.files, r.symbols[i].fileId)
  {
    var r := Indexed(t, project, scan);
    var n := |OtherFiles(t.files, project)|;
    OtherFilesMembers(t.files, project);
    OtherSymbolsMembers(t.symbols, IdsOf(t.files, project));
    forall i | 0 <= i < |r.symbols|
      ensures HasFile(r.files, r.symbols[i].fileId)
    {
      var s := r.symbols[i];
      if s in NewSymbols(scan, t.nextFile) {
        NewSymbolsHaveFiles(scan, t.nextFile);
        assert r.files[n + (s.fileId - t.nextFile)].id == s.fileId;
      } else {
        assert s in OtherSymbols(t.symbols, IdsOf(t.files, project));
        var j :| 0 <= j < |t.symbols| && t.symbols[j] == s;
        var k :| 0 <= k < |t.files| && t.files[k].id == s.fileId;
        assert t.files[k] in t.files && t.files[k] in OtherFiles(t.files, project);
        var m :| 0 <= m < n && OtherFiles(t.files, project)[m] == t.files[k];
        assert r.files[m] == t.files[k];
      }
    }
  }

  lemma IndexedRows(t: Tables, project: string, scan: seq<Scanned>)
    requires DistinctRows(t.dependencies)
    ensures DistinctRows(Indexed(t, project, scan).dependencies)
  {
    var others, own := OtherDependencies(t.dependencies, project), NewDependencies(project, Paths(scan), scan);
    OtherDependenciesDistinct(t.dependencies, project);
    OtherDependenciesMembers(t.dependencies, project);
    DependenciesAreTheImports(project, Paths(scan), scan);
    forall i, j | 0 <= i < |others| && 0 <= j < |own|
      ensures others[i] != own[j]
    {
      assert others[i] in others && own[j] in own;
    }
  }

  datatype Job = Job(project: string, scan: seq<Scanned>)

  function IndexAll(t: Tables, jobs: seq<Job>): Tables
    decreases jobs
  {
    if jobs == [] then t else IndexAll(Indexed(t, jobs[0].project, jobs[0].scan), jobs[1..])
  }

  /** Over every run of indexing jobs the keys stay unique and no symbol dangles. */
  lemma {:induction false} IndexingKeepsTheSchema(t: Tables, jobs: seq<Job>)
    requires Inv(t) && forall i | 0 <= i < |jobs| :: DistinctPaths(jobs[i].scan)
    ensures Inv(IndexAll(t, jobs))
    decreases jobs
  {
    if jobs != [] {
      hide Indexed, DistinctPaths, DistinctFiles, DistinctRows, HasFile;
      IndexedFiles(t, jobs[0].project, jobs[0].scan);
      IndexedSymbols(t, jobs[0].project, jobs[0].scan);
      IndexedRows(t, jobs[0].project, jobs[0].scan);
      IndexingKeepsTheSchema(Indexed(t, jobs[0].project, jobs[0].scan), jobs[1..]);
    }
  }

  // ---------------------------------------------------------------------- frames

  lemma {:induction false} OthersOfAppended(a: seq<FileRow>, b: seq<FileRow>, project: string)
    requires forall f | f in b :: f.project == project
    ensures OtherFiles(OtherFiles(a, project) + b, project) == OtherFiles(a, project)
    decreases a, b
  {
    var kept := OtherFiles(a, project);
    if a == [] {
      if b != [] {
        OthersOfAppended([], b[1..], project);
        assert [] + b == b && [] + b[1..] == b[1..] && b[0] in b;
      }
    } else {
      OthersOfAppended(a[1..], b, project);
      if a[0].project != project {
        var rest := OtherFiles(a[1..], project);
        Assoc([a[0]], rest, b);
        Uncons([a[0]], rest + b);
      }
    }
  }

  lemma {:induction false} OtherRowsOfAppended(a: seq<DependencyRow>, b: seq<DependencyRow>, project: string)
    requires forall d | d in b :: d.project == project
    ensures OtherDependencies(OtherDependencies(a, project) + b, project) == OtherDependencies(a, project)
    decreases a, b
  {
    if a == [] {
      if b != [] {
        OtherRowsOfAppended([], b[1..], project);
        assert [] + b == b && [] + b[1..] == b[1..] && b[0] in b;
      }
    } else {
      OtherRowsOfAppended(a[1..], b, project);
      if a[0].project != project {
        var rest := OtherDependencies(a[1..], project);
        Assoc([a[0]], rest, b);
        Uncons([a[0]], rest + b);
      }
    }
  }

  lemma {:induction false} OtherSymbolsOfAppended(a: seq<SymbolRow>, b: seq<SymbolRow>, ids: set<FileId>, later: set<FileId>)
    requires forall s | s in b :: s.fileId in later
    requires forall s | s in OtherSymbols(a, ids) :: s.fileId !in later
    ensures OtherSymbols(OtherSymbols(a, ids) + b, later) == OtherSymbols(a, ids)
    decreases a, b
  {
    if a == [] {
      if b != [] {
        OtherSymbolsOfAppended([], b[1..], ids, later);
        assert [] + b == b && [] + b[1..] == b[1..] && b[0] in b;
      }
    } else {
      var rest := OtherSymbols(a[1..], ids);
      if a[0].fileId !in ids {
        assert forall s | s in rest :: s in [a[0]] + rest;
        assert a[0] in [a[0]] + rest;
        OtherSymbolsOfAppended(a[1..], b, ids, later);
        Assoc([a[0]], rest, b);
        Uncons([a[0]], rest + b);
      } else {
        OtherSymbolsOfAppended(a[1..], b, ids, later);
      }
    }
  }

  /** New symbols belong to the files just inserted. */
  lemma NewSymbolsGetFreshIds(t: Tables, project: string, scan: seq<Scanned>)
    ensures forall s | s in NewSymbols(scan, t.nextFile) ::
      s.fileId in IdsOf(Indexed(t, project, scan).files, project)
  {
    var own := NewFiles(project, scan, t.nextFile);
    var files := Indexed(t, project, scan).files;
    NewSymbolsHaveFiles(scan, t.nextFile);
    hide OtherFiles, OtherSymbols, NewSymbols, NewDependencies;
    forall s | s in NewSymbols(scan, t.nextFile)
      ensures s.fileId in IdsOf(files, project)
    {
      var f := own[s.fileId - t.nextFile];
      assert f in files && f.project == project && f.id == s.fileId;
    }
  }

  /** The symbols of other projects belong to older files. */
  lemma OtherSymbolsKeepTheirIds(t: Tables, project: string, scan: seq<Scanned>)
    requires Inv(t)
    ensures forall s | s in OtherSymbols(t.symbols, IdsOf(t.files, project)) ::
      s.fileId !in IdsOf(Indexed(t, project, scan).files, project)
  {
    var own := NewFiles(project, scan, t.nextFile);
    var files := Indexed(t, project, scan).files;
    OtherFilesMembers(t.files, project);
    OtherSymbolsMembers(t.symbols, IdsOf(t.files, project));
    assert forall f | f in own :: f.id >= t.nextFile;
    hide OtherFiles, OtherSymbols, NewFiles, NewSymbols, NewDependencies;
    forall s | s in OtherSymbols(t.symbols, IdsOf(t.files, project))
      ensures s.fileId !in IdsOf(files, project)
    {
      var j :| 0 <= j < |t.symbols| && t.symbols[j] == s;
      var k :| 0 <= k < |t.files| && t.files[k].id == s.fileId;
      assert s.fileId < t.nextFile && forall f | f in files && f.project == project :: f in own;
    }
  }

  /** Indexing one project leaves every other project's rows as they were, in order. */
  lemma OtherProjectsUntouched(t: Tables, project: string, scan: seq<Scanned>)
    requires Inv(t)
    ensures var r := Indexed(t, project, scan);
      && OtherFiles(r.files, project) == OtherFiles(t.files, project)
      && OtherSymbols(r.symbols, IdsOf(r.files, project)) == OtherSymbols(t.symbols, IdsOf(t.files, project))
      && OtherDependencies(r.dependencies, project) == OtherDependencies(t.dependencies, project)
  {
    hide Resolve;
    OthersOfAppended(t.files, NewFiles(project, scan, t.nextFile), project);
    DependenciesAreTheImports(project, Paths(scan), scan);
    OtherRowsOfAppended(t.dependencies, NewDependencies(project, Paths(scan), scan), project);
    NewSymbolsGetFreshIds(t, project, scan);
    OtherSymbolsKeepTheirIds(t, project, scan);
    var ids := IdsOf(Indexed(t, project, scan).files, project);
    OtherSymbolsOfAppended(t.symbols, NewSymbols(scan, t.nextFile), IdsOf(t.files, project), ids);
  }

  /** A rebuild forgets the previous scan of the project: only the file ids it used up remain. */
  lemma RebuildForgetsTheLastScan(t: Tables, project: string, before: seq<Scanned>, scan: seq<Scanned>)
    requires Inv(t)
    ensures Indexed(Indexed(t, project, before), project, scan)
         == Indexed(t.(nextFile := t.nextFile + |before|), project, scan)
  {
    hide NewFiles, NewSymbols, NewDependencies, OtherFiles, OtherSymbols, OtherDependencies, IdsOf;
    OtherProjectsUntouched(t, project, before);
  }

  // ------------------------------------------------------------- what the index holds

  /** The declarations stored for one file, in order. */
  function DeclarationsOf(symbols: seq<SymbolRow>, id: FileId): seq<Declaration> {
    if symbols == [] then []
    else if symbols[0].fileId == id then [symbols[0].declaration] + DeclarationsOf(symbols[1..], id)
    else DeclarationsOf(symbols[1..], id)
  }

  lemma {:induction false} DeclarationsAppend(a: seq<SymbolRow>, b: seq<SymbolRow>, id: FileId)
    ensures DeclarationsOf(a + b, id) == DeclarationsOf(a, id) + DeclarationsOf(b, id)
  {
    if a == [] {
      assert a + b == b;
    } else {
      Uncons(a, b);
      DeclarationsAppend(a[1..], b, id);
      if a[0].fileId == id {
        Assoc([a[0].declaration], DeclarationsOf(a[1..], id), DeclarationsOf(b, id));
      }
    }
  }

  lemma {:induction false} DeclarationsNowhere(symbols: seq<SymbolRow>, id: FileId)
    requires forall s | s in symbols :: s.fileId != id
    ensures DeclarationsOf(symbols, id) == []
  {
    if symbols != [] {
      assert symbols[0] in symbols && forall s | s in symbols[1..] :: s in symbols;
      DeclarationsNowhere(symbols[1..], id);
    }
  }

  lemma {:induction false} DeclarationsOfFile(declarations: seq<Declaration>, id: FileId)
    ensures DeclarationsOf(SymbolsIn(declarations, id), id) == declarations
  {
    if declarations != [] {
      var n := |declarations| - 1;
      DeclarationsOfFile(declarations[..n], id);
      var last := [SymbolRow(id, declarations[n])];
      DeclarationsAppend(SymbolsIn(declarations[..n], id), last, id);
      assert last[1..] == [] && DeclarationsOf(last, id) == [declarations[n]] + DeclarationsOf(last[1..], id);
      assert declarations == declarations[..n] + [declarations[n]];
    }
  }

  lemma {:induction false} DeclarationsOfScan(scan: seq<Scanned>, first: FileId, id: FileId)
    ensures DeclarationsOf(NewSymbols(scan, first), id)
         == if first <= id < first + |scan| then scan[id - first].declarations else []
    decreases |scan|
  {
    hide SymbolsIn, DeclarationsOf;
    if scan != [] {
      var n := |scan| - 1;
      var own := SymbolsIn(scan[n].declarations, first + n);
      DeclarationsOfScan(scan[..n], first, id);
      DeclarationsAppend(NewSymbols(scan[..n], first), own, id);
      DeclarationsOfOne(scan[n].declarations, first + n, id);
      hide NewSymbols;
      assert NewSymbols(scan, first) == NewSymbols(scan[..n], first) + own by { NewSymbolsUnfold(scan, first); }
      assert [] + scan[n].declarations == scan[n].declarations;
    } else {
      NoDeclarations(id);
    }
  }

  lemma NoDeclarations(id: FileId)
    ensures DeclarationsOf([], id) == []
  {
  }

  lemma DeclarationsOfOne(declarations: seq<Declaration>, file: FileId, id: FileId)
    ensures DeclarationsOf(SymbolsIn(declarations, file), id) == if id == file then declarations else []
  {
    if id == file {
      DeclarationsOfFile(declarations, id);
    } else {
      DeclarationsNowhere(SymbolsIn(declarations, file), id);
    }
  }

  lemma NewSymbolsUnfold(scan: seq<Scanned>, first: FileId)
    requires scan != []
    ensures var n := |scan| - 1;
      NewSymbols(scan, first) == NewSymbols(scan[..n], first) + SymbolsIn(scan[n].declarations, first + n)
  {
  }

  lemma OldSymbols(t: Tables, project: string, id: FileId)
    requires Inv(t) && id >= t.nextFile
    ensures DeclarationsOf(OtherSymbols(t.symbols, IdsOf(t.files, project)), id) == []
  {
    var others := OtherSymbols(t.symbols, IdsOf(t.files, project));
    OtherSymbolsMembers(t.symbols, IdsOf(t.files, project));
    forall s | s in others
      ensures s.fileId != id
    {
      var j :| 0 <= j < |t.symbols| && t.symbols[j] == s;
      assert HasFile(t.files, s.fileId);
    }
    DeclarationsNowhere(others, id);
  }

  lemma RowOfScanned(t: Tables, project: string, scan: seq<Scanned>, i: nat)
    requires i < |scan|
    ensures FileRow(t.nextFile + i, project, scan[i].path, scan[i].language, scan[i].digest, scan[i].updatedAt)
         in Indexed(t, project, scan).files
  {
    hide OtherFiles, OtherSymbols, NewSymbols, NewDependencies;
    var own := NewFiles(project, scan, t.nextFile);
    assert own[i] in own;
  }

  lemma StoredDeclarations(t: Tables, project: string, scan: seq<Scanned>, i: nat)
    requires Inv(t) && i < |scan|
    ensures DeclarationsOf(Indexed(t, project, scan).symbols, t.nextFile + i) == scan[i].declarations
  {
    hide OtherFiles, OtherSymbols, NewSymbols, NewDependencies, DeclarationsOf, NewFiles, Inv;
    DeclarationsAppend(OtherSymbols(t.symbols, IdsOf(t.files, project)), NewSymbols(scan, t.nextFile), t.nextFile + i);
    DeclarationsOfScan(scan, t.nextFile, t.nextFile + i);
    OldSymbols(t, project, t.nextFile + i);
    assert [] + scan[i].declarations == scan[i].declarations;
  }

  lemma OnlyScannedRows(t: Tables, project: string, scan: seq<Scanned>)
    ensures forall row | row in Indexed(t, project, scan).files && row.project == project ::
      t.nextFile <= row.id < t.nextFile + |scan| && row.path == scan[row.id - t.nextFile].path
  {
    OtherFilesMembers(t.files, project);
    hide OtherFiles, OtherSymbols, NewSymbols, NewDependencies;
    var own := NewFiles(project, scan, t.nextFile);
    forall row | row in Indexed(t, project, scan).files && row.project == project
      ensures t.nextFile <= row.id < t.nextFile + |scan| && row.path == scan[row.id - t.nextFile].path
    {
      assert row in own;
      var k :| 0 <= k < |own| && own[k] == row;
    }
  }

  /**
   * After indexing, each scanned file has its row, under its own id, with its language, digest and time, and the
   * declarations stored for that id are exactly the file's, in order; and the project has no other file rows.
   */
  lemma IndexHoldsTheScan(t: Tables, project: string, scan: seq<Scanned>, i: nat)
    requires Inv(t) && i < |scan|
    ensures var r, f := Indexed(t, project, scan), scan[i];
      && FileRow(t.nextFile + i, project, f.path, f.language, f.digest, f.updatedAt) in r.files
      && DeclarationsOf(r.symbols, t.nextFile + i) == f.declarations
      && forall row | row in r.files && row.project == project ::
           t.nextFile <= row.id < t.nextFile + |scan| && row.path == scan[row.id - t.nextFile].path
  {
    hide *;
    RowOfScanned(t, project, scan, i);
    StoredDeclarations(t, project, scan, i);
    OnlyScannedRows(t, project, scan);
  }
}
