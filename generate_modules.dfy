/**
 * The module scaffolding script (template/scripts/generateModules.js): read
 * the `--name` argument, refuse an existing module, and create six
 * sub-directories with one file each. The file system is a map from paths
 * (sequences of path segments) to nodes; the template texts are a parameter.
 */
module ModuleGenerator {
  import opened Wrappers
  import opened PascalCase

  // ------------------------------------------------------------ arguments

  /** What `getModuleName` produces: a name, `process.exit(1)` for a missing
      name, or the `TypeError` that `toPascalCase` throws. */
  datatype NameOutcome = Named(pascal: string) | MissingName | NameCrash

  /** `argv.indexOf(x)`: the first index holding `x`. */
  function IndexOf(argv: seq<string>, x: string): (r: Option<nat>)
    ensures r.Some? ==> r.value < |argv| && argv[r.value] == x
                        && forall j :: 0 <= j < r.value ==> argv[j] != x
    ensures r.None? ==> x !in argv
  {
    if argv == [] then None
    else if argv[0] == x then Some(0)
    else match IndexOf(argv[1..], x)
      case None => None
      case Some(i) => Some(i + 1)
  }

  /** `getModuleName()`: the argument after the first `--name`, in PascalCase.
      A missing or empty argument (`undefined` or `""` is falsy) exits. */
  function ModuleName(argv: seq<string>): (r: NameOutcome) {
    match IndexOf(argv, "--name")
    case None => MissingName
    case Some(i) =>
      if i + 1 >= |argv| || argv[i + 1] == "" then MissingName
      else match ToPascalCase(argv[i + 1])
        case None => NameCrash
        case Some(p) => Named(p)
  }

  /** The name comes from the argument after the FIRST `--name`; without a
      non-empty one the script exits. */
  lemma ModuleNameUsesFirstFlag(argv: seq<string>)
    ensures ModuleName(argv).MissingName? <==>
      ("--name" !in argv || (IndexOf(argv, "--name").Some? &&
         (IndexOf(argv, "--name").value + 1 >= |argv| || argv[IndexOf(argv, "--name").value + 1] == "")))
    ensures ModuleName(argv).Named? ==>
      exists i :: 0 <= i < |argv| - 1 && argv[i] == "--name" && "--name" !in argv[..i]
                  && ToPascalCase(argv[i + 1]) == Some(ModuleName(argv).pascal)
  {
    var r := IndexOf(argv, "--name");
    if r.Some? {
      var i := r.value;
      assert forall x :: x in argv[..i] ==> x != "--name";
    }
  }

  // ----------------------------------------------------------------- trim

  /** The characters `String.prototype.trim` removes: white space and line
      terminators of ECMAScript. */
  predicate IsJsSpace(c: char) {
    || c == '\t' || c == '\n' || c == '\U{000B}' || c == '\U{000C}' || c == '\r' || c == ' '
    || c == '\U{00A0}' || c == '\U{1680}' || ('\U{2000}' <= c <= '\U{200A}')
    || c == '\U{2028}' || c == '\U{2029}' || c == '\U{202F}' || c == '\U{205F}'
    || c == '\U{3000}' || c == '\U{FEFF}'
  }

  function TrimStart(s: string): string {
    if s != [] && IsJsSpace(s[0]) then TrimStart(s[1..]) else s
  }

  function TrimEnd(s: string): string {
    if s != [] && IsJsSpace(s[|s| - 1]) then TrimEnd(s[..|s| - 1]) else s
  }

  /** `s.trim()`: the middle of `s` between leading and trailing white space. */
  function Trim(s: string): string {
    TrimEnd(TrimStart(s))
  }

  /** `TrimStart` drops a prefix of white space and stops at the first other
      character. */
  lemma {:induction false} TrimStartCuts(s: string)
    ensures var r := TrimStart(s);
      && |r| <= |s| && r == s[|s| - |r|..]
      && (forall k :: 0 <= k < |s| - |r| ==> IsJsSpace(s[k]))
      && (r == [] || !IsJsSpace(r[0]))
  {
    if s != [] && IsJsSpace(s[0]) {
      TrimStartCuts(s[1..]);
      var r := TrimStart(s[1..]);
      assert s[1..][|s| - 1 - |r|..] == s[|s| - |r|..];
      forall k | 1 <= k < |s| - |r| ensures IsJsSpace(s[k]) {
        assert s[k] == s[1..][k - 1];
      }
    }
  }

  /** `TrimEnd` drops a suffix of white space and stops at the last other
      character. */
  lemma {:induction false} TrimEndCuts(s: string)
    ensures var r := TrimEnd(s);
      && |r| <= |s| && r == s[..|r|]
      && (forall k :: |r| <= k < |s| ==> IsJsSpace(s[k]))
      && (r == [] || !IsJsSpace(r[|r| - 1]))
  {
    if s != [] && IsJsSpace(s[|s| - 1]) {
      TrimEndCuts(s[..|s| - 1]);
      var r := TrimEnd(s[..|s| - 1]);
      assert s[..|s| - 1][..|r|] == s[..|r|];
      forall k | |r| <= k < |s| - 1 ensures IsJsSpace(s[k]) {
        assert s[k] == s[..|s| - 1][k];
      }
    }
  }

  /** The trimmed text is a slice of the input, everything cut off is white
      space, and it neither starts nor ends with white space. */
  lemma TrimCutsOnlySpace(s: string)
    ensures exists a, b :: 0 <= a <= b <= |s| && Trim(s) == s[a..b]
              && (forall k :: 0 <= k < a ==> IsJsSpace(s[k]))
              && (forall k :: b <= k < |s| ==> IsJsSpace(s[k]))
    ensures Trim(s) == [] || (!IsJsSpace(Trim(s)[0]) && !IsJsSpace(Trim(s)[|Trim(s)| - 1]))
  {
    TrimStartCuts(s);
    var t := TrimStart(s);
    TrimEndCuts(t);
    var a := |s| - |t|;
    var r := TrimEnd(t);
    var b := a + |r|;
    assert r == s[a..b];
    forall k | b <= k < |s| ensures IsJsSpace(s[k]) {
      assert s[k] == t[k - a];
    }
    if r != [] {
      assert r[0] == t[0];
    }
  }

  lemma {:induction false} TrimStartOfTrimmed(s: string)
    requires s == [] || (!IsJsSpace(s[0]) && !IsJsSpace(s[|s| - 1]))
    ensures Trim(s) == s
  {
  }

  /** Trimming twice is trimming once. */
  lemma TrimIdempotent(s: string)
    ensures Trim(Trim(s)) == Trim(s)
  {
    TrimCutsOnlySpace(s);
    TrimStartOfTrimmed(Trim(s));
  }

  // ------------------------------------------------------------ structure

  /** The six kinds of generated file. */
  datatype Kind = Entity | Controller | Repository | Route | Service | Validation

  /** The six sub-directories and their one file each, in the source's order:
      `(directory, [(file name, untrimmed content)])`. */
  function Structure(pascal: string, lower: string, templates: (Kind, string, string) -> string)
    : (s: seq<(string, seq<(string, string)>)>)
  {
    [ ("entity",     [(lower + ".entity.ts",     templates(Entity, pascal, lower))]),
      ("http",       [(lower + ".controller.ts", templates(Controller, pascal, lower))]),
      ("repository", [(lower + ".repository.ts", templates(Repository, pascal, lower))]),
      ("route",      [(lower + ".route.ts",      templates(Route, pascal, lower))]),
      ("services",   [(lower + ".service.ts",    templates(Service, pascal, lower))]),
      ("validation", [(lower + ".validation.ts", templates(Validation, pascal, lower))]) ]
  }

  /** Directory names pairwise different, one file per directory. */
  predicate WellShaped(s: seq<(string, seq<(string, string)>)>) {
    && (forall i, j :: 0 <= i < j < |s| ==> s[i].0 != s[j].0)
    && (forall i :: 0 <= i < |s| ==> |s[i].1| == 1)
  }

  const ModulesBase: seq<string> := ["src", "Modules"]

  function ModulePath(pascal: string): (p: seq<string>)
    ensures |p| == 3 && p[..2] == ModulesBase && p[2] == pascal
  {
    ModulesBase + [pascal]
  }

  /**
   * The plan: six directories with one file each, named
   * `<lower>.<kind>.ts`; the directory names are pairwise different.
   */
  lemma StructureShape(pascal: string, lower: string, templates: (Kind, string, string) -> string)
    ensures var s := Structure(pascal, lower, templates);
      && |s| == 6 && WellShaped(s)
      && [s[0].0, s[1].0, s[2].0, s[3].0, s[4].0, s[5].0]
         == ["entity", "http", "repository", "route", "services", "validation"]
      && s[1].1[0].0 == lower + ".controller.ts"
      && s[4].1[0].0 == lower + ".service.ts"
  {
    var names := ["entity", "http", "repository", "route", "services", "validation"];
    assert names[0] != names[1] && names[0] != names[2] && names[0] != names[3];
    assert names[2] != names[3] && names[2] != names[5] by {
      assert names[2][0] != names[3][1];
      assert names[2][0] != names[5][0];
    }
    assert names[3] != names[4] && names[4] != names[5];
  }

  // ---------------------------------------------------------- file system

  type Path = seq<string>

  datatype Node = Directory | File(content: string)

  /** Every proper prefix of a path in the map is a directory in it. */
  ghost predicate Valid(e: map<Path, Node>) {
    forall p, k :: p in e && 0 < k < |p| ==> p[..k] in e && e[p[..k]] == Directory
  }

  function Parent(p: Path): Path
    requires |p| > 0
  {
    p[..|p| - 1]
  }

  /** The parent of `p` exists as a directory (the working directory for a
      one-segment path). */
  predicate ParentIsDirectory(e: map<Path, Node>, p: Path)
    requires |p| > 0
  {
    |p| == 1 || (Parent(p) in e && e[Parent(p)] == Directory)
  }

  /** `fs.mkdirSync(p, { recursive: true })`: every missing prefix becomes a
      directory; an existing non-directory prefix fails and changes nothing. */
  function MkdirAll(e: map<Path, Node>, p: Path): (r: (bool, map<Path, Node>))
    ensures !r.0 ==> r.1 == e
  {
    if |p| == 0 then (true, e)
    else
      var (ok, e1) := MkdirAll(e, p[..|p| - 1]);
      if !ok then (false, e)
      else if p in e1 then (if e1[p] == Directory then (true, e1) else (false, e))
      else (true, e1[p := Directory])
  }

  /** The file-system calls the script makes. */
  datatype Op = MkDir(path: Path, recursive: bool) | WriteFile(path: Path, content: string)

  /** One call: success and the new state, or failure (the call throws) and
      the old state. `mkdirSync` fails on an existing path or a missing
      parent; `writeFileSync` fails on a missing parent or a directory. */
  function Step(e: map<Path, Node>, op: Op): (r: (bool, map<Path, Node>))
    ensures !r.0 ==> r.1 == e
  {
    match op
    case MkDir(p, recursive) =>
      if recursive then MkdirAll(e, p)
      else if |p| == 0 || p in e || !ParentIsDirectory(e, p) then (false, e)
      else (true, e[p := Directory])
    case WriteFile(p, c) =>
      if |p| == 0 || !ParentIsDirectory(e, p) || (p in e && e[p] == Directory) then (false, e)
      else (true, e[p := File(c)])
  }

  /** The calls in order; the first that throws stops the script. */
  function Run(e: map<Path, Node>, ops: seq<Op>): (bool, map<Path, Node>) {
    if ops == [] then (true, e)
    else
      var (ok, e1) := Run(e, ops[..|ops| - 1]);
      if !ok then (false, e1) else Step(e1, ops[|ops| - 1])
  }

  /** The writes of one directory's files, with contents trimmed. */
  function FileOps(dir: Path, files: seq<(string, string)>): seq<Op> {
    if files == [] then []
    else FileOps(dir, files[..|files| - 1])
         + [WriteFile(dir + [files[|files| - 1].0], Trim(files[|files| - 1].1))]
  }

  /** The calls of the nested loop over the structure. */
  function PlanOf(m: Path, s: seq<(string, seq<(string, string)>)>): seq<Op> {
    if s == [] then []
    else
      var last := s[|s| - 1];
      PlanOf(m, s[..|s| - 1]) + [MkDir(m + [last.0], false)] + FileOps(m + [last.0], last.1)
  }

  datatype RunOutcome = Created(pascal: string) | Exited(code: int) | Crashed

  /** The calls `main` makes for a module name once the module directory is
      known to be absent. */
  function ScaffoldOps(pascal: string, templates: (Kind, string, string) -> string): seq<Op> {
    var m := ModulePath(pascal);
    [MkDir(m, true)] + PlanOf(m, Structure(pascal, LowerAll(pascal), templates))
  }

  /** `main()` after `getModuleName()`: the outcome and the final file system. */
  function ScaffoldSpec(pascal: string, e: map<Path, Node>, templates: (Kind, string, string) -> string)
    : (RunOutcome, map<Path, Node>)
  {
    if ModulePath(pascal) in e then (Exited(1), e)
    else
      var (ok, e1) := Run(e, ScaffoldOps(pascal, templates));
      (if ok then Created(pascal) else Crashed, e1)
  }

  /** `main()`: the outcome and the final file system. */
  function GenerateSpec(argv: seq<string>, e: map<Path, Node>, templates: (Kind, string, string) -> string)
    : (RunOutcome, map<Path, Node>)
  {
    match ModuleName(argv)
    case MissingName => (Exited(1), e)
    case NameCrash => (Crashed, e)
    case Named(pascal) => ScaffoldSpec(pascal, e, templates)
  }

  // ------------------------------------------------------ Run properties

  lemma {:induction false} RunFailureStops(e: map<Path, Node>, a: seq<Op>, b: seq<Op>)
    requires !Run(e, a).0
    ensures Run(e, a + b) == Run(e, a)
    decreases |b|
  {
    if b == [] {
      assert a + b == a;
    } else {
      var b' := b[..|b| - 1];
      assert (a + b)[..|a + b| - 1] == a + b';
      RunFailureStops(e, a, b');
    }
  }

  lemma {:induction false} RunAppend(e: map<Path, Node>, a: seq<Op>, b: seq<Op>)
    requires Run(e, a).0
    ensures Run(e, a + b) == Run(Run(e, a).1, b)
    decreases |b|
  {
    if b == [] {
      assert a + b == a;
    } else {
      var b' := b[..|b| - 1];
      assert (a + b)[..|a + b| - 1] == a + b';
      RunAppend(e, a, b');
    }
  }

  lemma RunSnoc(e: map<Path, Node>, a: seq<Op>, op: Op)
    ensures Run(e, a + [op]) == (if Run(e, a).0 then Step(Run(e, a).1, op) else Run(e, a))
  {
    assert (a + [op])[..|a|] == a;
  }

  // ---------------------------------------------------------- the method

  /** The file system the script works on. */
  class FileSystem {
    var entries: map<Path, Node>

    constructor (entries: map<Path, Node>)
      ensures this.entries == entries
    {
      this.entries := entries;
    }

    /** `fs.existsSync(p)`. */
    method ExistsSync(p: Path) returns (b: bool)
      ensures b <==> p in entries
    {
      b := p in entries;
    }

    /** `fs.mkdirSync(p, { recursive })`; `ok` is false when it throws. */
    method MkdirSync(p: Path, recursive: bool) returns (ok: bool)
      modifies this
      ensures (ok, entries) == Step(old(entries), MkDir(p, recursive))
    {
      var r := Step(entries, MkDir(p, recursive));
      ok, entries := r.0, r.1;
    }

    /** `fs.writeFileSync(p, content)`; `ok` is false when it throws. */
    method WriteFileSync(p: Path, content: string) returns (ok: bool)
      modifies this
      ensures (ok, entries) == Step(old(entries), WriteFile(p, content))
    {
      var r := Step(entries, WriteFile(p, content));
      ok, entries := r.0, r.1;
    }
  }

  /**
   * `main()`: resolve the name, stop with exit code 1 if the module
   * directory exists, then create it and walk the structure. A call that
   * throws ends the script.
   */
  method Generate(argv: seq<string>, templates: (Kind, string, string) -> string, fs: FileSystem)
    returns (outcome: RunOutcome)
    modifies fs
    ensures (outcome, fs.entries) == GenerateSpec(argv, old(fs.entries), templates)
  {
    var name := ModuleName(argv);
    if name.MissingName? {
      return Exited(1);
    }
    if name.NameCrash? {
      return Crashed;
    }
    outcome := Scaffold(name.pascal, templates, fs);
  }

  /** The part of `main()` after the name is known. */
  method Scaffold(pascal: string, templates: (Kind, string, string) -> string, fs: FileSystem)
    returns (outcome: RunOutcome)
    modifies fs
    ensures (outcome, fs.entries) == ScaffoldSpec(pascal, old(fs.entries), templates)
  {
    var lower := LowerAll(pascal);
    var modulePath := ModulePath(pascal);
    var found := fs.ExistsSync(modulePath);
    if found {
      return Exited(1);
    }
    var structure := Structure(pascal, lower, templates);
    ghost var e0 := fs.entries;
    ghost var first := [MkDir(modulePath, true)];
    var ok := fs.MkdirSync(modulePath, true);
    assert Run(e0, first) == Step(e0, MkDir(modulePath, true)) by { assert first[..0] == []; }
    if !ok {
      RunFailureStops(e0, first, PlanOf(modulePath, structure));
      return Crashed;
    }
    ok := CreateAll(fs, modulePath, structure);
    RunAppend(e0, first, PlanOf(modulePath, structure));
    outcome := if ok then Created(pascal) else Crashed;
  }

  /** The nested loop of `main()` over any structure: one directory and then
      its files at a time. */
  method CreateAll(fs: FileSystem, modulePath: Path, structure: seq<(string, seq<(string, string)>)>)
    returns (ok: bool)
    modifies fs
    ensures (ok, fs.entries) == Run(old(fs.entries), PlanOf(modulePath, structure))
  {
    ghost var e0 := fs.entries;
    for i := 0 to |structure|
      invariant Run(e0, PlanOf(modulePath, structure[..i])) == (true, fs.entries)
    {
      var (dir, files) := structure[i];
      ghost var e1 := fs.entries;
      ghost var done := PlanOf(modulePath, structure[..i]);
      ok := CreateDirectory(fs, modulePath + [dir], files);
      assert structure[..i + 1][..i] == structure[..i];
      assert PlanOf(modulePath, structure[..i + 1]) == done + ([MkDir(modulePath + [dir], false)] + FileOps(modulePath + [dir], files));
      RunAppend(e0, done, [MkDir(modulePath + [dir], false)] + FileOps(modulePath + [dir], files));
      if !ok {
        PlanPrefix(modulePath, structure, i + 1);
        FailedPrefix(e0, PlanOf(modulePath, structure[..i + 1]), PlanOf(modulePath, structure));
        return false;
      }
    }
    assert structure[..|structure|] == structure;
    ok := true;
  }

  /** A write that throws ends the directory's remaining writes too. */
  lemma FailedWriteStops(e: map<Path, Node>, first: seq<Op>, dirPath: Path, files: seq<(string, string)>, k: nat)
    requires k <= |files| && !Run(e, first + FileOps(dirPath, files[..k])).0
    ensures Run(e, first + FileOps(dirPath, files)) == Run(e, first + FileOps(dirPath, files[..k]))
  {
    assert files[..k] + files[k..] == files;
    FileOpsAppend(dirPath, files[..k], files[k..]);
    FailedPrefix(e, first + FileOps(dirPath, files[..k]), first + FileOps(dirPath, files));
  }

  /** One directory of the structure: `fs.mkdirSync(dirPath)`, then each file
      written with its content trimmed. */
  method CreateDirectory(fs: FileSystem, dirPath: Path, files: seq<(string, string)>)
    returns (ok: bool)
    modifies fs
    ensures (ok, fs.entries) == Run(old(fs.entries), [MkDir(dirPath, false)] + FileOps(dirPath, files))
  {
    ghost var e0 := fs.entries;
    ghost var first := [MkDir(dirPath, false)];
    ok := fs.MkdirSync(dirPath, false);
    assert Run(e0, first) == Step(e0, MkDir(dirPath, false)) by { assert first[..0] == []; }
    if !ok {
      RunFailureStops(e0, first, FileOps(dirPath, files));
      return false;
    }
    for j := 0 to |files|
      invariant Run(e0, first + FileOps(dirPath, files[..j])) == (true, fs.entries)
    {
      var (file, content) := files[j];
      ghost var done := first + FileOps(dirPath, files[..j]);
      ok := fs.WriteFileSync(dirPath + [file], Trim(content));
      assert files[..j + 1][..j] == files[..j];
      assert first + FileOps(dirPath, files[..j + 1]) == done + [WriteFile(dirPath + [file], Trim(content))];
      RunSnoc(e0, done, WriteFile(dirPath + [file], Trim(content)));
      if !ok {
        FailedWriteStops(e0, first, dirPath, files, j + 1);
        return false;
      }
    }
    assert files[..|files|] == files;
  }

  lemma {:induction false} FileOpsAppend(dir: Path, a: seq<(string, string)>, b: seq<(string, string)>)
    ensures FileOps(dir, a + b) == FileOps(dir, a) + FileOps(dir, b)
    decreases |b|
  {
    if b == [] {
      assert a + b == a;
    } else {
      var b' := b[..|b| - 1];
      assert (a + b)[..|a + b| - 1] == a + b';
      FileOpsAppend(dir, a, b');
    }
  }

  /** The plan of a prefix of the structure is a prefix of the plan. */
  lemma {:induction false} PlanPrefix(m: Path, s: seq<(string, seq<(string, string)>)>, n: nat)
    requires n <= |s|
    ensures PlanOf(m, s[..n]) <= PlanOf(m, s)
    decreases |s| - n
  {
    if n < |s| {
      PlanPrefix(m, s, n + 1);
      assert s[..n + 1][..n] == s[..n];
    } else {
      assert s[..n] == s;
    }
  }

  /** Once a call in a prefix of the calls has thrown, the rest never runs. */
  lemma FailedPrefix(e: map<Path, Node>, a: seq<Op>, full: seq<Op>)
    requires a <= full && !Run(e, a).0
    ensures Run(e, full) == Run(e, a)
  {
    assert full == a + full[|a|..];
    RunFailureStops(e, a, full[|a|..]);
  }

  // ------------------------------------------------ what a run creates

  /** `q` lies strictly inside directory `m`. */
  predicate Under(q: Path, m: Path) {
    |q| > |m| && q[..|m|] == m
  }

  /** A directory of the structure and its one file exist in `e`. */
  predicate Installed(e: map<Path, Node>, m: Path, entry: (string, seq<(string, string)>)) {
    && |entry.1| == 1
    && m + [entry.0] in e && e[m + [entry.0]] == Directory
    && m + [entry.0] + [entry.1[0].0] in e
    && e[m + [entry.0] + [entry.1[0].0]] == File(Trim(entry.1[0].1))
  }

  /** `q` is one of the paths the structure plans under `m`. */
  predicate Planned(q: Path, m: Path, s: seq<(string, seq<(string, string)>)>) {
    exists j :: 0 <= j < |s| && |s[j].1| > 0 &&
      (q == m + [s[j].0] || q == m + [s[j].0] + [s[j].1[0].0])
  }

  lemma {:induction false} MkdirAllCreates(e: map<Path, Node>, p: Path)
    requires forall k :: 0 < k <= |p| ==> p[..k] !in e || e[p[..k]] == Directory
    ensures MkdirAll(e, p).0
    ensures var e1 := MkdirAll(e, p).1;
      && (forall q :: q in e ==> q in e1 && e1[q] == e[q])
      && (forall k :: 0 < k <= |p| ==> p[..k] in e1 && e1[p[..k]] == Directory)
      && (forall q :: q in e1 ==> q in e || (0 < |q| <= |p| && q == p[..|q|]))
    decreases |p|
  {
    if |p| > 0 {
      var p' := p[..|p| - 1];
      forall k | 0 < k <= |p'| ensures p'[..k] !in e || e[p'[..k]] == Directory {
        assert p'[..k] == p[..k];
      }
      MkdirAllCreates(e, p');
      var e1 := MkdirAll(e, p').1;
      assert p[..|p|] == p;
      var e2 := if p in e1 then e1 else e1[p := Directory];
      assert p in e1 ==> p in e && e1[p] == Directory;
      assert MkdirAll(e, p) == (true, e2);
      forall k | 0 < k <= |p| ensures p[..k] in e2 && e2[p[..k]] == Directory {
        if k < |p| {
          assert p'[..k] == p[..k];
        }
      }
      forall q | q in e2 ensures q in e || (0 < |q| <= |p| && q == p[..|q|]) {
        if q != p && q !in e {
          assert q == p'[..|q|] == p[..|q|];
        }
      }
    }
  }

  /** A path inside `m` whose first component no earlier directory of the
      structure uses is neither an old entry nor an earlier planned one. */
  lemma NotYetCreated(e: map<Path, Node>, m: Path, prev: seq<(string, seq<(string, string)>)>,
                      e1: map<Path, Node>, x: Path)
    requires forall q :: q in e ==> !Under(q, m)
    requires forall q :: q in e1 ==> q in e || Planned(q, m, prev)
    requires Under(x, m) && forall j :: 0 <= j < |prev| ==> prev[j].0 != x[|m|]
    ensures x !in e1
  {
    forall j | 0 <= j < |prev| && |prev[j].1| > 0
      ensures x != m + [prev[j].0] && x != m + [prev[j].0] + [prev[j].1[0].0]
    {
      assert (m + [prev[j].0])[|m|] == prev[j].0;
      assert (m + [prev[j].0] + [prev[j].1[0].0])[|m|] == prev[j].0;
    }
  }

  /** Installing a directory with one file under new names keeps what was
      installed before. */
  lemma InstalledKept(e1: map<Path, Node>, m: Path, entry: (string, seq<(string, string)>),
                      d: Path, f: Path, e3: map<Path, Node>)
    requires Installed(e1, m, entry)
    requires Under(d, m) && Under(f, m) && d[|m|] != entry.0 && f[|m|] != entry.0
    requires forall q :: q in e1 ==> q in e3 && (q != d && q != f ==> e3[q] == e1[q])
    ensures Installed(e3, m, entry)
  {
    assert (m + [entry.0])[|m|] == entry.0;
    assert (m + [entry.0] + [entry.1[0].0])[|m|] == entry.0;
  }

  /** A new directory whose parent exists, with one new file in it. */
  lemma DirectoryWithFile(e1: map<Path, Node>, d: Path, files: seq<(string, string)>)
    requires |d| > 1 && |files| == 1
    requires Parent(d) in e1 && e1[Parent(d)] == Directory
    requires d !in e1 && d + [files[0].0] !in e1
    ensures Run(e1, [MkDir(d, false)] + FileOps(d, files))
         == (true, e1[d := Directory][d + [files[0].0] := File(Trim(files[0].1))])
  {
    var f := d + [files[0].0];
    var c := Trim(files[0].1);
    assert files[..0] == [];
    assert FileOps(d, files) == [WriteFile(f, c)];
    assert Parent(f) == d;
    RunSnoc(e1, [], MkDir(d, false));
    assert [] + [MkDir(d, false)] + [WriteFile(f, c)] == [MkDir(d, false)] + FileOps(d, files);
    RunSnoc(e1, [] + [MkDir(d, false)], WriteFile(f, c));
  }

  /** `e1` with a structure entry's directory and its first file added. */
  function WithEntry(e1: map<Path, Node>, m: Path, entry: (string, seq<(string, string)>)): map<Path, Node>
    requires |entry.1| > 0
  {
    e1[m + [entry.0] := Directory][m + [entry.0] + [entry.1[0].0] := File(Trim(entry.1[0].1))]
  }

  lemma EntryInstalled(e1: map<Path, Node>, m: Path, entry: (string, seq<(string, string)>))
    requires |entry.1| == 1
    ensures Installed(WithEntry(e1, m, entry), m, entry)
  {
    assert |m + [entry.0] + [entry.1[0].0]| != |m + [entry.0]|;
  }

  /** Creating the last planned directory and its file succeeds. */
  lemma InstallRun(e: map<Path, Node>, m: Path, s: seq<(string, seq<(string, string)>)>, e1: map<Path, Node>)
    requires |s| > 0 && WellShaped(s) && |m| > 0
    requires m in e && e[m] == Directory
    requires forall q :: q in e ==> !Under(q, m)
    requires forall q :: q in e ==> q in e1 && e1[q] == e[q]
    requires forall q :: q in e1 ==> q in e || Planned(q, m, s[..|s| - 1])
    ensures var d := m + [s[|s| - 1].0];
      Run(e1, [MkDir(d, false)] + FileOps(d, s[|s| - 1].1)) == (true, WithEntry(e1, m, s[|s| - 1]))
  {
    var n := |s| - 1;
    var prev := s[..n];
    var last := s[n];
    var d := m + [last.0];
    var f := d + [last.1[0].0];
    assert Under(d, m) && Under(f, m) && d[|m|] == last.0 && f[|m|] == last.0 by {
      assert d[..|m|] == m && f[..|m|] == m;
    }
    assert forall j :: 0 <= j < |prev| ==> prev[j].0 != last.0;
    NotYetCreated(e, m, prev, e1, d);
    NotYetCreated(e, m, prev, e1, f);
    DirectoryWithFile(e1, d, last.1);
  }

  /** After the last planned directory and file are added, the old entries
      are intact, every entry of the structure is installed and every key is
      old or planned. */
  lemma InstallKeeps(e: map<Path, Node>, m: Path, s: seq<(string, seq<(string, string)>)>, e1: map<Path, Node>)
    requires |s| > 0 && WellShaped(s) && |m| > 0
    requires forall q :: q in e ==> !Under(q, m)
    requires forall q :: q in e ==> q in e1 && e1[q] == e[q]
    requires forall j :: 0 <= j < |s| - 1 ==> Installed(e1, m, s[j])
    requires forall q :: q in e1 ==> q in e || Planned(q, m, s[..|s| - 1])
    ensures var e3 := WithEntry(e1, m, s[|s| - 1]);
      && (forall q :: q in e ==> q in e3 && e3[q] == e[q])
      && (forall j :: 0 <= j < |s| ==> Installed(e3, m, s[j]))
      && (forall q :: q in e3 ==> q in e || Planned(q, m, s))
  {
    var n := |s| - 1;
    var last := s[n];
    var d := m + [last.0];
    var f := d + [last.1[0].0];
    var e3 := WithEntry(e1, m, last);
    assert Under(d, m) && Under(f, m) && d[|m|] == last.0 && f[|m|] == last.0 by {
      assert d[..|m|] == m && f[..|m|] == m;
    }
    forall j | 0 <= j < |s| ensures Installed(e3, m, s[j]) {
      if j < n {
        InstalledKept(e1, m, s[j], d, f, e3);
      } else {
        EntryInstalled(e1, m, last);
      }
    }
    PlannedGrows(e, m, s, e1, e3);
  }

  /** Adding the last entry's directory and file keeps every key planned. */
  lemma PlannedGrows(e: map<Path, Node>, m: Path, s: seq<(string, seq<(string, string)>)>,
                     e1: map<Path, Node>, e3: map<Path, Node>)
    requires |s| > 0 && |s[|s| - 1].1| > 0
    requires forall q :: q in e1 ==> q in e || Planned(q, m, s[..|s| - 1])
    requires e3.Keys == e1.Keys + {m + [s[|s| - 1].0], m + [s[|s| - 1].0] + [s[|s| - 1].1[0].0]}
    ensures forall q :: q in e3 ==> q in e || Planned(q, m, s)
  {
    var n := |s| - 1;
    forall q | q in e3 ensures q in e || Planned(q, m, s) {
      if q in e1 && q !in e {
        var j :| 0 <= j < n && |s[..n][j].1| > 0 &&
          (q == m + [s[..n][j].0] || q == m + [s[..n][j].0] + [s[..n][j].1[0].0]);
        assert s[..n][j] == s[j];
      }
    }
  }

  /** Walking a well-shaped structure inside an existing, empty directory
      creates every planned directory and file, keeps everything else, and
      creates nothing more. */
  lemma {:induction false} RunPlanCreates(e: map<Path, Node>, m: Path, s: seq<(string, seq<(string, string)>)>)
    requires m in e && e[m] == Directory && |m| > 0
    requires forall q :: q in e ==> !Under(q, m)
    requires WellShaped(s)
    ensures Run(e, PlanOf(m, s)).0
    ensures var e2 := Run(e, PlanOf(m, s)).1;
      && (forall q :: q in e ==> q in e2 && e2[q] == e[q])
      && (forall j :: 0 <= j < |s| ==> Installed(e2, m, s[j]))
      && (forall q :: q in e2 ==> q in e || Planned(q, m, s))
    decreases |s|
  {
    if s != [] {
      var n := |s| - 1;
      RunPlanCreates(e, m, s[..n]);
      var e1 := Run(e, PlanOf(m, s[..n])).1;
      forall j | 0 <= j < n ensures Installed(e1, m, s[j]) {
        assert s[..n][j] == s[j];
      }
      InstallRun(e, m, s, e1);
      InstallKeeps(e, m, s, e1);
      var d := m + [s[n].0];
      RunAppend(e, PlanOf(m, s[..n]), [MkDir(d, false)] + FileOps(d, s[n].1));
      assert PlanOf(m, s) == PlanOf(m, s[..n]) + ([MkDir(d, false)] + FileOps(d, s[n].1));
    }
  }

  /** The recursive `mkdir` of a new three-level module path whose
      ancestors are absent or directories. */
  lemma ModuleDirectoryCreated(e: map<Path, Node>, m: Path)
    requires Valid(e) && |m| == 3 && m !in e
    requires [m[0]] !in e || e[[m[0]]] == Directory
    requires [m[0], m[1]] !in e || e[[m[0], m[1]]] == Directory
    ensures var e1 := MkdirAll(e, m).1;
      && Run(e, [MkDir(m, true)]) == (true, e1)
      && (forall q :: q in e ==> q in e1 && e1[q] == e[q])
      && m in e1 && e1[m] == Directory
      && (forall q :: q in e1 ==> q in e || (0 < |q| <= 3 && q == m[..|q|]))
      && (forall q :: q in e1 ==> !Under(q, m))
  {
    var e1 := MkdirAll(e, m).1;
    assert m[..1] == [m[0]] && m[..2] == [m[0], m[1]] && m[..3] == m;
    MkdirAllCreates(e, m);
    assert [MkDir(m, true)][..0] == [];
    forall q | q in e1 ensures !Under(q, m) {
      if q in e && |q| > 3 {
        assert q[..3] in e;
      }
    }
  }

  /**
   * With a valid file system, no module directory yet and `src`,
   * `src/Modules` absent or directories, `main` succeeds: it keeps every
   * existing entry, creates the module directory, each of the six
   * directories and its one file holding the trimmed template, and nothing
   * else.
   */
  lemma ScaffoldCreatesModule(pascal: string, e: map<Path, Node>, templates: (Kind, string, string) -> string)
    requires Valid(e) && ModulePath(pascal) !in e
    requires ["src"] !in e || e[["src"]] == Directory
    requires ["src", "Modules"] !in e || e[["src", "Modules"]] == Directory
    ensures var (outcome, e2) := ScaffoldSpec(pascal, e, templates);
      var m := ModulePath(pascal);
      var s := Structure(pascal, LowerAll(pascal), templates);
      && outcome == Created(pascal)
      && (forall q :: q in e ==> q in e2 && e2[q] == e[q])
      && m in e2 && e2[m] == Directory
      && (forall j :: 0 <= j < 6 ==> Installed(e2, m, s[j]))
      && (forall q :: q in e2 ==> q in e || (0 < |q| <= 3 && q == m[..|q|]) || Planned(q, m, s))
  {
    var m := ModulePath(pascal);
    var s := Structure(pascal, LowerAll(pascal), templates);
    StructureShape(pascal, LowerAll(pascal), templates);
    ModuleDirectoryCreated(e, m);
    var e1 := MkdirAll(e, m).1;
    RunPlanCreates(e1, m, s);
    RunAppend(e, [MkDir(m, true)], PlanOf(m, s));
  }

  /** An existing module directory stops the script before it writes anything. */
  lemma ExistingModuleWritesNothing(argv: seq<string>, e: map<Path, Node>, templates: (Kind, string, string) -> string)
    requires ModuleName(argv).Named? && ModulePath(ModuleName(argv).pascal) in e
    ensures GenerateSpec(argv, e, templates) == (Exited(1), e)
  {
  }

  /** Without a usable name the script exits (or throws) and writes nothing. */
  lemma MissingNameWritesNothing(argv: seq<string>, e: map<Path, Node>, templates: (Kind, string, string) -> string)
    requires !ModuleName(argv).Named?
    ensures GenerateSpec(argv, e, templates).1 == e
    ensures GenerateSpec(argv, e, templates).0 == (if ModuleName(argv).MissingName? then Exited(1) else Crashed)
  {
  }
}
