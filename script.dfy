/**
 * bin.js: the argument guard, the progress bar, `install` with its three
 * steps and the exception that ends them, and the files those steps read and
 * write. The filesystem is a map from absolute path to text; a path that is
 * not a key has no file. The outside world enters as parameters: which paths
 * refuse writes, what `npx create-react-app` leaves behind, and the JSON
 * parser and printer.
 */
module Script {
  import opened Json
  import opened Descriptor
  import opened Platform

  /** The settings bin.js writes, as it spells them inline (lines 23-63). */
  const PrettierConfig: string := "{}"

  const PrettierIgnoreConfig: string := "# Ignore artifacts:\nbuild\ncoverage"

  const GitIgnoreConfig: string := "/.nyc_output"

  const EslintConfig: string :=
    "{\n" +
    "  \"extends\": [\"react-app\", \"react-app/jest\", \"prettier\"],\n" +
    "  \"plugins\": [\"simple-import-sort\", \"import\"],\n" +
    "  \"rules\": {\n" +
    "    \"simple-import-sort/imports\": \"error\",\n" +
    "    \"simple-import-sort/exports\": \"error\",\n" +
    "    \"import/first\": \"error\",\n" +
    "    \"import/newline-after-import\": \"error\",\n" +
    "    \"import/no-duplicates\": \"error\"\n" +
    "  },\n" +
    "  \"overrides\": [\n" +
    "    // override \"simple-import-sort\" config\n" +
    "    {\n" +
    "      \"files\": [\"*.js\", \"*.jsx\", \"*.ts\", \"*.tsx\"],\n" +
    "      \"rules\": {\n" +
    "        \"simple-import-sort/imports\": [\n" +
    "          \"error\",\n" +
    "          {\n" +
    "            \"groups\": [\n" +
    "              // Packages \"react\" related packages come first.\n" +
    "              [\"^react\", \"^@?\\\\w\"],\n" +
    "              // Side effect imports.\n" +
    "              [\"^\\\\u0000\"],\n" +
    "              // Internal packages.\n" +
    "              [\"^(@|components)(/.*|$)\"],\n" +
    "              // Parent imports. Put \"..\" last.\n" +
    "              [\"^\\\\.\\\\.(?!/?$)\", \"^\\\\.\\\\./?$\"],\n" +
    "              // Other relative imports. Put same-folder imports and \".\" last.\n" +
    "              [\"^\\\\./(?=.*/)(?!/?$)\", \"^\\\\.(?!/?$)\", \"^\\\\./?$\"],\n" +
    "              // Style imports.\n" +
    "              [\"^.+\\\\.?(css)$\"]\n" +
    "            ]\n" +
    "          }\n" +
    "        ]\n" +
    "      }\n" +
    "    }\n" +
    "  ]\n" +
    "}"
  /** The lines bin.js prints that say how the run went (lines 3, 15, 124). */
  const Starting: string := "Update starts..."

  const UsageError: string := "set project names"

  const Finished: string := "Update finished."

  /** The command line of line 67 is CreateAppPrefix, the project name, then
      TemplateFlag. */
  const CreateAppPrefix: string := "npx create-react-app "

  const TemplateFlag: string := " --template typescript"

  /** The command line of line 67 for a project name. */
  function CommandLine(name: string): string
  {
    CreateAppPrefix + name + TemplateFlag
  }

  /** The bar's total (line 19). */
  const BarTotal: int := 200

  /** The value the bar shows on entering each install step: `start(200, 0)`
      just before `install` (line 19), `update(100)` at the top of
      updatePackageJson (line 76), `update(200)` at the top of
      createAdditionalFiles (line 108). */
  const Marks: seq<int> := [0, 100, 200]

  /** What a step throws. */
  datatype Thrown =
    | CommandFailed               // execSync: the command could not run or exited non-zero
    | NoSuchFile(path: string)    // readFileSync: no file at path
    | Unparseable(path: string)   // JSON.parse: the text is not JSON
    | NullDescriptor              // assigning `scripts` on a null document
    | WriteRefused(path: string)  // writeFileSync: the path cannot be written

  /** How a step ended. */
  datatype Status = Completed | Threw(error: Thrown)

  /** The filesystem after a step, and how the step ended. */
  datatype StepResult = StepResult(files: map<string, string>, status: Status)

  /** Path p holds the same file, or no file, in both filesystems. */
  predicate SameAt(a: map<string, string>, b: map<string, string>, p: string)
  {
    (p in a <==> p in b) && (p in a ==> a[p] == b[p])
  }

  /** The text at path, or "" when there is no file. */
  function TextOf(files: map<string, string>, path: string): string
  {
    if path in files then files[path] else ""
  }

  /** `path.resolve(name)` from the working directory cwd (line 22): an
      absolute name is kept, an empty one resolves to cwd itself, and any
      other name is placed under cwd. */
  function Resolve(cwd: string, name: string): string
  {
    if |name| > 0 && name[0] == '/' then name
    else if name == "" then cwd
    else Join(cwd, name)
  }

  /** The name always ends the resolved root, a relative name is resolved
      under cwd, and from an absolute cwd the root is absolute. */
  lemma ResolveEndsWithName(cwd: string, name: string)
    ensures var root := Resolve(cwd, name);
      && |name| <= |root| && root[|root| - |name|..] == name
      && (!(|name| > 0 && name[0] == '/') ==> cwd <= root)
      && (|cwd| > 0 && cwd[0] == '/' ==> |root| > 0 && root[0] == '/')
  {
  }

  /** From an absolute working directory, resolving a resolved path gives it
      back. */
  lemma ResolveIdempotent(cwd: string, name: string)
    requires |cwd| > 0 && cwd[0] == '/'
    ensures Resolve(cwd, Resolve(cwd, name)) == Resolve(cwd, name)
  {
  }

  /** `fs.writeFileSync(path, text)`: the file becomes text, or the call
      throws and nothing changes. */
  function WriteFile(files: map<string, string>, readOnly: set<string>, path: string, text: string): (r: StepResult)
    ensures r.status == Completed <==> path !in readOnly
    ensures r.status == Completed ==> path in r.files && r.files[path] == text
    ensures r.status.Threw? ==> r.files == files && r.status.error == WriteRefused(path)
    ensures forall p :: p != path ==> SameAt(r.files, files, p)
  {
    if path in readOnly then StepResult(files, Threw(WriteRefused(path)))
    else StepResult(files[path := text], Completed)
  }

  /** `fs.appendFile(path, text)` taken as completing at once: the file is
      created if missing and text is added at its end. Its failure would only
      reject a promise that nobody awaits, so it never throws into the step;
      a path that refuses writes keeps its old text. */
  function AppendFile(files: map<string, string>, readOnly: set<string>, path: string, text: string): (r: map<string, string>)
    ensures path !in readOnly ==> path in r && r[path] == TextOf(files, path) + text
    ensures path in readOnly ==> r == files
    ensures forall p :: p != path ==> SameAt(r, files, p)
  {
    if path in readOnly then files else files[path := TextOf(files, path) + text]
  }

  /** Where updatePackageJson reads and writes the descriptor (lines 78, 102):
      a file under root, and none of the four files createAdditionalFiles
      touches. */
  function DescriptorPath(root: string): (p: string)
    ensures |root| < |p| && p[..|root|] == root
    ensures p !in SupportPaths(root)
  {
    Join(root, "package.json")
  }

  /** updatePackageJson (lines 75-105) with the text parsed as the rest of the
      function evidently expects: read root/package.json, parse it, rewrite it
      with UpdateDocument and write serialize(document) and EOL back. A missing
      file, text that is not JSON, a null document and a refused write each
      throw, in that order of checking, and leave every file as it was. */
  function UpdateStep(files: map<string, string>, readOnly: set<string>, root: string,
                      parse: string -> Option<Json>, serialize: Json -> string): (r: StepResult)
    ensures var path := DescriptorPath(root);
      r.status == Completed <==>
        path in files && parse(files[path]).Some? && !parse(files[path]).value.Null? && path !in readOnly
    ensures var path := DescriptorPath(root);
      r.status == Completed ==>
        path in r.files && r.files[path] == serialize(UpdateDocument(parse(files[path]).value).value) + EOL
    ensures var path := DescriptorPath(root);
      && (path !in files ==> r.status == Threw(NoSuchFile(path)))
      && (path in files && parse(files[path]).None? ==> r.status == Threw(Unparseable(path)))
      && (path in files && parse(files[path]) == Some(Null) ==> r.status == Threw(NullDescriptor))
    ensures r.status.Threw? ==> r.files == files
    ensures forall p :: p != DescriptorPath(root) ==> SameAt(r.files, files, p)
  {
    var path := DescriptorPath(root);
    if path !in files then StepResult(files, Threw(NoSuchFile(path)))
    else
      match parse(files[path])
      case None => StepResult(files, Threw(Unparseable(path)))
      case Some(doc) =>
        match UpdateDocument(doc)
        case Failed(_) => StepResult(files, Threw(NullDescriptor))
        case Updated(v) => WriteFile(files, readOnly, path, serialize(v) + EOL)
  }

  /** When parsing the printed rewrite gives the rewrite back, running the
      step on its own output rewrites package.json to the same text. */
  lemma UpdateStepIdempotent(files: map<string, string>, readOnly: set<string>, root: string,
                             parse: string -> Option<Json>, serialize: Json -> string)
    requires UpdateStep(files, readOnly, root, parse, serialize).status == Completed
    requires var v := UpdateDocument(parse(files[DescriptorPath(root)]).value).value;
      parse(serialize(v) + EOL) == Some(v)
    ensures var once := UpdateStep(files, readOnly, root, parse, serialize);
      UpdateStep(once.files, readOnly, root, parse, serialize) == once
  {
    var path := DescriptorPath(root);
    var once := UpdateStep(files, readOnly, root, parse, serialize);
    var doc := parse(files[path]).value;
    var v := UpdateDocument(doc).value;
    assert parse(once.files[path]) == Some(v);
    UpdateDocumentIdempotent(doc);
    assert UpdateDocument(v).value == v;
    var twice := UpdateStep(once.files, readOnly, root, parse, serialize);
    assert twice.files == once.files[path := serialize(v) + EOL];
    assert twice.files == once.files;
  }

  /** updatePackageJson exactly as bin.js spells it: line 78 keeps the text
      and never parses it, so in sloppy mode the assignment of line 81 is
      dropped on the string primitive, the test of line 97 reads undefined,
      and line 103 prints the whole text as one JSON string. This is the
      rewrite of UpdateDocument applied to the unparsed string. */
  function AsWrittenUpdateStep(files: map<string, string>, readOnly: set<string>, root: string,
                               serialize: Json -> string): (r: StepResult)
    ensures var path := DescriptorPath(root);
      r.status == Completed <==> path in files && path !in readOnly
    ensures var path := DescriptorPath(root);
      r.status == Completed ==> path in r.files && r.files[path] == serialize(Str(files[path])) + EOL
    ensures DescriptorPath(root) !in files ==> r.status == Threw(NoSuchFile(DescriptorPath(root)))
    ensures r.status.Threw? ==> r.files == files
    ensures forall p :: p != DescriptorPath(root) ==> SameAt(r.files, files, p)
  {
    var path := DescriptorPath(root);
    if path !in files then StepResult(files, Threw(NoSuchFile(path)))
    else WriteFile(files, readOnly, path, serialize(UpdateDocument(Str(files[path])).value) + EOL)
  }

  /** With a printer that never prints a string as it prints an object (as
      JSON.stringify starts the one with `"` and the other with `{`), the
      as-written step never
      writes what the intended one writes for a package.json holding an
      object: the scripts patch and the eslintConfig removal are lost and the
      file becomes a quoted string. */
  lemma AsWrittenDropsPatch(files: map<string, string>, readOnly: set<string>, root: string,
                            parse: string -> Option<Json>, serialize: Json -> string, fields: map<string, Json>)
    requires forall t, m :: serialize(Str(t)) != serialize(Obj(m))
    requires DescriptorPath(root) in files && DescriptorPath(root) !in readOnly
    requires parse(files[DescriptorPath(root)]) == Some(Obj(fields))
    ensures AsWrittenUpdateStep(files, readOnly, root, serialize).status == Completed
    ensures UpdateStep(files, readOnly, root, parse, serialize).status == Completed
    ensures AsWrittenUpdateStep(files, readOnly, root, serialize).files[DescriptorPath(root)]
         != UpdateStep(files, readOnly, root, parse, serialize).files[DescriptorPath(root)]
  {
    var path := DescriptorPath(root);
    var a := serialize(Str(files[path]));
    var b := serialize(Obj(MergeFields(fields)));
    assert a != b;
    assert (a + EOL)[..|a|] == a;
    assert (b + EOL)[..|b|] == b;
  }

  /** The four support files under root are four different paths. */
  lemma SupportPathsDistinct(root: string)
    ensures Join(root, ".prettierrc") != Join(root, ".eslintrc")
    ensures Join(root, ".prettierrc") != Join(root, ".prettierignore")
    ensures Join(root, ".prettierrc") != Join(root, ".gitignore")
    ensures Join(root, ".eslintrc") != Join(root, ".prettierignore")
    ensures Join(root, ".eslintrc") != Join(root, ".gitignore")
    ensures Join(root, ".prettierignore") != Join(root, ".gitignore")
  {
    JoinInjective(root, ".prettierrc", ".eslintrc");
    JoinInjective(root, ".prettierrc", ".prettierignore");
    JoinInjective(root, ".prettierrc", ".gitignore");
    JoinInjective(root, ".eslintrc", ".prettierignore");
    JoinInjective(root, ".eslintrc", ".gitignore");
    JoinInjective(root, ".prettierignore", ".gitignore");
  }

  /** The four texts createAdditionalFiles writes: .prettierrc, .eslintrc,
      .prettierignore, and the line appended to .gitignore. */
  datatype Settings = Settings(prettier: string, eslint: string, prettierIgnore: string, gitIgnore: string)

  /** bin.js's own values (lines 23-63). */
  const Inline: Settings := Settings(PrettierConfig, EslintConfig, PrettierIgnoreConfig, GitIgnoreConfig)

  /** The four paths createAdditionalFiles touches under root. */
  function SupportPaths(root: string): set<string>
  {
    {Join(root, ".prettierrc"), Join(root, ".eslintrc"), Join(root, ".prettierignore"), Join(root, ".gitignore")}
  }

  /** createAdditionalFiles (lines 107-119): .prettierrc, .eslintrc and
      .prettierignore are overwritten in that order, each with its setting and
      EOL, then the ignore line and EOL are appended to .gitignore. The step
      completes exactly when none of the three overwrites is refused, and no
      path but these four changes; FilesStepCompletes and FilesStepThrows
      give the contents. */
  function FilesStep(files: map<string, string>, readOnly: set<string>, root: string, s: Settings): (r: StepResult)
    ensures r.status == Completed <==>
      Join(root, ".prettierrc") !in readOnly && Join(root, ".eslintrc") !in readOnly && Join(root, ".prettierignore") !in readOnly
    ensures forall q :: q !in SupportPaths(root) ==> SameAt(r.files, files, q)
  {
    var w1 := WriteFile(files, readOnly, Join(root, ".prettierrc"), s.prettier + EOL);
    if w1.status.Threw? then w1
    else
      var w2 := WriteFile(w1.files, readOnly, Join(root, ".eslintrc"), s.eslint + EOL);
      if w2.status.Threw? then w2
      else
        var w3 := WriteFile(w2.files, readOnly, Join(root, ".prettierignore"), s.prettierIgnore + EOL);
        if w3.status.Threw? then w3
        else StepResult(AppendFile(w3.files, readOnly, Join(root, ".gitignore"), s.gitIgnore + EOL), Completed)
  }

  /** After a completed step the three files hold their settings and EOL, and
      .gitignore (when it accepts writes) holds its old text, now a prefix,
      followed by the ignore line and EOL. */
  lemma FilesStepCompletes(files: map<string, string>, readOnly: set<string>, root: string, s: Settings)
    requires FilesStep(files, readOnly, root, s).status == Completed
    ensures var r := FilesStep(files, readOnly, root, s).files;
      var g := Join(root, ".gitignore");
      && Join(root, ".prettierrc") in r && r[Join(root, ".prettierrc")] == s.prettier + EOL
      && Join(root, ".eslintrc") in r && r[Join(root, ".eslintrc")] == s.eslint + EOL
      && Join(root, ".prettierignore") in r && r[Join(root, ".prettierignore")] == s.prettierIgnore + EOL
      && (g !in readOnly ==> g in r && r[g] == TextOf(files, g) + s.gitIgnore + EOL)
      && (g !in readOnly ==> TextOf(files, g) <= r[g])
      && (g in readOnly ==> SameAt(r, files, g))
  {
    SupportPathsDistinct(root);
  }

  /** The first refused overwrite is what the step throws; the overwrites
      before it stay done and nothing after it happens. */
  lemma FilesStepThrows(files: map<string, string>, readOnly: set<string>, root: string, s: Settings)
    ensures var r, p, e, i := FilesStep(files, readOnly, root, s), Join(root, ".prettierrc"), Join(root, ".eslintrc"), Join(root, ".prettierignore");
      && (p in readOnly ==> r == StepResult(files, Threw(WriteRefused(p))))
      && (p !in readOnly && e in readOnly ==>
            r == StepResult(files[p := s.prettier + EOL], Threw(WriteRefused(e))))
      && (p !in readOnly && e !in readOnly && i in readOnly ==>
            r == StepResult(files[p := s.prettier + EOL][e := s.eslint + EOL], Threw(WriteRefused(i))))
  {
    SupportPathsDistinct(root);
  }

  /** Running the step again leaves the three overwritten files as they were
      but appends a second ignore line to .gitignore: the step is not
      idempotent. */
  lemma FilesStepNotIdempotent(files: map<string, string>, readOnly: set<string>, root: string, s: Settings)
    requires FilesStep(files, readOnly, root, s).status == Completed
    requires Join(root, ".gitignore") !in readOnly
    ensures var once := FilesStep(files, readOnly, root, s).files;
      var twice := FilesStep(once, readOnly, root, s);
      && twice.status == Completed
      && twice.files[Join(root, ".gitignore")] == once[Join(root, ".gitignore")] + s.gitIgnore + EOL
      && twice.files != once
      && (forall q :: q != Join(root, ".gitignore") ==> SameAt(twice.files, once, q))
  {
    var g := Join(root, ".gitignore");
    var once := FilesStep(files, readOnly, root, s).files;
    FilesStepCompletes(files, readOnly, root, s);
    var twice := FilesStep(once, readOnly, root, s);
    FilesStepCompletes(once, readOnly, root, s);
    assert |twice.files[g]| > |once[g]|;
  }

  /** What `npx create-react-app` of line 67 did: the files it wrote, and
      whether it exited normally. A failed run may have written files before
      it failed. */
  datatype CommandOutcome = Succeeded(written: map<string, string>) | Failed(written: map<string, string>)

  /** What `install` (lines 65-73) did: the files afterwards, and how each step
      it entered ended, in the order create-react-app, updatePackageJson,
      createAdditionalFiles. */
  datatype InstallRun = InstallRun(files: map<string, string>, outcomes: seq<Status>)

  /** `install` with the outcome of `npx create-react-app` as a parameter:
      the files it writes are laid over the filesystem whether it succeeds or
      fails, and a failure is thrown. A step is entered only when every step before it
      completed, the first exception ends the sequence and is caught, and the
      run stops early only because a step threw. */
  function InstallSpec(files: map<string, string>, readOnly: set<string>, root: string, cmd: CommandOutcome,
                       parse: string -> Option<Json>, serialize: Json -> string, s: Settings): (r: InstallRun)
    ensures 1 <= |r.outcomes| <= 3
    ensures forall k :: 0 <= k < |r.outcomes| - 1 ==> r.outcomes[k] == Completed
    ensures |r.outcomes| < 3 ==> r.outcomes[|r.outcomes| - 1].Threw?
    ensures r.outcomes[0] == Completed <==> cmd.Succeeded?
    ensures cmd.Failed? ==> r == InstallRun(files + cmd.written, [Threw(CommandFailed)])
    ensures cmd.Succeeded? ==>
      var u := UpdateStep(files + cmd.written, readOnly, root, parse, serialize);
      && r.outcomes[1] == u.status
      && (u.status.Threw? ==> r.files == u.files)
      && (u.status == Completed ==> r.files == FilesStep(u.files, readOnly, root, s).files
                                    && r.outcomes[2] == FilesStep(u.files, readOnly, root, s).status)
  {
    match cmd
    case Failed(written) => InstallRun(files + written, [Threw(CommandFailed)])
    case Succeeded(written) =>
      var u := UpdateStep(files + written, readOnly, root, parse, serialize);
      if u.status.Threw? then InstallRun(u.files, [Completed, u.status])
      else
        var f := FilesStep(u.files, readOnly, root, s);
        InstallRun(f.files, [Completed, Completed, f.status])
  }

  /** A run of bin.js as a whole: its exit code, the files afterwards, the
      commands it ran, the values the bar showed and the lines it printed. */
  datatype RunResult = RunResult(exitCode: int, files: map<string, string>, commands: seq<string>,
                                 shown: seq<int>, output: seq<string>)

  /** bin.js from line 3 to line 124 with positional arguments args, run from
      cwd. With no argument it prints the usage error and exits with code 1
      before the bar starts or any command runs (lines 14-17). Otherwise the
      bar starts, `install` runs and swallows whatever it throws, and the
      script prints "Update finished." and exits normally, whatever happened
      (lines 121-124). */
  function RunSpec(files: map<string, string>, readOnly: set<string>, cwd: string, args: seq<string>,
                   cmd: CommandOutcome, parse: string -> Option<Json>, serialize: Json -> string,
                   s: Settings): (r: RunResult)
    ensures r.exitCode == 1 <==> args == []
    ensures args == [] ==> r.files == files && r.commands == [] && r.shown == [] && r.output == [Starting, UsageError]
    ensures args != [] ==> r.exitCode == 0 && r.commands == [CommandLine(args[0])] && r.output == [Starting, Finished]
    ensures args != [] ==>
      var i := InstallSpec(files, readOnly, Resolve(cwd, args[0]), cmd, parse, serialize, s);
      r.files == i.files && r.shown == Marks[..|i.outcomes|]
  {
    if args == [] then RunResult(1, files, [], [], [Starting, UsageError])
    else
      var i := InstallSpec(files, readOnly, Resolve(cwd, args[0]), cmd, parse, serialize, s);
      RunResult(0, i.files, [CommandLine(args[0])], Marks[..|i.outcomes|], [Starting, Finished])
  }

  /** A run given a project name is install's run, framed by the command
      line, the bar's marks and the two closing lines. */
  lemma RunSpecNamed(files: map<string, string>, readOnly: set<string>, cwd: string, args: seq<string>,
                     cmd: CommandOutcome, parse: string -> Option<Json>, serialize: Json -> string, s: Settings)
    requires args != []
    ensures var i := InstallSpec(files, readOnly, Resolve(cwd, args[0]), cmd, parse, serialize, s);
      RunSpec(files, readOnly, cwd, args, cmd, parse, serialize, s)
        == RunResult(0, i.files, [CommandLine(args[0])], Marks[..|i.outcomes|], [Starting, Finished])
  {
  }

  /** The bar only moves forward and never passes its total: it shows 0, then
      100, then 200, stopping after the last step entered. It reaches 200
      exactly when createAdditionalFiles is entered, which it is even when the
      writes of that step then throw. */
  lemma RunProgress(files: map<string, string>, readOnly: set<string>, cwd: string, args: seq<string>,
                    cmd: CommandOutcome, parse: string -> Option<Json>, serialize: Json -> string,
                    s: Settings)
    requires args != []
    ensures var r := RunSpec(files, readOnly, cwd, args, cmd, parse, serialize, s);
      var i := InstallSpec(files, readOnly, Resolve(cwd, args[0]), cmd, parse, serialize, s);
      && 1 <= |r.shown| <= 3 && r.shown[0] == 0
      && (forall a, b :: 0 <= a <= b < |r.shown| ==> 0 <= r.shown[a] <= r.shown[b] <= BarTotal)
      && (r.shown[|r.shown| - 1] == BarTotal <==> |i.outcomes| == 3)
      && (|i.outcomes| == 3 ==> i.outcomes[0] == Completed && i.outcomes[1] == Completed)
  {
    var i := InstallSpec(files, readOnly, Resolve(cwd, args[0]), cmd, parse, serialize, s);
    MarksPrefix(|i.outcomes|);
  }

  /** The first n marks start at 0, never go down, stay within the total, and
      end on the total exactly when all three are shown. */
  lemma MarksPrefix(n: int)
    requires 1 <= n <= 3
    ensures var m := Marks[..n];
      && |m| == n && m[0] == 0
      && (forall a, b :: 0 <= a <= b < n ==> 0 <= m[a] <= m[b] <= BarTotal)
      && (m[n - 1] == BarTotal <==> n == 3)
  {
  }

  /** The bar's marks start at 0, rise strictly and end at the total. */
  lemma MarksRise()
    ensures |Marks| == 3 && Marks[0] == 0 && Marks[|Marks| - 1] == BarTotal
    ensures forall i, j :: 0 <= i < j < |Marks| ==> Marks[i] < Marks[j]
  {
  }

  /** The cli-progress bar of line 18: what it was started with, the value it
      holds, whether it was stopped, and every value it has displayed. */
  class ProgressBar {
    var started: bool
    var stopped: bool
    var total: int
    var value: int
    ghost var shown: seq<int>

    /** `new cliProgress.SingleBar(...)`: nothing displayed yet. */
    constructor()
      ensures !started && !stopped && shown == []
    {
      started, stopped, total, value := false, false, 0, 0;
      shown := [];
    }

    /** `start(total, start)`: displays start out of total. */
    method Start(total: int, start: int)
      modifies this
      ensures started && this.total == total && value == start
      ensures stopped == old(stopped) && shown == old(shown) + [start]
    {
      started, this.total, value := true, total, start;
      shown := shown + [start];
    }

    /** `update(v)`: displays v. */
    method Update(v: int)
      modifies this
      ensures value == v && shown == old(shown) + [v]
      ensures started == old(started) && stopped == old(stopped) && total == old(total)
    {
      value := v;
      shown := shown + [v];
    }

    /** `stop()`: the display ends on the value it holds. */
    method Stop()
      modifies this
      ensures stopped && started == old(started) && total == old(total) && value == old(value) && shown == old(shown)
    {
      stopped := true;
    }
  }

  /** The running script: the world it sees (working directory, paths that
      refuse writes, the JSON parser and printer, the inline settings), the
      filesystem, the commands it has run, the lines it has printed, and its
      progress bar. */
  class Scaffolder {
    const cwd: string
    const readOnly: set<string>
    const parse: string -> Option<Json>
    const serialize: Json -> string
    const settings: Settings
    const bar: ProgressBar
    var files: map<string, string>
    var commands: seq<string>
    var output: seq<string>

    /** A process about to run bin.js over files, before line 3. */
    constructor(cwd: string, readOnly: set<string>, parse: string -> Option<Json>, serialize: Json -> string,
                files: map<string, string>)
      ensures this.cwd == cwd && this.readOnly == readOnly && this.parse == parse && this.serialize == serialize
      ensures settings == Inline && this.files == files && commands == [] && output == []
      ensures fresh(bar) && !bar.started && !bar.stopped && bar.shown == []
    {
      this.cwd, this.readOnly, this.parse, this.serialize := cwd, readOnly, parse, serialize;
      settings := Inline;
      bar := new ProgressBar();
      this.files, commands, output := files, [], [];
    }

    /** Lines 3-124: the guard, the bar, `install`, and the closing line. */
    method Run(args: seq<string>, cmd: CommandOutcome) returns (exitCode: int)
      requires commands == [] && output == [] && !bar.started && !bar.stopped && bar.shown == []
      modifies this, bar
      ensures var r := RunSpec(old(files), readOnly, cwd, args, cmd, parse, serialize, settings);
        exitCode == r.exitCode && files == r.files && commands == r.commands && output == r.output && bar.shown == r.shown
      ensures args == [] ==> !bar.started
      ensures args != [] ==> bar.started && bar.stopped && bar.total == BarTotal && bar.value == bar.shown[|bar.shown| - 1]
    {
      output := output + [Starting];
      if |args| == 0 {
        output := output + [UsageError];
        return 1;
      }
      bar.Start(BarTotal, 0);
      assert bar.shown == Marks[..1];
      var name := args[0];
      var root := Resolve(cwd, name);
      RunSpecNamed(files, readOnly, cwd, args, cmd, parse, serialize, settings);
      Install(name, root, cmd);
      bar.Stop();
      output := output + [Finished];
      return 0;
    }

    /** `install` (lines 65-73): the three steps in order, the first exception
      ending them, and the exception swallowed. */
    method Install(name: string, root: string, cmd: CommandOutcome)
      requires bar.started && bar.shown == Marks[..1] && bar.value == 0
      modifies this, bar
      ensures var i := InstallSpec(old(files), readOnly, root, cmd, parse, serialize, settings);
        files == i.files && bar.shown == Marks[..|i.outcomes|]
      ensures commands == old(commands) + [CommandLine(name)]
      ensures output == old(output)
      ensures bar.started && bar.stopped == old(bar.stopped) && bar.total == old(bar.total)
      ensures bar.value == bar.shown[|bar.shown| - 1]
    {
      var status := CreateApp(name, cmd);
      if status.Threw? {
        return;
      }
      status := UpdatePackageJson(root);
      if status.Threw? {
        return;
      }
      status := CreateAdditionalFiles(root);
    }

    /** `execSync` of line 67: the command is run and leaves the files it
      wrote; when it fails, it throws. */
    method CreateApp(name: string, cmd: CommandOutcome) returns (status: Status)
      modifies this
      ensures commands == old(commands) + [CommandLine(name)]
      ensures output == old(output)
      ensures files == old(files) + cmd.written
      ensures status == (if cmd.Succeeded? then Completed else Threw(CommandFailed))
    {
      commands := commands + [CommandLine(name)];
      files := files + cmd.written;
      if cmd.Succeeded? {
        status := Completed;
      } else {
        status := Threw(CommandFailed);
      }
    }

    /** `updatePackageJson` (lines 75-105), reading the text as JSON. */
    method UpdatePackageJson(root: string) returns (status: Status)
      requires bar.shown == Marks[..1]
      modifies this, bar
      ensures StepResult(files, status) == UpdateStep(old(files), readOnly, root, parse, serialize)
      ensures bar.shown == Marks[..2] && bar.value == 100
      ensures bar.started == old(bar.started) && bar.stopped == old(bar.stopped) && bar.total == old(bar.total)
      ensures commands == old(commands) && output == old(output)
    {
      bar.Update(100);
      var path := Join(root, "package.json");
      if path !in files {
        return Threw(NoSuchFile(path));
      }
      var parsed := parse(files[path]);
      if parsed.None? {
        return Threw(Unparseable(path));
      }
      var updated := UpdateDocument(parsed.value);
      if updated.Failed? {
        return Threw(NullDescriptor);
      }
      status := WriteFileSync(path, serialize(updated.value) + EOL);
    }

    /** `createAdditionalFiles` (lines 107-119). */
    method CreateAdditionalFiles(root: string) returns (status: Status)
      requires bar.shown == Marks[..2]
      modifies this, bar
      ensures StepResult(files, status) == FilesStep(old(files), readOnly, root, settings)
      ensures bar.shown == Marks[..3] && bar.value == 200
      ensures bar.started == old(bar.started) && bar.stopped == old(bar.stopped) && bar.total == old(bar.total)
      ensures commands == old(commands) && output == old(output)
    {
      bar.Update(200);
      status := WriteFileSync(Join(root, ".prettierrc"), settings.prettier + EOL);
      if status.Threw? {
        return;
      }
      status := WriteFileSync(Join(root, ".eslintrc"), settings.eslint + EOL);
      if status.Threw? {
        return;
      }
      status := WriteFileSync(Join(root, ".prettierignore"), settings.prettierIgnore + EOL);
      if status.Threw? {
        return;
      }
      AppendFileAsync(Join(root, ".gitignore"), settings.gitIgnore + EOL);
    }

    /** `fs.writeFileSync(path, text)`. */
    method WriteFileSync(path: string, text: string) returns (status: Status)
      modifies this
      ensures StepResult(files, status) == WriteFile(old(files), readOnly, path, text)
      ensures commands == old(commands) && output == old(output)
    {
      if path in readOnly {
        return Threw(WriteRefused(path));
      }
      files := files[path := text];
      return Completed;
    }

    /** `fs.appendFile(path, text)`, taken as completing before the next line. */
    method AppendFileAsync(path: string, text: string)
      modifies this
      ensures files == AppendFile(old(files), readOnly, path, text)
      ensures commands == old(commands) && output == old(output)
    {
      if path !in readOnly {
        files := files[path := TextOf(files, path) + text];
      }
    }
  }
}
