# create-front-end-js-stub in Dafny

The repository is a small Node scaffolding script. `bin.js` takes a project
name and runs `npx create-react-app <name> --template typescript`. It is then
meant to rewrite the new project's `package.json`, adding eleven npm scripts
and dropping the legacy `eslintConfig` key; as written it does neither (see
Findings). Last it writes the Prettier and ESLint settings files. A progress
bar runs along the way. `constants.js` holds data for the same job:
sixteen template files, the npm-scripts patch and a list of pinned
development dependencies.

The model:

- `json.dfy` (module `Json`): JSON values and JavaScript truthiness.
- `descriptor.dfy` (module `Descriptor`): the `package.json` rewrite of
  `updatePackageJson` as a pure function on documents. It covers the scripts
  overlay, the removal of `eslintConfig` when it is truthy, what object spread
  does to a non-object `scripts`, and what the rewrite does to a document that
  is not an object.
- `platform.dfy` (module `Platform`): `os.EOL` and `path.join`.
- `script.dfy` (module `Script`): the script itself.
  - `ProgressBar` is a class for the cli-progress bar.
  - `Scaffolder` is a class for the running script: the filesystem (a map
    from absolute path to text), the commands run, the lines printed, and
    one method per function of `bin.js`.
  - Each method is proved against a pure step function: `UpdateStep`,
    `FilesStep`, `InstallSpec` and `RunSpec`.
  - The lemmas about those functions state what the script promises.
- `templates.dfy` (module `Templates`): the data of `constants.js`.
- `paths.dfy` (module `Paths`): when a path stays under the project root, and
  which directories it needs.
- `catalog.dfy` (module `Catalog`): facts about that data. The catalog's
  paths are distinct and relative, and the set of directories they need is
  known. The dependency pins are well formed. The `.gitignore` template
  already ignores `/.nyc_output`. Writing the catalog entry by entry, in
  bin.js's overwrite-with-EOL style, gives the same files in any order.
- `agreement.dfy` (module `Agreement`): the inline values of `bin.js` agree
  with the data of `constants.js`.

The world outside the script enters as parameters:

- the working directory;
- the set of paths whose writes are refused;
- what `create-react-app` did: the files it wrote, and whether it
  succeeded (a failed run may still have written files);
- the JSON parser `parse: string -> Option<Json>`;
- the JSON printer `serialize: Json -> string`.

Three behaviours of the code that a reader may not expect, all modelled as
the code has them:

- **Errors are swallowed.** A failing step does not end the run with a
  non-zero exit code: `install` catches the exception and returns
  (bin.js:70-72), and the script prints "Update finished." and exits
  normally. So `RunSpec` gives exit code 0 whenever a project name is given.
- **`eslintConfig` is removed only when truthy.** The code deletes
  `eslintConfig` only when its value is truthy (bin.js:97), so
  `"eslintConfig": false`, `0`, `""` or `null` stays.
- **The descriptor text is never parsed.** The file is read as text and
  never passed to `JSON.parse` (see Findings). The class models the parsing
  version; the version as written is `Script.AsWrittenUpdateStep`.

## Model

| member | source | states |
|---|---|---|
| Json.Truthy | bin.js:97 | a value is truthy exactly when it is not null, `false`, `0` or the empty string, so every array and object is truthy |
| Descriptor.PriorScripts | bin.js:82 | the old scripts the spread sees: none when `scripts` is absent, null, a boolean or a number; an object's own members when it is an object |
| Descriptor.PatchMembers | bin.js:81-95 | the overlay holds exactly the eleven patch names, each mapped to its command as a JSON string |
| Descriptor.Spread | bin.js:82 | what `{...scripts}` copies: an object's own members; an array's or a string's elements under their decimal indices; nothing for null, booleans and numbers |
| Descriptor.MergeFields | bin.js:81-99 | after the rewrite `scripts` is an object holding the old script names plus the patch names; the patch wins on shared names and every other old script keeps its command; `eslintConfig` is gone exactly when it was present and truthy, and a kept one is unchanged and falsy; every other top-level key keeps its value |
| Descriptor.MergeFieldsIdempotent | bin.js:81-99 | rewriting an already rewritten document changes nothing |
| Descriptor.UpdateDocument | bin.js:81-99 | a null document throws (property assignment on null); an object is merged; any other value comes out unchanged |
| Descriptor.UpdateDocumentIdempotent | bin.js:81-99 | rewriting the result of a successful rewrite returns the same result |
| Platform.Join | bin.js:78 | `path.join(root, rel)` is root, a separator, then rel |
| Platform.JoinInjective | bin.js:109-118 | two relative paths give the same file under a root exactly when they are equal |
| Script.ResolveEndsWithName | bin.js:22 | the name always ends the root; a relative name is placed under the working directory, which then begins the root; from an absolute working directory the root is absolute |
| Script.ResolveIdempotent | bin.js:22 | from an absolute working directory, resolving a resolved root gives it back |
| Script.DescriptorPath | bin.js:78 | package.json is read and written at a path under the root that is none of the four support files |
| Script.WriteFile | bin.js:101-104 | `writeFileSync` succeeds exactly when the path accepts writes; then the path holds the text; on failure it throws `WriteRefused(path)` and nothing changes; no other path changes either way |
| Script.AppendFile | bin.js:118 | the appended path holds its old text (empty if there was no file) followed by the new text; a path that refuses writes keeps its text; no other path changes |
| Script.UpdateStep | bin.js:75-105 | completes exactly when package.json exists, parses, is not null and is writable; it then holds `serialize(rewritten document) + EOL`; the errors are, in order, missing file, unparseable text, null document; a throw changes no file; no other path ever changes |
| Script.UpdateStepIdempotent | bin.js:75-105 | if parsing the printed rewrite gives the rewrite back, running the step on its own output leaves the files as they are |
| Script.AsWrittenUpdateStep | bin.js:78-104 | as written: completes exactly when package.json exists and is writable, and then holds the raw text re-encoded as a JSON string; a missing file throws `NoSuchFile`; a throw changes nothing and no other path ever changes |
| Script.AsWrittenDropsPatch | bin.js:78-104 | for a package.json holding an object and a printer that never prints a string as it prints an object, the as-written step and the parsing step both complete but write different text |
| Script.SupportPathsDistinct | bin.js:109-118 | `.prettierrc`, `.eslintrc`, `.prettierignore` and `.gitignore` under a root are four different paths |
| Script.FilesStep | bin.js:107-119 | the step completes exactly when none of the three overwrites is refused; no path outside the four support files changes |
| Script.FilesStepCompletes | bin.js:107-119 | after a completed step the three files hold their settings followed by EOL; `.gitignore` holds its old text (now a prefix) followed by `/.nyc_output` and EOL |
| Script.FilesStepThrows | bin.js:109-116 | the first refused overwrite is what the step throws; the writes before it are done and nothing after it happens |
| Script.FilesStepNotIdempotent | bin.js:107-119 | repeating a completed step leaves every path but `.gitignore` as it was and appends a second ignore line, so the files differ |
| Script.InstallSpec | bin.js:65-73 | one to three steps are entered, in order; each step before the last entered completed; the sequence stops early only because a step threw; the first step completes exactly when the command succeeds, and a failed command leaves only the files it wrote; each later outcome is that of its step on the files the previous step left |
| Script.RunSpec | bin.js:3-124 | exit code 1 exactly when no project name is given; then nothing changes, no command runs, the bar shows nothing, and the usage error is printed; otherwise exit code 0, the one command `npx create-react-app <first name> --template typescript`, and "Update finished." printed whatever install did |
| Script.MarksRise | bin.js:19-108 | the values the bar is given, 0, 100 and 200, rise strictly from 0 to the total |
| Script.RunProgress | bin.js:18-108 | the bar starts at 0, never goes down and never passes its total of 200; it reaches 200 exactly when createAdditionalFiles is entered, even if that step then throws |
| Script.ProgressBar.constructor | bin.js:18 | a new bar has not started, not stopped and shown nothing |
| Script.ProgressBar.Start | bin.js:19 | the bar is started with the total and shows the start value |
| Script.ProgressBar.Update | bin.js:76 | the bar shows the new value and nothing else about it changes |
| Script.ProgressBar.Stop | bin.js:123 | the bar is stopped and keeps its value and history |
| Script.Scaffolder.constructor | bin.js:1-13 | a process about to run the script over the given files, with bin.js's inline settings and a fresh bar |
| Script.Scaffolder.Run | bin.js:3-124 | the exit code, files, commands, printed lines and bar history are those of `RunSpec`; with no name the bar never starts, otherwise it ends started and stopped on its last value |
| Script.Scaffolder.Install | bin.js:65-73 | the files are those of `InstallSpec`, the bar has shown 0, 100, 200 up to the last step entered, and exactly one command was run |
| Script.Scaffolder.CreateApp | bin.js:67 | the command `npx create-react-app <name> --template typescript` is recorded, the files it wrote are laid over the filesystem, and the step completes exactly when the command succeeded, otherwise throws `CommandFailed` |
| Script.Scaffolder.UpdatePackageJson | bin.js:75-105 | the bar shows 100 first; the files and status are those of `UpdateStep` |
| Script.Scaffolder.CreateAdditionalFiles | bin.js:107-119 | the bar shows 200 first; the files and status are those of `FilesStep` with the inline settings |
| Script.Scaffolder.WriteFileSync | bin.js:101-104 | the files and status are those of `WriteFile` |
| Script.Scaffolder.AppendFileAsync | bin.js:118 | the files are those of `AppendFile` |
| Templates.Catalog | constants.js:242-307 | the catalog has sixteen records, and the k-th carries the k-th template text |
| Catalog.GitIgnoreIgnoresNycOutput | constants.js:209-233 | the `.gitignore` template has `/.nyc_output` as one of its lines |
| Catalog.FileColumnOfCatalog | constants.js:242-307 | the catalog's paths, in order, are the sixteen listed paths |
| Catalog.CatalogPathsDistinct | constants.js:244-304 | no two catalog paths are equal |
| Catalog.CatalogUnique | constants.js:242-307 | the catalog has sixteen records and no two different records share a path |
| Catalog.PathFacts | constants.js:244-304 | every catalog path is non-empty, has no leading `/` and no `..` segment, and needs exactly the directories listed for it |
| Catalog.CatalogPathsRelativeAndDirs | constants.js:256-306 | every catalog path is relative, and the directories the catalog needs are exactly `cypress`, `cypress/component`, `cypress/e2e`, `cypress/fixtures`, `cypress/support` and `.husky` |
| Catalog.NpmScriptsCount | constants.js:308-321 | the npm-scripts list names eleven scripts |
| Catalog.PinNamesDistinct | constants.js:322-345 | no package is pinned twice |
| Catalog.DependenciesArePins | constants.js:322-345 | there are 22 pins, each a non-empty name, `@`, and a non-empty version with no further `@`, and no two pins name the same package |
| Catalog.WriteCatalog | bin.js:109-116 | writing entries in order, overwriting, each as text plus EOL: the written paths are added, every other file keeps its text, and an entry no other entry competes with ends up holding its text and EOL |
| Catalog.WriteCatalogOrderIrrelevant | bin.js:109-116 | when no two different entries share a path, any two orders of the same entries write the same files |
| Catalog.CatalogWritten | constants.js:242-307 | writing the catalog leaves each record's text and EOL at its path under the root and every other file as it was |
| Catalog.CatalogWriteAnyOrder | constants.js:242-307 | writing the catalog in any order gives the same files as writing it in catalog order |
| Agreement.NpmScriptsMatchOverlay | constants.js:308-321 | the npm-scripts list of constants.js is the overlay bin.js applies at lines 83-94 |
| Agreement.InlineSettingsMatchTemplates | bin.js:23-63 | bin.js writes `.prettierrc`, `.eslintrc` and `.prettierignore` with the templates the catalog holds for them; the line it appends to `.gitignore` is a line of the catalog's `.gitignore` template |

## Findings

| source | as written | input that shows it | evidently intended | confidence | as-written member | corrected member |
|---|---|---|---|---|---|---|
| bin.js:78 | `packageJson` holds the raw text of package.json and is never parsed. In sloppy mode the assignment of line 81 is dropped on the string, and the test of line 97 reads undefined. Line 103 writes the whole text back as one quoted JSON string, so no script is added and `eslintConfig` is kept (`Script.AsWrittenDropsPatch`). | a package.json holding any object, such as `{"name":"app"}` | parse the text (`JSON.parse`) before the overlay; proved: `Script.UpdateStepIdempotent`, `Descriptor.MergeFields` | high, not executed | Script.AsWrittenUpdateStep | Script.UpdateStep |

## Left out

- The three debug prints (bin.js:4, 77, 79) and the bar's rendering are not modelled. The printed lines modelled are "Update starts...", the usage error and "Update finished.".
- Argument parsing by yargs is reduced to a list of strings. yargs turns a numeric name such as `123` into a number, for which `path.resolve` throws outside `install`; that crash is not modelled.
- `path.resolve` and `path.join` do not normalise in the model: `.` and `..` segments, doubled separators and a trailing separator are kept. So for the name `app/` the real root is `<cwd>/app`, but the model looks for `<cwd>/app//package.json`, a different map key.
- `npx create-react-app` is a parameter: the files it writes and whether it succeeds. Its output and its time are not modelled.
- JSON text is not modelled. `parse` and `serialize` are parameters, so the 2-space indentation is inside `serialize`. An object is a map, so key order is dropped: JSON.stringify prints keys in insertion order (old script names first, then the new patch names, with `scripts` kept in its place), which no `serialize` over a map can reproduce. Numbers are reals.
- Descriptor.Spread: JavaScript spreads a string by UTF-16 code unit, but the model spreads it by Dafny character (a Unicode scalar value). A `scripts` string holding a character outside the Basic Multilingual Plane, such as `"😀"`, gives two keys `"0"` and `"1"` in JavaScript but one key `"0"` in the model.
- `os.EOL` is `"\n"`, as on POSIX systems.
- Script.AppendFile: `fs.appendFile` returns a promise that nobody awaits. The model completes the append before the next line runs, ordered before `bar1.stop()` and the closing line. A refused append leaves the file as it was and throws nothing into `install`. The later unhandled rejection, which can end the process after "Update finished.", is not modelled.
- Script.WriteFile: why a write fails (missing directory, permissions, disk) is reduced to one set of paths that refuse writes.
- Script.Scaffolder.Run: the process exit for the usage error (bin.js:16) is modelled as returning exit code 1.
- The template bodies' own syntax (ESLint, TypeScript, Cypress and shell files) is not modelled. Each body is an opaque string.
- No file of the repository consumes the catalog, the npm-scripts list or the dependency list. `Catalog.WriteCatalog` is what writing the catalog in bin.js's style would do, and nothing more is claimed about a consumer.
