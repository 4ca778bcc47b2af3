/**
 * Facts about the constants.js data that make writing the catalog
 * well-defined, and the write-each-entry operation a consumer of the catalog
 * performs (mirroring the overwrite-with-EOL writes of bin.js).
 */
module Catalog {
  import opened Templates
  import opened Paths
  import opened Platform

  /** line occupies a whole line of text starting at index i. */
  predicate LineAt(text: string, line: string, i: nat)
  {
    && i + |line| < |text|
    && text[i..i + |line|] == line
    && text[i + |line|] == '\n'
    && (i == 0 || text[i - 1] == '\n')
  }

  /** text has line as one of its newline-terminated lines. */
  predicate HasLine(text: string, line: string)
  {
    exists i: nat | i < |text| :: LineAt(text, line, i)
  }

  /** A line placed right after a line break (or at the start) is a line of the text. */
  lemma LineAfterBreak(t: string, line: string)
    requires t == [] || t[|t| - 1] == '\n'
    ensures HasLine(t + (line + "\n"), line)
  {
    assert LineAt(t + (line + "\n"), line, |t|);
  }

  /** Appending text keeps every line already there. */
  lemma LineSurvivesAppend(t: string, line: string, s: string)
    requires HasLine(t, line)
    ensures HasLine(t + s, line)
  {
    var i: nat :| i < |t| && LineAt(t, line, i);
    assert (t + s)[i..i + |line|] == t[i..i + |line|];
    assert LineAt(t + s, line, i);
  }

  /** The generated .gitignore already ignores the coverage tool's output
      directory, the line bin.js appends on its own. */
  lemma GitIgnoreIgnoresNycOutput()
    ensures HasLine(GitIgnoreConfig, "/.nyc_output")
  {
    var t :=
      "# See https://help.github.com/articles/ignoring-files/ for more about ignoring files.\n" +
      "\n" +
      "# dependencies\n" +
      "/node_modules\n" +
      "/.pnp\n" +
      ".pnp.js\n" +
      "\n" +
      "# testing\n" +
      "/coverage\n";
    LineAfterBreak(t, "/.nyc_output");
    assert "/.nyc_output" + "\n" == "/.nyc_output\n";
    t := t + "/.nyc_output\n";
    LineSurvivesAppend(t, "/.nyc_output", "\n");
    t := t + "\n";
    LineSurvivesAppend(t, "/.nyc_output", "# production\n");
    t := t + "# production\n";
    LineSurvivesAppend(t, "/.nyc_output", "/build\n");
    t := t + "/build\n";
    LineSurvivesAppend(t, "/.nyc_output", "\n");
    t := t + "\n";
    LineSurvivesAppend(t, "/.nyc_output", "# misc\n");
    t := t + "# misc\n";
    LineSurvivesAppend(t, "/.nyc_output", ".DS_Store\n");
    t := t + ".DS_Store\n";
    LineSurvivesAppend(t, "/.nyc_output", ".env.local\n");
    t := t + ".env.local\n";
    LineSurvivesAppend(t, "/.nyc_output", ".env.development.local\n");
    t := t + ".env.development.local\n";
    LineSurvivesAppend(t, "/.nyc_output", ".env.test.local\n");
    t := t + ".env.test.local\n";
    LineSurvivesAppend(t, "/.nyc_output", ".env.production.local\n");
    t := t + ".env.production.local\n";
    LineSurvivesAppend(t, "/.nyc_output", "\n");
    t := t + "\n";
    LineSurvivesAppend(t, "/.nyc_output", "npm-debug.log*\n");
    t := t + "npm-debug.log*\n";
    LineSurvivesAppend(t, "/.nyc_output", "yarn-debug.log*\n");
    t := t + "yarn-debug.log*\n";
    LineSurvivesAppend(t, "/.nyc_output", "yarn-error.log*\n");
    t := t + "yarn-error.log*\n";
  }

  /** The `file` column of a catalog. */
  function FileColumn(es: seq<Entry>): (ps: seq<string>)
    ensures |ps| == |es| && forall k :: 0 <= k < |es| ==> ps[k] == es[k].file
  {
    seq(|es|, k requires 0 <= k < |es| => es[k].file)
  }

  /** The catalog's paths, in catalog order. The list repeats the paths of
      Templates.Catalog so that the path lemmas never unfold the template
      texts, which are costly for the solver; FileColumnOfCatalog proves the
      two lists equal. */
  const CatalogPaths: seq<string> := [
    ".prettierrc",
    ".eslintrc",
    ".prettierignore",
    "cypress/component/ComponentName.cy.ts",
    "cypress/e2e/spec.cy.ts",
    "cypress/fixtures/example.json",
    "cypress/support/commands.ts",
    "cypress/support/component-index.html",
    "cypress/support/component.ts",
    "cypress/support/e2e.ts",
    "cypress/.eslintrc",
    "cypress/tsconfig.json",
    "cypress.config.ts",
    ".gitignore",
    ".husky/pre-commit",
    ".husky/pre-push"
  ]

  /** The catalog's `file` column is the path list above, whatever its texts. */
  lemma FileColumnOfCatalog(texts: seq<string>)
    requires |texts| == 16
    ensures FileColumn(Catalog(texts)) == CatalogPaths
  {
  }

  /** No two catalog paths are equal. */
  lemma CatalogPathsDistinct()
    ensures |CatalogPaths| == 16
    ensures forall i, j :: 0 <= i < j < |CatalogPaths| ==> CatalogPaths[i] != CatalogPaths[j]
  {
  }

  /** A catalog whose path column has no repeats has one entry per path. */
  lemma UniquePaths(es: seq<Entry>)
    requires forall i, j :: 0 <= i < j < |es| ==> es[i].file != es[j].file
    ensures forall e, e' :: e in es && e' in es && e.file == e'.file ==> e == e'
  {
    forall e, e' | e in es && e' in es && e.file == e'.file ensures e == e' {
      var i :| 0 <= i < |es| && es[i] == e;
      var j :| 0 <= j < |es| && es[j] == e';
    }
  }

  /** The catalog has sixteen entries, and no two different entries share a
      path, whatever its texts. */
  lemma CatalogUnique(texts: seq<string>)
    requires |texts| == 16
    ensures |Catalog(texts)| == 16
    ensures forall e, e' :: e in Catalog(texts) && e' in Catalog(texts) && e.file == e'.file ==> e == e'
  {
    FileColumnOfCatalog(texts);
    CatalogPathsDistinct();
    UniquePaths(Catalog(texts));
  }

  /** The directories each catalog path needs, in catalog order. */
  const EntryDirs: seq<set<string>> := [
    {},
    {},
    {},
    {"cypress", "cypress/component"},
    {"cypress", "cypress/e2e"},
    {"cypress", "cypress/fixtures"},
    {"cypress", "cypress/support"},
    {"cypress", "cypress/support"},
    {"cypress", "cypress/support"},
    {"cypress", "cypress/support"},
    {"cypress"},
    {"cypress"},
    {},
    {},
    {".husky"},
    {".husky"}
  ]

  /** A top-level catalog path is one plain segment. */
  lemma TopLevelPathFacts(k: nat)
    requires k == 0 || k == 1 || k == 2 || k == 12 || k == 13
    ensures IsRelative(CatalogPaths[k])
    ensures ParentDirs(CatalogPaths[k]) == EntryDirs[k]
  {
    if k == 0 {
      SegmentIsRelative(".prettierrc");
      SegmentHasNoParents(".prettierrc");
    } else if k == 1 {
      SegmentIsRelative(".eslintrc");
      SegmentHasNoParents(".eslintrc");
    } else if k == 2 {
      SegmentIsRelative(".prettierignore");
      SegmentHasNoParents(".prettierignore");
    } else if k == 12 {
      SegmentIsRelative("cypress.config.ts");
      SegmentHasNoParents("cypress.config.ts");
    } else {
      SegmentIsRelative(".gitignore");
      SegmentHasNoParents(".gitignore");
    }
  }

  /** A catalog path two segments deep needs its first segment. */
  lemma ShallowPathFacts(k: nat)
    requires k == 10 || k == 11 || k == 14 || k == 15
    ensures IsRelative(CatalogPaths[k])
    ensures ParentDirs(CatalogPaths[k]) == EntryDirs[k]
  {
    if k == 10 {
      assert CatalogPaths[10] == "cypress" + "/" + ".eslintrc";
      TwoSegments("cypress", ".eslintrc");
    } else if k == 11 {
      assert CatalogPaths[11] == "cypress" + "/" + "tsconfig.json";
      TwoSegments("cypress", "tsconfig.json");
    } else if k == 14 {
      assert CatalogPaths[14] == ".husky" + "/" + "pre-commit";
      TwoSegments(".husky", "pre-commit");
    } else {
      assert CatalogPaths[15] == ".husky" + "/" + "pre-push";
      TwoSegments(".husky", "pre-push");
    }
  }

  /** cypress/component/ComponentName.cy.ts needs cypress and cypress/component. */
  lemma CypressComponentPathFacts()
    ensures IsRelative(CatalogPaths[3])
    ensures ParentDirs(CatalogPaths[3]) == EntryDirs[3]
  {
    assert CatalogPaths[3] == "cypress" + "/" + "component" + "/" + "ComponentName.cy.ts";
    assert "cypress" + "/" + "component" == "cypress/component";
    ThreeSegments("cypress", "component", "ComponentName.cy.ts");
  }

  /** cypress/e2e/spec.cy.ts needs cypress and cypress/e2e. */
  lemma CypressE2ePathFacts()
    ensures IsRelative(CatalogPaths[4])
    ensures ParentDirs(CatalogPaths[4]) == EntryDirs[4]
  {
    assert CatalogPaths[4] == "cypress" + "/" + "e2e" + "/" + "spec.cy.ts";
    assert "cypress" + "/" + "e2e" == "cypress/e2e";
    ThreeSegments("cypress", "e2e", "spec.cy.ts");
  }

  /** cypress/fixtures/example.json needs cypress and cypress/fixtures. */
  lemma CypressFixturesPathFacts()
    ensures IsRelative(CatalogPaths[5])
    ensures ParentDirs(CatalogPaths[5]) == EntryDirs[5]
  {
    assert CatalogPaths[5] == "cypress" + "/" + "fixtures" + "/" + "example.json";
    assert "cypress" + "/" + "fixtures" == "cypress/fixtures";
    ThreeSegments("cypress", "fixtures", "example.json");
  }

  /** cypress/support/commands.ts needs cypress and cypress/support. */
  lemma SupportCommandsPathFacts()
    ensures IsRelative(CatalogPaths[6])
    ensures ParentDirs(CatalogPaths[6]) == EntryDirs[6]
  {
    assert CatalogPaths[6] == "cypress" + "/" + "support" + "/" + "commands.ts";
    assert "cypress" + "/" + "support" == "cypress/support";
    ThreeSegments("cypress", "support", "commands.ts");
  }

  /** cypress/support/component-index.html needs cypress and cypress/support. */
  lemma SupportIndexPathFacts()
    ensures IsRelative(CatalogPaths[7])
    ensures ParentDirs(CatalogPaths[7]) == EntryDirs[7]
  {
    assert CatalogPaths[7] == "cypress" + "/" + "support" + "/" + "component-index.html";
    assert "cypress" + "/" + "support" == "cypress/support";
    ThreeSegments("cypress", "support", "component-index.html");
  }

  /** cypress/support/component.ts needs cypress and cypress/support. */
  lemma SupportComponentPathFacts()
    ensures IsRelative(CatalogPaths[8])
    ensures ParentDirs(CatalogPaths[8]) == EntryDirs[8]
  {
    assert CatalogPaths[8] == "cypress" + "/" + "support" + "/" + "component.ts";
    assert "cypress" + "/" + "support" == "cypress/support";
    ThreeSegments("cypress", "support", "component.ts");
  }

  /** cypress/support/e2e.ts needs cypress and cypress/support. */
  lemma SupportE2ePathFacts()
    ensures IsRelative(CatalogPaths[9])
    ensures ParentDirs(CatalogPaths[9]) == EntryDirs[9]
  {
    assert CatalogPaths[9] == "cypress" + "/" + "support" + "/" + "e2e.ts";
    assert "cypress" + "/" + "support" == "cypress/support";
    ThreeSegments("cypress", "support", "e2e.ts");
  }

  /** Each catalog path stays under the root and needs the directories listed for it. */
  lemma PathFacts(k: nat)
    requires k < |CatalogPaths|
    ensures IsRelative(CatalogPaths[k])
    ensures ParentDirs(CatalogPaths[k]) == EntryDirs[k]
  {
    if k in {0, 1, 2, 12, 13} {
      TopLevelPathFacts(k);
    } else if k in {10, 11, 14, 15} {
      ShallowPathFacts(k);
    } else if k == 3 {
      CypressComponentPathFacts();
    } else if k == 4 {
      CypressE2ePathFacts();
    } else if k == 5 {
      CypressFixturesPathFacts();
    } else if k == 6 {
      SupportCommandsPathFacts();
    } else if k == 7 {
      SupportIndexPathFacts();
    } else if k == 8 {
      SupportComponentPathFacts();
    } else {
      SupportE2ePathFacts();
    }
  }

  /** The directories that must exist before every path of ps can be written. */
  function DirsNeeded(ps: seq<string>): set<string>
  {
    set k, d | 0 <= k < |ps| && d in ParentDirs(ps[k]) :: d
  }

  /** Every catalog path is relative, and writing the catalog needs exactly the
      cypress tree and the .husky directory. */
  lemma CatalogPathsRelativeAndDirs()
    ensures forall k :: 0 <= k < |CatalogPaths| ==> IsRelative(CatalogPaths[k])
    ensures DirsNeeded(CatalogPaths) == {"cypress", "cypress/component", "cypress/e2e", "cypress/fixtures", "cypress/support", ".husky"}
  {
    forall k | 0 <= k < |CatalogPaths| ensures IsRelative(CatalogPaths[k]) && ParentDirs(CatalogPaths[k]) == EntryDirs[k] {
      PathFacts(k);
    }
    var expected := {"cypress", "cypress/component", "cypress/e2e", "cypress/fixtures", "cypress/support", ".husky"};
    forall d | d in DirsNeeded(CatalogPaths) ensures d in expected {
      var k :| 0 <= k < |CatalogPaths| && d in ParentDirs(CatalogPaths[k]);
    }
    assert "cypress" in ParentDirs(CatalogPaths[3]);
    assert "cypress/component" in ParentDirs(CatalogPaths[3]);
    assert "cypress/e2e" in ParentDirs(CatalogPaths[4]);
    assert "cypress/fixtures" in ParentDirs(CatalogPaths[5]);
    assert "cypress/support" in ParentDirs(CatalogPaths[6]);
    assert ".husky" in ParentDirs(CatalogPaths[14]);
  }

  /** The npm-scripts list names eleven scripts. */
  lemma NpmScriptsCount()
    ensures |NpmScripts.Keys| == 11
  {
  }

  /** The package half of each pin, in list order. */
  const PinNames: seq<string> := [
    "@cypress/code-coverage",
    "@cypress/instrument-cra",
    "@frsource/cypress-plugin-visual-regression-diff",
    "@testing-library/cypress",
    "@testing-library/jest-dom",
    "@testing-library/react",
    "@testing-library/user-event",
    "@types/jest",
    "@types/node",
    "@types/react",
    "@types/react-dom",
    "cross-env",
    "cypress",
    "eslint-config-prettier",
    "eslint-plugin-cypress",
    "eslint-plugin-simple-import-sort",
    "husky",
    "prettier",
    "react-scripts",
    "start-server-and-test",
    "typescript",
    "web-vitals"
  ]

  /** The version half of each pin, in list order. */
  const PinVersions: seq<string> := [
    "3.10.0",
    "1.4.0",
    "3.2.8",
    "9.0.0",
    "5.16.5",
    "13.4.0",
    "14.4.3",
    "29.2.5",
    "18.11.18",
    "18.0.26",
    "18.0.10",
    "7.0.3",
    "12.3.0",
    "8.6.0",
    "2.12.1",
    "9.0.0",
    "8.0.3",
    "2.8.3",
    "5.0.1",
    "1.15.2",
    "4.9.4",
    "3.1.1"
  ]

  /** pin is name, '@', version, with a non-empty name and a non-empty
      version holding no '@', so its last '@' separates the two. */
  predicate IsPin(pin: string, name: string, version: string)
  {
    pin == name + "@" + version && name != "" && version != "" && '@' !in version
  }

  /** No package is named twice. */
  lemma PinNamesDistinct()
    ensures |PinNames| == 22
    ensures forall i, j :: 0 <= i < j < |PinNames| ==> PinNames[i] != PinNames[j]
  {
  }

  /** Pins 0 to 3 split at their last '@'. */
  lemma PinsFrom0(k: nat)
    requires 0 <= k <= 3
    ensures |Dependencies| == |PinNames| == |PinVersions| == 22
    ensures IsPin(Dependencies[k], PinNames[k], PinVersions[k])
  {
    if k == 0 {
      assert Dependencies[0] == "@cypress/code-coverage" + "@" + "3.10.0";
    } else if k == 1 {
      assert Dependencies[1] == "@cypress/instrument-cra" + "@" + "1.4.0";
    } else if k == 2 {
      assert Dependencies[2] == "@frsource/cypress-plugin-visual-regression-diff" + "@" + "3.2.8";
    } else {
      assert Dependencies[3] == "@testing-library/cypress" + "@" + "9.0.0";
    }
  }

  /** Pins 4 to 7 split at their last '@'. */
  lemma PinsFrom4(k: nat)
    requires 4 <= k <= 7
    ensures |Dependencies| == |PinNames| == |PinVersions| == 22
    ensures IsPin(Dependencies[k], PinNames[k], PinVersions[k])
  {
    if k == 4 {
      assert Dependencies[4] == "@testing-library/jest-dom" + "@" + "5.16.5";
    } else if k == 5 {
      assert Dependencies[5] == "@testing-library/react" + "@" + "13.4.0";
    } else if k == 6 {
      assert Dependencies[6] == "@testing-library/user-event" + "@" + "14.4.3";
    } else {
      assert Dependencies[7] == "@types/jest" + "@" + "29.2.5";
    }
  }

  /** Pins 8 to 11 split at their last '@'. */
  lemma PinsFrom8(k: nat)
    requires 8 <= k <= 11
    ensures |Dependencies| == |PinNames| == |PinVersions| == 22
    ensures IsPin(Dependencies[k], PinNames[k], PinVersions[k])
  {
    if k == 8 {
      assert Dependencies[8] == "@types/node" + "@" + "18.11.18";
    } else if k == 9 {
      assert Dependencies[9] == "@types/react" + "@" + "18.0.26";
    } else if k == 10 {
      assert Dependencies[10] == "@types/react-dom" + "@" + "18.0.10";
    } else {
      assert Dependencies[11] == "cross-env" + "@" + "7.0.3";
    }
  }

  /** Pins 12 to 15 split at their last '@'. */
  lemma PinsFrom12(k: nat)
    requires 12 <= k <= 15
    ensures |Dependencies| == |PinNames| == |PinVersions| == 22
    ensures IsPin(Dependencies[k], PinNames[k], PinVersions[k])
  {
    if k == 12 {
      assert Dependencies[12] == "cypress" + "@" + "12.3.0";
    } else if k == 13 {
      assert Dependencies[13] == "eslint-config-prettier" + "@" + "8.6.0";
    } else if k == 14 {
      assert Dependencies[14] == "eslint-plugin-cypress" + "@" + "2.12.1";
    } else {
      assert Dependencies[15] == "eslint-plugin-simple-import-sort" + "@" + "9.0.0";
    }
  }

  /** Pins 16 to 19 split at their last '@'. */
  lemma PinsFrom16(k: nat)
    requires 16 <= k <= 19
    ensures |Dependencies| == |PinNames| == |PinVersions| == 22
    ensures IsPin(Dependencies[k], PinNames[k], PinVersions[k])
  {
    if k == 16 {
      assert Dependencies[16] == "husky" + "@" + "8.0.3";
    } else if k == 17 {
      assert Dependencies[17] == "prettier" + "@" + "2.8.3";
    } else if k == 18 {
      assert Dependencies[18] == "react-scripts" + "@" + "5.0.1";
    } else {
      assert Dependencies[19] == "start-server-and-test" + "@" + "1.15.2";
    }
  }

  /** Pins 20 to 21 split at their last '@'. */
  lemma PinsFrom20(k: nat)
    requires 20 <= k <= 21
    ensures |Dependencies| == |PinNames| == |PinVersions| == 22
    ensures IsPin(Dependencies[k], PinNames[k], PinVersions[k])
  {
    if k == 20 {
      assert Dependencies[20] == "typescript" + "@" + "4.9.4";
    } else {
      assert Dependencies[21] == "web-vitals" + "@" + "3.1.1";
    }
  }

  /** There are 22 pins, each a non-empty package name, an '@' and a non-empty
      version with no further '@', and no package is pinned twice. */
  lemma DependenciesArePins()
    ensures |Dependencies| == 22
    ensures forall k :: 0 <= k < |Dependencies| ==> IsPin(Dependencies[k], PinNames[k], PinVersions[k])
    ensures forall i, j :: 0 <= i < j < |Dependencies| ==> PinNames[i] != PinNames[j]
  {
    forall k | 0 <= k < |Dependencies| ensures IsPin(Dependencies[k], PinNames[k], PinVersions[k]) {
      if k <= 3 {
        PinsFrom0(k);
      } else if k <= 7 {
        PinsFrom4(k);
      } else if k <= 11 {
        PinsFrom8(k);
      } else if k <= 15 {
        PinsFrom12(k);
      } else if k <= 19 {
        PinsFrom16(k);
      } else {
        PinsFrom20(k);
      }
    }
    PinNamesDistinct();
  }

  /** The paths the entries es are written to under root. */
  function Targets(root: string, es: seq<Entry>): set<string>
  {
    set e | e in es :: Join(root, e.file)
  }

  /** No other entry of es is written to e's path. */
  predicate SoleWriter(es: seq<Entry>, e: Entry)
  {
    forall e' :: e' in es && e'.file == e.file ==> e' == e
  }

  /** Writes every entry in order, overwriting, each as its content followed by
      EOL, the way bin.js writes its support files. Every path not in the
      catalog keeps its old content, and an entry that no other entry competes
      with ends up holding exactly its content and EOL. */
  function WriteCatalog(files: map<string, string>, root: string, es: seq<Entry>): (r: map<string, string>)
    ensures r.Keys == files.Keys + Targets(root, es)
    ensures forall p :: p in files && p !in Targets(root, es) ==> r[p] == files[p]
    ensures forall e :: e in es && SoleWriter(es, e) ==> r[Join(root, e.file)] == e.content + EOL
    decreases |es|
  {
    if es == [] then files
    else
      var e0 := es[0];
      var r := WriteCatalog(files[Join(root, e0.file) := e0.content + EOL], root, es[1..]);
      assert Targets(root, es) == {Join(root, e0.file)} + Targets(root, es[1..]);
      assert forall e :: e in es && SoleWriter(es, e) ==> r[Join(root, e.file)] == e.content + EOL by {
        forall e | e in es && SoleWriter(es, e) ensures r[Join(root, e.file)] == e.content + EOL {
          if e !in es[1..] {
            forall e' | e' in es[1..] ensures Join(root, e'.file) != Join(root, e0.file) {
              JoinInjective(root, e'.file, e0.file);
            }
          }
        }
      }
      r
  }

  /** Two catalogs that are permutations of each other hold the same entries. */
  lemma SameEntries(es1: seq<Entry>, es2: seq<Entry>)
    requires multiset(es1) == multiset(es2)
    ensures forall e :: e in es1 <==> e in es2
  {
    forall e ensures e in es1 <==> e in es2 {
      assert e in es1 <==> e in multiset(es1);
      assert e in es2 <==> e in multiset(es2);
    }
  }

  /** Catalogs that are permutations of each other write to the same paths. */
  lemma SameTargets(root: string, es1: seq<Entry>, es2: seq<Entry>)
    requires multiset(es1) == multiset(es2)
    ensures Targets(root, es1) == Targets(root, es2)
  {
    SameEntries(es1, es2);
  }

  /** Catalogs that are permutations of each other write to the same paths. */
  lemma SameKeys(files: map<string, string>, root: string, es1: seq<Entry>, es2: seq<Entry>)
    requires multiset(es1) == multiset(es2)
    ensures WriteCatalog(files, root, es1).Keys == WriteCatalog(files, root, es2).Keys
  {
    SameTargets(root, es1, es2);
  }

  /** Under unique paths, each path a catalog writes holds the same text after
      writing a permutation of it. */
  lemma SameTextAt(files: map<string, string>, root: string, es1: seq<Entry>, es2: seq<Entry>, p: string)
    requires multiset(es1) == multiset(es2)
    requires forall e, e' :: e in es1 && e' in es1 && e.file == e'.file ==> e == e'
    requires p in WriteCatalog(files, root, es1) && p in WriteCatalog(files, root, es2)
    ensures WriteCatalog(files, root, es1)[p] == WriteCatalog(files, root, es2)[p]
  {
    SameEntries(es1, es2);
    SameTargets(root, es1, es2);
    if p in Targets(root, es1) {
      var e :| e in es1 && p == Join(root, e.file);
      assert SoleWriter(es1, e) && SoleWriter(es2, e);
    }
  }

  /** When no two different entries share a path, the order the entries are
      written in does not matter. */
  lemma WriteCatalogOrderIrrelevant(files: map<string, string>, root: string, es1: seq<Entry>, es2: seq<Entry>)
    requires multiset(es1) == multiset(es2)
    requires forall e, e' :: e in es1 && e' in es1 && e.file == e'.file ==> e == e'
    ensures WriteCatalog(files, root, es1) == WriteCatalog(files, root, es2)
  {
    SameKeys(files, root, es1, es2);
    forall p | p in WriteCatalog(files, root, es1)
      ensures WriteCatalog(files, root, es1)[p] == WriteCatalog(files, root, es2)[p]
    {
      SameTextAt(files, root, es1, es2, p);
    }
  }

  /** Writing the catalog leaves each entry's text and EOL at its path under
      root and every other file as it was. */
  lemma CatalogWritten(files: map<string, string>, root: string, texts: seq<string>)
    requires |texts| == 16
    ensures forall k :: 0 <= k < 16 ==>
      WriteCatalog(files, root, Catalog(texts))[Join(root, Catalog(texts)[k].file)] == texts[k] + EOL
    ensures forall p :: p in files && p !in Targets(root, Catalog(texts)) ==> WriteCatalog(files, root, Catalog(texts))[p] == files[p]
  {
    var es := Catalog(texts);
    CatalogUnique(texts);
    forall k | 0 <= k < 16 ensures SoleWriter(es, es[k]) {
    }
  }

  /** Writing the catalog in any order gives the same files as writing it in
      catalog order. */
  lemma CatalogWriteAnyOrder(files: map<string, string>, root: string, texts: seq<string>, order: seq<Entry>)
    requires |texts| == 16
    requires multiset(order) == multiset(Catalog(texts))
    ensures WriteCatalog(files, root, order) == WriteCatalog(files, root, Catalog(texts))
  {
    CatalogUnique(texts);
    WriteCatalogOrderIrrelevant(files, root, Catalog(texts), order);
  }
}
