/**
 * The package.json rewrite of bin.js (`updatePackageJson`, lines 75-105),
 * separated from file I/O: the scripts overlay, the removal of the legacy
 * `eslintConfig` key, and what happens when the value being rewritten is not
 * an object.
 */
module Descriptor {
  import opened Json

  /** The eleven npm scripts bin.js lays over the generated ones (lines 83-94). */
  const ScriptsPatch: map<string, string> := map[
    "cy" := "start-server-and-test cy:server 3000 cy:run",
    "cy:dev" := "start-server-and-test cy:server 3000 cy:open",
    "cy:open" := "cypress open",
    "cy:run" := "cypress run",
    "cy:server" := "cross-env NODE_ENV=test BROWSER=none react-scripts -r @cypress/instrument-cra start",
    "format" := "npm run prettier:fix && npm run lint:fix",
    "lint" := "npx eslint src",
    "lint:fix" := "npm run lint -- --fix",
    "prepare" := "husky install",
    "prettier" := "npx prettier src --check",
    "prettier:fix" := "npm run prettier -- --write"
  ]

  /** The patch as JSON members: every script is a JSON string. */
  function PatchMembers(): (r: map<string, Json>)
    ensures r.Keys == ScriptsPatch.Keys
    ensures forall k :: k in r ==> r[k] == Str(ScriptsPatch[k])
  {
    map k | k in ScriptsPatch :: Str(ScriptsPatch[k])
  }

  /** The canonical decimal spelling of an array or string index, the key
      under which object spread places that element. */
  function DecimalString(n: nat): (s: string)
    ensures |s| > 0
    ensures n >= 10 ==> |s| >= 2
  {
    if n < 10 then [(48 + n) as char] else DecimalString(n / 10) + [(48 + n % 10) as char]
  }

  lemma {:induction false} DecimalStringInjective(m: nat, n: nat)
    requires DecimalString(m) == DecimalString(n)
    ensures m == n
  {
    var sm, sn := DecimalString(m), DecimalString(n);
    if m >= 10 && n >= 10 {
      assert sm[..|sm| - 1] == DecimalString(m / 10);
      assert sn[..|sn| - 1] == DecimalString(n / 10);
      DecimalStringInjective(m / 10, n / 10);
      assert sm[|sm| - 1] == sn[|sn| - 1];
    } else if m < 10 && n < 10 {
      assert sm[0] == sn[0];
    }
  }

  /** The keys an array or string of length n spreads into an object. */
  function IndexKeys(n: nat): set<string>
  {
    set i | 0 <= i < n :: DecimalString(i)
  }

  /** The members `{ ...v }` copies out of v: an object gives its own members,
      an array or a string gives one member per element (a string element is
      its one-character string), and null, booleans and numbers give none. */
  function Spread(v: Json): (r: map<string, Json>)
    ensures v.Obj? ==> r == v.fields
    ensures v.Arr? ==> r.Keys == IndexKeys(|v.items|)
    ensures v.Arr? ==> forall i :: 0 <= i < |v.items| ==> r[DecimalString(i)] == v.items[i]
    ensures v.Str? ==> r.Keys == IndexKeys(|v.s|)
    ensures v.Str? ==> forall i :: 0 <= i < |v.s| ==> r[DecimalString(i)] == Str([v.s[i]])
    ensures v.Null? || v.Bool? || v.Num? ==> r == map[]
  {
    match v
    case Obj(fields) => fields
    case Arr(items) =>
      assert forall i, j :: 0 <= i < |items| && 0 <= j < |items| && DecimalString(i) == DecimalString(j) ==> i == j by {
        forall i: nat, j: nat | DecimalString(i) == DecimalString(j) ensures i == j {
          DecimalStringInjective(i, j);
        }
      }
      map i | 0 <= i < |items| :: DecimalString(i) := items[i]
    case Str(s) =>
      assert forall i, j :: 0 <= i < |s| && 0 <= j < |s| && DecimalString(i) == DecimalString(j) ==> i == j by {
        forall i: nat, j: nat | DecimalString(i) == DecimalString(j) ensures i == j {
          DecimalStringInjective(i, j);
        }
      }
      map i | 0 <= i < |s| :: DecimalString(i) := Str([s[i]])
    case _ => map[]
  }

  /** The scripts the document had before the rewrite, as the spread in line 82
      sees them (an absent key reads as undefined, which spreads to nothing). */
  function PriorScripts(doc: map<string, Json>): (r: map<string, Json>)
    ensures "scripts" !in doc ==> r == map[]
    ensures "scripts" in doc && doc["scripts"].Obj? ==> r == doc["scripts"].fields
    ensures "scripts" in doc && (doc["scripts"].Null? || doc["scripts"].Bool? || doc["scripts"].Num?) ==> r == map[]
  {
    if "scripts" in doc then Spread(doc["scripts"]) else map[]
  }

  /** Lines 81-99 on an object document: `scripts` becomes the old scripts
      overlaid by the patch, and `eslintConfig` is deleted when it is truthy.
      Every other member is left alone. */
  function MergeFields(doc: map<string, Json>): (r: map<string, Json>)
    ensures "scripts" in r && r["scripts"].Obj?
    ensures r["scripts"].fields.Keys == PriorScripts(doc).Keys + ScriptsPatch.Keys
    ensures forall k :: k in ScriptsPatch ==> r["scripts"].fields[k] == Str(ScriptsPatch[k])
    ensures forall k :: k in PriorScripts(doc) && k !in ScriptsPatch ==> r["scripts"].fields[k] == PriorScripts(doc)[k]
    ensures "eslintConfig" !in r <==> "eslintConfig" !in doc || Truthy(doc["eslintConfig"])
    ensures "eslintConfig" in r ==> r["eslintConfig"] == doc["eslintConfig"] && !Truthy(r["eslintConfig"])
    ensures forall k :: k != "scripts" && k != "eslintConfig" ==> (k in r <==> k in doc)
    ensures forall k :: k != "scripts" && k != "eslintConfig" && k in doc ==> r[k] == doc[k]
  {
    var withScripts := doc["scripts" := Obj(PriorScripts(doc) + PatchMembers())];
    if "eslintConfig" in withScripts && Truthy(withScripts["eslintConfig"]) then
      withScripts - {"eslintConfig"}
    else
      withScripts
  }

  /** Merging an already merged document changes nothing. */
  lemma MergeFieldsIdempotent(doc: map<string, Json>)
    ensures MergeFields(MergeFields(doc)) == MergeFields(doc)
  {
    var once := MergeFields(doc);
    var twice := MergeFields(once);
    assert PriorScripts(once) == once["scripts"].fields;
    assert twice["scripts"].fields == once["scripts"].fields;
    assert twice.Keys == once.Keys;
  }

  /** Why the rewrite can throw. */
  datatype UpdateError = NullReceiver

  datatype UpdateResult = Updated(value: Json) | Failed(error: UpdateError)

  /** Lines 81-99 applied to whatever value `packageJson` holds, in the
      script's sloppy (non-strict) mode: on an object the members are merged;
      setting a property on null throws a TypeError; on an array the new
      `scripts` property is not an array element, so it never reaches the
      serialized text, and an array has no `eslintConfig`; on a string, number
      or boolean the assignment is silently dropped and the `eslintConfig` test
      reads undefined. */
  function UpdateDocument(v: Json): (r: UpdateResult)
    ensures v.Null? <==> r.Failed?
    ensures v.Obj? ==> r == Updated(Obj(MergeFields(v.fields)))
    ensures !v.Obj? && !v.Null? ==> r == Updated(v)
  {
    match v
    case Null => Failed(NullReceiver)
    case Obj(fields) => Updated(Obj(MergeFields(fields)))
    case _ => Updated(v)
  }

  /** Rewriting a rewritten document gives it back unchanged. */
  lemma UpdateDocumentIdempotent(v: Json)
    requires UpdateDocument(v).Updated?
    ensures UpdateDocument(UpdateDocument(v).value) == UpdateDocument(v)
  {
    if v.Obj? {
      MergeFieldsIdempotent(v.fields);
    }
  }
}
