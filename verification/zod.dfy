/**
  The part of zod the health-insight validator uses: an object schema whose
  fields are plain strings or string enums, checked field by field in the
  order the schema lists them, collecting one issue per failing field.
  Unknown keys are accepted (zod's default "strip" mode).
 */
module Zod {
  import opened Js

  datatype FieldSchema = ZString | ZEnum(options: seq<string>)

  /** An object schema: field names with their schemas, in declaration order. */
  type Shape = seq<(string, FieldSchema)>

  /** What it means for one value to satisfy one field schema. */
  predicate Conforms(f: FieldSchema, v: JsValue) {
    match f
    case ZString => v.Str?
    case ZEnum(options) => v.Str? && v.s in options
  }

  /** The issue zod reports for one field, if any: a non-string is a type error,
      a string outside the enum an enum error. */
  function FieldIssue(f: FieldSchema, v: JsValue): (c: Option<IssueCode>)
    ensures c.None? <==> Conforms(f, v)
    ensures c == Some(InvalidEnumValue) ==> f.ZEnum? && v.Str? && v.s !in f.options
  {
    if !v.Str? then Some(InvalidType)
    else match f
      case ZString => None
      case ZEnum(options) => if v.s in options then None else Some(InvalidEnumValue)
  }

  /** The issue's path is one field of the shape, and that field's value fails its schema. */
  ghost predicate NamesFailingField(shape: Shape, fields: map<string, JsValue>, issue: Issue) {
    exists i :: 0 <= i < |shape| && issue.path == [shape[i].0] &&
      !Conforms(shape[i].1, Lookup(fields, shape[i].0))
  }

  /** Some issue in the list points at field `key`. */
  ghost predicate ReportsField(issues: seq<Issue>, key: string) {
    exists j :: 0 <= j < |issues| && issues[j].path == [key]
  }

  /** The issues of an object's fields against a shape: one per failing field, and
      none for a field that conforms. */
  function ObjectIssues(shape: Shape, fields: map<string, JsValue>): (issues: seq<Issue>)
    ensures |issues| <= |shape|
    ensures issues == [] <==>
      forall i :: 0 <= i < |shape| ==> Conforms(shape[i].1, Lookup(fields, shape[i].0))
    ensures forall j :: 0 <= j < |issues| ==> NamesFailingField(shape, fields, issues[j])
    ensures forall i :: 0 <= i < |shape| && !Conforms(shape[i].1, Lookup(fields, shape[i].0)) ==>
      ReportsField(issues, shape[i].0)
  {
    if shape == [] then []
    else
      var (key, schema) := shape[0];
      var here := match FieldIssue(schema, Lookup(fields, key))
        case None => []
        case Some(code) => [Issue([key], code)];
      var rest := ObjectIssues(shape[1..], fields);
      forall j | 0 <= j < |rest| ensures NamesFailingField(shape, fields, rest[j]) {
        var i :| 0 <= i < |shape[1..]| && rest[j].path == [shape[1..][i].0] &&
          !Conforms(shape[1..][i].1, Lookup(fields, shape[1..][i].0));
        assert shape[1..][i] == shape[i + 1];
      }
      forall i | 0 <= i < |shape| && !Conforms(shape[i].1, Lookup(fields, shape[i].0))
        ensures ReportsField(here + rest, shape[i].0)
      {
        if i == 0 {
          assert (here + rest)[0].path == [key];
        } else {
          assert shape[1..][i - 1] == shape[i];
          var j :| 0 <= j < |rest| && rest[j].path == [shape[i].0];
          assert (here + rest)[|here| + j] == rest[j];
        }
      }
      here + rest
  }

  /** `schema.safeParse(v)` reduced to its issue list: a value that is not a plain
      object fails as a whole, otherwise every field is checked. */
  function SafeParse(shape: Shape, v: JsValue): (issues: seq<Issue>)
    ensures issues == [] <==>
      v.Obj? && forall i :: 0 <= i < |shape| ==> Conforms(shape[i].1, Lookup(v.fields, shape[i].0))
    ensures !v.Obj? ==> issues == [Issue([], InvalidType)]
  {
    if v.Obj? then ObjectIssues(shape, v.fields) else [Issue([], InvalidType)]
  }

  /** When exactly one field of the shape fails, the issue list is that field's issue alone. */
  lemma {:induction false} SingleFailure(shape: Shape, fields: map<string, JsValue>, i: nat, code: IssueCode)
    requires i < |shape|
    requires forall j :: 0 <= j < |shape| && j != i ==> Conforms(shape[j].1, Lookup(fields, shape[j].0))
    requires FieldIssue(shape[i].1, Lookup(fields, shape[i].0)) == Some(code)
    ensures ObjectIssues(shape, fields) == [Issue([shape[i].0], code)]
  {
    if i == 0 {
      var rest := shape[1..];
      assert forall j :: 0 <= j < |rest| ==> rest[j] == shape[j + 1];
      assert ObjectIssues(rest, fields) == [];
    } else {
      assert forall j :: 0 <= j < |shape[1..]| ==> shape[1..][j] == shape[j + 1];
      SingleFailure(shape[1..], fields, i - 1, code);
      assert FieldIssue(shape[0].1, Lookup(fields, shape[0].0)).None?;
    }
  }
}
