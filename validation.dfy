/** The object schemas the application builds with zod: each key of a parsed JSON body is
    checked by one rule (`z.string().min(n)`, `z.string().email()`, `z.string().optional()`,
    `z.enum([...])`), issues are reported in the schema's key order, and a successful parse
    keeps only the schema's keys. The e-mail check is a parameter: its definition belongs to
    the library. */
module Validation {
  import opened Common

  /** A member of a parsed JSON value: a string, `null`, or a value of any other JSON type
      (a number, a boolean, an object or an array). */
  datatype Field = Str(s: string) | Null | OtherJson

  /** A JSON object, by member name; a missing member is an absent key. */
  type Fields = map<string, Field>

  /** `z.string().email()` is modelled by this test on the string. */
  type EmailCheck = string -> bool

  datatype Rule =
    | MinLength(n: nat)            // z.string().min(n)
    | Email                        // z.string().email()
    | OptionalString               // z.string().optional()
    | OneOf(options: seq<string>)  // z.enum(options)

  datatype Entry = Entry(key: string, rule: Rule)

  /** A `z.object({...})` schema: its entries in declaration order. */
  type Schema = seq<Entry>

  datatype IssueKind = InvalidType | TooSmall(minimum: nat) | InvalidEmail | InvalidEnumValue

  /** One entry of a `ZodError`'s issue list. */
  datatype Issue = Issue(path: string, kind: IssueKind)

  /** The issue zod reports for member `key` under `rule`, if any. */
  function CheckRule(f: Fields, key: string, rule: Rule, isEmail: EmailCheck): Option<IssueKind> {
    if rule.OptionalString? then
      if key !in f || f[key].Str? then None else Some(InvalidType)
    else if key !in f || !f[key].Str? then
      Some(InvalidType)
    else
      var s := f[key].s;
      match rule
      case MinLength(n) => if |s| >= n then None else Some(TooSmall(n))
      case Email => if isEmail(s) then None else Some(InvalidEmail)
      case OneOf(options) => if s in options then None else Some(InvalidEnumValue)
  }

  /** What each rule demands of a member, stated without reference to issues. */
  predicate Satisfies(f: Fields, e: Entry, isEmail: EmailCheck) {
    match e.rule
    case OptionalString => e.key !in f || f[e.key].Str?
    case MinLength(n) => e.key in f && f[e.key].Str? && |f[e.key].s| >= n
    case Email => e.key in f && f[e.key].Str? && isEmail(f[e.key].s)
    case OneOf(options) => e.key in f && f[e.key].Str? && f[e.key].s in options
  }

  lemma CheckRuleMeaning(f: Fields, e: Entry, isEmail: EmailCheck)
    ensures CheckRule(f, e.key, e.rule, isEmail).None? <==> Satisfies(f, e, isEmail)
  {
  }

  /** The issues of `schema` for `f`, in the schema's order. */
  function IssuesOf(f: Fields, schema: Schema, isEmail: EmailCheck): (r: seq<Issue>)
    ensures |r| <= |schema|
  {
    if schema == [] then
      []
    else
      var first := match CheckRule(f, schema[0].key, schema[0].rule, isEmail)
        case None => []
        case Some(k) => [Issue(schema[0].key, k)];
      first + IssuesOf(f, schema[1..], isEmail)
  }

  predicate AllSatisfied(f: Fields, schema: Schema, isEmail: EmailCheck) {
    forall i :: 0 <= i < |schema| ==> Satisfies(f, schema[i], isEmail)
  }

  /** There is no issue exactly when every entry of the schema is satisfied. */
  lemma {:induction false} NoIssuesIffSatisfied(f: Fields, schema: Schema, isEmail: EmailCheck)
    ensures IssuesOf(f, schema, isEmail) == [] <==> AllSatisfied(f, schema, isEmail)
  {
    if schema != [] {
      NoIssuesIffSatisfied(f, schema[1..], isEmail);
      CheckRuleMeaning(f, schema[0], isEmail);
      assert AllSatisfied(f, schema, isEmail) <==>
        Satisfies(f, schema[0], isEmail) && AllSatisfied(f, schema[1..], isEmail) by {
        assert forall i :: 0 < i < |schema| ==> schema[i] == schema[1..][i - 1];
      }
    }
  }

  /** Every reported issue names an entry of the schema that is not satisfied. */
  lemma {:induction false} IssuesAreGenuine(f: Fields, schema: Schema, isEmail: EmailCheck, k: nat)
    requires k < |IssuesOf(f, schema, isEmail)|
    ensures exists i :: 0 <= i < |schema| && schema[i].key == IssuesOf(f, schema, isEmail)[k].path
                        && !Satisfies(f, schema[i], isEmail)
  {
    CheckRuleMeaning(f, schema[0], isEmail);
    var first := match CheckRule(f, schema[0].key, schema[0].rule, isEmail)
      case None => []
      case Some(kind) => [Issue(schema[0].key, kind)];
    if k >= |first| {
      IssuesAreGenuine(f, schema[1..], isEmail, k - |first|);
      var i :| 0 <= i < |schema[1..]| && schema[1..][i].key == IssuesOf(f, schema[1..], isEmail)[k - |first|].path
                && !Satisfies(f, schema[1..][i], isEmail);
      assert schema[i + 1] == schema[1..][i];
    } else {
      assert !Satisfies(f, schema[0], isEmail);
    }
  }

  function KeysOf(schema: Schema): set<string> {
    set i | 0 <= i < |schema| :: schema[i].key
  }

  /** `schema.parse(body)`: the body restricted to the schema's keys, or the `ZodError`'s
      issue list. */
  function Parse(f: Fields, schema: Schema, isEmail: EmailCheck): (r: Result<Fields, seq<Issue>>)
    ensures r.Success? <==> AllSatisfied(f, schema, isEmail)
    ensures r.Success? ==> r.value.Keys == f.Keys * KeysOf(schema)
    ensures r.Success? ==> forall k :: k in r.value ==> r.value[k] == f[k]
    ensures r.Failure? ==> r.error != []
  {
    NoIssuesIffSatisfied(f, schema, isEmail);
    var issues := IssuesOf(f, schema, isEmail);
    if issues == [] then Success(map k | k in f && k in KeysOf(schema) :: f[k]) else Failure(issues)
  }

  /** A successful parse agrees with the body on every key of the schema. */
  lemma ParsedAgrees(f: Fields, schema: Schema, isEmail: EmailCheck, i: nat)
    requires Parse(f, schema, isEmail).Success? && i < |schema|
    ensures StringAt(Parse(f, schema, isEmail).value, schema[i].key) == StringAt(f, schema[i].key)
    ensures OptionalAt(Parse(f, schema, isEmail).value, schema[i].key) == OptionalAt(f, schema[i].key)
  {
    assert schema[i].key in KeysOf(schema);
  }

  /** Member `key` is a string of at least `n` characters. */
  predicate StringOfLength(f: Fields, key: string, n: nat) {
    key in f && f[key].Str? && |f[key].s| >= n
  }

  /** The string a satisfied `MinLength`, `Email` or `OneOf` entry holds. */
  function StringAt(f: Fields, key: string): string {
    if key in f && f[key].Str? then f[key].s else ""
  }

  /** The value a satisfied `OptionalString` entry holds. */
  function OptionalAt(f: Fields, key: string): Option<string> {
    if key in f && f[key].Str? then Some(f[key].s) else None
  }
}
