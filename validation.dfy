/**
 * The validation layer of the forms: the part of Zod's object/string
 * schemas the forms use, the issue list a failed `parse` reports, and the
 * `forEach` loop of the forms' `catch` blocks that folds that list into a
 * field -> message dictionary.
 *
 * Assumption about the library (not visible in the repository): for one
 * field of a `z.object` schema, a value that is not a string yields a single
 * `invalid_type` issue and nothing else; a string is run through the field's
 * checks in declaration order (`min`, `max`, `regex`, `email`), each failing
 * check adding one issue, and then through its `refine` predicate, which
 * runs even when an earlier check failed. The object reports its fields in
 * declaration order, each issue with the one-element path `[key]`.
 * Whether a string is an e-mail address is the parameter `emailOk`.
 */
module Validation {
  import opened JsText

  /** The JavaScript value of a draft field: typed text, or the number the initial draft holds. */
  datatype JsValue = Str(s: string) | Num(n: nat)

  /** A form's draft object; a key it lacks reads as `undefined`. */
  type Draft = map<string, JsValue>

  function Lookup(d: Draft, key: string): Option<JsValue> {
    if key in d then Some(d[key]) else None
  }

  /** One element of `ZodError.errors`. */
  datatype Issue = Issue(path: seq<string>, code: string, message: string)

  const TooSmallText := "El valor es demasiado pequeño."
  const TooBigText := "El valor es demasiado grande."
  const InvalidTypeText := "El tipo de dato es inválido."

  // ---------------------------------------------------------------------
  // The error-map fold
  // ---------------------------------------------------------------------

  /** `err.path.join('.')`, the dictionary key an issue is filed under. */
  function ErrorKey(err: Issue): (k: string)
    ensures |err.path| == 1 ==> k == err.path[0]
    ensures err.path == [] ==> k == ""
  {
    Join(err.path, ".")
  }

  /** The message table of the `switch`: three codes have fixed Spanish messages, any other keeps its own. */
  function ErrorMessage(err: Issue): (m: string)
    ensures err.code == "too_small" ==> m == TooSmallText
    ensures err.code == "too_big" ==> m == TooBigText
    ensures err.code == "invalid_type" ==> m == InvalidTypeText
    ensures err.code != "too_small" && err.code != "too_big" && err.code != "invalid_type" ==> m == err.message
  {
    match err.code
    case "too_small" => TooSmallText
    case "too_big" => TooBigText
    case "invalid_type" => InvalidTypeText
    case _ => err.message
  }

  /** The dictionary the loop builds: issues are written in order, each over whatever its key held. */
  function ErrorMap(issues: seq<Issue>): map<string, string> {
    if issues == [] then map[]
    else
      var last := issues[|issues| - 1];
      ErrorMap(issues[..|issues| - 1])[ErrorKey(last) := ErrorMessage(last)]
  }

  /** The dictionary has an entry for a key exactly when some issue is filed under it. */
  lemma {:induction false} ErrorMapKeys(issues: seq<Issue>, k: string)
    ensures k in ErrorMap(issues) <==> exists i :: 0 <= i < |issues| && ErrorKey(issues[i]) == k
  {
    if issues != [] {
      var init := issues[..|issues| - 1];
      ErrorMapKeys(init, k);
      assert forall i :: 0 <= i < |init| ==> init[i] == issues[i];
    }
  }

  /** Last write wins: a key holds the message of the last issue filed under it. */
  lemma {:induction false} ErrorMapLastWins(issues: seq<Issue>, i: nat)
    requires i < |issues|
    requires forall j :: i < j < |issues| ==> ErrorKey(issues[j]) != ErrorKey(issues[i])
    ensures ErrorKey(issues[i]) in ErrorMap(issues)
    ensures ErrorMap(issues)[ErrorKey(issues[i])] == ErrorMessage(issues[i])
  {
    if i < |issues| - 1 {
      var init := issues[..|issues| - 1];
      ErrorMapLastWins(init, i);
    }
  }

  /** Folding two issue lists one after the other overwrites the first dictionary with the second. */
  lemma {:induction false} ErrorMapAppend(a: seq<Issue>, b: seq<Issue>)
    ensures ErrorMap(a + b) == ErrorMap(a) + ErrorMap(b)
  {
    if b == [] {
      assert a + b == a;
    } else {
      var b' := b[..|b| - 1];
      var last := b[|b| - 1];
      assert (a + b)[..|a + b| - 1] == a + b';
      assert (a + b)[|a + b| - 1] == last;
      ErrorMapAppend(a, b');
    }
  }

  /** A list of at most one issue folds into at most one entry. */
  lemma ErrorMapAtMostOne(issues: seq<Issue>)
    requires |issues| <= 1
    ensures issues == [] ==> ErrorMap(issues) == map[]
    ensures |issues| == 1 ==> ErrorMap(issues) == map[ErrorKey(issues[0]) := ErrorMessage(issues[0])]
  {
    if |issues| == 1 {
      assert issues[..0] == [];
    }
  }

  /** The `forEach` loop of the forms' `catch (error)` block, over `error.errors`. */
  method FoldErrors(issues: seq<Issue>) returns (fieldErrors: map<string, string>)
    ensures fieldErrors == ErrorMap(issues)
  {
    fieldErrors := map[];
    for i := 0 to |issues|
      invariant fieldErrors == ErrorMap(issues[..i])
    {
      var err := issues[i];
      var key := Join(err.path, ".");
      if err.code == "too_small" {
        fieldErrors := fieldErrors[key := TooSmallText];
      } else if err.code == "too_big" {
        fieldErrors := fieldErrors[key := TooBigText];
      } else if err.code == "invalid_type" {
        fieldErrors := fieldErrors[key := InvalidTypeText];
      } else {
        fieldErrors := fieldErrors[key := err.message];
      }
      assert issues[..i + 1][..i] == issues[..i];
    }
    assert issues[..|issues|] == issues;
  }

  // ---------------------------------------------------------------------
  // Schemas and the issues they produce
  // ---------------------------------------------------------------------

  /** The two regular expressions the forms use: `/^[a-zA-Z]+$/` and `/^\d{9}$/`. */
  datatype Pattern = OnlyLetters | NineDigits

  /** `pattern.test(s)`. */
  predicate PatternTest(p: Pattern, s: string)
    ensures PatternTest(p, s) ==> s != []
    ensures p == NineDigits && PatternTest(p, s) ==> |s| == 9
  {
    match p
    case OnlyLetters => |s| > 0 && forall i :: 0 <= i < |s| ==> IsAsciiLetter(s[i])
    case NineDigits => |s| == 9 && forall i :: 0 <= i < |s| ==> IsAsciiDigit(s[i])
  }

  /** A check chained on `z.string()`. */
  datatype Check =
    | MinLength(n: nat)
    | MaxLength(n: nat)
    | Regex(pattern: Pattern, message: string)
    | Email(message: string)

  /** `.refine(value => pattern.test(value), { message })`. */
  datatype Refinement = Refine(pattern: Pattern, message: string)

  /** One entry of a `z.object({...})` shape: `key: z.string().<checks>.refine(...)`. */
  datatype FieldSchema = FieldSchema(key: string, checks: seq<Check>, refinement: Option<Refinement>)

  /**
   * The message Zod itself gives a `too_small` or `too_big` issue. The forms'
   * `switch` always replaces it with a fixed Spanish text, so its wording
   * (an English sentence naming the bound) is not modelled.
   */
  const LengthDefaultMessage := ""

  /**
   * What one check reports about the string `s`: one issue exactly when the
   * check fails, with the code Zod gives that kind of check and, for a
   * pattern or e-mail check, the message the schema attached to it.
   */
  function CheckIssues(key: string, c: Check, s: string, emailOk: string -> bool): (r: seq<Issue>)
    ensures |r| <= 1
    ensures forall i :: 0 <= i < |r| ==> r[i].path == [key]
    ensures r == [] <==> CheckHolds(c, s, emailOk)
    ensures r != [] && c.MinLength? ==> r[0].code == "too_small"
    ensures r != [] && c.MaxLength? ==> r[0].code == "too_big"
    ensures r != [] && (c.Regex? || c.Email?) ==> r[0].code == "invalid_string" && r[0].message == c.message
  {
    match c
    case MinLength(n) =>
      if |s| < n then [Issue([key], "too_small", LengthDefaultMessage)] else []
    case MaxLength(n) =>
      if |s| > n then [Issue([key], "too_big", LengthDefaultMessage)] else []
    case Regex(p, message) =>
      if PatternTest(p, s) then [] else [Issue([key], "invalid_string", message)]
    case Email(message) =>
      if emailOk(s) then [] else [Issue([key], "invalid_string", message)]
  }

  /** What a chain of checks reports, in declaration order. */
  function ChainIssues(key: string, checks: seq<Check>, s: string, emailOk: string -> bool): (r: seq<Issue>)
    ensures |r| <= |checks|
    ensures forall i :: 0 <= i < |r| ==> r[i].path == [key]
  {
    if checks == [] then []
    else CheckIssues(key, checks[0], s, emailOk) + ChainIssues(key, checks[1..], s, emailOk)
  }

  /** What the refinement reports; its code is `custom`. */
  function RefineIssues(key: string, refinement: Option<Refinement>, s: string): (r: seq<Issue>)
    ensures |r| <= 1
    ensures forall i :: 0 <= i < |r| ==> r[i].path == [key] && r[i].code == "custom"
  {
    match refinement
    case None => []
    case Some(Refine(p, message)) => if PatternTest(p, s) then [] else [Issue([key], "custom", message)]
  }

  /** What one field of an object schema reports about the value under its key. */
  function FieldIssues(f: FieldSchema, v: Option<JsValue>, emailOk: string -> bool): (r: seq<Issue>)
    ensures forall i :: 0 <= i < |r| ==> r[i].path == [f.key]
    ensures v.None? || v.value.Num? ==> |r| == 1 && r[0].code == "invalid_type"
  {
    match v
    case Some(Str(s)) => ChainIssues(f.key, f.checks, s, emailOk) + RefineIssues(f.key, f.refinement, s)
    case Some(Num(_)) => [Issue([f.key], "invalid_type", "Expected string, received number")]
    case None => [Issue([f.key], "invalid_type", "Required")]
  }

  /** `error.errors` of `schema.parse(d)`: the fields' issues in declaration order (empty when parsing succeeds). */
  function SchemaIssues(schema: seq<FieldSchema>, d: Draft, emailOk: string -> bool): (r: seq<Issue>)
    ensures forall i :: 0 <= i < |r| ==> |r[i].path| == 1
  {
    if schema == [] then []
    else FieldIssues(schema[0], Lookup(d, schema[0].key), emailOk) + SchemaIssues(schema[1..], d, emailOk)
  }

  /** Every issue of an object schema is filed under the key of one of its fields. */
  lemma {:induction false} SchemaIssuePath(schema: seq<FieldSchema>, d: Draft, emailOk: string -> bool, i: nat)
    requires i < |SchemaIssues(schema, d, emailOk)|
    ensures exists j :: 0 <= j < |schema| && SchemaIssues(schema, d, emailOk)[i].path == [schema[j].key]
  {
    var head := FieldIssues(schema[0], Lookup(d, schema[0].key), emailOk);
    if i >= |head| {
      SchemaIssuePath(schema[1..], d, emailOk, i - |head|);
      var j :| 0 <= j < |schema[1..]| && SchemaIssues(schema[1..], d, emailOk)[i - |head|].path == [schema[1..][j].key];
      assert schema[1..][j] == schema[j + 1];
    } else {
      assert SchemaIssues(schema, d, emailOk)[i] == head[i];
    }
  }

  // ---------------------------------------------------------------------
  // What acceptance means, stated rule by rule
  // ---------------------------------------------------------------------

  ghost predicate CheckHolds(c: Check, s: string, emailOk: string -> bool) {
    match c
    case MinLength(n) => n <= |s|
    case MaxLength(n) => |s| <= n
    case Regex(p, _) => PatternTest(p, s)
    case Email(_) => emailOk(s)
  }

  /** A field accepts a value when it is a string that meets every check and the refinement. */
  ghost predicate FieldAccepts(f: FieldSchema, v: Option<JsValue>, emailOk: string -> bool) {
    && v.Some? && v.value.Str?
    && (forall i :: 0 <= i < |f.checks| ==> CheckHolds(f.checks[i], v.value.s, emailOk))
    && (f.refinement.Some? ==> PatternTest(f.refinement.value.pattern, v.value.s))
  }

  lemma {:induction false} ChainIssuesEmptyIff(key: string, checks: seq<Check>, s: string, emailOk: string -> bool)
    ensures ChainIssues(key, checks, s, emailOk) == [] <==> forall i :: 0 <= i < |checks| ==> CheckHolds(checks[i], s, emailOk)
  {
    if checks != [] {
      var rest := checks[1..];
      ChainIssuesEmptyIff(key, rest, s, emailOk);
      assert CheckIssues(key, checks[0], s, emailOk) == [] <==> CheckHolds(checks[0], s, emailOk);
      if forall i :: 0 <= i < |checks| ==> CheckHolds(checks[i], s, emailOk) {
        forall i | 0 <= i < |rest| ensures CheckHolds(rest[i], s, emailOk) {
          assert rest[i] == checks[i + 1];
        }
      }
      if ChainIssues(key, checks, s, emailOk) == [] {
        forall i | 0 <= i < |checks| ensures CheckHolds(checks[i], s, emailOk) {
          if i > 0 {
            assert checks[i] == rest[i - 1];
          }
        }
      }
    }
  }

  /** A field reports no issue exactly when it accepts the value. */
  lemma FieldIssuesEmptyIff(f: FieldSchema, v: Option<JsValue>, emailOk: string -> bool)
    ensures FieldIssues(f, v, emailOk) == [] <==> FieldAccepts(f, v, emailOk)
  {
    if v.Some? && v.value.Str? {
      ChainIssuesEmptyIff(f.key, f.checks, v.value.s, emailOk);
    }
  }

  /** `schema.parse(d)` succeeds exactly when every field accepts the value under its key. */
  lemma {:induction false} SchemaIssuesEmptyIff(schema: seq<FieldSchema>, d: Draft, emailOk: string -> bool)
    ensures SchemaIssues(schema, d, emailOk) == [] <==>
            forall j :: 0 <= j < |schema| ==> FieldAccepts(schema[j], Lookup(d, schema[j].key), emailOk)
  {
    if schema != [] {
      var rest := schema[1..];
      FieldIssuesEmptyIff(schema[0], Lookup(d, schema[0].key), emailOk);
      SchemaIssuesEmptyIff(rest, d, emailOk);
      if forall j :: 0 <= j < |schema| ==> FieldAccepts(schema[j], Lookup(d, schema[j].key), emailOk) {
        forall j | 0 <= j < |rest| ensures FieldAccepts(rest[j], Lookup(d, rest[j].key), emailOk) {
          assert rest[j] == schema[j + 1];
        }
      }
      if SchemaIssues(schema, d, emailOk) == [] {
        forall j | 0 <= j < |schema| ensures FieldAccepts(schema[j], Lookup(d, schema[j].key), emailOk) {
          if j > 0 {
            assert schema[j] == rest[j - 1];
          }
        }
      }
    }
  }

  /** The message a field's issues leave in the dictionary: that of its last issue, if any. */
  function FieldError(issues: seq<Issue>): Option<string> {
    if issues == [] then None else Some(ErrorMessage(issues[|issues| - 1]))
  }

  /** The issues of one field fold into at most one dictionary entry, under the field's key. */
  lemma {:induction false} FieldErrorMap(f: FieldSchema, v: Option<JsValue>, emailOk: string -> bool)
    ensures var issues := FieldIssues(f, v, emailOk);
            ErrorMap(issues) == if issues == [] then map[] else map[f.key := FieldError(issues).value]
  {
    var issues := FieldIssues(f, v, emailOk);
    if issues != [] {
      var m := ErrorMap(issues);
      forall k | k in m ensures k == f.key {
        ErrorMapKeys(issues, k);
        var i :| 0 <= i < |issues| && ErrorKey(issues[i]) == k;
      }
      ErrorMapLastWins(issues, |issues| - 1);
      assert ErrorKey(issues[|issues| - 1]) == f.key;
      assert m.Keys == {f.key};
    }
  }

  /** No two fields of the schema share a key (true of every schema of the forms). */
  ghost predicate DistinctKeys(schema: seq<FieldSchema>) {
    forall i, j :: 0 <= i < j < |schema| ==> schema[i].key != schema[j].key
  }

  /** Every key of the folded dictionary is the key of some field of the schema. */
  lemma SchemaErrorKeys(schema: seq<FieldSchema>, d: Draft, emailOk: string -> bool, k: string)
    ensures k in ErrorMap(SchemaIssues(schema, d, emailOk)) ==> exists j :: 0 <= j < |schema| && schema[j].key == k
  {
    var issues := SchemaIssues(schema, d, emailOk);
    ErrorMapKeys(issues, k);
    if k in ErrorMap(issues) {
      var i :| 0 <= i < |issues| && ErrorKey(issues[i]) == k;
      SchemaIssuePath(schema, d, emailOk, i);
    }
  }

  /**
   * With distinct keys, field `j`'s key is in the folded dictionary exactly
   * when that field reports an issue, and then holds the message of the
   * field's last issue.
   */
  lemma {:induction false} SchemaErrorAt(schema: seq<FieldSchema>, d: Draft, emailOk: string -> bool, j: nat)
    requires DistinctKeys(schema) && j < |schema|
    ensures var m := ErrorMap(SchemaIssues(schema, d, emailOk));
            var own := FieldIssues(schema[j], Lookup(d, schema[j].key), emailOk);
            && (schema[j].key in m <==> own != [])
            && (schema[j].key in m ==> Some(m[schema[j].key]) == FieldError(own))
  {
    var head := FieldIssues(schema[0], Lookup(d, schema[0].key), emailOk);
    var tail := SchemaIssues(schema[1..], d, emailOk);
    assert SchemaIssues(schema, d, emailOk) == head + tail;
    ErrorMapAppend(head, tail);
    FieldErrorMap(schema[0], Lookup(d, schema[0].key), emailOk);
    if j == 0 {
      HeadKeyNotInTail(schema, d, emailOk);
    } else {
      var key := schema[j].key;
      assert schema[1..][j - 1] == schema[j];
      DistinctKeysTail(schema);
      SchemaErrorAt(schema[1..], d, emailOk, j - 1);
      assert key != schema[0].key;
      assert key !in ErrorMap(head);
      assert ErrorMap(SchemaIssues(schema, d, emailOk)) == ErrorMap(head) + ErrorMap(tail);
    }
  }

  /** The first field's key is not among the keys the other fields' issues fold into. */
  lemma HeadKeyNotInTail(schema: seq<FieldSchema>, d: Draft, emailOk: string -> bool)
    requires DistinctKeys(schema) && schema != []
    ensures schema[0].key !in ErrorMap(SchemaIssues(schema[1..], d, emailOk))
  {
    SchemaErrorKeys(schema[1..], d, emailOk, schema[0].key);
    assert forall i :: 0 <= i < |schema[1..]| ==> schema[1..][i].key != schema[0].key;
  }

  /** Dropping the first field keeps the keys distinct. */
  lemma DistinctKeysTail(schema: seq<FieldSchema>)
    requires DistinctKeys(schema) && schema != []
    ensures DistinctKeys(schema[1..])
  {
    forall a, b | 0 <= a < b < |schema[1..]| ensures schema[1..][a].key != schema[1..][b].key {
      assert schema[1..][a] == schema[a + 1] && schema[1..][b] == schema[b + 1];
    }
  }

  /** The issues of a schema depend only on the values under the schema's own keys. */
  lemma {:induction false} SchemaIssuesFrame(schema: seq<FieldSchema>, d: Draft, d': Draft, emailOk: string -> bool)
    requires forall j :: 0 <= j < |schema| ==> Lookup(d, schema[j].key) == Lookup(d', schema[j].key)
    ensures SchemaIssues(schema, d, emailOk) == SchemaIssues(schema, d', emailOk)
  {
    if schema != [] {
      assert Lookup(d, schema[0].key) == Lookup(d', schema[0].key);
      assert forall j :: 0 <= j < |schema[1..]| ==> schema[1..][j] == schema[j + 1];
      SchemaIssuesFrame(schema[1..], d, d', emailOk);
    }
  }

  /** A field with two length checks accepts exactly the strings of that length range that also pass its refinement, if it has one. */
  lemma LengthFieldAccepts(key: string, lo: nat, hi: nat, refinement: Option<Refinement>, v: Option<JsValue>, emailOk: string -> bool)
    ensures FieldAccepts(FieldSchema(key, [MinLength(lo), MaxLength(hi)], refinement), v, emailOk)
            <==> && v.Some? && v.value.Str? && lo <= |v.value.s| <= hi
                 && (refinement.Some? ==> PatternTest(refinement.value.pattern, v.value.s))
  {
    var f := FieldSchema(key, [MinLength(lo), MaxLength(hi)], refinement);
    if v.Some? && v.value.Str? {
      assert f.checks[0] == MinLength(lo) && f.checks[1] == MaxLength(hi);
      assert (forall i :: 0 <= i < |f.checks| ==> CheckHolds(f.checks[i], v.value.s, emailOk)) <==> lo <= |v.value.s| <= hi;
    }
  }

  /** A field with one check and no refinement accepts exactly the strings that pass the check. */
  lemma SingleCheckFieldAccepts(key: string, c: Check, v: Option<JsValue>, emailOk: string -> bool)
    ensures FieldAccepts(FieldSchema(key, [c], None), v, emailOk)
            <==> v.Some? && v.value.Str? && CheckHolds(c, v.value.s, emailOk)
  {
    var f := FieldSchema(key, [c], None);
    if v.Some? && v.value.Str? {
      assert f.checks[0] == c;
    }
  }

  /** The keys of a schema's fields. */
  function SchemaKeys(schema: seq<FieldSchema>): set<string> {
    if schema == [] then {} else {schema[0].key} + SchemaKeys(schema[1..])
  }

  /** The folded dictionary only ever holds keys of the schema's fields. */
  lemma {:induction false} SchemaErrorKeysWithin(schema: seq<FieldSchema>, d: Draft, emailOk: string -> bool)
    ensures ErrorMap(SchemaIssues(schema, d, emailOk)).Keys <= SchemaKeys(schema)
  {
    if schema != [] {
      var head := FieldIssues(schema[0], Lookup(d, schema[0].key), emailOk);
      var tail := SchemaIssues(schema[1..], d, emailOk);
      ErrorMapAppend(head, tail);
      FieldErrorMap(schema[0], Lookup(d, schema[0].key), emailOk);
      SchemaErrorKeysWithin(schema[1..], d, emailOk);
    }
  }
}
