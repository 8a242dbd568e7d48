/**
 * `AddAlmacenModal`: the warehouse form. Its schema, its initial draft,
 * `handleChange`, and `handleSubmit` with its four outcomes (invalid draft,
 * HTTP ok, HTTP not ok, exception).
 */
module AlmacenForm {
  import opened JsText
  import opened Validation

  /** `AlmacenSchema`, field by field in declaration order. */
  const AlmacenSchema: seq<FieldSchema> := [
    FieldSchema("nombre_almacen", [MinLength(3), MaxLength(20)], Some(Refine(OnlyLetters, "El nombre debe contener solo letras"))),
    FieldSchema("responsable", [MinLength(1), MaxLength(30)], Some(Refine(OnlyLetters, "El nombre del responable debe contener solo letras"))),
    FieldSchema("ciudad", [MinLength(1), MaxLength(20)], Some(Refine(OnlyLetters, "La ciudad debe contener solo letras"))),
    FieldSchema("direccion", [MinLength(1), MaxLength(20)], None),
    FieldSchema("num_telefonico", [Regex(NineDigits, "Formato incorrecto")], None),
    FieldSchema("email_contacto", [Email("Correo Invalido")], None)
  ]

  /** `initialFormData`: five empty strings and the number `0` for the phone. */
  const InitialFormData: Draft := map[
    "nombre_almacen" := Str(""),
    "responsable" := Str(""),
    "ciudad" := Str(""),
    "direccion" := Str(""),
    "num_telefonico" := Num(0),
    "email_contacto" := Str("")
  ]

  // ---------------------------------------------------------------------
  // The field rules, stated independently of the schema encoding
  // ---------------------------------------------------------------------

  ghost predicate AsciiLettersOnly(s: string) {
    forall i :: 0 <= i < |s| ==> IsAsciiLetter(s[i])
  }

  /** The value is a string of length `lo..hi` (inclusive). */
  ghost predicate TextOfLength(v: Option<JsValue>, lo: nat, hi: nat) {
    v.Some? && v.value.Str? && lo <= |v.value.s| <= hi
  }

  ghost predicate NombreAlmacenOk(v: Option<JsValue>) {
    TextOfLength(v, 3, 20) && AsciiLettersOnly(v.value.s)
  }

  ghost predicate ResponsableOk(v: Option<JsValue>) {
    TextOfLength(v, 1, 30) && AsciiLettersOnly(v.value.s)
  }

  ghost predicate CiudadOk(v: Option<JsValue>) {
    TextOfLength(v, 1, 20) && AsciiLettersOnly(v.value.s)
  }

  ghost predicate DireccionOk(v: Option<JsValue>) {
    TextOfLength(v, 1, 20)
  }

  /** Exactly nine ASCII digits. */
  ghost predicate TelefonoOk(v: Option<JsValue>) {
    TextOfLength(v, 9, 9) && forall i :: 0 <= i < 9 ==> IsAsciiDigit(v.value.s[i])
  }

  ghost predicate EmailContactoOk(v: Option<JsValue>, emailOk: string -> bool) {
    v.Some? && v.value.Str? && emailOk(v.value.s)
  }

  ghost predicate AlmacenRules(d: Draft, emailOk: string -> bool) {
    && NombreAlmacenOk(Lookup(d, "nombre_almacen"))
    && ResponsableOk(Lookup(d, "responsable"))
    && CiudadOk(Lookup(d, "ciudad"))
    && DireccionOk(Lookup(d, "direccion"))
    && TelefonoOk(Lookup(d, "num_telefonico"))
    && EmailContactoOk(Lookup(d, "email_contacto"), emailOk)
  }

  lemma AlmacenSchemaKeysDistinct()
    ensures DistinctKeys(AlmacenSchema)
  {
  }

  /** Each field of `AlmacenSchema` accepts exactly what its rule allows. */
  lemma AlmacenFieldRules(d: Draft, emailOk: string -> bool)
    ensures var s := AlmacenSchema;
            && (FieldAccepts(s[0], Lookup(d, s[0].key), emailOk) <==> NombreAlmacenOk(Lookup(d, "nombre_almacen")))
            && (FieldAccepts(s[1], Lookup(d, s[1].key), emailOk) <==> ResponsableOk(Lookup(d, "responsable")))
            && (FieldAccepts(s[2], Lookup(d, s[2].key), emailOk) <==> CiudadOk(Lookup(d, "ciudad")))
            && (FieldAccepts(s[3], Lookup(d, s[3].key), emailOk) <==> DireccionOk(Lookup(d, "direccion")))
            && (FieldAccepts(s[4], Lookup(d, s[4].key), emailOk) <==> TelefonoOk(Lookup(d, "num_telefonico")))
            && (FieldAccepts(s[5], Lookup(d, s[5].key), emailOk) <==> EmailContactoOk(Lookup(d, "email_contacto"), emailOk))
  {
    var s := AlmacenSchema;
    AlmacenSchemaKeys();
    LengthFieldAccepts(s[0].key, 3, 20, s[0].refinement, Lookup(d, s[0].key), emailOk);
    LengthFieldAccepts(s[1].key, 1, 30, s[1].refinement, Lookup(d, s[1].key), emailOk);
    LengthFieldAccepts(s[2].key, 1, 20, s[2].refinement, Lookup(d, s[2].key), emailOk);
    LengthFieldAccepts(s[3].key, 1, 20, None, Lookup(d, s[3].key), emailOk);
    SingleCheckFieldAccepts(s[4].key, s[4].checks[0], Lookup(d, s[4].key), emailOk);
    SingleCheckFieldAccepts(s[5].key, s[5].checks[0], Lookup(d, s[5].key), emailOk);
  }

  /** A property holds of all six fields exactly when it holds of each. */
  lemma SixFields(s: seq<FieldSchema>, d: Draft, emailOk: string -> bool)
    requires |s| == 6
    ensures (forall j :: 0 <= j < |s| ==> FieldAccepts(s[j], Lookup(d, s[j].key), emailOk))
            <==> && FieldAccepts(s[0], Lookup(d, s[0].key), emailOk)
                 && FieldAccepts(s[1], Lookup(d, s[1].key), emailOk)
                 && FieldAccepts(s[2], Lookup(d, s[2].key), emailOk)
                 && FieldAccepts(s[3], Lookup(d, s[3].key), emailOk)
                 && FieldAccepts(s[4], Lookup(d, s[4].key), emailOk)
                 && FieldAccepts(s[5], Lookup(d, s[5].key), emailOk)
  {
  }

  /** `AlmacenSchema.parse(d)` succeeds exactly when the draft meets every field rule. */
  lemma AlmacenSchemaAcceptsExactly(d: Draft, emailOk: string -> bool)
    ensures SchemaIssues(AlmacenSchema, d, emailOk) == [] <==> AlmacenRules(d, emailOk)
  {
    SchemaIssuesEmptyIff(AlmacenSchema, d, emailOk);
    SixFields(AlmacenSchema, d, emailOk);
    AlmacenFieldRules(d, emailOk);
  }

  /**
   * With every other field valid, `nombre_almacen = "ab"` gives exactly one
   * error entry, the fixed too-small message under `nombre_almacen`.
   */
  lemma ShortNombreAlmacen(d: Draft, emailOk: string -> bool)
    requires Lookup(d, "nombre_almacen") == Some(Str("ab"))
    requires ResponsableOk(Lookup(d, "responsable")) && CiudadOk(Lookup(d, "ciudad"))
    requires DireccionOk(Lookup(d, "direccion")) && TelefonoOk(Lookup(d, "num_telefonico"))
    requires EmailContactoOk(Lookup(d, "email_contacto"), emailOk)
    ensures ErrorMap(SchemaIssues(AlmacenSchema, d, emailOk)) == map["nombre_almacen" := TooSmallText]
  {
    var s := AlmacenSchema;
    TailAccepts(d, emailOk);
    ShortLettersField("nombre_almacen", "El nombre debe contener solo letras", emailOk);
    var head := [Issue(["nombre_almacen"], "too_small", LengthDefaultMessage)];
    HeadThenTail(s, d, emailOk);
    assert SchemaIssues(s, d, emailOk) == head + [];
    ErrorMapAtMostOne(head);
  }

  /** An object schema reports its first field's issues, then those of the rest. */
  lemma HeadThenTail(s: seq<FieldSchema>, d: Draft, emailOk: string -> bool)
    requires s != []
    ensures SchemaIssues(s, d, emailOk) == FieldIssues(s[0], Lookup(d, s[0].key), emailOk) + SchemaIssues(s[1..], d, emailOk)
  {
  }

  /** When the last five fields are valid, they report nothing, whatever `nombre_almacen` holds. */
  lemma TailAccepts(d: Draft, emailOk: string -> bool)
    requires ResponsableOk(Lookup(d, "responsable")) && CiudadOk(Lookup(d, "ciudad"))
    requires DireccionOk(Lookup(d, "direccion")) && TelefonoOk(Lookup(d, "num_telefonico"))
    requires EmailContactoOk(Lookup(d, "email_contacto"), emailOk)
    ensures SchemaIssues(AlmacenSchema[1..], d, emailOk) == []
  {
    var t := AlmacenSchema[1..];
    AlmacenFieldRules(d, emailOk);
    SchemaIssuesEmptyIff(t, d, emailOk);
    forall j | 0 <= j < |t| ensures FieldAccepts(t[j], Lookup(d, t[j].key), emailOk) {
      assert t[j] == AlmacenSchema[j + 1];
    }
  }

  /** `"ab"` in a `min(3).max(20)` letters-only field reports only that it is too short. */
  lemma ShortLettersField(key: string, message: string, emailOk: string -> bool)
    ensures FieldIssues(FieldSchema(key, [MinLength(3), MaxLength(20)], Some(Refine(OnlyLetters, message))), Some(Str("ab")), emailOk)
            == [Issue([key], "too_small", LengthDefaultMessage)]
  {
    var checks := [MinLength(3), MaxLength(20)];
    var ab := "ab";
    assert ChainIssues(key, checks[1..], ab, emailOk) == [] by {
      assert checks[1..][1..] == [];
      assert |ab| == 2;
    }
    assert IsAsciiLetter(ab[0]) && IsAsciiLetter(ab[1]);
    assert RefineIssues(key, Some(Refine(OnlyLetters, message)), ab) == [];
  }

  /** A letters-only field with a positive minimum, given the empty string, ends on its refinement message. */
  lemma EmptyLettersField(key: string, lo: nat, hi: nat, message: string, emailOk: string -> bool)
    requires lo >= 1
    ensures FieldError(FieldIssues(FieldSchema(key, [MinLength(lo), MaxLength(hi)], Some(Refine(OnlyLetters, message))), Some(Str("")), emailOk))
            == Some(message)
  {
    var f := FieldSchema(key, [MinLength(lo), MaxLength(hi)], Some(Refine(OnlyLetters, message)));
    assert RefineIssues(key, f.refinement, "") == [Issue([key], "custom", message)];
  }

  /** A length-only field with a positive minimum, given the empty string, ends on the too-small message. */
  lemma EmptyLengthField(key: string, lo: nat, hi: nat, emailOk: string -> bool)
    requires lo >= 1
    ensures FieldError(FieldIssues(FieldSchema(key, [MinLength(lo), MaxLength(hi)], None), Some(Str("")), emailOk))
            == Some(TooSmallText)
  {
    var f := FieldSchema(key, [MinLength(lo), MaxLength(hi)], None);
    assert ChainIssues(key, f.checks[1..], "", emailOk) == [] by {
      assert f.checks[1..][1..] == [];
    }
  }

  lemma InitialLookups()
    ensures Lookup(InitialFormData, "nombre_almacen") == Some(Str(""))
    ensures Lookup(InitialFormData, "responsable") == Some(Str(""))
    ensures Lookup(InitialFormData, "ciudad") == Some(Str(""))
    ensures Lookup(InitialFormData, "direccion") == Some(Str(""))
    ensures Lookup(InitialFormData, "num_telefonico") == Some(Num(0))
    ensures Lookup(InitialFormData, "email_contacto") == Some(Str(""))
  {
  }

  /** What each field of the untouched form reports last. */
  lemma UntouchedFieldErrors(emailOk: string -> bool)
    requires !emailOk("")
    ensures var s, d := AlmacenSchema, InitialFormData;
            && FieldError(FieldIssues(s[0], Lookup(d, s[0].key), emailOk)) == Some("El nombre debe contener solo letras")
            && FieldError(FieldIssues(s[1], Lookup(d, s[1].key), emailOk)) == Some("El nombre del responable debe contener solo letras")
            && FieldError(FieldIssues(s[2], Lookup(d, s[2].key), emailOk)) == Some("La ciudad debe contener solo letras")
            && FieldError(FieldIssues(s[3], Lookup(d, s[3].key), emailOk)) == Some(TooSmallText)
            && FieldError(FieldIssues(s[4], Lookup(d, s[4].key), emailOk)) == Some(InvalidTypeText)
            && FieldError(FieldIssues(s[5], Lookup(d, s[5].key), emailOk)) == Some("Correo Invalido")
  {
    InitialLookups();
    AlmacenSchemaKeys();
    EmptyLettersField("nombre_almacen", 3, 20, "El nombre debe contener solo letras", emailOk);
    EmptyLettersField("responsable", 1, 30, "El nombre del responable debe contener solo letras", emailOk);
    EmptyLettersField("ciudad", 1, 20, "La ciudad debe contener solo letras", emailOk);
    EmptyLengthField("direccion", 1, 20, emailOk);
    EmptyEmailField("email_contacto", "Correo Invalido", emailOk);
  }

  /** An e-mail field given the empty string, which is no address, ends on its own message. */
  lemma EmptyEmailField(key: string, message: string, emailOk: string -> bool)
    requires !emailOk("")
    ensures FieldError(FieldIssues(FieldSchema(key, [Email(message)], None), Some(Str("")), emailOk)) == Some(message)
  {
    var checks := [Email(message)];
    assert ChainIssues(key, checks, "", emailOk) == [Issue([key], "invalid_string", message)] by {
      assert checks[1..] == [];
    }
  }

  /**
   * Submitting the untouched form: the three letter fields end on their
   * refinement message (the refinement runs after `too_small`), the address
   * on the too-small message, the phone, a number, on the invalid-type
   * message, and the e-mail on its own message.
   */
  lemma UntouchedFormErrors(emailOk: string -> bool)
    requires !emailOk("")
    ensures ErrorMap(SchemaIssues(AlmacenSchema, InitialFormData, emailOk)) == map[
              "nombre_almacen" := "El nombre debe contener solo letras",
              "responsable" := "El nombre del responable debe contener solo letras",
              "ciudad" := "La ciudad debe contener solo letras",
              "direccion" := TooSmallText,
              "num_telefonico" := InvalidTypeText,
              "email_contacto" := "Correo Invalido"]
  {
    var s := AlmacenSchema;
    var d := InitialFormData;
    var m := ErrorMap(SchemaIssues(s, d, emailOk));
    AlmacenSchemaKeysDistinct();
    UntouchedFieldErrors(emailOk);
    SchemaErrorAt(s, d, emailOk, 0);
    SchemaErrorAt(s, d, emailOk, 1);
    SchemaErrorAt(s, d, emailOk, 2);
    SchemaErrorAt(s, d, emailOk, 3);
    SchemaErrorAt(s, d, emailOk, 4);
    SchemaErrorAt(s, d, emailOk, 5);
    SchemaErrorKeysWithin(s, d, emailOk);
    AlmacenSchemaKeys();
    UntouchedMap(m);
  }

  /** The keys of the six fields, in order. */
  lemma AlmacenSchemaKeys()
    ensures AlmacenSchema[0].key == "nombre_almacen" && AlmacenSchema[1].key == "responsable"
    ensures AlmacenSchema[2].key == "ciudad" && AlmacenSchema[3].key == "direccion"
    ensures AlmacenSchema[4].key == "num_telefonico" && AlmacenSchema[5].key == "email_contacto"
    ensures SchemaKeys(AlmacenSchema)
            == {"nombre_almacen", "responsable", "ciudad", "direccion", "num_telefonico", "email_contacto"}
  {
  }

  /** A dictionary with exactly the six entries of the untouched form is that form's error map. */
  lemma UntouchedMap(m: map<string, string>)
    requires m.Keys <= {"nombre_almacen", "responsable", "ciudad", "direccion", "num_telefonico", "email_contacto"}
    requires "nombre_almacen" in m && m["nombre_almacen"] == "El nombre debe contener solo letras"
    requires "responsable" in m && m["responsable"] == "El nombre del responable debe contener solo letras"
    requires "ciudad" in m && m["ciudad"] == "La ciudad debe contener solo letras"
    requires "direccion" in m && m["direccion"] == TooSmallText
    requires "num_telefonico" in m && m["num_telefonico"] == InvalidTypeText
    requires "email_contacto" in m && m["email_contacto"] == "Correo Invalido"
    ensures m == map[
              "nombre_almacen" := "El nombre debe contener solo letras",
              "responsable" := "El nombre del responable debe contener solo letras",
              "ciudad" := "La ciudad debe contener solo letras",
              "direccion" := TooSmallText,
              "num_telefonico" := InvalidTypeText,
              "email_contacto" := "Correo Invalido"]
  {
  }

  // ---------------------------------------------------------------------
  // The modal
  // ---------------------------------------------------------------------

  /** How the POST ended: a response with its `ok` flag, or a rejected `fetch`. */
  datatype HttpOutcome = Answered(ok: bool) | NetworkError

  /** The props the modal calls back, in the order it calls them. */
  datatype Callback = ReloadTable | Notify | OnClose

  class AddAlmacenModal {
    /** The schema the modal validates its draft against: `AlmacenSchema`. */
    const schema: seq<FieldSchema>
    var formData: Draft
    var formErrors: map<string, string>

    constructor ()
      ensures schema == AlmacenSchema
      ensures formData == InitialFormData && formErrors == map[]
    {
      schema := AlmacenSchema;
      formData := InitialFormData;
      formErrors := map[];
    }

    /** `handleChange`: the edited field takes the typed text and its error entry becomes empty; nothing else moves. */
    method HandleChange(name: string, value: string)
      modifies this
      ensures formData == old(formData)[name := Str(value)]
      ensures formErrors == old(formErrors)[name := ""]
      ensures forall k :: k != name ==> Lookup(formData, k) == Lookup(old(formData), k)
      ensures forall k :: k != name && k in old(formErrors) ==> k in formErrors && formErrors[k] == old(formErrors)[k]
    {
      formData := formData[name := Str(value)];
      formErrors := formErrors[name := ""];
    }

    /**
     * `handleSubmit`. `request` is the body of the POST, if one is issued;
     * `calls` are the callbacks invoked, in order. `response` is how the POST
     * ends and is only looked at when one is issued.
     */
    method HandleSubmit(emailOk: string -> bool, response: HttpOutcome)
      returns (request: Option<Draft>, calls: seq<Callback>)
      modifies this
      ensures var issues := SchemaIssues(schema, old(formData), emailOk);
              && (issues != [] ==>
                    request == None && calls == [] && formData == old(formData) && formErrors == ErrorMap(issues))
              && (issues == [] ==> request == Some(old(formData)))
              && (issues == [] && response == Answered(true) ==>
                    calls == [ReloadTable, Notify, OnClose] && formData == InitialFormData && formErrors == old(formErrors))
              && (issues == [] && response != Answered(true) ==>
                    calls == [] && formData == old(formData) && formErrors == old(formErrors))
    {
      var issues := SchemaIssues(schema, formData, emailOk);
      if issues != [] {
        request, calls := None, [];
        var fieldErrors := FoldErrors(issues);
        formErrors := fieldErrors;
        return;
      }
      request := Some(formData);
      match response
      case Answered(true) =>
        calls := [ReloadTable, Notify];
        formData := InitialFormData;
        calls := calls + [OnClose];
      case Answered(false) =>
        calls := [];
      case NetworkError =>
        calls := [];
    }
  }

  /** Submitting the untouched form never posts, invokes no callback, keeps the draft and marks all six fields. */
  method SubmitUntouched(emailOk: string -> bool, response: HttpOutcome)
    returns (request: Option<Draft>, calls: seq<Callback>, errors: map<string, string>)
    requires !emailOk("")
    ensures request == None && calls == []
    ensures errors == map[
              "nombre_almacen" := "El nombre debe contener solo letras",
              "responsable" := "El nombre del responable debe contener solo letras",
              "ciudad" := "La ciudad debe contener solo letras",
              "direccion" := TooSmallText,
              "num_telefonico" := InvalidTypeText,
              "email_contacto" := "Correo Invalido"]
  {
    var modal := new AddAlmacenModal();
    request, calls := modal.HandleSubmit(emailOk, response);
    UntouchedFormErrors(emailOk);
    errors := modal.formErrors;
  }
}
