/**
 * The insumos page: its list of `Insumo` records filtered on `nombre`,
 * the `NombreModal` that asks for a name before a report is requested,
 * and the `FechaModal` that asks for two dates.
 */
module CustomersPage {
  import opened JsText
  import opened ListSync
  import opened Validation

  // ---------------------------------------------------------------------
  // The list of insumos
  // ---------------------------------------------------------------------

  /**
   * An insumo as the page sees it: the `nombre` the filter looks at, and
   * the other columns, which the page only passes through to the table.
   */
  datatype Insumo = Insumo(nombre: string, otherColumns: map<string, string>)

  /** The name field of the insumos page. */
  function InsumoNombre(x: Insumo): string { x.nombre }

  /** The insumos filter keeps exactly the records whose lower-cased `nombre` contains the lower-cased text. */
  lemma InsumoFilter(rows: seq<Insumo>, text: string, x: Insumo)
    ensures x in Filter(rows, InsumoNombre, text)
            <==> x in rows && Includes(ToLower(x.nombre), ToLower(text))
  {
    FilterMembership(rows, InsumoNombre, text, x);
  }

  /** The state the insumos list starts in. */
  method NewInsumoList() returns (list: ListController<Insumo>)
    ensures fresh(list) && list.name == InsumoNombre
    ensures list.snapshot == [] && list.filtered == [] && list.filterText == ""
    ensures list.page == 0 && list.rowsPerPage == 5
  {
    list := new ListController(InsumoNombre);
  }

  // ---------------------------------------------------------------------
  // NombreModal
  // ---------------------------------------------------------------------

  const NombreMessage := "El nombre debe contener solo letras sin espcacios en blanco"

  /** `NombreSchema`: at most 20 characters, refined by `/^[a-zA-Z]+$/`. */
  const NombreSchema: seq<FieldSchema> := [FieldSchema("nombre", [MaxLength(20)], Some(Refine(OnlyLetters, NombreMessage)))]

  /** The object `{ nombre }` that `handleSubmit` parses. */
  function NombreDraft(nombre: string): Draft {
    map["nombre" := Str(nombre)]
  }

  /** `NombreSchema` has no e-mail check, so the e-mail test it is run with is never consulted. */
  function NoEmailCheck(s: string): bool { true }

  /** The names the schema is meant to accept: non-empty, at most 20 characters, ASCII letters only. */
  ghost predicate NombreOk(n: string) {
    0 < |n| <= 20 && forall i :: 0 <= i < |n| ==> IsAsciiLetter(n[i])
  }

  /** The issues `NombreSchema.parse({ nombre })` raises: those of its one field. */
  lemma NombreIssues(n: string, emailOk: string -> bool)
    ensures SchemaIssues(NombreSchema, NombreDraft(n), emailOk)
            == ChainIssues("nombre", [MaxLength(20)], n, emailOk) + RefineIssues("nombre", Some(Refine(OnlyLetters, NombreMessage)), n)
  {
    assert Lookup(NombreDraft(n), "nombre") == Some(Str(n));
    assert NombreSchema[1..] == [];
  }

  /** `NombreSchema` accepts exactly the non-empty ASCII-letter names of at most 20 characters. */
  lemma NombreSchemaAcceptsExactly(n: string, emailOk: string -> bool)
    ensures SchemaIssues(NombreSchema, NombreDraft(n), emailOk) == [] <==> NombreOk(n)
  {
    NombreIssues(n, emailOk);
    var checks := [MaxLength(20)];
    assert ChainIssues("nombre", checks, n, emailOk) == CheckIssues("nombre", checks[0], n, emailOk) by {
      assert checks[1..] == [];
    }
  }

  /**
   * The dictionary a rejected name leaves: a name that is letters only but
   * too long shows the fixed too-big message; any name that is not letters
   * only (the empty one included) shows the refinement message, which comes
   * last and so overwrites the too-big one.
   */
  lemma NombreErrors(n: string, emailOk: string -> bool)
    ensures var m := ErrorMap(SchemaIssues(NombreSchema, NombreDraft(n), emailOk));
            && (NombreOk(n) ==> m == map[])
            && (!NombreOk(n) && PatternTest(OnlyLetters, n) ==> m == map["nombre" := TooBigText])
            && (!PatternTest(OnlyLetters, n) ==> m == map["nombre" := NombreMessage])
  {
    NombreIssues(n, emailOk);
    NombreSchemaAcceptsExactly(n, emailOk);
    MaxThenRefineErrors("nombre", 20, OnlyLetters, NombreMessage, n, emailOk);
  }

  /**
   * The dictionary of a `max(hi).refine(pattern)` field: empty when both
   * hold, the too-big message when only the length fails, and the
   * refinement message whenever the pattern fails.
   */
  lemma MaxThenRefineErrors(key: string, hi: nat, p: Pattern, message: string, s: string, emailOk: string -> bool)
    ensures var m := ErrorMap(ChainIssues(key, [MaxLength(hi)], s, emailOk) + RefineIssues(key, Some(Refine(p, message)), s));
            && (|s| <= hi && PatternTest(p, s) ==> m == map[])
            && (|s| > hi && PatternTest(p, s) ==> m == map[key := TooBigText])
            && (!PatternTest(p, s) ==> m == map[key := message])
  {
    MaxIssues(key, hi, s, emailOk);
    if !PatternTest(p, s) {
      PatternFailsErrors(key, hi, p, message, s, emailOk);
    } else if |s| > hi {
      var big := ChainIssues(key, [MaxLength(hi)], s, emailOk);
      assert RefineIssues(key, Some(Refine(p, message)), s) == [];
      assert big + [] == big;
      ErrorMapAtMostOne(big);
    }
  }

  /** A one-check `max(hi)` chain reports the too-big issue exactly when the string is too long. */
  lemma MaxIssues(key: string, hi: nat, s: string, emailOk: string -> bool)
    ensures ChainIssues(key, [MaxLength(hi)], s, emailOk)
            == if |s| > hi then [Issue([key], "too_big", LengthDefaultMessage)] else []
  {
    var checks := [MaxLength(hi)];
    assert checks[1..] == [];
  }

  /** A failed refinement comes last, so its message is what the key ends on. */
  lemma PatternFailsErrors(key: string, hi: nat, p: Pattern, message: string, s: string, emailOk: string -> bool)
    requires !PatternTest(p, s)
    ensures ErrorMap(ChainIssues(key, [MaxLength(hi)], s, emailOk) + RefineIssues(key, Some(Refine(p, message)), s))
            == map[key := message]
  {
    MaxIssues(key, hi, s, emailOk);
    assert RefineIssues(key, Some(Refine(p, message)), s) == [Issue([key], "custom", message)];
    CustomIssueWins(ChainIssues(key, [MaxLength(hi)], s, emailOk), key, message);
  }

  /** A `custom` issue after at most one too-big issue on the same key leaves only its own message. */
  lemma CustomIssueWins(big: seq<Issue>, key: string, message: string)
    requires big == [] || big == [Issue([key], "too_big", LengthDefaultMessage)]
    ensures ErrorMap(big + [Issue([key], "custom", message)]) == map[key := message]
  {
    var all := big + [Issue([key], "custom", message)];
    assert all[..|all| - 1] == big;
    ErrorMapAtMostOne(big);
  }

  /** The callbacks `NombreModal` invokes, in order. */
  datatype NombreCall = OnSubmit(nombre: string) | OnClose

  class NombreModal {
    var nombre: string
    var formErrors: map<string, string>

    constructor ()
      ensures nombre == "" && formErrors == map[]
    {
      nombre, formErrors := "", map[];
    }

    /**
     * `handleSubmit`: an accepted name is handed to `onSubmit` and the
     * modal closes, the errors left as they were; a rejected one invokes
     * no callback and replaces the errors with the folded dictionary.
     */
    method HandleSubmit() returns (calls: seq<NombreCall>)
      modifies this
      ensures nombre == old(nombre)
      ensures var issues := SchemaIssues(NombreSchema, NombreDraft(nombre), NoEmailCheck);
              && (issues == [] ==> calls == [OnSubmit(nombre), OnClose] && formErrors == old(formErrors))
              && (issues != [] ==> calls == [] && formErrors == ErrorMap(issues))
    {
      var issues := SchemaIssues(NombreSchema, NombreDraft(nombre), NoEmailCheck);
      if issues == [] {
        calls := [OnSubmit(nombre)];
        calls := calls + [OnClose];
      } else {
        calls := [];
        var fieldErrors := FoldErrors(issues);
        formErrors := fieldErrors;
      }
    }

    /** `handleNombreChange`: take the typed text and clear every error. */
    method HandleNombreChange(value: string)
      modifies this
      ensures nombre == value && formErrors == map[]
    {
      nombre := value;
      formErrors := map[];
    }
  }

  /**
   * Submitting a name: the callbacks fire exactly for the names the schema
   * is meant to accept, and a rejected name leaves exactly one error entry.
   */
  method SubmitNombre(modal: NombreModal) returns (calls: seq<NombreCall>)
    modifies modal
    ensures calls != [] <==> NombreOk(modal.nombre)
    ensures NombreOk(modal.nombre) ==> calls == [OnSubmit(modal.nombre), OnClose]
    ensures !NombreOk(modal.nombre) ==> modal.formErrors.Keys == {"nombre"}
  {
    calls := modal.HandleSubmit();
    NombreSchemaAcceptsExactly(modal.nombre, NoEmailCheck);
    NombreErrors(modal.nombre, NoEmailCheck);
  }

  // ---------------------------------------------------------------------
  // FechaModal
  // ---------------------------------------------------------------------

  /** The callbacks `FechaModal` invokes, in order. */
  datatype FechaCall<D> = Submitted(fechaInicio: D, fechaFin: D) | Closed

  /** The two dates of the modal; `None` is the initial `null`. */
  class FechaModal<D> {
    var fechaInicio: Option<D>
    var fechaFin: Option<D>

    constructor ()
      ensures fechaInicio == None && fechaFin == None
    {
      fechaInicio, fechaFin := None, None;
    }

    method SetFechaInicio(d: D)
      modifies this
      ensures fechaInicio == Some(d) && fechaFin == old(fechaFin)
    {
      fechaInicio := Some(d);
    }

    method SetFechaFin(d: D)
      modifies this
      ensures fechaFin == Some(d) && fechaInicio == old(fechaInicio)
    {
      fechaFin := Some(d);
    }

    /** `handleSubmit`: submit both dates and close when both are set; otherwise do nothing. */
    method HandleSubmit() returns (calls: seq<FechaCall<D>>)
      ensures calls != [] <==> fechaInicio.Some? && fechaFin.Some?
      ensures fechaInicio.Some? && fechaFin.Some? ==>
                calls == [Submitted(fechaInicio.value, fechaFin.value), Closed]
    {
      calls := [];
      if fechaInicio.Some? && fechaFin.Some? {
        calls := [Submitted(fechaInicio.value, fechaFin.value)];
        calls := calls + [Closed];
      }
    }
  }

  /** A freshly opened date modal submits nothing until both dates are chosen. */
  method FechaNeedsBothDates<D>(inicio: D) returns (before: seq<FechaCall<D>>, after: seq<FechaCall<D>>)
    ensures before == [] && after == []
  {
    var modal := new FechaModal<D>();
    before := modal.HandleSubmit();
    modal.SetFechaInicio(inicio);
    after := modal.HandleSubmit();
  }
}
