/**
 * The almacenes page: its list of `Almacen` records filtered on
 * `nombre_almacen`, the header that offers either the add button or a link
 * home depending on the stored role, and the add modal wired to the list.
 */
module AlmacenesPage {
  import opened JsText
  import opened ListSync
  import opened Validation
  import opened AlmacenForm

  /** A warehouse as the page sees it: the name the filter looks at, and the columns it passes through. */
  datatype Almacen = Almacen(nombre_almacen: string, otherColumns: map<string, string>)

  /** The name field of the almacenes page. */
  function AlmacenNombre(x: Almacen): string { x.nombre_almacen }

  /** The almacenes filter keeps exactly the records whose lower-cased `nombre_almacen` contains the lower-cased text. */
  lemma AlmacenFilter(rows: seq<Almacen>, text: string, x: Almacen)
    ensures x in Filter(rows, AlmacenNombre, text)
            <==> x in rows && Includes(ToLower(x.nombre_almacen), ToLower(text))
  {
    FilterMembership(rows, AlmacenNombre, text, x);
  }

  /** What the header offers. */
  datatype HeaderAction = HomeLink | AddButton

  /** The role that is shown the link home instead of the add button. */
  const HomeLinkRol := "2"

  /** The header for the role `localStorage.getItem('rol')` returned (`None` for `null`). */
  function HeaderFor(rol: Option<string>): (h: HeaderAction)
    ensures h == AddButton <==> rol != Some(HomeLinkRol)
  {
    if rol == Some(HomeLinkRol) then HomeLink else AddButton
  }

  /** Only role `'2'` loses the add button; every other value, a missing role included, keeps it. */
  lemma HeaderForRoles(rol: Option<string>)
    ensures HeaderFor(rol) == HomeLink <==> rol == Some("2")
    ensures HeaderFor(None) == AddButton
    ensures rol.Some? && rol.value != "2" ==> HeaderFor(rol) == AddButton
  {
  }

  /**
   * The page state: the list controller, whether the add modal is open
   * (`openModal`, initially false), and the modal's own state.
   */
  class AlmacenesPage {
    const list: ListController<Almacen>
    const modal: AddAlmacenModal
    var openModal: bool

    ghost predicate Valid()
      reads this
    {
      list.name == AlmacenNombre && modal.schema == AlmacenSchema
    }

    constructor ()
      ensures Valid() && fresh(list) && fresh(modal)
      ensures list.snapshot == [] && list.filtered == [] && list.filterText == ""
      ensures list.page == 0 && list.rowsPerPage == 5
      ensures !openModal
      ensures modal.formData == InitialFormData && modal.formErrors == map[]
    {
      list := new ListController(AlmacenNombre);
      modal := new AddAlmacenModal();
      openModal := false;
    }

    /** A click on the header: `handleOpenModal` when the header shows the add button; the link leaves the page state alone. */
    method ClickHeader(rol: Option<string>)
      modifies this
      ensures openModal == (old(openModal) || HeaderFor(rol) == AddButton)
    {
      if HeaderFor(rol) == AddButton {
        openModal := true;
      }
    }

    /** One callback the modal invokes: `reloadTable` reloads the list, `notify` only shows a toast, `onClose` closes the modal. */
    method Dispatch(c: Callback, reload: FetchOutcome<seq<Almacen>>)
      modifies this, list
      ensures c == AlmacenForm.ReloadTable && reload.Fetched? ==> list.snapshot == reload.data && list.filtered == reload.data
      ensures c != AlmacenForm.ReloadTable || reload.Threw? ==> list.snapshot == old(list.snapshot) && list.filtered == old(list.filtered)
      ensures list.filterText == old(list.filterText) && list.page == old(list.page) && list.rowsPerPage == old(list.rowsPerPage)
      ensures openModal == (old(openModal) && c != AlmacenForm.OnClose)
    {
      match c
      case ReloadTable => list.ReloadTable(reload);
      case Notify =>
      case OnClose => openModal := false;
    }

    /** The callbacks the modal invoked, dispatched in order. */
    method DispatchAll(calls: seq<Callback>, reload: FetchOutcome<seq<Almacen>>)
      modifies this, list
      ensures var reloaded := AlmacenForm.ReloadTable in calls && reload.Fetched?;
              && (reloaded ==> list.snapshot == reload.data && list.filtered == reload.data)
              && (!reloaded ==> list.snapshot == old(list.snapshot) && list.filtered == old(list.filtered))
      ensures list.filterText == old(list.filterText) && list.page == old(list.page) && list.rowsPerPage == old(list.rowsPerPage)
      ensures openModal == (old(openModal) && OnClose !in calls)
    {
      for i := 0 to |calls|
        invariant var reloaded := AlmacenForm.ReloadTable in calls[..i] && reload.Fetched?;
                  && (reloaded ==> list.snapshot == reload.data && list.filtered == reload.data)
                  && (!reloaded ==> list.snapshot == old(list.snapshot) && list.filtered == old(list.filtered))
        invariant list.filterText == old(list.filterText) && list.page == old(list.page) && list.rowsPerPage == old(list.rowsPerPage)
        invariant openModal == (old(openModal) && OnClose !in calls[..i])
      {
        assert calls[..i + 1] == calls[..i] + [calls[i]];
        Dispatch(calls[i], reload);
      }
      assert calls[..|calls|] == calls;
    }

    /**
     * Pressing the modal's submit button. `reload` is how the `reloadTable`
     * the modal triggers ends. An accepted draft answered with `ok` reloads
     * the list and closes the modal; in every other outcome the list and the
     * open state stay as they were.
     */
    method SubmitModal(emailOk: string -> bool, response: HttpOutcome, reload: FetchOutcome<seq<Almacen>>)
      returns (request: Option<Draft>)
      requires Valid()
      modifies this, list, modal
      ensures Valid()
      ensures var issues := SchemaIssues(modal.schema, old(modal.formData), emailOk);
              var saved := issues == [] && response == Answered(true);
              && (request.Some? <==> issues == [])
              && (saved ==> !openModal && modal.formData == InitialFormData)
              && (saved && reload.Fetched? ==> list.snapshot == reload.data && list.filtered == reload.data)
              && (!saved || reload.Threw? ==> list.snapshot == old(list.snapshot) && list.filtered == old(list.filtered))
              && (!saved ==> openModal == old(openModal))
              && (issues != [] ==> modal.formErrors == ErrorMap(issues))
              && (!saved ==> modal.formData == old(modal.formData))
              && (issues == [] ==> modal.formErrors == old(modal.formErrors))
              && (request.Some? ==> request.value == old(modal.formData))
      ensures list.filterText == old(list.filterText) && list.page == old(list.page) && list.rowsPerPage == old(list.rowsPerPage)
    {
      var calls;
      request, calls := modal.HandleSubmit(emailOk, response);
      DispatchAll(calls, reload);
    }
  }
}
