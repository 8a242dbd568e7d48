/**
 * The proveedores page: its list of `Proveedor` records filtered on
 * `nombre_empresa`, and the permission check that sends every user who is
 * not a validator (role `'1'`) back to the insumos page.
 */
module ProveedoresPage {
  import opened JsText
  import opened ListSync

  /** A supplier as the page sees it: the name the filter looks at, and the columns it passes through. */
  datatype Proveedor = Proveedor(nombre_empresa: string, otherColumns: map<string, string>)

  /** The name field of the proveedores page. */
  function ProveedorNombre(x: Proveedor): string { x.nombre_empresa }

  /** The proveedores filter keeps exactly the records whose lower-cased `nombre_empresa` contains the lower-cased text. */
  lemma ProveedorFilter(rows: seq<Proveedor>, text: string, x: Proveedor)
    ensures x in Filter(rows, ProveedorNombre, text)
            <==> x in rows && Includes(ToLower(x.nombre_empresa), ToLower(text))
  {
    FilterMembership(rows, ProveedorNombre, text, x);
  }

  /** The routes the page can be sent to. */
  datatype Route = DashboardCustomers

  /** The role that may see the suppliers: the validator. */
  const ValidadorRol := "1"

  /**
   * The page state: the list controller, whether the permission check is
   * still pending (`isChecking`, initially true) and the route the router
   * was told to replace the page with, if any.
   */
  class ProveedoresPage {
    const list: ListController<Proveedor>
    var isChecking: bool
    var redirectedTo: Option<Route>

    constructor ()
      ensures fresh(list) && list.name == ProveedorNombre
      ensures list.snapshot == [] && list.filtered == [] && list.filterText == ""
      ensures list.page == 0 && list.rowsPerPage == 5
      ensures isChecking && redirectedTo == None
    {
      list := new ListController(ProveedorNombre);
      isChecking := true;
      redirectedTo := None;
    }

    /**
     * `checkPermissions`, given what `localStorage.getItem('rol')` returned:
     * any value other than `'1'`, `null` included, replaces the route with
     * the insumos page and returns early, leaving `isChecking` as it was;
     * `'1'` ends the check without redirecting.
     */
    method CheckPermissions(rol: Option<string>)
      modifies this
      ensures rol != Some(ValidadorRol) ==> redirectedTo == Some(DashboardCustomers) && isChecking == old(isChecking)
      ensures rol == Some(ValidadorRol) ==> !isChecking && redirectedTo == old(redirectedTo)
    {
      if rol != Some(ValidadorRol) {
        redirectedTo := Some(DashboardCustomers);
        return;
      }
      isChecking := false;
    }
  }

  /**
   * What the mount-time permission check leaves on a fresh page: the check ends
   * exactly for the validator, and every other visitor is redirected
   * while the page stays in its checking state.
   */
  method MountPermissions(rol: Option<string>) returns (isChecking: bool, redirectedTo: Option<Route>)
    ensures !isChecking <==> rol == Some("1")
    ensures redirectedTo.Some? <==> rol != Some("1")
    ensures redirectedTo.Some? ==> redirectedTo.value == DashboardCustomers
  {
    var page := new ProveedoresPage();
    page.CheckPermissions(rol);
    isChecking, redirectedTo := page.isChecking, page.redirectedTo;
  }

  /** Running the permission check again with the same role changes nothing more. */
  method CheckPermissionsTwice(page: ProveedoresPage, rol: Option<string>)
    modifies page
    ensures page.isChecking == (old(page.isChecking) && rol != Some("1"))
    ensures page.redirectedTo == (if rol == Some("1") then old(page.redirectedTo) else Some(DashboardCustomers))
  {
    page.CheckPermissions(rol);
    page.CheckPermissions(rol);
  }
}
