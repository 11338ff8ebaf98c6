/** The tenant admin's catalog page: the item list and the two-step delete, where the trash
    button only records a pending id and the dialog's confirm deletes it. */
module AdminCatalog {
  import opened Common
  import opened Records
  import opened Statuses

  const LoadErrorToast := Toast("Error", "No se pudieron cargar los items del catálogo", true)
  const DeletedToast := Toast("Item eliminado", "El item ha sido eliminado correctamente.", false)
  const DeleteErrorToast := Toast("Error", "No se pudo eliminar el item", true)

  /** The status badge of a row: green for the stored text 'active', grey for anything else. */
  function StatusBadgeTone(status: string): (t: Tone)
    ensures t == Green <==> status == CatalogItemStatusName(Active)
    ensures t == Green || t == Gray
  {
    if status == "active" then Green else Gray
  }

  /** Of the three item statuses only the active one is shown green. */
  lemma OnlyActiveIsGreen(s: CatalogItemStatus)
    ensures StatusBadgeTone(CatalogItemStatusName(s)) == Green <==> s == Active
  {
    CatalogItemNamesInjective();
  }

  /** The `deleteItem` request. */
  datatype DeleteRequest = DeleteRequest(id: Id)

  class CatalogAdminPage {
    const tenant: Option<Tenant>
    var items: seq<CatalogItem>
    var loading: bool
    /** The id awaiting confirmation, if any. */
    var deleteConfirm: Option<Id>

    constructor (tenant: Option<Tenant>)
      ensures this.tenant == tenant && items == [] && loading && deleteConfirm.None?
    {
      this.tenant := tenant;
      items := [];
      loading := true;
      deleteConfirm := None;
    }

    /** The dialog renders when the pending id is truthy, that is set and non-empty. */
    predicate DialogShown()
      reads this
      ensures DialogShown() ==> deleteConfirm.Some? && |deleteConfirm.value| > 0
    {
      deleteConfirm.Some? && deleteConfirm.value != ""
    }

    /** `loadItems`: a no-op without a tenant; otherwise the fetched list replaces the current
        one, a failure keeps it and toasts, and the spinner is cleared in every case. The
        pending id is never touched. */
    method LoadItems(fetched: Call<seq<CatalogItem>>) returns (toasts: seq<Toast>)
      modifies this
      ensures deleteConfirm == old(deleteConfirm)
      ensures tenant.None? ==> items == old(items) && loading == old(loading) && toasts == []
      ensures tenant.Some? ==> !loading
      ensures tenant.Some? && fetched.Returned? ==> items == fetched.value && toasts == []
      ensures tenant.Some? && fetched.Threw? ==> items == old(items) && toasts == [LoadErrorToast]
    {
      toasts := [];
      if tenant.None? {
        return;
      }
      loading := true;
      match fetched {
        case Returned(data) =>
          items := data;
        case Threw(_) =>
          toasts := [LoadErrorToast];
      }
      loading := false;
    }

    /** The trash button: records the id and deletes nothing. */
    method AskDelete(id: Id)
      modifies this
      ensures deleteConfirm == Some(id)
      ensures id != "" ==> DialogShown()
      ensures items == old(items) && loading == old(loading)
    {
      deleteConfirm := Some(id);
    }

    /** The dialog's Cancel: clears the pending id and deletes nothing. */
    method CancelDelete()
      modifies this
      ensures deleteConfirm.None? && !DialogShown()
      ensures items == old(items) && loading == old(loading)
    {
      deleteConfirm := None;
    }

    /** The dialog's Confirm, `handleDelete(deleteConfirm)`: deletes exactly the pending id; on
        success clears it and reloads, on failure keeps it (the dialog stays) and the list. */
    method ConfirmDelete(deleted: Call<()>, reloaded: Call<seq<CatalogItem>>)
      returns (request: DeleteRequest, toasts: seq<Toast>)
      requires DialogShown()
      modifies this
      ensures request == DeleteRequest(old(deleteConfirm).value)
      ensures deleted.Returned? ==> deleteConfirm.None? && !DialogShown()
      ensures deleted.Returned? && tenant.Some? ==>
        !loading && items == (if reloaded.Returned? then reloaded.value else old(items)) &&
        toasts == [DeletedToast] + (if reloaded.Returned? then [] else [LoadErrorToast])
      ensures deleted.Returned? && tenant.None? ==>
        items == old(items) && loading == old(loading) && toasts == [DeletedToast]
      ensures deleted.Threw? ==>
        deleteConfirm == old(deleteConfirm) && DialogShown() &&
        items == old(items) && loading == old(loading) && toasts == [DeleteErrorToast]
    {
      request := DeleteRequest(deleteConfirm.value);
      match deleted {
        case Returned(_) =>
          deleteConfirm := None;
          var more := LoadItems(reloaded);
          toasts := [DeletedToast] + more;
        case Threw(_) =>
          toasts := [DeleteErrorToast];
      }
    }
  }
}
