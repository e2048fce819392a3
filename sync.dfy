/**
  The three handlers that talk to the remote API and then patch the page:
  the product form's submit handler (create or update), the delete handler
  and the list fetch. The network is an input: what `fetch` resolved to (a
  response with its status and the outcome of `response.json()`) or the
  error it rejected with. `navigator.onLine`, the form's validity and the
  user's answer to the confirmation dialog are inputs too.
*/
module Sync {
  import opened Common
  import opened Text
  import opened Catalog
  import opened Display
  import opened Failures
  import opened Views

  /** A response: its status and what `response.json()` gives or throws. */
  datatype Response<T> = Response(status: nat, body: Result<T, JsError>)

  /** What `await fetch(...)` settles to. */
  datatype FetchResult<T> = Reached(response: Response<T>) | Rejected(error: JsError)

  /** `response.ok` */
  predicate IsOk(status: nat) { 200 <= status <= 299 }

  /**
    The try block of the submit handler and of the list fetch, up to the
    parsed body: a rejection, then `if (!response.ok) throw HTTP error`,
    then `response.json()`.
  */
  function OkBody<T>(r: FetchResult<T>): (res: Result<T, JsError>)
    ensures res.Ok? ==> r.Reached? && IsOk(r.response.status) && res == r.response.body
    ensures r.Rejected? ==> res == Err(r.error)
    ensures r.Reached? && !IsOk(r.response.status) ==> res == Err(HttpError(r.response.status))
    ensures r.Reached? && IsOk(r.response.status) ==> res == r.response.body
  {
    match r
    case Rejected(e) => Err(e)
    case Reached(Response(status, body)) => if IsOk(status) then body else Err(HttpError(status))
  }

  /** The try block of the delete handler: only status 200 goes on to `response.json()`. */
  function DeleteBody<T>(r: FetchResult<T>): (res: Result<T, JsError>)
    ensures res.Ok? ==> r.Reached? && r.response.status == 200 && res == r.response.body
    ensures r.Rejected? ==> res == Err(r.error)
    ensures r.Reached? && r.response.status != 200 ==> res == Err(DeleteStatusError(r.response.status))
    ensures r.Reached? && r.response.status == 200 ==> res == r.response.body
  {
    match r
    case Rejected(e) => Err(e)
    case Reached(Response(status, body)) => if status == 200 then body else Err(DeleteStatusError(status))
  }

  /** A create or update the server answers with a status that is not `ok` is reported, while online, as a server error. */
  lemma SubmitRejectedStatusIsServerError(r: FetchResult<ApiProduct>)
    requires r.Reached? && !IsOk(r.response.status)
    ensures SubmitFailure(true, OkBody(r).error).title == "Server Error"
  {
    HttpErrorIsServer(r.response.status, false);
  }

  /** A delete the server answers with any status but 200 removes nothing and is reported, while online, as a server error. */
  lemma DeleteRejectedStatusIsServerError<T>(r: FetchResult<T>)
    requires r.Reached? && r.response.status != 200
    ensures DeleteBody(r).Err?
    ensures DeleteFailure(true, DeleteBody(r).error).title == "Server Error"
  {
    DeleteStatusIsServer(r.response.status);
  }

  /** A list fetch answered with a status that is not `ok` shows the server-error panel while online. */
  lemma ListRejectedStatusIsServerError(r: FetchResult<seq<ApiProduct>>)
    requires r.Reached? && !IsOk(r.response.status)
    ensures LoadFailureFor(true, OkBody(r).error).message
      == "Server error while loading products (" + HttpError(r.response.status).message + ")."
  {
    HttpErrorIsServer(r.response.status, false);
  }

  const SaveLabel := "Save Product"
  const UpdateLabel := "Update Product"

  /**
    The product form: the `disabled` flag of each of its inputs, selects,
    textareas and buttons, and the label of its submit button.
  */
  class Form {
    const controls: array<bool>
    var submitLabel: string

    constructor (count: nat, initialLabel: string)
      ensures fresh(controls) && controls.Length == count && submitLabel == initialLabel
      ensures forall k :: 0 <= k < count ==> !controls[k]
    {
      controls := new bool[count](_ => false);
      submitLabel := initialLabel;
    }

    /** `formInputs.forEach(input => input.disabled = value)` */
    method SetDisabled(value: bool)
      modifies controls
      ensures forall k :: 0 <= k < controls.Length ==> controls[k] == value
    {
      var n := 0;
      while n < controls.Length
        invariant 0 <= n <= controls.Length
        invariant forall k :: 0 <= k < n ==> controls[k] == value
      {
        controls[n] := value;
        n := n + 1;
      }
    }
  }

  /** `productId` read from the form's dataset is truthy: present and non-empty. */
  predicate HasProductId(productId: Option<string>) { productId.Some? && productId.value != "" }

  /** The success toast of a create or an update. */
  function SavedNotice(updating: bool, p: ApiProduct): (n: Notice)
    ensures n.title == "Success!"
    ensures var quoted := "Product \"" + p.title + "\"";
      |n.message| > |quoted| && n.message[..|quoted|] == quoted
    ensures !updating ==> var digits := DecimalString(p.id);
      |n.message| >= |digits| && n.message[|n.message| - |digits|..] == digits
  {
    var quoted := "Product \"" + p.title + "\"";
    if updating then
      var m := quoted + " has been updated successfully!";
      assert m[..|quoted|] == quoted;
      Notice("Success!", m)
    else
      var digits := DecimalString(p.id);
      var m := quoted + " has been added successfully with ID: " + digits;
      assert m[..|quoted|] == quoted && m[|m| - |digits|..] == digits;
      Notice("Success!", m)
  }

  /**
    The submit handler. An invalid form sends nothing and changes nothing.
    Otherwise the request is a PUT when the form is in edit mode with a
    product id and a POST else; every control is disabled while it is in
    flight and enabled again afterwards, whatever the outcome. Only a
    successful response patches the page: the returned product is drawn
    first (create) or redrawn in place (update).
  */
  method Submit(views: ProductViews, form: Form, valid: bool, isEditMode: bool, productId: Option<string>,
                online: bool, outcome: FetchResult<ApiProduct>)
    returns (requested: bool, notice: Option<Notice>)
    requires views.Valid()
    modifies views, form, form.controls
    ensures views.Valid()
    ensures requested == valid
    ensures !valid ==> notice == None && unchanged(views) && unchanged(form) && unchanged(form.controls)
    ensures valid ==> forall k :: 0 <= k < form.controls.Length ==> !form.controls[k]
    ensures var updating := isEditMode && HasProductId(productId);
      valid && OkBody(outcome).Ok? ==>
        && notice == Some(SavedNotice(updating, OkBody(outcome).value))
        && form.submitLabel == old(form.submitLabel)
        && views.State() == (if updating then AfterUpdate(old(views.State()), OkBody(outcome).value)
                             else AfterAdd(old(views.State()), OkBody(outcome).value))
    ensures valid && OkBody(outcome).Err? ==>
      && notice == Some(SubmitFailure(online, OkBody(outcome).error))
      && form.submitLabel == (if isEditMode then UpdateLabel else SaveLabel)
      && views.State() == old(views.State())
  {
    if !valid {
      return false, None;
    }
    requested := true;
    var updating := isEditMode && HasProductId(productId);
    var originalLabel := form.submitLabel;
    form.SetDisabled(true);
    form.submitLabel := if updating then "Updating..." else "Adding...";
    var body := OkBody(outcome);
    if body.Ok? {
      if updating {
        views.UpdateProduct(body.value);
      } else {
        views.AddProduct(body.value);
      }
      notice := Some(SavedNotice(updating, body.value));
      form.SetDisabled(false);
      form.submitLabel := originalLabel;
    } else {
      notice := Some(SubmitFailure(online, body.error));
      form.submitLabel := if isEditMode then UpdateLabel else SaveLabel;
      form.SetDisabled(false);
    }
  }

  /**
    The delete handler. Without the user's confirmation no request is made
    and nothing changes. A request removes the product's unit from both
    projections only when the server answers 200 with a readable body.
  */
  method DeleteProduct(views: ProductViews, productId: nat, confirmed: bool, online: bool,
                       outcome: FetchResult<ApiProduct>)
    returns (requested: bool, notice: Option<Notice>)
    requires views.Valid()
    modifies views
    ensures views.Valid()
    ensures requested == confirmed
    ensures !confirmed ==> notice == None && unchanged(views)
    ensures confirmed && DeleteBody(outcome).Ok? ==>
      && notice == Some(Notice("Success!", "Product has been deleted successfully."))
      && views.State() == AfterRemove(old(views.State()), productId)
    ensures confirmed && DeleteBody(outcome).Err? ==>
      notice == Some(DeleteFailure(online, DeleteBody(outcome).error)) && views.State() == old(views.State())
  {
    if !confirmed {
      return false, None;
    }
    requested := true;
    var body := DeleteBody(outcome);
    if body.Ok? {
      views.RemoveProduct(productId);
      notice := Some(Notice("Success!", "Product has been deleted successfully."));
    } else {
      notice := Some(DeleteFailure(online, body.error));
    }
  }

  /**
    The list fetch: both projections cleared under the spinner, then either
    the full render of the transformed list or the failure panel in the card
    grid with both empty states left hidden.
  */
  method FetchProducts(views: ProductViews, online: bool, outcome: FetchResult<seq<ApiProduct>>)
    returns (failure: Option<LoadFailure>)
    requires views.Valid()
    modifies views
    ensures views.Valid()
    ensures OkBody(outcome).Ok? ==>
      && failure == None
      && views.State() == AfterRender(AfterLoading(old(views.State())), ListingOf(OkBody(outcome).value))
    ensures OkBody(outcome).Err? ==>
      && failure == Some(LoadFailureFor(online, OkBody(outcome).error))
      && views.State() == AfterLoadFailure(AfterLoading(old(views.State())), failure.value)
  {
    views.ShowLoading();
    var body := OkBody(outcome);
    if body.Ok? {
      views.RenderProducts(ListingOf(body.value));
      failure := None;
    } else {
      var f := LoadFailureFor(online, body.error);
      FailedFetchShowsPanel(old(views.State()), f);
      views.ShowLoadFailure(f);
      failure := Some(f);
    }
  }

  /**
    A failed list fetch leaves both projections empty with neither empty
    state shown, the spinner hidden and the failure panel in the card grid.
  */
  lemma FailedFetchShowsPanel(p: Page, f: LoadFailure)
    ensures var q := AfterLoadFailure(AfterLoading(p), f);
      && InStep(q) && q.cards == [] && q.rows == []
      && !q.cardsEmptyShown && !q.tableEmptyShown && !q.spinnerShown
      && q.loadFailure == Some(f) && q.cardViewShown == p.cardViewShown
  {
  }

  /**
    After a successful list fetch of N records both projections hold N
    units with the same keys in the same order, each showing its record's
    derived SKU.
  */
  lemma FetchedListInStep(list: seq<ApiProduct>)
    ensures var cards, rows := CardsOf(ListingOf(list)), RowsOf(ListingOf(list));
      && |cards| == |rows| == |list|
      && Ids(cards) == Ids(rows)
      && forall k :: 0 <= k < |list| ==> cards[k].sku == rows[k].sku == Sku(list[k].id)
  {
    var raws := ListingOf(list);
    FullRenderInStep(raws);
    forall k | 0 <= k < |list|
      ensures CardsOf(raws)[k].sku == RowsOf(raws)[k].sku == Sku(list[k].id)
    {
      ListedSkuIsDerived(list[k], CardPlaceholder);
      ListedSkuIsDerived(list[k], RowPlaceholder);
    }
  }
}
