/** The invoice list view: its three state cells, the mounted editor, the
    delete filter and the adoption of the fetched collection. */
module Invoices {
  import opened Wrappers
  import opened InvoiceData
  import opened InvoiceForm

  /** `invoice.documentId !== key`: strict inequality, so a number never
      equals a string identifier. */
  predicate Keeps(inv: Invoice, key: JsValue) {
    JsString(inv.documentId) != key
  }

  /** `invoices.filter(invoice => invoice.documentId !== key)` */
  function FilterOut(list: seq<Invoice>, key: JsValue): (r: seq<Invoice>)
    ensures |r| <= |list|
  {
    if list == [] then []
    else (if Keeps(list[0], key) then [list[0]] else []) + FilterOut(list[1..], key)
  }

  /** Exactly the entries the predicate keeps remain. */
  lemma {:induction false} FilterOutMembers(list: seq<Invoice>, key: JsValue)
    ensures forall x :: x in FilterOut(list, key) <==> x in list && Keeps(x, key)
  {
    if list != [] {
      FilterOutMembers(list[1..], key);
      assert list == [list[0]] + list[1..];
    }
  }

  /** Each kept entry occurs as often as before; each dropped one is gone. */
  lemma {:induction false} FilterOutCounts(list: seq<Invoice>, key: JsValue, x: Invoice)
    ensures multiset(FilterOut(list, key))[x] == if Keeps(x, key) then multiset(list)[x] else 0
  {
    if list != [] {
      FilterOutCounts(list[1..], key, x);
      assert list == [list[0]] + list[1..];
      var head := if Keeps(list[0], key) then [list[0]] else [];
      assert FilterOut(list, key) == head + FilterOut(list[1..], key);
      assert multiset(FilterOut(list, key)) == multiset(head) + multiset(FilterOut(list[1..], key));
    }
  }

  /** The filter keeps the original order: filtering a concatenation is the
      concatenation of the filtered parts. */
  lemma {:induction false} FilterOutAppend(a: seq<Invoice>, b: seq<Invoice>, key: JsValue)
    ensures FilterOut(a + b, key) == FilterOut(a, key) + FilterOut(b, key)
  {
    if a == [] {
      assert a + b == b;
    } else {
      var head := if Keeps(a[0], key) then [a[0]] else [];
      assert (a + b)[0] == a[0];
      assert (a + b)[1..] == a[1..] + b;
      assert FilterOut(a + b, key) == head + FilterOut(a[1..] + b, key);
      assert FilterOut(a, key) == head + FilterOut(a[1..], key);
      FilterOutAppend(a[1..], b, key);
    }
  }

  /** When no entry matches, the filter returns the list unchanged. */
  lemma {:induction false} FilterOutNoMatch(list: seq<Invoice>, key: JsValue)
    requires forall i :: 0 <= i < |list| ==> Keeps(list[i], key)
    ensures FilterOut(list, key) == list
  {
    if list != [] {
      assert Keeps(list[0], key);
      FilterOutNoMatch(list[1..], key);
      assert FilterOut(list, key) == [list[0]] + list[1..];
    }
  }

  /** A number never matches a string identifier, so filtering by one keeps
      every entry. */
  lemma {:induction false} FilterOutByNumber(list: seq<Invoice>, n: int)
    ensures FilterOut(list, JsNumber(n)) == list
  {
    FilterOutNoMatch(list, JsNumber(n));
  }

  /** What the Delete button of a card passes, as written: `invoice.id`. */
  function DeleteKeyAsWritten(inv: Invoice): JsValue {
    JsNumber(inv.id)
  }

  /** What the filter and the request address expect: `invoice.documentId`. */
  function DeleteKey(inv: Invoice): JsValue {
    JsString(inv.documentId)
  }

  /** As written, a successful delete from a card never removes the card. */
  lemma {:induction false} DeleteAsWrittenRemovesNothing(list: seq<Invoice>, inv: Invoice)
    ensures FilterOut(list, DeleteKeyAsWritten(inv)) == list
  {
    FilterOutByNumber(list, inv.id);
  }

  /** With the intended key, the deleted card is gone and exactly the entries
      with another documentId stay. */
  lemma DeleteRemovesCard(list: seq<Invoice>, inv: Invoice)
    ensures inv !in FilterOut(list, DeleteKey(inv))
    ensures forall x :: x in FilterOut(list, DeleteKey(inv)) <==> x in list && x.documentId != inv.documentId
  {
    FilterOutMembers(list, DeleteKey(inv));
  }

  /** The shape of the fetched body's `data` member. */
  datatype JsonData = JsonArray(items: seq<Invoice>) | NotArray

  /** The `.then` of the fetch: adopt `data.data` only when it is an array. */
  function Adopt(current: seq<Invoice>, outcome: Response<JsonData>): (r: seq<Invoice>)
    ensures outcome.Succeeded? && outcome.data.JsonArray? ==> r == outcome.data.items
    ensures !(outcome.Succeeded? && outcome.data.JsonArray?) ==> r == current
  {
    if outcome.Succeeded? && outcome.data.JsonArray? then outcome.data.items else current
  }

  /** The list view component. */
  class InvoicesView {
    var invoices: seq<Invoice>
    var isInvoiceFormOpen: bool
    var selectedInvoice: Option<Invoice>
    /** The editor, mounted exactly while the form is open. */
    var form: InvoiceEditor?

    ghost predicate Valid()
      reads this, form
    {
      (isInvoiceFormOpen <==> form != null) &&
      (form != null ==> form.selectedInvoice == selectedInvoice && form.Settled())
    }

    /** Mount: an empty list, the form closed, nothing selected. */
    constructor ()
      ensures Valid()
      ensures invoices == [] && !isInvoiceFormOpen && selectedInvoice == None
    {
      invoices := [];
      isInvoiceFormOpen := false;
      selectedInvoice := None;
      form := null;
    }

    /** The mount effect's GET, once it settles (a thrown error or a non-2xx
        status is `Failed`). */
    method FetchInvoices(outcome: Response<JsonData>) returns (request: Request)
      modifies this`invoices
      ensures request == GetAll
      ensures invoices == Adopt(old(invoices), outcome)
    {
      request := GetAll;
      invoices := Adopt(invoices, outcome);
    }

    /** Re-render after the state cells changed: mount, unmount or re-prop
        the editor. */
    method Render()
      requires form != null ==> form.Settled()
      modifies this`form, form
      ensures Valid()
      ensures unchanged(this`invoices) && unchanged(this`isInvoiceFormOpen) && unchanged(this`selectedInvoice)
      ensures !isInvoiceFormOpen ==> form == null
      ensures isInvoiceFormOpen && old(form) == null ==>
        fresh(form) && form.formFields == RecomputeTotal(Seed(InitialState(), selectedInvoice))
      ensures isInvoiceFormOpen && old(form) != null ==>
        form == old(form) &&
        form.formFields == if old(form.selectedInvoice) == selectedInvoice then old(form.formFields)
                           else RecomputeTotal(Seed(old(form.formFields), selectedInvoice))
    {
      if !isInvoiceFormOpen {
        form := null;
      } else if form == null {
        form := new InvoiceEditor(selectedInvoice);
      } else {
        form.ReceiveSelectedInvoice(selectedInvoice);
      }
    }

    /** "Create invoice": clear the selection, open the form. */
    method HandleOpenInvoiceForm()
      requires Valid()
      modifies this, form
      ensures Valid()
      ensures selectedInvoice == None && isInvoiceFormOpen && invoices == old(invoices)
      ensures old(form) == null ==> fresh(form)
      ensures old(form) != null ==> form == old(form)
      ensures old(form) == null || old(selectedInvoice).Some? ==> form.formFields == InitialState()
      ensures old(form) != null && old(selectedInvoice).None? ==> form == old(form) && form.formFields == old(form.formFields)
    {
      selectedInvoice := None;
      isInvoiceFormOpen := true;
      CreateFormStartsBlank(InitialState());
      if form != null {
        CreateFormStartsBlank(form.formFields);
      }
      Render();
    }

    /** `onClose`: clear the selection, close (unmount) the form. */
    method HandleCloseInvoiceForm()
      requires Valid()
      modifies this, form
      ensures Valid()
      ensures selectedInvoice == None && !isInvoiceFormOpen && form == null
      ensures invoices == old(invoices)
    {
      selectedInvoice := None;
      isInvoiceFormOpen := false;
      Render();
    }

    /** "Edit invoice" on a card: select it, open the form. */
    method HandleEditInvoice(inv: Invoice)
      requires Valid()
      modifies this, form
      ensures Valid()
      ensures selectedInvoice == Some(inv) && isInvoiceFormOpen && invoices == old(invoices)
      ensures old(form) == null ==> fresh(form)
      ensures old(form) != null ==> form == old(form)
      ensures old(form) == null ==> form.formFields == RecomputeTotal(Seed(InitialState(), Some(inv)))
      ensures old(form) != null ==>
        form.formFields == if old(selectedInvoice) == Some(inv) then old(form.formFields)
                           else RecomputeTotal(Seed(old(form.formFields), Some(inv)))
    {
      selectedInvoice := Some(inv);
      isInvoiceFormOpen := true;
      Render();
    }

    /** `handleDeleteInvoice(key)`: the alert does not gate anything, the
        DELETE is always sent, and the list is filtered only on success. */
    method HandleDeleteInvoice(key: JsValue, response: Response<()>) returns (request: Request)
      modifies this`invoices
      ensures request == Delete(key)
      ensures invoices == if response.Succeeded? then FilterOut(old(invoices), key) else old(invoices)
    {
      request := Delete(key);
      if response.Succeeded? {
        invoices := FilterOut(invoices, key);
      }
    }

    /** The Delete button of the card showing `inv`, passing its documentId. */
    method HandleDeleteClick(inv: Invoice, response: Response<()>) returns (request: Request)
      modifies this`invoices
      ensures request == Delete(DeleteKey(inv))
      ensures invoices == if response.Succeeded? then FilterOut(old(invoices), DeleteKey(inv)) else old(invoices)
      ensures response.Succeeded? ==> inv !in invoices
    {
      request := HandleDeleteInvoice(DeleteKey(inv), response);
      DeleteRemovesCard(old(invoices), inv);
    }

    /** An input event in the open form. */
    method FormInput(e: Assignment)
      requires Valid() && form != null
      modifies form
      ensures Valid() && form.formFields == RecomputeTotal(Reduce(old(form.formFields), UpdateField(e)))
    {
      var _, _ := form.Input(e);
    }

    /** The form's submit button: the editor's request settles, its list
        update is applied, and `onClose` runs only on success. */
    method SubmitForm(response: Response<Invoice>) returns (request: Request)
      requires Valid() && form != null
      modifies this, form
      ensures Valid()
      ensures request == if old(selectedInvoice).Some?
                         then Put(old(selectedInvoice).value.documentId, old(form.formFields))
                         else Post(old(form.formFields))
      ensures request.body.total == request.body.qty * request.body.rate
      ensures response.Failed? ==>
        invoices == old(invoices) && isInvoiceFormOpen && form == old(form) &&
        selectedInvoice == old(selectedInvoice) && form.formFields == old(form.formFields)
      ensures response.Succeeded? ==> !isInvoiceFormOpen && form == null && selectedInvoice == None
      ensures response.Succeeded? && old(selectedInvoice).Some? ==>
        invoices == MergeEdited(old(invoices), old(selectedInvoice).value.documentId, old(form.formFields))
      ensures response.Succeeded? && old(selectedInvoice).None? ==>
        invoices == old(invoices) + [response.data]
    {
      var update, closes;
      request, update, closes := form.HandleSendInvoice(response);
      if update.Some? {
        invoices := ApplyUpdate(update.value, invoices);
      }
      if closes {
        HandleCloseInvoiceForm();
      }
    }
  }

  /** Editing an invoice, closing the form and opening the create form shows
      the blank template, independent of the edited invoice's values. */
  method EditCloseCreate(inv: Invoice) returns (v: InvoicesView)
    ensures fresh(v) && v.Valid() && v.form != null
    ensures v.invoices == [] && v.form.formFields == InitialState()
  {
    v := new InvoicesView();
    v.HandleEditInvoice(inv);
    v.HandleCloseInvoiceForm();
    v.HandleOpenInvoiceForm();
  }

  /** A failed submit after an edit and an input keeps the form open with
      the typed fields. */
  method EditInputFailedSubmit(inv: Invoice, e: Assignment) returns (v: InvoicesView)
    ensures fresh(v) && v.Valid() && v.isInvoiceFormOpen && v.form != null
    ensures v.invoices == [] && v.selectedInvoice == Some(inv)
    ensures v.form.formFields == RecomputeTotal(Reduce(RecomputeTotal(Seed(InitialState(), Some(inv))), UpdateField(e)))
  {
    v := new InvoicesView();
    v.HandleEditInvoice(inv);
    v.FormInput(e);
    var _ := v.SubmitForm(Failed);
  }
}
