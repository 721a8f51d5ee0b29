# Invoice editor and invoice list — a verified model

This project models the stateful logic under the two React components of a small
invoicing front end: the invoice list view (`Invoices.tsx`) and the modal editor
(`InvoiceForm.tsx`).

- **Data** (`invoice_data.dfy`). An invoice is its backend identifiers
  (`documentId`, `id`) plus eleven editable fields. Eight fields are strings and
  `qty`, `rate` and `total` are numbers. The editor's state is a record holding all
  eleven fields. A fetched invoice may lack fields, so its fields are a partial
  object: a map from field name to a value of that field's kind.
- **Editor** (`invoice_form.dfy`).
  - The reducer `Reduce` handles RESET, SET_FIELDS (a shallow spread), UPDATE_FIELD
    and the identity default.
  - `Seed` is the seeding effect. `RecomputeTotal` is the derived-total effect.
  - `MergeEdited`, `MergeForm` and `ApplyUpdate` are the list updates a submission
    passes to the parent's `setInvoices`.
  - Class `InvoiceEditor` holds the mounted editor's `selectedInvoice` prop and its
    `formFields` state. Its methods dispatch, run the two effects, take input events
    and perform `handleSendInvoice`. `handleSendInvoice` returns the request it sends,
    the list update it passes to `setInvoices`, and whether it calls `onClose`.
- **List view** (`invoices.dfy`).
  - Class `InvoicesView` holds the three state cells `invoices`, `isInvoiceFormOpen`
    and `selectedInvoice`, plus the editor it mounts while the form is open.
  - Its handlers cover open-create, open-edit, close, delete and submit, and the
    fetch at mount.
  - `Render` is the re-render after a handler. It mounts, unmounts or re-props the
    editor.
  - `FilterOut` is the delete filter and `Adopt` is the array check on the fetched
    body.

Network calls are parameters. Each request's outcome is a `Response` (`Failed`, or
`Succeeded` with the body's `data`). Handlers return the `Request` they send. The
alert before a delete blocks only until the user dismisses it, so the model always
sends the DELETE. A failed submit leaves the list as it was, keeps the form open
and does not call `onClose`.

## Model

| member | source | states |
|---|---|---|
| InvoiceForm.InitialState | frontend/src/components/InvoiceForm.tsx:32-44 | every field of the template is its zero value: `""` for the eight strings, `0` for qty/rate/total |
| InvoiceForm.Reduce | frontend/src/components/InvoiceForm.tsx:47-61 | RESET gives the zero template whatever the prior state. SET_FIELDS gives each field present in the payload the payload's value and leaves every other field unchanged. UPDATE_FIELD sets its one field and no other. Any other action is the identity |
| InvoiceForm.UpdateIsSingleSet | frontend/src/components/InvoiceForm.tsx:54-57 | UPDATE_FIELD(f, v) is the same transition as SET_FIELDS with the one-key payload `{f: v}` |
| InvoiceForm.ResetForgets | frontend/src/components/InvoiceForm.tsx:52-53 | RESET from any two states gives the same record, the template |
| InvoiceForm.SetAllFieldsReplaces | frontend/src/components/InvoiceForm.tsx:54-55 | SET_FIELDS with a payload holding all eleven fields of a record yields exactly that record |
| InvoiceForm.OrZero | frontend/src/components/InvoiceForm.tsx:70-80 | `value \|\| zero` gives the invoice's value whenever the field is present. A present value is falsy only when it already is the zero value, so the fallback applies only to absent fields |
| InvoiceForm.SeedPayload | frontend/src/components/InvoiceForm.tsx:69-81 | the seeding payload has all eleven keys, each the invoice's value or its fallback |
| InvoiceForm.Seed | frontend/src/components/InvoiceForm.tsx:66-89 | with no selection the state becomes the template. With a selection, every field becomes the invoice's value when present and the zero value otherwise |
| InvoiceForm.SeedIsAtomic | frontend/src/components/InvoiceForm.tsx:83-84 | seeding gives the same record from any prior state, so no mix of old and new values can result |
| InvoiceForm.RecomputeTotal | frontend/src/components/InvoiceForm.tsx:99-104 | afterwards total == qty * rate and no other field has changed. When the total already equals qty * rate the record is returned untouched (no dispatch) |
| InvoiceForm.RecomputeTotalIdempotent | frontend/src/components/InvoiceForm.tsx:99-104 | running the recompute step twice equals running it once |
| InvoiceForm.CreateFormStartsBlank | frontend/src/components/InvoiceForm.tsx:85-88 | opening with no selection yields the zero template, whatever was edited before, even after the recompute step |
| InvoiceForm.TotalAfterInputs | frontend/src/components/InvoiceForm.tsx:91-104 | after any non-empty sequence of input events, each followed by the recompute effect, total == qty * rate |
| InvoiceForm.MergeForm | frontend/src/components/InvoiceForm.tsx:145 | `{...inv, ...formFields}` keeps the invoice's documentId and id and replaces all eleven editable fields by the form's |
| InvoiceForm.SeedAfterMerge | frontend/src/components/InvoiceForm.tsx:66-89 | re-opening an invoice that an edit merged form fields into seeds exactly those form fields |
| InvoiceForm.MergeEdited | frontend/src/components/InvoiceForm.tsx:143-147 | the edited list has the same length and order. Each entry whose documentId matches gets the form fields merged in, and every other entry is unchanged |
| InvoiceForm.MergeEditedIdempotent | frontend/src/components/InvoiceForm.tsx:143-147 | merging the same fields a second time changes nothing |
| InvoiceForm.ApplyUpdate | frontend/src/components/InvoiceForm.tsx:143-169 | an append gives length old + 1, the old list as an unchanged prefix and the returned record last. A merge gives the same length, the same identifiers at every position, and the form's fields exactly at the matching entries |
| InvoiceForm.InvoiceEditor.constructor | frontend/src/components/InvoiceForm.tsx:63-104 | mounting starts from the template, runs the seeding effect and then the recompute effect. The result is the seeded record with its total recomputed |
| InvoiceForm.InvoiceEditor.Dispatch | frontend/src/components/InvoiceForm.tsx:63 | the new state is the reducer applied to the old state and the action |
| InvoiceForm.InvoiceEditor.SeedEffect | frontend/src/components/InvoiceForm.tsx:66-89 | the state becomes `Seed` of the old state and the selected invoice |
| InvoiceForm.InvoiceEditor.RecomputeTotalEffect | frontend/src/components/InvoiceForm.tsx:99-104 | it dispatches exactly when the stored total differs from qty * rate. Afterwards the state is settled |
| InvoiceForm.InvoiceEditor.HandleInputChange | frontend/src/components/InvoiceForm.tsx:91-96 | an input event is one UPDATE_FIELD of the input's field and value |
| InvoiceForm.InvoiceEditor.Input | frontend/src/components/InvoiceForm.tsx:91-104 | after an input event and the renders it causes, the total is settled. The second recompute pass never dispatches, so the effect converges after one extra pass |
| InvoiceForm.InvoiceEditor.ReceiveSelectedInvoice | frontend/src/components/InvoiceForm.tsx:66-89 | a changed prop re-seeds the state and recomputes the total. An unchanged prop leaves the state as it was |
| InvoiceForm.InvoiceEditor.HandleSendInvoice | frontend/src/components/InvoiceForm.tsx:106-176 | when editing, it sends one PUT addressed by the selected documentId with all eleven fields. When creating, it sends one POST. The list update is produced and `onClose` is called only when the request succeeds: merge-by-documentId when editing, append of the returned record when creating |
| Invoices.FilterOut | frontend/src/components/Invoices.tsx:71 | the filtered list is never longer than the original |
| Invoices.FilterOutMembers | frontend/src/components/Invoices.tsx:71 | an entry is in the result exactly when it was in the list and its documentId is not strictly equal to the key |
| Invoices.FilterOutCounts | frontend/src/components/Invoices.tsx:71 | each kept entry occurs as often as before and each dropped entry not at all, so nothing is added or duplicated |
| Invoices.FilterOutAppend | frontend/src/components/Invoices.tsx:71 | filtering a concatenation is the concatenation of the filtered parts, so the original order is kept |
| Invoices.FilterOutNoMatch | frontend/src/components/Invoices.tsx:71 | when no entry matches the key, the list is returned unchanged |
| Invoices.FilterOutByNumber | frontend/src/components/Invoices.tsx:71 | a number key never strictly equals a string documentId, so filtering by a number keeps the whole list |
| Invoices.DeleteAsWrittenRemovesNothing | frontend/src/components/Invoices.tsx:261 | the card's Delete button, as written, passes `invoice.id`. A successful delete then leaves the local list unchanged |
| Invoices.DeleteRemovesCard | frontend/src/components/Invoices.tsx:67-75 | deleting by the card's documentId removes that card and keeps exactly the entries with another documentId |
| Invoices.Adopt | frontend/src/components/Invoices.tsx:35-42 | the fetched `data.data` replaces the list exactly when the fetch succeeded and it is an array. Otherwise the list stays as it was |
| Invoices.InvoicesView.constructor | frontend/src/components/Invoices.tsx:22-24 | initially the list is empty, the form is closed and nothing is selected |
| Invoices.InvoicesView.FetchInvoices | frontend/src/components/Invoices.tsx:26-49 | the mount effect sends one GET and the list becomes `Adopt` of the old list and the outcome, so a failed or non-array fetch at mount leaves it empty |
| Invoices.InvoicesView.Render | frontend/src/components/Invoices.tsx:89-95 | the editor is mounted exactly while the form is open. A fresh editor is seeded from the current selection. A kept editor is re-seeded only when the selection changed |
| Invoices.InvoicesView.HandleOpenInvoiceForm | frontend/src/components/Invoices.tsx:51-54 | the selection becomes null and the form opens with the list untouched. A newly mounted editor is fresh; an open one is kept. Unless a create form was already open, the fields are the zero template; an open create form keeps its fields |
| Invoices.InvoicesView.HandleCloseInvoiceForm | frontend/src/components/Invoices.tsx:56-59 | the selection becomes null, the form closes and the editor unmounts, with the list untouched |
| Invoices.InvoicesView.HandleEditInvoice | frontend/src/components/Invoices.tsx:61-65 | the selection becomes the invoice and the form opens, with the list untouched. A newly mounted editor is fresh and holds the invoice's fields with the total recomputed. An open editor is kept and is re-seeded only when the selection changed |
| Invoices.InvoicesView.HandleDeleteInvoice | frontend/src/components/Invoices.tsx:67-75 | the DELETE is always sent (the alert does not gate it). On success the list becomes the filtered list. On failure it is unchanged |
| Invoices.InvoicesView.HandleDeleteClick | frontend/src/components/Invoices.tsx:261 | with the documentId passed, a successful delete removes the clicked card |
| Invoices.InvoicesView.FormInput | frontend/src/components/InvoiceForm.tsx:91-104 | an input event in the open form keeps the view's invariant, including the settled total |
| Invoices.InvoicesView.SubmitForm | frontend/src/components/InvoiceForm.tsx:106-176 | the request carries total == qty * rate. On failure the list, the selection and the form are all unchanged and the form stays open. On success the PUT merges into the entries with the selected documentId, or the POST appends the returned record, and then the form closes with the selection cleared |
| Invoices.EditCloseCreate | frontend/src/components/Invoices.tsx:51-65 | editing an invoice, closing the form and opening the create form shows the blank template, whatever the edited invoice held |
| Invoices.EditInputFailedSubmit | frontend/src/components/InvoiceForm.tsx:106-176 | after editing, typing and a failed submit, the form is still open with the typed fields, the selection is kept and the list is unchanged |

## Left out

- HTTP (axios and fetch). URLs, request bodies on the wire and status codes are not modelled. Each request's outcome is a parameter (failed, or succeeded with the response's `data`). The `Request` value records what addresses the request and what fills its body.
- JavaScript numbers. qty, rate and total are integers. The raw input strings that `handleInputChange` stores, and the coercion in `(qty || 0) * (rate || 0)`, are not modelled: input events arrive already parsed, so `|| 0` on a number is the identity.
- InvoiceForm.Reduce: not modelled are an UPDATE_FIELD whose value has the wrong kind for its field, and a field name outside the eleven. JavaScript would store either; the typed record cannot hold them.
- Invoice records: keys other than the identifiers and the eleven editable fields (the `[x: string]: unknown` index) are not modelled. A field that is null is treated as absent.
- Fetched lists: the elements of `data.data` are taken to be invoices, because `Array.isArray` checks only the array.
- React scheduling. Each effect is an explicit step run after the change that triggers it. Dependency changes are compared by value, where React compares them by reference.
- Concurrency between overlapping requests is not modelled. Nor is the delete handler filtering the `invoices` value captured at render rather than the latest state.
- Logging (`console.log`, `console.error`) is not modelled. The alert appears only as "does not block the delete".
- The editor's close button (`×`) is modelled as `onClose`. The native submission of the surrounding `<form>` is not modelled.

## Findings

| source | as written | input that shows it | evidently intended | confidence | as-written member | corrected member |
|---|---|---|---|---|---|---|
| frontend/src/components/Invoices.tsx:261 | the Delete button calls `handleDeleteInvoice(invoice.id)`, a number. The filter at line 71 compares `documentId !== key` strictly | a list holding an invoice with documentId `"abc"` and id `1`: deleting it succeeds and the card stays in the list (the DELETE is also addressed by `1`) | pass `invoice.documentId`, as the handler's parameter name and the update path do | not executed | Invoices.DeleteAsWrittenRemovesNothing | Invoices.InvoicesView.HandleDeleteClick |

The code itself shows that `documentId` is intended. The handler's parameter is named `documentId` (frontend/src/components/Invoices.tsx:67) and the DELETE URL is built from it (line 70). The PUT path addresses invoices by `documentId` too (frontend/src/components/InvoiceForm.tsx:125). The model keeps the handler as written and uses the corrected button wiring.
