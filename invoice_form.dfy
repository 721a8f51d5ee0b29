/** The invoice editor: its field reducer, the seeding and total-recompute
    effects, and how a submission patches the parent's list. */
module InvoiceForm {
  import opened Wrappers
  import opened InvoiceData

  /** The all-empty/zero template the editor starts from and resets to. */
  function InitialState(): (r: FormFields)
    ensures forall f :: Get(r, f) == Zero(f)
  {
    FormFields("", "", "", "", "", "", "", "", 0, 0, 0)
  }

  /** The string a patch holds for `f`, or `d` when `f` is absent. */
  function TextOr(p: Patch, f: FieldName, d: string): string {
    if f in p && p[f].Text? then p[f].s else d
  }

  /** The number a patch holds for `f`, or `d` when `f` is absent. */
  function NumberOr(p: Patch, f: FieldName, d: int): int {
    if f in p && p[f].Number? then p[f].n else d
  }

  /** `{ ...s, ...p }`: the fields present in `p` win, the rest keep their value. */
  function Spread(s: FormFields, p: Patch): FormFields {
    FormFields(
      TextOr(p, Name, s.name),
      TextOr(p, SenderEmail, s.senderEmail),
      TextOr(p, RecipientEmail, s.recipientEmail),
      TextOr(p, ShippingAddress, s.shippingAddress),
      TextOr(p, Date, s.date),
      TextOr(p, DueDate, s.dueDate),
      TextOr(p, InvoiceNote, s.invoiceNote),
      TextOr(p, Description, s.description),
      NumberOr(p, Qty, s.qty),
      NumberOr(p, Rate, s.rate),
      NumberOr(p, Total, s.total))
  }

  /** Field by field, `Spread` takes the patch's value where there is one. */
  lemma SpreadAt(s: FormFields, p: Patch, f: FieldName)
    ensures Get(Spread(s, p), f) == if f in p then p[f] else Get(s, f)
  {
    match f
    case Name => case SenderEmail => case RecipientEmail => case ShippingAddress =>
    case Date => case DueDate => case InvoiceNote => case Description =>
    case Qty => case Rate => case Total =>
  }

  lemma SpreadAll(s: FormFields, p: Patch)
    ensures forall f :: Get(Spread(s, p), f) == if f in p then p[f] else Get(s, f)
  {
    forall f ensures Get(Spread(s, p), f) == if f in p then p[f] else Get(s, f) {
      SpreadAt(s, p, f);
    }
  }

  /** The reducer's actions; `Unknown` is an action of any other type. */
  datatype Action =
    | Reset
    | SetFields(value: Patch)
    | UpdateField(assignment: Assignment)
    | Unknown

  /** The reducer: a pure record-in, record-out transition. */
  function Reduce(s: FormFields, a: Action): (r: FormFields)
    ensures a.Reset? ==> forall f :: Get(r, f) == Zero(f)
    ensures a.SetFields? ==>
      forall f :: Get(r, f) == if f in a.value then a.value[f] else Get(s, f)
    ensures a.UpdateField? ==>
      Get(r, a.assignment.field) == a.assignment.value &&
      forall f :: f != a.assignment.field ==> Get(r, f) == Get(s, f)
    ensures a.Unknown? ==> r == s
  {
    match a
    case Reset => InitialState()
    case SetFields(p) => SpreadAll(s, p); Spread(s, p)
    case UpdateField(e) => SpreadAll(s, map[e.field := e.value]); Spread(s, map[e.field := e.value])
    case Unknown => s
  }

  /** UPDATE_FIELD is SET_FIELDS with a one-field payload. */
  lemma UpdateIsSingleSet(s: FormFields, e: Assignment)
    ensures Reduce(s, UpdateField(e)) == Reduce(s, SetFields(map[e.field := e.value]))
  {
  }

  /** RESET forgets the prior state entirely. */
  lemma ResetForgets(s1: FormFields, s2: FormFields)
    ensures Reduce(s1, Reset) == Reduce(s2, Reset) == InitialState()
  {
  }

  /** SET_FIELDS with a payload holding every field replaces the whole record. */
  lemma SetAllFieldsReplaces(s: FormFields, t: FormFields)
    ensures Reduce(s, SetFields(AsPatch(t))) == t
  {
    var r := Reduce(s, SetFields(AsPatch(t)));
    forall f ensures Get(r, f) == Get(t, f) {
      InAllFields(f);
    }
    FieldsEqual(r, t);
  }

  // ---------------------------------------------------------------------
  // Seeding from the selected invoice

  /** `selectedInvoice.f || zero`: the invoice's value when present and truthy. */
  function OrZero(fields: Patch, f: FieldName): (v: Value)
    ensures Fits(f, v)
    ensures v == if f in fields then fields[f] else Zero(f)
  {
    if f in fields && Truthy(fields[f]) then fields[f] else Zero(f)
  }

  /** The SET_FIELDS payload built from a selected invoice: all eleven keys. */
  function SeedPayload(inv: Invoice): (p: Patch)
    ensures p.Keys == AllFields
    ensures forall f :: f in p ==> p[f] == OrZero(inv.fields, f)
  {
    map f | f in AllFields :: OrZero(inv.fields, f)
  }

  /** The seeding effect: one SET_FIELDS from the selection, or RESET. */
  function Seed(s: FormFields, selected: Option<Invoice>): (r: FormFields)
    ensures selected.None? ==> r == InitialState()
    ensures selected.Some? ==> forall f ::
      Get(r, f) == if f in selected.value.fields then selected.value.fields[f] else Zero(f)
  {
    match selected
    case Some(inv) =>
      assert forall f :: f in SeedPayload(inv) by { forall f ensures f in AllFields { InAllFields(f); } }
      Reduce(s, SetFields(SeedPayload(inv)))
    case None => Reduce(s, Reset)
  }

  /** Seeding is atomic: its result does not depend on the prior state at all,
      so no mix of old and new values is ever observable. */
  lemma SeedIsAtomic(s1: FormFields, s2: FormFields, selected: Option<Invoice>)
    ensures Seed(s1, selected) == Seed(s2, selected)
  {
    var r1, r2 := Seed(s1, selected), Seed(s2, selected);
    forall f ensures Get(r1, f) == Get(r2, f) { }
    FieldsEqual(r1, r2);
  }

  // ---------------------------------------------------------------------
  // The derived total

  /** The total-recompute effect: dispatch UPDATE_FIELD(total) only when stale. */
  function RecomputeTotal(s: FormFields): (r: FormFields)
    ensures r.total == r.qty * r.rate
    ensures forall f :: f != Total ==> Get(r, f) == Get(s, f)
    ensures s.total == s.qty * s.rate ==> r == s
  {
    var total := s.qty * s.rate;
    if total != s.total then Reduce(s, UpdateField(Entry(Total, Number(total)))) else s
  }

  /** The recompute step is a fixed point: running it again changes nothing. */
  lemma RecomputeTotalIdempotent(s: FormFields)
    ensures RecomputeTotal(RecomputeTotal(s)) == RecomputeTotal(s)
  {
  }

  /** Opening the create form gives the template whatever was edited before. */
  lemma CreateFormStartsBlank(s: FormFields)
    ensures RecomputeTotal(Seed(s, None)) == InitialState()
  {
  }

  /** Each input event followed by the recompute effect. */
  function ApplyInputs(s: FormFields, inputs: seq<Assignment>): FormFields
    decreases |inputs|
  {
    if inputs == [] then s
    else ApplyInputs(RecomputeTotal(Reduce(s, UpdateField(inputs[0]))), inputs[1..])
  }

  /** After any non-empty sequence of input events (or none, from a settled
      record), the total equals qty * rate. */
  lemma {:induction false} TotalAfterInputs(s: FormFields, inputs: seq<Assignment>)
    requires inputs != [] || s.total == s.qty * s.rate
    ensures ApplyInputs(s, inputs).total == ApplyInputs(s, inputs).qty * ApplyInputs(s, inputs).rate
    decreases |inputs|
  {
    if inputs != [] {
      TotalAfterInputs(RecomputeTotal(Reduce(s, UpdateField(inputs[0]))), inputs[1..]);
    }
  }

  // ---------------------------------------------------------------------
  // Patching the parent's list after a successful submission

  /** `{ ...inv, ...formFields }`: the form's fields over the invoice's, the
      identifiers kept. */
  function MergeForm(inv: Invoice, f: FormFields): (r: Invoice)
    ensures r.documentId == inv.documentId && r.id == inv.id
    ensures r.fields == AsPatch(f)
  {
    CoveredBy(inv.fields, f);
    Invoice(inv.documentId, inv.id, inv.fields + AsPatch(f))
  }

  /** Spreading a full record over any patch leaves just the full record. */
  lemma CoveredBy(p: Patch, f: FormFields)
    ensures p + AsPatch(f) == AsPatch(f)
  {
    forall k | k in p ensures k in AsPatch(f) { InAllFields(k); }
  }

  /** Re-opening an edited invoice shows exactly the fields that were merged in. */
  lemma SeedAfterMerge(s: FormFields, inv: Invoice, f: FormFields)
    ensures Seed(s, Some(MergeForm(inv, f))) == f
  {
    var r := Seed(s, Some(MergeForm(inv, f)));
    forall g ensures Get(r, g) == Get(f, g) {
      InAllFields(g);
    }
    FieldsEqual(r, f);
  }

  /** `prev.map(inv => inv.documentId === documentId ? { ...inv, ...f } : inv)` */
  function MergeEdited(prev: seq<Invoice>, documentId: string, f: FormFields): (r: seq<Invoice>)
    ensures |r| == |prev|
    ensures forall i :: 0 <= i < |prev| ==>
      r[i] == if prev[i].documentId == documentId then MergeForm(prev[i], f) else prev[i]
  {
    if prev == [] then []
    else
      [if prev[0].documentId == documentId then MergeForm(prev[0], f) else prev[0]]
      + MergeEdited(prev[1..], documentId, f)
  }

  /** The edit merge keeps every entry's identifiers, so a second merge with
      the same fields changes nothing. */
  lemma MergeEditedIdempotent(prev: seq<Invoice>, documentId: string, f: FormFields)
    ensures MergeEdited(MergeEdited(prev, documentId, f), documentId, f) == MergeEdited(prev, documentId, f)
  {
    var once := MergeEdited(prev, documentId, f);
    var twice := MergeEdited(once, documentId, f);
    forall i | 0 <= i < |prev| ensures twice[i] == once[i] { }
  }

  /** The state update handed to `setInvoices`. */
  datatype ListUpdate =
    | MergeInto(documentId: string, fields: FormFields)
    | AppendRecord(record: Invoice)

  /** The list after `setInvoices(update)`. */
  function ApplyUpdate(u: ListUpdate, prev: seq<Invoice>): (r: seq<Invoice>)
    ensures u.AppendRecord? ==>
      |r| == |prev| + 1 && r[..|prev|] == prev && r[|prev|] == u.record
    ensures u.MergeInto? ==> |r| == |prev|
    ensures u.MergeInto? ==> forall i :: 0 <= i < |prev| ==>
      r[i].documentId == prev[i].documentId && r[i].id == prev[i].id &&
      r[i].fields == (if prev[i].documentId == u.documentId then AsPatch(u.fields) else prev[i].fields)
  {
    match u
    case MergeInto(documentId, fields) => MergeEdited(prev, documentId, fields)
    case AppendRecord(record) => prev + [record]
  }

  // ---------------------------------------------------------------------
  // The mounted editor

  /** One mounted editor: its `selectedInvoice` prop and its `formFields` state. */
  class InvoiceEditor {
    var selectedInvoice: Option<Invoice>
    var formFields: FormFields

    /** The derived field agrees with its inputs. */
    predicate Settled()
      reads this
    {
      formFields.total == formFields.qty * formFields.rate
    }

    /** Mounting: initial state, then the seeding and recompute effects. */
    constructor (selected: Option<Invoice>)
      ensures selectedInvoice == selected
      ensures formFields == RecomputeTotal(Seed(InitialState(), selected))
      ensures Settled()
    {
      selectedInvoice := selected;
      formFields := InitialState();
      new;
      SeedEffect();
      var _ := RecomputeTotalEffect();
    }

    /** `dispatch(action)` */
    method Dispatch(a: Action)
      modifies this`formFields
      ensures formFields == Reduce(old(formFields), a)
    {
      formFields := Reduce(formFields, a);
    }

    /** The effect that runs when `selectedInvoice` changes. */
    method SeedEffect()
      modifies this`formFields
      ensures formFields == Seed(old(formFields), selectedInvoice)
    {
      if selectedInvoice.Some? {
        Dispatch(SetFields(SeedPayload(selectedInvoice.value)));
      } else {
        Dispatch(Reset);
      }
    }

    /** The effect that runs when qty, rate or total change; reports whether
        it dispatched. */
    method RecomputeTotalEffect() returns (dispatched: bool)
      modifies this`formFields
      ensures dispatched <==> old(formFields).total != old(formFields).qty * old(formFields).rate
      ensures formFields == RecomputeTotal(old(formFields))
      ensures Settled()
    {
      var total := formFields.qty * formFields.rate;
      dispatched := total != formFields.total;
      if dispatched {
        Dispatch(UpdateField(Entry(Total, Number(total))));
      }
    }

    /** `handleInputChange`: the input's name and (already parsed) value. */
    method HandleInputChange(e: Assignment)
      modifies this`formFields
      ensures formFields == Reduce(old(formFields), UpdateField(e))
    {
      Dispatch(UpdateField(e));
    }

    /** An input event and the renders it causes: the recompute effect runs,
        and once more after its own dispatch, which then finds nothing to do. */
    method Input(e: Assignment) returns (first: bool, second: bool)
      modifies this`formFields
      ensures formFields == RecomputeTotal(Reduce(old(formFields), UpdateField(e)))
      ensures Settled() && !second
    {
      HandleInputChange(e);
      first := RecomputeTotalEffect();
      second := RecomputeTotalEffect();
    }

    /** A new `selectedInvoice` prop while mounted: the seeding effect runs
        when the prop changed, and the recompute effect after it. */
    method ReceiveSelectedInvoice(selected: Option<Invoice>)
      modifies this
      ensures selectedInvoice == selected
      ensures formFields == if selected == old(selectedInvoice) then old(formFields)
                            else RecomputeTotal(Seed(old(formFields), selected))
    {
      if selected != selectedInvoice {
        selectedInvoice := selected;
        SeedEffect();
        var _ := RecomputeTotalEffect();
      }
    }

    /** `handleSendInvoice`, given how its one request settles: what it sends,
        what it hands to `setInvoices`, and whether it calls `onClose`. */
    method HandleSendInvoice(response: Response<Invoice>)
      returns (request: Request, update: Option<ListUpdate>, closes: bool)
      ensures request == if selectedInvoice.Some?
                         then Put(selectedInvoice.value.documentId, formFields)
                         else Post(formFields)
      ensures closes <==> response.Succeeded?
      ensures response.Failed? ==> update == None
      ensures response.Succeeded? ==> update == Some(
        if selectedInvoice.Some? then MergeInto(selectedInvoice.value.documentId, formFields)
        else AppendRecord(response.data))
    {
      update := None;
      closes := false;
      if selectedInvoice.Some? {
        request := Put(selectedInvoice.value.documentId, formFields);
        if response.Succeeded? {
          update := Some(MergeInto(selectedInvoice.value.documentId, formFields));
        }
      } else {
        request := Post(formFields);
        if response.Succeeded? {
          update := Some(AppendRecord(response.data));
        }
      }
      if response.Succeeded? {
        closes := true;
      }
    }
  }
}
