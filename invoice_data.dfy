/** The invoice entity and the eleven-field record the editor works on. */
module InvoiceData {

  /** The eleven editable field names of an invoice, in declaration order. */
  datatype FieldName =
    | Name | SenderEmail | RecipientEmail | ShippingAddress | Date | DueDate
    | InvoiceNote | Description | Qty | Rate | Total

  /** Every editable field name. */
  const AllFields: set<FieldName> :=
    {Name, SenderEmail, RecipientEmail, ShippingAddress, Date, DueDate,
     InvoiceNote, Description, Qty, Rate, Total}

  /** AllFields does list every field name. */
  lemma InAllFields(f: FieldName)
    ensures f in AllFields
  {
    match f
    case Name => case SenderEmail => case RecipientEmail => case ShippingAddress =>
    case Date => case DueDate => case InvoiceNote => case Description =>
    case Qty => case Rate => case Total =>
  }

  /** qty, rate and total are numbers; the other eight are strings. */
  predicate IsNumeric(f: FieldName) {
    f == Qty || f == Rate || f == Total
  }

  /** A field value: a string, or a number (modelled as an integer). */
  datatype Value = Text(s: string) | Number(n: int)

  /** A value is of the kind its field holds. */
  predicate Fits(f: FieldName, v: Value) {
    v.Number? <==> IsNumeric(f)
  }

  /** One `[field]: value` pair whose value has the field's kind. */
  datatype Entry = Entry(field: FieldName, value: Value)
  type Assignment = e: Entry | Fits(e.field, e.value) witness Entry(Name, Text(""))

  /** A partial object over the editable fields (keys absent from the map are
      absent from the object), every value of its field's kind. */
  type Patch = p: map<FieldName, Value> | forall f :: f in p ==> Fits(f, p[f])
    witness map[]

  /** The editor's state: all eleven fields present. */
  datatype FormFields = FormFields(
    name: string,
    senderEmail: string,
    recipientEmail: string,
    shippingAddress: string,
    date: string,
    dueDate: string,
    invoiceNote: string,
    description: string,
    qty: int,
    rate: int,
    total: int)

  /** An invoice as the backend returns it: the two identifiers the backend
      assigns and the editable fields it carries (a missing or null field is
      absent from `fields`). */
  datatype Invoice = Invoice(documentId: string, id: int, fields: Patch)

  /** The value of field `f` of a form record. */
  function Get(s: FormFields, f: FieldName): (v: Value)
    ensures Fits(f, v)
  {
    match f
    case Name => Text(s.name)
    case SenderEmail => Text(s.senderEmail)
    case RecipientEmail => Text(s.recipientEmail)
    case ShippingAddress => Text(s.shippingAddress)
    case Date => Text(s.date)
    case DueDate => Text(s.dueDate)
    case InvoiceNote => Text(s.invoiceNote)
    case Description => Text(s.description)
    case Qty => Number(s.qty)
    case Rate => Number(s.rate)
    case Total => Number(s.total)
  }

  /** Two form records that agree on every field are the same record. */
  lemma FieldsEqual(a: FormFields, b: FormFields)
    requires forall f :: Get(a, f) == Get(b, f)
    ensures a == b
  {
    assert Get(a, Name) == Get(b, Name) && Get(a, SenderEmail) == Get(b, SenderEmail);
    assert Get(a, RecipientEmail) == Get(b, RecipientEmail);
    assert Get(a, ShippingAddress) == Get(b, ShippingAddress);
    assert Get(a, Date) == Get(b, Date) && Get(a, DueDate) == Get(b, DueDate);
    assert Get(a, InvoiceNote) == Get(b, InvoiceNote);
    assert Get(a, Description) == Get(b, Description);
    assert Get(a, Qty) == Get(b, Qty) && Get(a, Rate) == Get(b, Rate);
    assert Get(a, Total) == Get(b, Total);
  }

  /** The zero value of a field: `0` for the numbers, `""` for the strings. */
  function Zero(f: FieldName): (v: Value)
    ensures Fits(f, v)
  {
    if IsNumeric(f) then Number(0) else Text("")
  }

  /** JavaScript truthiness of a field value. */
  predicate Truthy(v: Value) {
    match v
    case Text(s) => s != ""
    case Number(n) => n != 0
  }

  /** A form record seen as a JavaScript object: every field present. */
  function AsPatch(s: FormFields): (p: Patch)
    ensures p.Keys == AllFields
    ensures forall f :: f in p ==> p[f] == Get(s, f)
  {
    map f | f in AllFields :: Get(s, f)
  }

  /** A JavaScript value passed where an invoice identifier is expected. */
  datatype JsValue = JsString(str: string) | JsNumber(num: int)

  /** The requests the UI sends, with anything that addresses or fills them. */
  datatype Request =
    | GetAll
    | Put(documentId: string, body: FormFields)
    | Post(body: FormFields)
    | Delete(target: JsValue)
}
