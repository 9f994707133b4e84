/** The shapes the document editor works on: documents, line items, custom
    fields, parties and settings. Optional fields of the original records
    are `Option` values; `None` stands for an absent (undefined) field. */
module InvoiceTypes {

  datatype Option<+T> = None | Some(value: T)

  /** A patch key: the patch's value when it sets the key, else `d`. */
  function Pick<T>(o: Option<T>, d: T): T
  {
    if o.Some? then o.value else d
  }

  /** The same for a key whose own value is optional. */
  function PickOptional<T>(o: Option<T>, d: Option<T>): Option<T>
  {
    if o.Some? then o else d
  }

  /** The eight kinds of business document. */
  datatype DocumentType =
    | Invoice | Quote | Receipt | Estimate | Proforma
    | PurchaseOrder | CreditNote | Timesheet

  /** Every document type, in declaration order. */
  const AllDocumentTypes: seq<DocumentType> :=
    [Invoice, Quote, Receipt, Estimate, Proforma, PurchaseOrder, CreditNote, Timesheet]

  /** The string code under which a document type is stored and shown. */
  function TypeCode(t: DocumentType): (r: string)
    ensures |r| >= 5
    ensures forall k :: 0 <= k < |r| ==> 'a' <= r[k] <= 'z' || r[k] == '-'
  {
    match t
    case Invoice => "invoice"
    case Quote => "quote"
    case Receipt => "receipt"
    case Estimate => "estimate"
    case Proforma => "proforma"
    case PurchaseOrder => "purchase-order"
    case CreditNote => "credit-note"
    case Timesheet => "timesheet"
  }

  /** There are exactly eight document types, and their codes tell them apart. */
  lemma DocumentTypesAreEight()
    ensures |AllDocumentTypes| == 8
    ensures forall t: DocumentType :: t in AllDocumentTypes
    ensures forall i, j :: 0 <= i < j < |AllDocumentTypes| ==> AllDocumentTypes[i] != AllDocumentTypes[j]
    ensures forall s, t: DocumentType :: TypeCode(s) == TypeCode(t) ==> s == t
  {
    forall t: DocumentType ensures t in AllDocumentTypes {
      var i := match t
        case Invoice => 0 case Quote => 1 case Receipt => 2 case Estimate => 3
        case Proforma => 4 case PurchaseOrder => 5 case CreditNote => 6 case Timesheet => 7;
      assert AllDocumentTypes[i] == t;
    }
  }

  /** How the `discount` of a line item is read. */
  datatype DiscountType = Percentage | Flat

  /** One billable row. `amount` is derived (see `InvoiceMath.LineItemAmount`);
      `taxRate` is a percentage, `discount` a percentage or a flat sum. */
  datatype LineItem = LineItem(
    id: string,
    description: string,
    quantity: real,
    rate: real,
    amount: real,
    taxRate: Option<real>,
    discount: Option<real>,
    discountType: Option<DiscountType>)

  /** A user-defined label/value pair; `labelText` is the record's `label`. */
  datatype CustomField = CustomField(id: string, labelText: string, value: string)

  datatype BusinessInfo = BusinessInfo(
    name: string,
    address: string,
    city: string,
    state: string,
    zip: string,
    country: string,
    email: string,
    phone: Option<string>,
    website: Option<string>,
    taxId: Option<string>,
    logo: Option<string>)

  datatype Client = Client(
    id: string,
    name: string,
    email: string,
    address: Option<string>,
    city: Option<string>,
    state: Option<string>,
    zip: Option<string>,
    country: Option<string>,
    phone: Option<string>)

  datatype InvoiceSettings = InvoiceSettings(
    currency: string,
    template: string,
    primaryColor: string,
    accentColor: string,
    font: string)

  /** Status of a saved document. */
  datatype InvoiceStatus = Draft | Sent | Paid | Overdue | Partial

  /** The four document-level aggregates. */
  datatype Totals = Totals(subtotal: real, taxTotal: real, discountTotal: real, total: real)
}
