/** The document editor's state and its updaters. The editor keeps one
    document; every handler replaces part of it. Line-item lists are rebuilt
    by pure functions (`map`, `filter`, append); the handlers store the new
    list and, where the editor does so, the totals recomputed from it. */
module InvoiceEditor {
  import opened InvoiceTypes
  import opened Constants
  import opened InvoiceMath

  /** `Partial<LineItem>`: `Some` marks a key the patch sets. */
  datatype LineItemPatch = LineItemPatch(
    id: Option<string>,
    description: Option<string>,
    quantity: Option<real>,
    rate: Option<real>,
    amount: Option<real>,
    taxRate: Option<real>,
    discount: Option<real>,
    discountType: Option<DiscountType>)

  /** `{ ...item, ...patch }`: a key the patch sets takes the patch's value,
      every other key keeps the row's. */
  function Merge(item: LineItem, p: LineItemPatch): (r: LineItem)
    ensures p.id.Some? ==> r.id == p.id.value
    ensures p.id.None? ==> r.id == item.id
    ensures p.description.Some? ==> r.description == p.description.value
    ensures p.description.None? ==> r.description == item.description
    ensures p.quantity.Some? ==> r.quantity == p.quantity.value
    ensures p.quantity.None? ==> r.quantity == item.quantity
    ensures p.rate.Some? ==> r.rate == p.rate.value
    ensures p.rate.None? ==> r.rate == item.rate
    ensures p.amount.Some? ==> r.amount == p.amount.value
    ensures p.amount.None? ==> r.amount == item.amount
    ensures p.taxRate.Some? ==> r.taxRate == p.taxRate
    ensures p.taxRate.None? ==> r.taxRate == item.taxRate
    ensures p.discount.Some? ==> r.discount == p.discount
    ensures p.discount.None? ==> r.discount == item.discount
    ensures p.discountType.Some? ==> r.discountType == p.discountType
    ensures p.discountType.None? ==> r.discountType == item.discountType
  {
    LineItem(
      Pick(p.id, item.id),
      Pick(p.description, item.description),
      Pick(p.quantity, item.quantity),
      Pick(p.rate, item.rate),
      Pick(p.amount, item.amount),
      PickOptional(p.taxRate, item.taxRate),
      PickOptional(p.discount, item.discount),
      PickOptional(p.discountType, item.discountType))
  }

  /** The patched row with its amount recomputed (lines 44-45). */
  function Recomputed(item: LineItem, p: LineItemPatch): (r: LineItem)
    ensures SameButAmount(r, Merge(item, p))
    ensures r.amount == LineItemAmount(r)
  {
    var updated := Merge(item, p);
    var r := updated.(amount := LineItemAmount(updated));
    ContributionIgnoresAmount(Amount, r, updated);
    r
  }

  /** The list `updateLineItem` builds with `map`. */
  function UpdatedItems(items: seq<LineItem>, id: string, p: LineItemPatch): (r: seq<LineItem>)
    ensures |r| == |items|
  {
    seq(|items|, k requires 0 <= k < |items| =>
      if items[k].id == id then Recomputed(items[k], p) else items[k])
  }

  /** Only rows with the id change; each of them gets the patch and an
      amount that matches its new fields; all others stay in place. */
  lemma UpdatedItemsShape(items: seq<LineItem>, id: string, p: LineItemPatch)
    ensures forall k :: 0 <= k < |items| && items[k].id != id ==> UpdatedItems(items, id, p)[k] == items[k]
    ensures forall k :: 0 <= k < |items| && items[k].id == id ==>
      && SameButAmount(UpdatedItems(items, id, p)[k], Merge(items[k], p))
      && UpdatedItems(items, id, p)[k].amount == LineItemAmount(UpdatedItems(items, id, p)[k])
    ensures (forall k :: 0 <= k < |items| ==> items[k].id != id) ==> UpdatedItems(items, id, p) == items
  {
  }

  /** Every row's stored amount matches its fields. */
  predicate AmountsConsistent(items: seq<LineItem>)
  {
    forall k :: 0 <= k < |items| ==> items[k].amount == LineItemAmount(items[k])
  }

  /** The list `removeLineItem` builds with `filter`. */
  function RemovedItems(items: seq<LineItem>, id: string): (r: seq<LineItem>)
    ensures |r| <= |items|
    ensures forall x :: x in r <==> x in items && x.id != id
  {
    if items == [] then []
    else (if items[0].id == id then [] else [items[0]]) + RemovedItems(items[1..], id)
  }

  /** Removal works row by row: on a concatenation it removes from both
      parts and keeps their order. */
  lemma {:induction false} RemovedItemsConcat(a: seq<LineItem>, b: seq<LineItem>, id: string)
    ensures RemovedItems(a + b, id) == RemovedItems(a, id) + RemovedItems(b, id)
  {
    if a == [] {
      assert a + b == b;
    } else {
      assert (a + b)[1..] == a[1..] + b;
      RemovedItemsConcat(a[1..], b, id);
    }
  }

  /** Removing an id no row carries changes nothing; removing twice is
      removing once. */
  lemma {:induction false} RemovedItemsAbsent(items: seq<LineItem>, id: string)
    ensures (forall k :: 0 <= k < |items| ==> items[k].id != id) ==> RemovedItems(items, id) == items
    ensures RemovedItems(RemovedItems(items, id), id) == RemovedItems(items, id)
  {
    if items != [] {
      RemovedItemsAbsent(items[1..], id);
      var r := RemovedItems(items[1..], id);
      var head := if items[0].id == id then [] else [items[0]];
      RemovedItemsConcat(head, r, id);
    }
  }

  /** Removal keeps consistent amounts consistent. */
  lemma RemovedItemsKeepAmounts(items: seq<LineItem>, id: string)
    requires AmountsConsistent(items)
    ensures AmountsConsistent(RemovedItems(items, id))
  {
    var r := RemovedItems(items, id);
    forall k | 0 <= k < |r| ensures r[k].amount == LineItemAmount(r[k]) {
      assert r[k] in items;
    }
  }

  /** `Partial<Invoice>` as `updateInvoice` receives it. */
  datatype InvoicePatch = InvoicePatch(
    docType: Option<DocumentType>,
    number: Option<string>,
    from: Option<BusinessInfo>,
    to: Option<Client>,
    issueDate: Option<string>,
    dueDate: Option<string>,
    lineItems: Option<seq<LineItem>>,
    subtotal: Option<real>,
    taxTotal: Option<real>,
    discountTotal: Option<real>,
    total: Option<real>,
    notes: Option<string>,
    terms: Option<string>,
    customFields: Option<seq<CustomField>>,
    settings: Option<InvoiceSettings>,
    status: Option<InvoiceStatus>)

  /** `{ ...prev, ...updates }` on the fields besides rows and totals. */
  function PatchDetails(d: Details, p: InvoicePatch): (r: Details)
    ensures p.docType.Some? ==> r.docType == p.docType.value
    ensures p.docType.None? ==> r.docType == d.docType
    ensures p.number.Some? ==> r.number == p.number.value
    ensures p.number.None? ==> r.number == d.number
    ensures p.from.Some? ==> r.from == p.from.value
    ensures p.from.None? ==> r.from == d.from
    ensures p.to.Some? ==> r.to == p.to.value
    ensures p.to.None? ==> r.to == d.to
    ensures p.issueDate.Some? ==> r.issueDate == p.issueDate.value
    ensures p.issueDate.None? ==> r.issueDate == d.issueDate
    ensures p.dueDate.Some? ==> r.dueDate == p.dueDate
    ensures p.dueDate.None? ==> r.dueDate == d.dueDate
    ensures p.notes.Some? ==> r.notes == p.notes
    ensures p.notes.None? ==> r.notes == d.notes
    ensures p.terms.Some? ==> r.terms == p.terms
    ensures p.terms.None? ==> r.terms == d.terms
    ensures p.customFields.Some? ==> r.customFields == p.customFields.value
    ensures p.customFields.None? ==> r.customFields == d.customFields
    ensures p.settings.Some? ==> r.settings == p.settings.value
    ensures p.settings.None? ==> r.settings == d.settings
    ensures p.status.Some? ==> r.status == p.status
    ensures p.status.None? ==> r.status == d.status
  {
    Details(
      Pick(p.docType, d.docType),
      Pick(p.number, d.number),
      Pick(p.from, d.from),
      Pick(p.to, d.to),
      Pick(p.issueDate, d.issueDate),
      PickOptional(p.dueDate, d.dueDate),
      PickOptional(p.notes, d.notes),
      PickOptional(p.terms, d.terms),
      Pick(p.customFields, d.customFields),
      Pick(p.settings, d.settings),
      PickOptional(p.status, d.status))
  }

  /** A patch that sets none of these fields leaves them all as they were. */
  lemma EmptyPatchKeepsDetails(d: Details, p: InvoicePatch)
    requires p.docType.None? && p.number.None? && p.from.None? && p.to.None?
    requires p.issueDate.None? && p.dueDate.None? && p.notes.None? && p.terms.None?
    requires p.customFields.None? && p.settings.None? && p.status.None?
    ensures PatchDetails(d, p) == d
  {
  }

  /** `{ ...prev, ...createEmptyInvoice(t), from, to, lineItems }` on the
      details: everything is reset but the parties, and the notes and terms,
      which a new document does not set. */
  function TypeChangedDetails(prev: Details, reset: Details): (r: Details)
    ensures r.from == prev.from && r.to == prev.to && r.notes == prev.notes && r.terms == prev.terms
    ensures r.docType == reset.docType && r.number == reset.number && r.issueDate == reset.issueDate
    ensures r.dueDate == reset.dueDate && r.customFields == reset.customFields
    ensures r.settings == reset.settings && r.status == reset.status
  {
    reset.(from := prev.from, to := prev.to, notes := prev.notes, terms := prev.terms)
  }

  /** The value `parseFloat(text) || 0` stores; `None` is a text that does
      not parse (NaN). */
  function ParsedOrZero(parsed: Option<real>): (v: real)
    ensures parsed.None? ==> v == 0.0
    ensures parsed.Some? ==> v == parsed.value
  {
    match parsed
    case None => 0.0
    case Some(x) => x
  }

  /** One edit in a line-item row of the form. */
  datatype ItemEdit =
    | DescriptionEdit(text: string)
    | QuantityEdit(quantity: Option<real>)
    | RateEdit(rate: Option<real>)
    | TaxRateEdit(taxRate: Option<real>)
    | DiscountEdit(discount: Option<real>)

  const NoChange: LineItemPatch := LineItemPatch(None, None, None, None, None, None, None, None)

  /** The patch each input of the row sends to `updateLineItem`. */
  function EditPatch(e: ItemEdit): (r: LineItemPatch)
    ensures r.id.None? && r.amount.None?
    ensures e.DescriptionEdit? <==> r.description.Some?
    ensures e.DescriptionEdit? ==> r.description == Some(e.text)
    ensures e.QuantityEdit? <==> r.quantity.Some?
    ensures e.QuantityEdit? ==> r.quantity == Some(ParsedOrZero(e.quantity))
    ensures e.RateEdit? <==> r.rate.Some?
    ensures e.RateEdit? ==> r.rate == Some(ParsedOrZero(e.rate))
    ensures e.TaxRateEdit? <==> r.taxRate.Some?
    ensures e.TaxRateEdit? ==> r.taxRate == Some(ParsedOrZero(e.taxRate))
    ensures e.DiscountEdit? <==> r.discount.Some?
    ensures e.DiscountEdit? ==> r.discount == Some(ParsedOrZero(e.discount)) && r.discountType == Some(Percentage)
    ensures !e.DiscountEdit? ==> r.discountType.None?
  {
    match e
    case DescriptionEdit(text) => NoChange.(description := Some(text))
    case QuantityEdit(q) => NoChange.(quantity := Some(ParsedOrZero(q)))
    case RateEdit(r) => NoChange.(rate := Some(ParsedOrZero(r)))
    case TaxRateEdit(t) => NoChange.(taxRate := Some(ParsedOrZero(t)))
    case DiscountEdit(d) => NoChange.(discount := Some(ParsedOrZero(d)), discountType := Some(Percentage))
  }

  /** A form edit never changes a row's id or sets its amount; an
      unparseable number is stored as 0; a discount entered in the form is
      always a percentage. */
  lemma FormEdits(e: ItemEdit, item: LineItem)
    ensures Merge(item, EditPatch(e)).id == item.id
    ensures EditPatch(e).amount.None?
    ensures e.QuantityEdit? && e.quantity.None? ==> Merge(item, EditPatch(e)).quantity == 0.0
    ensures e.RateEdit? && e.rate.None? ==> Merge(item, EditPatch(e)).rate == 0.0
    ensures e.DiscountEdit? ==> IsPercentage(Merge(item, EditPatch(e)))
    ensures e.DiscountEdit? && e.discount.None? ==> !HasDiscount(Merge(item, EditPatch(e)))
  {
  }

  /** The editor's document (`Partial<Invoice>`): its rows, its four
      totals and everything else. */
  class InvoiceBuilder {
    var details: Details
    var lineItems: seq<LineItem>
    var subtotal: real
    var taxTotal: real
    var discountTotal: real
    var total: real

    function StoredTotals(): Totals
      reads this
    {
      Totals(subtotal, taxTotal, discountTotal, total)
    }

    /** The stored totals are those of the stored rows. */
    predicate TotalsConsistent()
      reads this
    {
      StoredTotals() == TotalsOf(lineItems)
    }

    /** The editor starts from `createEmptyInvoice()`. */
    constructor(clock: Clock, clientId: string, itemId: string)
      ensures var d := EmptyInvoice(Invoice, clock, clientId, itemId);
        details == d.details && lineItems == d.lineItems && StoredTotals() == d.totals
      ensures TotalsConsistent() && AmountsConsistent(lineItems)
    {
      var d := EmptyInvoice(Invoice, clock, clientId, itemId);
      details, lineItems := d.details, d.lineItems;
      subtotal, taxTotal, discountTotal, total := d.totals.subtotal, d.totals.taxTotal, d.totals.discountTotal, d.totals.total;
    }

    /** `updateInvoice`: merges the patch; only a patch that carries
        `lineItems` recomputes the totals, and then they override any
        totals the patch carries. */
    method UpdateInvoice(p: InvoicePatch)
      modifies this
      ensures details == PatchDetails(old(details), p)
      ensures lineItems == Pick(p.lineItems, old(lineItems))
      ensures p.lineItems.Some? ==> TotalsConsistent()
      ensures p.lineItems.None? ==> StoredTotals() == Totals(
        Pick(p.subtotal, old(subtotal)), Pick(p.taxTotal, old(taxTotal)),
        Pick(p.discountTotal, old(discountTotal)), Pick(p.total, old(total)))
    {
      var t := Totals(Pick(p.subtotal, subtotal), Pick(p.taxTotal, taxTotal),
                      Pick(p.discountTotal, discountTotal), Pick(p.total, total));
      if p.lineItems.Some? {
        t := CalculateTotals(p.lineItems.value);
      }
      details := PatchDetails(details, p);
      lineItems := Pick(p.lineItems, lineItems);
      subtotal, taxTotal, discountTotal, total := t.subtotal, t.taxTotal, t.discountTotal, t.total;
    }

    /** `updateLineItem`: patches the rows with the id, recomputes their
        amounts and all totals; nothing else changes. */
    method UpdateLineItem(id: string, p: LineItemPatch)
      modifies this`lineItems, this`subtotal, this`taxTotal, this`discountTotal, this`total
      ensures lineItems == UpdatedItems(old(lineItems), id, p)
      ensures TotalsConsistent()
      ensures old(AmountsConsistent(lineItems)) ==> AmountsConsistent(lineItems)
    {
      if AmountsConsistent(lineItems) {
        UpdatedItemsKeepAmounts(lineItems, id, p);
      }
      var items := UpdatedItems(lineItems, id, p);
      var t := CalculateTotals(items);
      lineItems := items;
      subtotal, taxTotal, discountTotal, total := t.subtotal, t.taxTotal, t.discountTotal, t.total;
    }

    /** `addLineItem`: appends one empty row and leaves the totals alone,
        which keeps them consistent because an empty row adds nothing. */
    method AddLineItem(freshId: string)
      modifies this`lineItems
      ensures lineItems == old(lineItems) + [EmptyLineItem(freshId)]
      ensures old(TotalsConsistent()) ==> TotalsConsistent()
      ensures old(AmountsConsistent(lineItems)) ==> AmountsConsistent(lineItems)
    {
      AppendEmptyKeepsTotals(lineItems, freshId);
      lineItems := lineItems + [EmptyLineItem(freshId)];
    }

    /** `removeLineItem`: drops the rows with the id and recomputes all
        totals; nothing else changes. */
    method RemoveLineItem(id: string)
      modifies this`lineItems, this`subtotal, this`taxTotal, this`discountTotal, this`total
      ensures lineItems == RemovedItems(old(lineItems), id)
      ensures TotalsConsistent()
      ensures old(AmountsConsistent(lineItems)) ==> AmountsConsistent(lineItems)
    {
      if AmountsConsistent(lineItems) {
        RemovedItemsKeepAmounts(lineItems, id);
      }
      var items := RemovedItems(lineItems, id);
      var t := CalculateTotals(items);
      lineItems := items;
      subtotal, taxTotal, discountTotal, total := t.subtotal, t.taxTotal, t.discountTotal, t.total;
    }

    /** `handleDocumentTypeChange`: starts over from `createEmptyInvoice(t)`
        but keeps the parties, the rows, the notes and the terms. The totals
        are reset to 0 and not recomputed, so they disagree with any rows
        whose totals are not all 0; the rows are untouched. */
    method ChangeDocumentType(t: DocumentType, clock: Clock, clientId: string, itemId: string)
      modifies this`details, this`subtotal, this`taxTotal, this`discountTotal, this`total
      ensures details == TypeChangedDetails(old(details), EmptyInvoice(t, clock, clientId, itemId).details)
      ensures details.docType == t && (details.dueDate.None? <==> t == Receipt)
      ensures details.from == old(details.from) && details.to == old(details.to)
      ensures details.settings == DefaultInvoiceSettings && details.customFields == []
      ensures StoredTotals() == Totals(0.0, 0.0, 0.0, 0.0)
      ensures TotalsConsistent() <==> TotalsOf(lineItems) == Totals(0.0, 0.0, 0.0, 0.0)
    {
      var d := EmptyInvoice(t, clock, clientId, itemId);
      details := TypeChangedDetails(details, d.details);
      subtotal, taxTotal, discountTotal, total := d.totals.subtotal, d.totals.taxTotal, d.totals.discountTotal, d.totals.total;
      assert StoredTotals() == Totals(0.0, 0.0, 0.0, 0.0);
    }
  }

  /** Updating keeps consistent amounts consistent. */
  lemma UpdatedItemsKeepAmounts(items: seq<LineItem>, id: string, p: LineItemPatch)
    requires AmountsConsistent(items)
    ensures AmountsConsistent(UpdatedItems(items, id, p))
  {
    var r := UpdatedItems(items, id, p);
    forall k | 0 <= k < |r| ensures r[k].amount == LineItemAmount(r[k]) {
      if items[k].id == id {
        var m := Merge(items[k], p);
        ContributionIgnoresAmount(Amount, r[k], m);
      }
    }
  }

  /** An illustration of the clause of `ChangeDocumentType` above: one row
      of 2 at 50 has non-zero totals, so after a type change its stored
      totals no longer match. */
  lemma TypeChangeBreaksTotals()
    ensures var item := LineItem("a", "", 2.0, 50.0, 100.0, None, None, None);
      TotalsOf([item]).subtotal == 100.0 && TotalsOf([item]) != Totals(0.0, 0.0, 0.0, 0.0)
  {
    var item := LineItem("a", "", 2.0, 50.0, 100.0, None, None, None);
    assert [item][..0] == [];
  }
}
