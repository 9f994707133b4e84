/** The AI helpers of the editor: the guard that keeps blank text from
    being sent, and the row a picked suggestion becomes. */
module AIAssistant {
  import opened InvoiceTypes
  import opened JsStrings
  import opened InvoiceMath
  import SuggestLineItems

  /** `if (!text.trim()) return;`: a request is sent only for text that is
      not blank, that is, for text with some non-whitespace character. */
  function ShouldRequest(text: string): (b: bool)
    ensures b <==> exists k :: 0 <= k < |text| && !IsWhitespace(text[k])
  {
    TrimShape(text);
    !IsBlank(text)
  }

  /** `handleAddSuggestion`: the suggestion as a row with a fresh id; the
      amount is quantity times rate, unclamped, and the row has no tax or
      discount. */
  function SuggestionToLineItem(s: SuggestLineItems.Suggestion, freshId: string): (item: LineItem)
    ensures item.id == freshId && item.description == s.description
    ensures item.quantity == s.quantity && item.rate == s.rate
    ensures item.taxRate.None? && item.discount.None? && item.discountType.None?
    ensures item.amount == s.quantity * s.rate
  {
    LineItem(freshId, s.description, s.quantity, s.rate, s.quantity * s.rate, None, None, None)
  }

  /** The stored amount is what the totals engine computes for the row
      exactly when quantity times rate is not negative. */
  lemma SuggestedAmountAgrees(s: SuggestLineItems.Suggestion, freshId: string)
    ensures var item := SuggestionToLineItem(s, freshId);
      item.amount == LineItemAmount(item) <==> s.quantity * s.rate >= 0.0
  {
    var item := SuggestionToLineItem(s, freshId);
    UndiscountedAmount(item);
  }

  /** A billable suggestion yields a row whose amount the engine agrees
      with, and that adds its quantity times rate to the subtotal and
      nothing to the discount and tax totals. */
  lemma BillableRow(s: SuggestLineItems.Suggestion, freshId: string, items: seq<LineItem>)
    requires SuggestLineItems.Billable(s)
    ensures var item := SuggestionToLineItem(s, freshId);
      && item.amount == LineItemAmount(item) > 0.0
      && TotalsOf(items + [item]).subtotal == TotalsOf(items).subtotal + item.amount
      && TotalsOf(items + [item]).discountTotal == TotalsOf(items).discountTotal
      && TotalsOf(items + [item]).taxTotal == TotalsOf(items).taxTotal
  {
    var item := SuggestionToLineItem(s, freshId);
    SuggestedAmountAgrees(s, freshId);
    assert s.quantity * s.rate > 0.0 by {
      assert s.quantity >= 1.0 && s.rate > 0.0;
    }
    ColumnSumAppend(Base, items, item);
    ColumnSumAppend(Discount, items, item);
    ColumnSumAppend(Tax, items, item);
  }

  /** Every fallback suggestion is billable, so each of them gives such a row. */
  lemma MockSuggestionRows(query: string, k: nat, freshId: string, items: seq<LineItem>)
    requires k < 3
    ensures var item := SuggestionToLineItem(SuggestLineItems.MockSuggestions(query)[k], freshId);
      && item.amount == LineItemAmount(item) > 0.0
      && TotalsOf(items + [item]).subtotal == TotalsOf(items).subtotal + item.amount
  {
    var r := SuggestLineItems.MockSuggestions(query);
    BillableRow(r[k], freshId, items);
  }

  /** A row with a negative quantity keeps its negative amount, where the
      engine would store 0. */
  lemma NegativeQuantityDisagrees()
    ensures var item := SuggestionToLineItem(SuggestLineItems.Suggestion("Refund", 10.0, -1.0), "r");
      item.amount == -10.0 && LineItemAmount(item) == 0.0
  {
  }
}
