/** The line-item and totals engine: the amount of one line item after its
    discount, the four document totals, document numbers, the currency
    symbol and decimal count, and the defaults of a new document. Money is
    an exact `real`; the clock and the random id generator are parameters. */
module InvoiceMath {
  import opened InvoiceTypes
  import opened Constants

  /** `Math.max(0, x)`. */
  function Max0(x: real): (r: real)
    ensures r >= 0.0 && r >= x
    ensures r == x || r == 0.0
  {
    if x > 0.0 then x else 0.0
  }

  /** `item.discount && item.discount > 0`: a discount is applied. */
  predicate HasDiscount(item: LineItem)
  {
    item.discount.Some? && item.discount.value > 0.0
  }

  /** `item.taxRate && item.taxRate > 0`: tax is charged. */
  predicate HasTax(item: LineItem)
  {
    item.taxRate.Some? && item.taxRate.value > 0.0
  }

  /** Only the exact type 'percentage' reads the discount as a percentage;
      'flat' and an absent type both read it as a sum. */
  predicate IsPercentage(item: LineItem)
  {
    item.discountType == Some(Percentage)
  }

  /** `calculateLineItemAmount`: quantity times rate, less the discount,
      never below zero. The stored `amount` is not read. */
  function LineItemAmount(item: LineItem): (r: real)
    ensures r >= 0.0
  {
    var amount := item.quantity * item.rate;
    var discounted :=
      if !HasDiscount(item) then amount
      else if IsPercentage(item) then amount * (1.0 - item.discount.value / 100.0)
      else amount - item.discount.value;
    Max0(discounted)
  }

  /** With a positive percentage discount `d` the amount is the base cut
      by d percent, clamped; `d >= 100` on a non-negative base gives 0. */
  lemma PercentageDiscountAmount(item: LineItem)
    requires HasDiscount(item) && IsPercentage(item)
    ensures LineItemAmount(item) == Max0(item.quantity * item.rate * (1.0 - item.discount.value / 100.0))
    ensures item.quantity * item.rate >= 0.0 && item.discount.value >= 100.0 ==> LineItemAmount(item) == 0.0
  {
    var b := item.quantity * item.rate;
    var f := 1.0 - item.discount.value / 100.0;
    if b >= 0.0 && item.discount.value >= 100.0 {
      assert f <= 0.0;
      assert b * f <= 0.0;
    }
  }

  /** Any other discount type, absent included, subtracts the discount as a
      sum; a discount at least the base gives 0. */
  lemma FlatDiscountAmount(item: LineItem)
    requires HasDiscount(item) && !IsPercentage(item)
    ensures LineItemAmount(item) == Max0(item.quantity * item.rate - item.discount.value)
    ensures item.discount.value >= item.quantity * item.rate ==> LineItemAmount(item) == 0.0
  {
  }

  /** A missing or non-positive discount leaves `max(0, quantity * rate)`. */
  lemma UndiscountedAmount(item: LineItem)
    requires !HasDiscount(item)
    ensures LineItemAmount(item) == Max0(item.quantity * item.rate)
    ensures item.quantity * item.rate >= 0.0 ==> LineItemAmount(item) == item.quantity * item.rate
  {
  }

  /** The accumulators of `calculateTotals`, plus the sum of the item
      amounts, which the engine never computes but the lemmas compare with. */
  datatype Column = Base | Discount | Tax | Amount

  /** What one item adds to a column. A flat discount is added verbatim,
      even where `LineItemAmount` clamps; tax is charged on the clamped,
      discounted amount. */
  function Contribution(c: Column, item: LineItem): (r: real)
    ensures c == Tax || c == Amount ==> r >= 0.0
    ensures c == Discount && !HasDiscount(item) ==> r == 0.0
    ensures c == Discount && HasDiscount(item) && !IsPercentage(item) ==> r == item.discount.value > 0.0
    ensures c == Tax && !HasTax(item) ==> r == 0.0
  {
    match c
    case Base => item.quantity * item.rate
    case Discount =>
      if !HasDiscount(item) then 0.0
      else if IsPercentage(item) then item.quantity * item.rate * (item.discount.value / 100.0)
      else item.discount.value
    case Tax =>
      if HasTax(item) then
        var amount := LineItemAmount(item);
        var rate := item.taxRate.value / 100.0;
        assert amount * rate >= 0.0;
        amount * rate
      else 0.0
    case Amount => LineItemAmount(item)
  }

  /** The sum of a column over a list, item by item from the front. */
  function ColumnSum(c: Column, items: seq<LineItem>): real
  {
    if items == [] then 0.0
    else ColumnSum(c, items[..|items| - 1]) + Contribution(c, items[|items| - 1])
  }

  /** The result `calculateTotals` specifies. */
  function TotalsOf(items: seq<LineItem>): (r: Totals)
    ensures r.total >= 0.0 && r.total >= r.subtotal - r.discountTotal + r.taxTotal
    ensures r.total == 0.0 || r.total == r.subtotal - r.discountTotal + r.taxTotal
    ensures items == [] ==> r == Totals(0.0, 0.0, 0.0, 0.0)
  {
    var subtotal := ColumnSum(Base, items);
    var taxTotal := ColumnSum(Tax, items);
    var discountTotal := ColumnSum(Discount, items);
    Totals(subtotal, taxTotal, discountTotal, Max0(subtotal - discountTotal + taxTotal))
  }

  /** One more item of the list adds its contribution to a column sum. */
  lemma ColumnStep(c: Column, items: seq<LineItem>, i: nat)
    requires i < |items|
    ensures ColumnSum(c, items[..i + 1]) == ColumnSum(c, items[..i]) + Contribution(c, items[i])
  {
    assert items[..i + 1][..i] == items[..i];
  }

  /** The `forEach` callback of `calculateTotals`: one item's share added
      to each of the three accumulators. */
  method AddItem(item: LineItem, subtotal0: real, taxTotal0: real, discountTotal0: real)
    returns (subtotal: real, taxTotal: real, discountTotal: real)
    ensures subtotal == subtotal0 + Contribution(Base, item)
    ensures taxTotal == taxTotal0 + Contribution(Tax, item)
    ensures discountTotal == discountTotal0 + Contribution(Discount, item)
  {
    subtotal, taxTotal, discountTotal := subtotal0, taxTotal0, discountTotal0;
    var baseAmount := item.quantity * item.rate;
    subtotal := subtotal + baseAmount;
    if item.discount.Some? && item.discount.value > 0.0 {
      if item.discountType == Some(Percentage) {
        discountTotal := discountTotal + baseAmount * (item.discount.value / 100.0);
      } else {
        discountTotal := discountTotal + item.discount.value;
      }
    }
    var afterDiscount := LineItemAmount(item);
    if item.taxRate.Some? && item.taxRate.value > 0.0 {
      taxTotal := taxTotal + afterDiscount * (item.taxRate.value / 100.0);
    }
  }

  /** `calculateTotals`: one pass over the items, three accumulators. */
  method CalculateTotals(lineItems: seq<LineItem>) returns (t: Totals)
    ensures t == TotalsOf(lineItems)
  {
    var subtotal, taxTotal, discountTotal := 0.0, 0.0, 0.0;
    for i := 0 to |lineItems|
      invariant subtotal == ColumnSum(Base, lineItems[..i])
      invariant taxTotal == ColumnSum(Tax, lineItems[..i])
      invariant discountTotal == ColumnSum(Discount, lineItems[..i])
    {
      subtotal, taxTotal, discountTotal := AddItem(lineItems[i], subtotal, taxTotal, discountTotal);
      ColumnStep(Base, lineItems, i);
      ColumnStep(Tax, lineItems, i);
      ColumnStep(Discount, lineItems, i);
    }
    assert lineItems[..|lineItems|] == lineItems;
    var total := subtotal - discountTotal + taxTotal;
    t := Totals(subtotal, taxTotal, discountTotal, if total > 0.0 then total else 0.0);
  }

  /** An empty list has all four totals zero. */
  lemma EmptyTotals()
    ensures TotalsOf([]) == Totals(0.0, 0.0, 0.0, 0.0)
  {
  }

  lemma {:induction false} ColumnSumConcat(c: Column, a: seq<LineItem>, b: seq<LineItem>)
    ensures ColumnSum(c, a + b) == ColumnSum(c, a) + ColumnSum(c, b)
    decreases |b|
  {
    if b == [] {
      assert a + b == a;
    } else {
      assert (a + b)[..|a + b| - 1] == a + b[..|b| - 1];
      ColumnSumConcat(c, a, b[..|b| - 1]);
    }
  }

  /** Appending one item adds its contribution to each column sum. */
  lemma ColumnSumAppend(c: Column, items: seq<LineItem>, x: LineItem)
    ensures ColumnSum(c, items + [x]) == ColumnSum(c, items) + Contribution(c, x)
  {
    assert (items + [x])[..|items|] == items;
  }

  /** Taking one item out of a list takes its contribution out of each
      column sum. */
  lemma ColumnSumRemoveAt(c: Column, b: seq<LineItem>, j: nat)
    requires j < |b|
    ensures ColumnSum(c, b) == ColumnSum(c, b[..j] + b[j + 1..]) + Contribution(c, b[j])
  {
    assert b == b[..j] + [b[j]] + b[j + 1..];
    ColumnSumConcat(c, b[..j] + [b[j]], b[j + 1..]);
    ColumnSumConcat(c, b[..j], [b[j]]);
    ColumnSumConcat(c, b[..j], b[j + 1..]);
    assert [b[j]][..0] == [];
  }

  /** Taking the item at `j` out of a list takes one copy of it out of
      the list's multiset. */
  lemma MultisetRemoveAt(b: seq<LineItem>, j: nat)
    requires j < |b|
    ensures multiset(b[..j] + b[j + 1..]) == multiset(b) - multiset{b[j]}
  {
    assert b == b[..j] + [b[j]] + b[j + 1..];
    assert multiset(b) == multiset(b[..j]) + multiset{b[j]} + multiset(b[j + 1..]);
  }

  /** An item the multiset of a list holds sits at some index. */
  lemma IndexOf(b: seq<LineItem>, x: LineItem) returns (j: nat)
    requires x in multiset(b)
    ensures j < |b| && b[j] == x
  {
    assert x in b;
    j :| 0 <= j < |b| && b[j] == x;
  }

  /** Every column sum depends only on which items occur how often, not on
      their order. */
  lemma {:induction false} ColumnSumPermutation(c: Column, a: seq<LineItem>, b: seq<LineItem>)
    requires multiset(a) == multiset(b)
    ensures ColumnSum(c, a) == ColumnSum(c, b)
    decreases |a|
  {
    if a == [] {
      assert |b| == |multiset(b)| == 0;
    } else {
      var n := |a| - 1;
      var x := a[n];
      assert x in multiset(a);
      var j := IndexOf(b, x);
      MultisetRemoveAt(a, n);
      MultisetRemoveAt(b, j);
      assert a[..n] + a[n + 1..] == a[..n];
      ColumnSumPermutation(c, a[..n], b[..j] + b[j + 1..]);
      ColumnSumRemoveAt(c, b, j);
    }
  }

  /** Item order never changes the totals. */
  lemma TotalsPermutationInvariant(a: seq<LineItem>, b: seq<LineItem>)
    requires multiset(a) == multiset(b)
    ensures TotalsOf(a) == TotalsOf(b)
  {
    ColumnSumPermutation(Base, a, b);
    ColumnSumPermutation(Tax, a, b);
    ColumnSumPermutation(Discount, a, b);
  }

  /** Two items that differ only in their stored `amount`. */
  predicate SameButAmount(x: LineItem, y: LineItem)
  {
    x.(amount := 0.0) == y.(amount := 0.0)
  }

  /** No column reads the stored `amount`. */
  lemma ContributionIgnoresAmount(c: Column, x: LineItem, y: LineItem)
    requires SameButAmount(x, y)
    ensures Contribution(c, x) == Contribution(c, y)
  {
    assert x.quantity == y.quantity && x.rate == y.rate && x.discount == y.discount
        && x.discountType == y.discountType && x.taxRate == y.taxRate by {
      assert x.(amount := 0.0).quantity == y.(amount := 0.0).quantity;
    }
    assert HasDiscount(x) == HasDiscount(y) && IsPercentage(x) == IsPercentage(y) && HasTax(x) == HasTax(y);
    assert LineItemAmount(x) == LineItemAmount(y);
  }

  lemma {:induction false} ColumnSumIgnoresAmount(c: Column, a: seq<LineItem>, b: seq<LineItem>)
    requires |a| == |b|
    requires forall k :: 0 <= k < |a| ==> SameButAmount(a[k], b[k])
    ensures ColumnSum(c, a) == ColumnSum(c, b)
  {
    if a != [] {
      var n := |a| - 1;
      assert forall k :: 0 <= k < n ==> a[..n][k] == a[k] && b[..n][k] == b[k];
      ColumnSumIgnoresAmount(c, a[..n], b[..n]);
      ContributionIgnoresAmount(c, a[n], b[n]);
    }
  }

  /** The totals never read the stored `amount` of an item. */
  lemma TotalsIgnoreStoredAmount(a: seq<LineItem>, b: seq<LineItem>)
    requires |a| == |b|
    requires forall k :: 0 <= k < |a| ==> SameButAmount(a[k], b[k])
    ensures TotalsOf(a) == TotalsOf(b)
  {
    ColumnSumIgnoresAmount(Base, a, b);
    ColumnSumIgnoresAmount(Tax, a, b);
    ColumnSumIgnoresAmount(Discount, a, b);
  }

  lemma {:induction false} TaxTotalNonNegative(items: seq<LineItem>)
    ensures ColumnSum(Tax, items) >= 0.0
    ensures ColumnSum(Amount, items) >= 0.0
  {
    if items != [] {
      TaxTotalNonNegative(items[..|items| - 1]);
      var x := items[|items| - 1];
      if HasTax(x) {
        var a := LineItemAmount(x);
        var t := x.taxRate.value / 100.0;
        assert a * t >= 0.0;
      }
    }
  }

  /** Tax and total are never negative. */
  lemma TotalsNonNegative(items: seq<LineItem>)
    ensures TotalsOf(items).taxTotal >= 0.0
    ensures TotalsOf(items).total >= 0.0
  {
    TaxTotalNonNegative(items);
  }

  /** With non-negative quantities and rates, subtotal and discount total
      are non-negative too. */
  lemma {:induction false} TotalsNonNegativeForNonNegativeInput(items: seq<LineItem>)
    requires forall k :: 0 <= k < |items| ==> items[k].quantity >= 0.0 && items[k].rate >= 0.0
    ensures TotalsOf(items).subtotal >= 0.0
    ensures TotalsOf(items).discountTotal >= 0.0
  {
    if items != [] {
      var n := |items| - 1;
      TotalsNonNegativeForNonNegativeInput(items[..n]);
      var x := items[n];
      var b := x.quantity * x.rate;
      assert b >= 0.0;
      if HasDiscount(x) && IsPercentage(x) {
        assert b * (x.discount.value / 100.0) >= 0.0;
      }
    }
  }

  /** Per item, the amount is at least its base less its discount
      contribution, and equal to it when that difference is not negative. */
  lemma ItemAmountVersusDiscount(item: LineItem)
    ensures LineItemAmount(item) >= Contribution(Base, item) - Contribution(Discount, item)
    ensures Contribution(Base, item) - Contribution(Discount, item) >= 0.0 ==>
      LineItemAmount(item) == Contribution(Base, item) - Contribution(Discount, item)
  {
    if HasDiscount(item) && IsPercentage(item) {
      var b := item.quantity * item.rate;
      var d := item.discount.value;
      assert b * (1.0 - d / 100.0) == b - b * (d / 100.0);
    }
  }

  /** The sum of the item amounts is at least `subtotal - discountTotal`;
      the two agree when no item is clamped. */
  lemma {:induction false} AmountsVersusNetSubtotal(items: seq<LineItem>)
    ensures ColumnSum(Amount, items) >= TotalsOf(items).subtotal - TotalsOf(items).discountTotal
    ensures (forall k :: 0 <= k < |items| ==>
              Contribution(Base, items[k]) - Contribution(Discount, items[k]) >= 0.0) ==>
            ColumnSum(Amount, items) == TotalsOf(items).subtotal - TotalsOf(items).discountTotal
  {
    if items != [] {
      var n := |items| - 1;
      AmountsVersusNetSubtotal(items[..n]);
      ItemAmountVersusDiscount(items[n]);
      if forall k :: 0 <= k < |items| ==> Contribution(Base, items[k]) - Contribution(Discount, items[k]) >= 0.0 {
        assert forall k :: 0 <= k < n ==> items[..n][k] == items[k];
      }
    }
  }

  /** The flat-discount quirk: a flat discount of 150 on a base of 100
      clamps the amount to 0 but counts 150 in `discountTotal`, so
      `subtotal - discountTotal` (-50) is below the sum of amounts (0). */
  lemma FlatDiscountCountedVerbatim()
    ensures var item := LineItem("a", "", 1.0, 100.0, 0.0, None, Some(150.0), Some(Flat));
      && LineItemAmount(item) == 0.0
      && TotalsOf([item]) == Totals(100.0, 0.0, 150.0, 0.0)
      && ColumnSum(Amount, [item]) == 0.0
      && TotalsOf([item]).subtotal - TotalsOf([item]).discountTotal == -50.0
  {
    var item := LineItem("a", "", 1.0, 100.0, 0.0, None, Some(150.0), Some(Flat));
    assert [item][..0] == [];
  }

  /** Tax is charged after the discount: 10 x 10 less 10% is 90, and 10%
      tax on it is 9, not 10; a single item of 2 x 500 less 10% with 5% tax
      totals 945. */
  lemma TaxAfterDiscountExamples()
    ensures Contribution(Tax, LineItem("a", "", 10.0, 10.0, 0.0, Some(10.0), Some(10.0), Some(Percentage))) == 9.0
    ensures var item := LineItem("b", "", 2.0, 500.0, 0.0, Some(5.0), Some(10.0), Some(Percentage));
      LineItemAmount(item) == 900.0 && TotalsOf([item]) == Totals(1000.0, 45.0, 100.0, 945.0)
  {
    var item := LineItem("b", "", 2.0, 500.0, 0.0, Some(5.0), Some(10.0), Some(Percentage));
    assert [item][..0] == [];
  }

  // Document numbers

  /** The fixed number prefix of each document type. */
  function Prefix(t: DocumentType): (r: string)
    ensures 2 <= |r| <= 3
    ensures forall k :: 0 <= k < |r| ==> 'A' <= r[k] <= 'Z'
  {
    match t
    case Invoice => "INV"
    case Quote => "QUO"
    case Estimate => "EST"
    case Receipt => "REC"
    case Proforma => "PRO"
    case PurchaseOrder => "PO"
    case CreditNote => "CN"
    case Timesheet => "TS"
  }

  /** The document type a prefix stands for, if any. */
  function TypeOfPrefix(p: string): (r: Option<DocumentType>)
    ensures r.Some? ==> Prefix(r.value) == p
  {
    if p == "INV" then Some(Invoice)
    else if p == "QUO" then Some(Quote)
    else if p == "EST" then Some(Estimate)
    else if p == "REC" then Some(Receipt)
    else if p == "PRO" then Some(Proforma)
    else if p == "PO" then Some(PurchaseOrder)
    else if p == "CN" then Some(CreditNote)
    else if p == "TS" then Some(Timesheet)
    else None
  }

  /** Each type has its own prefix, and no prefix contains '-'. */
  lemma PrefixesDistinct(t: DocumentType)
    ensures TypeOfPrefix(Prefix(t)) == Some(t)
    ensures '-' !in Prefix(t) && |Prefix(t)| >= 2
  {
  }

  predicate IsDigit(c: char)
  {
    '0' <= c <= '9'
  }

  predicate AllDigits(s: string)
  {
    forall k :: 0 <= k < |s| ==> IsDigit(s[k])
  }

  function Digit(d: nat): (c: char)
    requires d < 10
    ensures IsDigit(c)
  {
    ('0' as int + d) as char
  }

  /** `n.toString()` for a natural number. */
  function DecimalString(n: nat): (s: string)
    ensures |s| >= 1 && AllDigits(s)
  {
    if n < 10 then [Digit(n)] else DecimalString(n / 10) + [Digit(n % 10)]
  }

  /** The value of a string of decimal digits (a non-digit counts as 0). */
  function ParseDecimal(s: string): nat
  {
    if s == [] then 0
    else
      var c := s[|s| - 1];
      ParseDecimal(s[..|s| - 1]) * 10 + (if IsDigit(c) then c as int - '0' as int else 0)
  }

  lemma {:induction false} DecimalRoundTrip(n: nat)
    ensures ParseDecimal(DecimalString(n)) == n
  {
    if n >= 10 {
      DecimalRoundTrip(n / 10);
      var s := DecimalString(n);
      assert s[..|s| - 1] == DecimalString(n / 10);
    }
  }

  /** `s.padStart(width, c)` with a one-character pad. */
  function PadStart(s: string, width: nat, c: char): (r: string)
    ensures |r| == if |s| >= width then |s| else width
    ensures r[|r| - |s|..] == s
    ensures forall k :: 0 <= k < |r| - |s| ==> r[k] == c
  {
    if |s| >= width then s else seq(width - |s|, _ => c) + s
  }

  /** Leading zeros do not change the value of a decimal string. */
  lemma {:induction false} LeadingZeros(z: string, s: string)
    requires forall k :: 0 <= k < |z| ==> z[k] == '0'
    ensures ParseDecimal(z + s) == ParseDecimal(s)
    decreases |z| + |s|
  {
    if s == [] {
      assert z + s == z;
      if z != [] {
        LeadingZeros(z[..|z| - 1], []);
        assert z[..|z| - 1] + [] == z[..|z| - 1];
      }
    } else {
      assert (z + s)[..|z + s| - 1] == z + s[..|s| - 1];
      LeadingZeros(z, s[..|s| - 1]);
    }
  }

  /** `generateInvoiceNumber(type, sequence)`: prefix, year and the
      sequence number padded to at least three digits. */
  function InvoiceNumber(t: DocumentType, year: nat, sequence: nat): (r: string)
    ensures |r| >= |Prefix(t)| + 6
    ensures r[..|Prefix(t)| + 1] == Prefix(t) + "-"
    ensures forall k :: |r| - 3 <= k < |r| ==> IsDigit(r[k])
  {
    var head := Prefix(t) + "-" + DecimalString(year) + "-";
    var padded := PadStart(DecimalString(sequence), 3, '0');
    PaddedSequence(sequence);
    assert head[..|Prefix(t)| + 1] == Prefix(t) + "-";
    JoinedParts(Prefix(t) + "-", head, padded);
    head + padded
  }

  /** What the number's shape rests on: the lead of the head stays in front
      and the digits of the padded part end the number. */
  lemma JoinedParts(lead: string, head: string, padded: string)
    requires |lead| <= |head| && head[..|lead|] == lead
    requires |padded| >= 3 && AllDigits(padded)
    ensures (head + padded)[..|lead|] == lead
    ensures forall k :: |head + padded| - 3 <= k < |head + padded| ==> IsDigit((head + padded)[k])
  {
    var r := head + padded;
    assert r[..|lead|] == head[..|lead|];
    forall k | |r| - 3 <= k < |r| ensures IsDigit(r[k]) {
      assert r[k] == padded[k - |head|];
    }
  }

  /** The three parts a document number is built from. */
  datatype NumberParts = NumberParts(docType: DocumentType, year: nat, sequence: nat)

  /** The characters before the first `c` (all of `s` if there is none). */
  function TakeUntil(s: string, c: char): string
  {
    if s == [] || s[0] == c then [] else [s[0]] + TakeUntil(s[1..], c)
  }

  /** The characters after the first `c` (nothing if there is none). */
  function DropThrough(s: string, c: char): string
  {
    if s == [] then [] else if s[0] == c then s[1..] else DropThrough(s[1..], c)
  }

  lemma {:induction false} SplitAtFirst(a: string, c: char, b: string)
    requires c !in a
    ensures TakeUntil(a + [c] + b, c) == a
    ensures DropThrough(a + [c] + b, c) == b
  {
    if a == [] {
      assert a + [c] + b == [c] + b;
    } else {
      assert (a + [c] + b)[1..] == a[1..] + [c] + b;
      SplitAtFirst(a[1..], c, b);
      assert a == [a[0]] + a[1..];
    }
  }

  /** Reads a document number back into its parts. */
  function DecodeInvoiceNumber(s: string): Option<NumberParts>
  {
    var p := TakeUntil(s, '-');
    var rest := DropThrough(s, '-');
    var y := TakeUntil(rest, '-');
    var q := DropThrough(rest, '-');
    match TypeOfPrefix(p)
    case None => None
    case Some(t) =>
      if y != [] && q != [] && AllDigits(y) && AllDigits(q)
      then Some(NumberParts(t, ParseDecimal(y), ParseDecimal(q)))
      else None
  }

  /** Digits after zeros are still digits. */
  lemma ZerosThenDigits(z: string, s: string)
    requires forall k :: 0 <= k < |z| ==> z[k] == '0'
    requires AllDigits(s)
    ensures AllDigits(z + s)
  {
    forall k | 0 <= k < |z + s| ensures IsDigit((z + s)[k]) {
      if k >= |z| {
        assert (z + s)[k] == s[k - |z|];
      }
    }
  }

  /** The sequence part is all digits and reads back as the sequence. */
  lemma PaddedSequence(sequence: nat)
    ensures var padded := PadStart(DecimalString(sequence), 3, '0');
      padded != [] && AllDigits(padded) && ParseDecimal(padded) == sequence
  {
    var ss := DecimalString(sequence);
    var padded := PadStart(ss, 3, '0');
    var z := padded[..|padded| - |ss|];
    assert padded == z + ss;
    assert forall k :: 0 <= k < |z| ==> z[k] == '0';
    DecimalRoundTrip(sequence);
    LeadingZeros(z, ss);
    ZerosThenDigits(z, ss);
  }

  /** Splitting at the first two dashes gives back the three parts, when the
      first two hold no dash. */
  lemma SplitNumber(p: string, y: string, q: string)
    requires '-' !in p && '-' !in y
    ensures var s := p + "-" + y + "-" + q;
      && TakeUntil(s, '-') == p
      && TakeUntil(DropThrough(s, '-'), '-') == y
      && DropThrough(DropThrough(s, '-'), '-') == q
  {
    assert p + "-" + y + "-" + q == p + ['-'] + (y + ['-'] + q);
    SplitAtFirst(p, '-', y + ['-'] + q);
    SplitAtFirst(y, '-', q);
  }

  /** A string of digits holds no dash. */
  lemma DigitsHaveNoDash(s: string)
    requires AllDigits(s)
    ensures '-' !in s
  {
    forall k | 0 <= k < |s| ensures s[k] != '-' {
      assert IsDigit(s[k]);
    }
  }

  /** A document number determines its type, year and sequence number:
      padding never truncates and the parts never run together. */
  lemma InvoiceNumberRoundTrip(t: DocumentType, year: nat, sequence: nat)
    ensures DecodeInvoiceNumber(InvoiceNumber(t, year, sequence)) == Some(NumberParts(t, year, sequence))
  {
    var ys := DecimalString(year);
    var padded := PadStart(DecimalString(sequence), 3, '0');
    PrefixesDistinct(t);
    DigitsHaveNoDash(ys);
    DecimalRoundTrip(year);
    PaddedSequence(sequence);
    SplitNumber(Prefix(t), ys, padded);
  }

  /** Different parts always give different document numbers. */
  lemma InvoiceNumberInjective(a: NumberParts, b: NumberParts)
    requires InvoiceNumber(a.docType, a.year, a.sequence) == InvoiceNumber(b.docType, b.year, b.sequence)
    ensures a == b
  {
    InvoiceNumberRoundTrip(a.docType, a.year, a.sequence);
    InvoiceNumberRoundTrip(b.docType, b.year, b.sequence);
  }

  lemma DecimalLength(n: nat)
    ensures n >= 100 ==> |DecimalString(n)| >= 3
  {
    if n >= 100 {
      var m := n / 10;
      assert m >= 10;
      assert |DecimalString(n)| == |DecimalString(m)| + 1;
      assert |DecimalString(m)| == |DecimalString(m / 10)| + 1;
    }
  }

  /** The default sequence number 1 is written "001"; a sequence of three
      or more digits is written as is. */
  lemma SequencePadding(t: DocumentType, year: nat, sequence: nat)
    ensures InvoiceNumber(t, year, 1) == Prefix(t) + "-" + DecimalString(year) + "-001"
    ensures sequence >= 100 ==>
      InvoiceNumber(t, year, sequence) == Prefix(t) + "-" + DecimalString(year) + "-" + DecimalString(sequence)
  {
    assert DecimalString(1) == "1";
    assert PadStart("1", 3, '0') == "001" by {
      assert seq(2, _ => '0') == "00";
    }
    DecimalLength(sequence);
  }

  // Currency display

  /** The part of `formatCurrency` that is not the locale library: the
      symbol and the number of decimals. */
  datatype CurrencyDisplay = CurrencyDisplay(symbol: string, decimals: nat)

  function CurrencyFormat(currencyCode: string): (f: CurrencyDisplay)
    ensures f.decimals == 0 <==> currencyCode == "JPY"
    ensures f.decimals == 0 || f.decimals == 2
  {
    var currency := match FindCurrency(Currencies, currencyCode)
      case Some(c) => c
      case None => Currencies[0];
    CurrencyDisplay(currency.symbol, if currencyCode == "JPY" then 0 else 2)
  }

  /** A listed code shows its own symbol; any other code shows the first
      entry's "$". */
  lemma CurrencySymbolChoice(currencyCode: string)
    ensures forall k :: 0 <= k < |Currencies| && Currencies[k].code == currencyCode ==>
      CurrencyFormat(currencyCode).symbol == Currencies[k].symbol
    ensures (forall k :: 0 <= k < |Currencies| ==> Currencies[k].code != currencyCode) ==>
      CurrencyFormat(currencyCode).symbol == "$"
  {
    forall k | 0 <= k < |Currencies| && Currencies[k].code == currencyCode
      ensures CurrencyFormat(currencyCode).symbol == Currencies[k].symbol
    {
      FindEachCurrency(k);
    }
    if forall k :: 0 <= k < |Currencies| ==> Currencies[k].code != currencyCode {
      assert forall c :: c in Currencies ==> c.code != currencyCode;
    }
  }

  /** The yuan shares the yen's symbol but keeps two decimals. */
  lemma YuanIsNotYen()
    ensures CurrencyFormat("CNY").symbol == CurrencyFormat("JPY").symbol
    ensures CurrencyFormat("CNY").decimals == 2 && CurrencyFormat("JPY").decimals == 0
  {
    YenAndYuanShareSymbol();
  }

  // New rows and new documents

  /** `createEmptyLineItem`, with the fresh id supplied. */
  function EmptyLineItem(id: string): (e: LineItem)
    ensures e.id == id
    ensures e.amount == LineItemAmount(e)
    ensures forall c :: Contribution(c, e) == 0.0
  {
    LineItem(id, "", 1.0, 0.0, 0.0, None, None, None)
  }

  /** Appending an empty row leaves every total as it was. */
  lemma AppendEmptyKeepsTotals(items: seq<LineItem>, id: string)
    ensures TotalsOf(items + [EmptyLineItem(id)]) == TotalsOf(items)
  {
    var s := items + [EmptyLineItem(id)];
    assert s[..|s| - 1] == items;
  }

  /** What the clock contributes to a new document: the current year and
      the ISO dates of today and of thirty days from now. */
  datatype Clock = Clock(year: nat, today: string, inThirtyDays: string)

  /** Everything a document holds besides its rows and totals. */
  datatype Details = Details(
    docType: DocumentType,
    number: string,
    from: BusinessInfo,
    to: Client,
    issueDate: string,
    dueDate: Option<string>,
    notes: Option<string>,
    terms: Option<string>,
    customFields: seq<CustomField>,
    settings: InvoiceSettings,
    status: Option<InvoiceStatus>)

  /** The document `createEmptyInvoice` returns. */
  datatype NewDocument = NewDocument(details: Details, lineItems: seq<LineItem>, totals: Totals)

  const EmptyBusinessInfo: BusinessInfo :=
    BusinessInfo("", "", "", "", "", "", "", None, None, None, None)

  function EmptyClient(id: string): Client
  {
    Client(id, "", "", None, None, None, None, None, None)
  }

  /** `createEmptyInvoice(type)`, with the clock and the fresh ids supplied.
      Notes and terms are not set. */
  function EmptyInvoice(t: DocumentType, clock: Clock, clientId: string, itemId: string): (d: NewDocument)
    ensures d.details.docType == t
    ensures d.details.dueDate.None? <==> t == Receipt
    ensures d.totals == TotalsOf(d.lineItems) == Totals(0.0, 0.0, 0.0, 0.0)
    ensures |d.lineItems| == 1 && d.lineItems[0].quantity == 1.0 && d.lineItems[0].rate == 0.0
    ensures DecodeInvoiceNumber(d.details.number) == Some(NumberParts(t, clock.year, 1))
    ensures d.details.settings == DefaultInvoiceSettings && d.details.customFields == []
    ensures d.details.status == Some(Draft)
  {
    InvoiceNumberRoundTrip(t, clock.year, 1);
    var details := Details(
      t,
      InvoiceNumber(t, clock.year, 1),
      EmptyBusinessInfo,
      EmptyClient(clientId),
      clock.today,
      if t != Receipt then Some(clock.inThirtyDays) else None,
      None,
      None,
      [],
      DefaultInvoiceSettings,
      Some(Draft));
    var d := NewDocument(details, [EmptyLineItem(itemId)], Totals(0.0, 0.0, 0.0, 0.0));
    AppendEmptyKeepsTotals([], itemId);
    assert [] + [EmptyLineItem(itemId)] == d.lineItems;
    d
  }
}
