/** The application's constant tables: document types offered in the
    picker, currencies, the template and font choices, due-date presets and
    the default document settings. */
module Constants {
  import opened InvoiceTypes

  datatype DocumentTypeChoice = DocumentTypeChoice(value: DocumentType, caption: string)

  /** The document types the type picker offers. */
  const DocumentTypes: seq<DocumentTypeChoice> := [
    DocumentTypeChoice(Invoice, "Invoice"),
    DocumentTypeChoice(Quote, "Quote"),
    DocumentTypeChoice(Estimate, "Estimate"),
    DocumentTypeChoice(Receipt, "Receipt"),
    DocumentTypeChoice(Proforma, "Proforma Invoice")
  ]

  datatype Currency = Currency(code: string, symbol: string, name: string)

  const Currencies: seq<Currency> := [
    Currency("USD", "$", "US Dollar"),
    Currency("EUR", "€", "Euro"),
    Currency("GBP", "£", "British Pound"),
    Currency("CAD", "C$", "Canadian Dollar"),
    Currency("AUD", "A$", "Australian Dollar"),
    Currency("JPY", "¥", "Japanese Yen"),
    Currency("CHF", "Fr", "Swiss Franc"),
    Currency("CNY", "¥", "Chinese Yuan"),
    Currency("INR", "₹", "Indian Rupee"),
    Currency("MXN", "$", "Mexican Peso")
  ]

  datatype TemplateChoice = TemplateChoice(id: string, name: string, description: string)

  const TemplateChoices: seq<TemplateChoice> := [
    TemplateChoice("clean", "Clean", "Minimal and modern"),
    TemplateChoice("bold", "Bold", "Strong headers, high contrast"),
    TemplateChoice("minimal", "Minimal", "Simple and elegant"),
    TemplateChoice("professional", "Professional", "Traditional business style"),
    TemplateChoice("creative", "Creative", "Colorful and unique")
  ]

  datatype Font = Font(id: string, name: string, family: string)

  const Fonts: seq<Font> := [
    Font("inter", "Inter", "var(--font-inter), Inter, sans-serif"),
    Font("roboto", "Roboto", "var(--font-roboto), Roboto, sans-serif"),
    Font("lato", "Lato", "var(--font-lato), Lato, sans-serif"),
    Font("poppins", "Poppins", "var(--font-poppins), Poppins, sans-serif"),
    Font("opensans", "Open Sans", "var(--font-opensans), Open Sans, sans-serif"),
    Font("montserrat", "Montserrat", "var(--font-montserrat), Montserrat, sans-serif"),
    Font("playfair", "Playfair Display", "var(--font-playfair), Playfair Display, serif"),
    Font("merriweather", "Merriweather", "var(--font-merriweather), Merriweather, serif"),
    Font("sourcesans", "Source Sans 3", "var(--font-sourcesans), Source Sans 3, sans-serif"),
    Font("raleway", "Raleway", "var(--font-raleway), Raleway, sans-serif")
  ]

  /** A payment-term preset; `days` is `None` for the custom entry (null). */
  datatype DueDatePreset = DueDatePreset(value: string, caption: string, days: Option<int>)

  const DueDatePresets: seq<DueDatePreset> := [
    DueDatePreset("due-on-receipt", "Due on Receipt", Some(0)),
    DueDatePreset("net-7", "Net 7", Some(7)),
    DueDatePreset("net-15", "Net 15", Some(15)),
    DueDatePreset("net-30", "Net 30", Some(30)),
    DueDatePreset("net-60", "Net 60", Some(60)),
    DueDatePreset("custom", "Custom", None)
  ]

  const DefaultInvoiceSettings: InvoiceSettings :=
    InvoiceSettings("USD", "clean", "#1e40af", "#10b981", "inter")

  datatype BrandColors = BrandColors(primary: string, accent: string, dark: string, light: string)

  const Brand: BrandColors := BrandColors("#1e40af", "#10b981", "#0f172a", "#f8fafc")

  /** `table.find(c => c.code === code)`. */
  function FindCurrency(table: seq<Currency>, code: string): (r: Option<Currency>)
    ensures r.Some? ==> r.value in table && r.value.code == code
    ensures r.None? <==> forall c :: c in table ==> c.code != code
  {
    if table == [] then None
    else if table[0].code == code then Some(table[0])
    else
      var r := FindCurrency(table[1..], code);
      assert forall c :: c in table[1..] ==> c in table;
      assert forall c :: c in table ==> c == table[0] || c in table[1..];
      r
  }

  /** `FindCurrency` returns the first entry carrying the code. */
  lemma {:induction false} FindCurrencyAt(table: seq<Currency>, code: string, k: nat)
    requires k < |table| && table[k].code == code
    requires forall j :: 0 <= j < k ==> table[j].code != code
    ensures FindCurrency(table, code) == Some(table[k])
  {
    if k > 0 {
      FindCurrencyAt(table[1..], code, k - 1);
    }
  }

  /** Ten currencies with distinct codes; the first is the US dollar. */
  lemma CurrencyTable()
    ensures |Currencies| == 10
    ensures forall i, j :: 0 <= i < j < |Currencies| ==> Currencies[i].code != Currencies[j].code
    ensures Currencies[0].code == "USD" && Currencies[0].symbol == "$"
  {
  }

  /** Since codes are distinct, every entry is what a lookup of its own code returns. */
  lemma FindEachCurrency(k: nat)
    requires k < |Currencies|
    ensures FindCurrency(Currencies, Currencies[k].code) == Some(Currencies[k])
  {
    CurrencyTable();
    FindCurrencyAt(Currencies, Currencies[k].code, k);
  }

  /** Two codes can share a symbol: the yen and the yuan both show "¥". */
  lemma YenAndYuanShareSymbol()
    ensures FindCurrency(Currencies, "JPY") == Some(Currencies[5])
    ensures FindCurrency(Currencies, "CNY") == Some(Currencies[7])
    ensures Currencies[5].symbol == Currencies[7].symbol == "¥"
  {
    FindEachCurrency(5);
    FindEachCurrency(7);
  }

  /** The US and the Mexican dollar both show "$". */
  lemma DollarsShareSymbol()
    ensures FindCurrency(Currencies, "USD") == Some(Currencies[0])
    ensures FindCurrency(Currencies, "MXN") == Some(Currencies[9])
    ensures Currencies[0].symbol == Currencies[9].symbol == "$"
  {
    FindEachCurrency(0);
    FindEachCurrency(9);
  }

  /** The picker offers five of the eight document types. */
  lemma PickerOffersFiveTypes()
    ensures |DocumentTypes| == 5
    ensures (set k | 0 <= k < |DocumentTypes| :: DocumentTypes[k].value)
         == {Invoice, Quote, Estimate, Receipt, Proforma}
    ensures forall k :: 0 <= k < |DocumentTypes| ==>
      DocumentTypes[k].value !in {PurchaseOrder, CreditNote, Timesheet}
  {
    var listed := set k | 0 <= k < |DocumentTypes| :: DocumentTypes[k].value;
    assert DocumentTypes[0].value in listed && DocumentTypes[1].value in listed
        && DocumentTypes[2].value in listed && DocumentTypes[3].value in listed
        && DocumentTypes[4].value in listed;
  }

  /** The default currency and template are entries of their tables. */
  lemma DefaultsAreListed()
    ensures FindCurrency(Currencies, DefaultInvoiceSettings.currency).Some?
    ensures exists k :: 0 <= k < |TemplateChoices| && TemplateChoices[k].id == DefaultInvoiceSettings.template
    ensures exists k :: 0 <= k < |Fonts| && Fonts[k].id == DefaultInvoiceSettings.font
  {
    assert TemplateChoices[0].id == DefaultInvoiceSettings.template;
    assert Fonts[0].id == DefaultInvoiceSettings.font;
  }

  /** Every preset has a non-negative number of days except "custom", which has none. */
  lemma DueDatePresetDays()
    ensures forall p :: p in DueDatePresets ==> (p.days.None? <==> p.value == "custom")
    ensures forall p :: p in DueDatePresets && p.days.Some? ==> p.days.value >= 0
  {
  }
}
