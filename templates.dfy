/** The document templates and their lookup by id. */
module Templates {
  import Constants
  import opened InvoiceTypes

  datatype HeaderLayout = Split | Stacked | Centered
  datatype TableStyle = Striped | Bordered | MinimalTable | Modern
  datatype AccentPosition = AccentTop | AccentLeft | NoAccent
  datatype FontWeight = NormalWeight | BoldWeight
  datatype BorderRadius = NoRadius | Small | Medium | Large

  /** How a template lays out a document; `headerBg` is a coloured header. */
  datatype TemplateStyles = TemplateStyles(
    headerLayout: HeaderLayout,
    tableStyle: TableStyle,
    accentPosition: AccentPosition,
    fontWeight: FontWeight,
    borderRadius: BorderRadius,
    headerBg: bool)

  /** `preview` is the CSS gradient of the template's card. */
  datatype TemplateConfig = TemplateConfig(
    id: string, name: string, description: string, preview: string, styles: TemplateStyles)

  /** `TEMPLATES`, in order; the first is the fallback. */
  const AllTemplates: seq<TemplateConfig> := [
    TemplateConfig("clean", "Clean", "Minimal and modern design",
      "linear-gradient(135deg, #667eea 0%, #764ba2 100%)",
      TemplateStyles(Split, Striped, NoAccent, NormalWeight, Small, false)),
    TemplateConfig("bold", "Bold", "Strong headers, high contrast",
      "linear-gradient(135deg, #1e3a5f 0%, #0d2137 100%)",
      TemplateStyles(Split, Bordered, AccentTop, BoldWeight, NoRadius, true)),
    TemplateConfig("minimal", "Minimal", "Simple with whitespace",
      "linear-gradient(135deg, #f5f7fa 0%, #c3cfe2 100%)",
      TemplateStyles(Stacked, MinimalTable, NoAccent, NormalWeight, NoRadius, false)),
    TemplateConfig("professional", "Professional", "Traditional business style",
      "linear-gradient(135deg, #2c3e50 0%, #3498db 100%)",
      TemplateStyles(Split, Bordered, AccentLeft, NormalWeight, Small, false)),
    TemplateConfig("creative", "Creative", "Colorful and unique",
      "linear-gradient(135deg, #f093fb 0%, #f5576c 100%)",
      TemplateStyles(Centered, Striped, AccentTop, BoldWeight, Large, true)),
    TemplateConfig("executive", "Executive", "Premium corporate look",
      "linear-gradient(135deg, #0f0c29 0%, #302b63 50%, #24243e 100%)",
      TemplateStyles(Split, Modern, AccentLeft, BoldWeight, Medium, true))
  ]

  /** `table.find(t => t.id === id)`: the first entry with the id. */
  function FindTemplate(table: seq<TemplateConfig>, id: string): (r: Option<TemplateConfig>)
    ensures r.Some? ==> r.value in table && r.value.id == id
    ensures r.None? <==> forall k :: 0 <= k < |table| ==> table[k].id != id
  {
    if table == [] then None
    else if table[0].id == id then Some(table[0])
    else
      var r := FindTemplate(table[1..], id);
      assert r.Some? ==> r.value in table by {
        if r.Some? {
          assert r.value in table[1..];
        }
      }
      assert r.None? ==> forall k :: 0 <= k < |table| ==> table[k].id != id by {
        if r.None? {
          forall k | 0 <= k < |table| ensures table[k].id != id {
            if k > 0 {
              assert table[k] == table[1..][k - 1];
            }
          }
        }
      }
      r
  }

  /** `getTemplate`: the template with the id, or the first template when no
      template has it. It never fails. */
  function GetTemplate(id: string): (r: TemplateConfig)
    ensures r in AllTemplates
    ensures (exists k :: 0 <= k < |AllTemplates| && AllTemplates[k].id == id) ==> r.id == id
    ensures (forall k :: 0 <= k < |AllTemplates| ==> AllTemplates[k].id != id) ==> r == AllTemplates[0]
  {
    match FindTemplate(AllTemplates, id)
    case Some(t) => t
    case None => AllTemplates[0]
  }

  /** There are six templates and no two share an id. */
  lemma TemplateIdsDistinct()
    ensures |AllTemplates| == 6
    ensures forall i, j :: 0 <= i < j < |AllTemplates| ==> AllTemplates[i].id != AllTemplates[j].id
  {
  }

  /** Because ids are distinct, looking up a template's id finds that
      template and no other. */
  lemma GetEachTemplate(k: nat)
    requires k < |AllTemplates|
    ensures GetTemplate(AllTemplates[k].id) == AllTemplates[k]
  {
    TemplateIdsDistinct();
    var r := GetTemplate(AllTemplates[k].id);
    var j :| 0 <= j < |AllTemplates| && AllTemplates[j] == r;
    assert AllTemplates[j].id == AllTemplates[k].id;
  }

  /** The fallback is the "clean" template, the default of new documents. */
  lemma FallbackIsClean()
    ensures AllTemplates[0].id == "clean" == Constants.DefaultInvoiceSettings.template
    ensures GetTemplate(Constants.DefaultInvoiceSettings.template) == AllTemplates[0]
  {
    GetEachTemplate(0);
  }

  /** Each of the five templates a user can pick in the settings table is
      found by its own id; "executive" has a template but is not offered
      there. */
  lemma PickerTemplatesResolve(k: nat)
    requires k < |Constants.TemplateChoices|
    ensures GetTemplate(Constants.TemplateChoices[k].id) == AllTemplates[k]
    ensures Constants.TemplateChoices[k].id != "executive"
  {
    assert Constants.TemplateChoices[k].id == AllTemplates[k].id;
    GetEachTemplate(k);
  }
}
