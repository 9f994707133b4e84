/** The fallback of the line-item suggestion endpoint: three fixed
    suggestions chosen by keywords in the query. */
module SuggestLineItems {
  import opened JsStrings

  /** One suggested row: a description, a rate and a quantity. */
  datatype Suggestion = Suggestion(description: string, rate: real, quantity: real)

  /** The kind of work a query names, in the order the code tries them. */
  datatype Kind = Web | Branding | Consulting | Photography | General

  /** The first kind whose keywords occur in the lower-cased query. */
  function KindOf(lower: string): (r: Kind)
    ensures r == Web <==> Contains(lower, "web") || Contains(lower, "site")
    ensures r == Branding <==>
      !Contains(lower, "web") && !Contains(lower, "site")
      && (Contains(lower, "logo") || Contains(lower, "brand"))
    ensures r == Consulting <==>
      !Contains(lower, "web") && !Contains(lower, "site") && !Contains(lower, "logo")
      && !Contains(lower, "brand") && Contains(lower, "consult")
    ensures r == Photography <==>
      !Contains(lower, "web") && !Contains(lower, "site") && !Contains(lower, "logo")
      && !Contains(lower, "brand") && !Contains(lower, "consult") && Contains(lower, "photo")
    ensures r == General <==>
      !Contains(lower, "web") && !Contains(lower, "site") && !Contains(lower, "logo")
      && !Contains(lower, "brand") && !Contains(lower, "consult") && !Contains(lower, "photo")
  {
    if Contains(lower, "web") || Contains(lower, "site") then Web
    else if Contains(lower, "logo") || Contains(lower, "brand") then Branding
    else if Contains(lower, "consult") then Consulting
    else if Contains(lower, "photo") then Photography
    else General
  }

  /** A suggestion that makes a billable row: a positive rate and at least
      one unit. */
  predicate Billable(s: Suggestion)
  {
    s.rate > 0.0 && s.quantity >= 1.0
  }

  /** The fixed list of each kind: three billable suggestions. */
  function SuggestionsFor(k: Kind): (r: seq<Suggestion>)
    ensures |r| == 3
    ensures forall i :: 0 <= i < |r| ==> Billable(r[i])
  {
    match k
    case Web => [
      Suggestion("Website Design & Development", 2500.0, 1.0),
      Suggestion("Responsive Mobile Optimization", 500.0, 1.0),
      Suggestion("Content Management System Setup", 750.0, 1.0)]
    case Branding => [
      Suggestion("Logo Design (3 concepts, 2 revisions)", 800.0, 1.0),
      Suggestion("Brand Guidelines Document", 400.0, 1.0),
      Suggestion("Business Card Design", 150.0, 1.0)]
    case Consulting => [
      Suggestion("Strategy Consultation Session", 150.0, 2.0),
      Suggestion("Market Research & Analysis", 500.0, 1.0),
      Suggestion("Implementation Roadmap", 350.0, 1.0)]
    case Photography => [
      Suggestion("Professional Photo Session (2 hours)", 350.0, 1.0),
      Suggestion("Photo Editing & Retouching (per image)", 25.0, 10.0),
      Suggestion("Digital Delivery (high-res files)", 50.0, 1.0)]
    case General => [
      Suggestion("Professional Services", 100.0, 1.0),
      Suggestion("Project Management", 75.0, 2.0),
      Suggestion("Consultation & Support", 125.0, 1.0)]
  }

  /** `getMockSuggestions`: always three billable suggestions, chosen by
      the first kind the lower-cased query names. */
  function MockSuggestions(query: string): (r: seq<Suggestion>)
    ensures |r| == 3
    ensures forall i :: 0 <= i < |r| ==> Billable(r[i])
    ensures r == SuggestionsFor(KindOf(ToLower(query)))
  {
    SuggestionsFor(KindOf(ToLower(query)))
  }

  /** The first rate tells the five lists apart, so the list shows which
      kind was chosen. */
  lemma ListsDiffer(a: Kind, b: Kind)
    ensures SuggestionsFor(a)[0].rate == SuggestionsFor(b)[0].rate ==> a == b
    ensures SuggestionsFor(a) == SuggestionsFor(b) ==> a == b
  {
    if SuggestionsFor(a) == SuggestionsFor(b) {
      assert SuggestionsFor(a)[0] == SuggestionsFor(b)[0];
    }
  }

  /** The empty query, which the endpoint's error path sends, gets the
      general list. */
  lemma EmptyQueryIsGeneral()
    ensures MockSuggestions("") == SuggestionsFor(General)
  {
    assert ToLower("") == "";
  }

  /** The keywords are found in any letter case: a query holding "Web",
      "WEB" or any other casing of "web" gets the web list. */
  lemma WebInAnyCase(query: string, i: int)
    requires 0 <= i && i + 3 <= |query| && ToLower(query[i..i + 3]) == "web"
    ensures MockSuggestions(query) == SuggestionsFor(Web)
  {
    var l := ToLower(query);
    assert l[i..i + 3] == ToLower(query[i..i + 3]);
    assert OccursAt(l, "web", i);
  }
}
