/** The fallback of the description-expansion endpoint: it makes a short
    line-item description read like a finished one without asking a model. */
module ExpandDescription {
  import opened JsStrings

  /** The words, each preceded by one space. The fixed texts below are
      written this way so that their spaces can be counted word by word. */
  function Spaced(ws: seq<string>): string
  {
    if ws == [] then "" else " " + ws[0] + Spaced(ws[1..])
  }

  /** What a blank description becomes: "Professional services as
      discussed and agreed upon." */
  const DefaultSentence: string := "Professional" + Spaced(["services", "as", "discussed", "and", "agreed", "upon."])

  /** The kind of work a short description names, in the order the code tries them. */
  datatype Topic = Design | Development | Consulting | Management | Support | General

  /** The first topic whose keywords occur in the lower-cased text. */
  function TopicOf(lower: string): (r: Topic)
    ensures r == Design <==> Contains(lower, "design")
    ensures r == Development <==>
      !Contains(lower, "design") && (Contains(lower, "develop") || Contains(lower, "build"))
    ensures r == Consulting <==>
      !Contains(lower, "design") && !Contains(lower, "develop") && !Contains(lower, "build")
      && Contains(lower, "consult")
    ensures r == Management <==>
      !Contains(lower, "design") && !Contains(lower, "develop") && !Contains(lower, "build")
      && !Contains(lower, "consult") && (Contains(lower, "manage") || Contains(lower, "management"))
    ensures r == Support <==>
      !Contains(lower, "design") && !Contains(lower, "develop") && !Contains(lower, "build")
      && !Contains(lower, "consult") && !Contains(lower, "manage") && !Contains(lower, "management")
      && (Contains(lower, "support") || Contains(lower, "maintenance"))
    ensures r == General <==>
      !Contains(lower, "design") && !Contains(lower, "develop") && !Contains(lower, "build")
      && !Contains(lower, "consult") && !Contains(lower, "manage") && !Contains(lower, "management")
      && !Contains(lower, "support") && !Contains(lower, "maintenance")
  {
    if Contains(lower, "design") then Design
    else if Contains(lower, "develop") || Contains(lower, "build") then Development
    else if Contains(lower, "consult") then Consulting
    else if Contains(lower, "manage") || Contains(lower, "management") then Management
    else if Contains(lower, "support") || Contains(lower, "maintenance") then Support
    else General
  }

  /** The words appended after " -" to a short description of each topic. */
  function SuffixWords(t: Topic): (r: seq<string>)
    ensures |r| >= 5
    ensures r[|r| - 1] != [] && r[|r| - 1][|r[|r| - 1]| - 1] == '.'
  {
    match t
    case Design => ["Custom", "design", "work", "including", "concept", "development,", "revisions,", "and", "final", "deliverables", "in", "requested", "formats."]
    case Development => ["Full", "development", "including", "implementation,", "testing,", "and", "deployment", "as", "specified", "in", "project", "scope."]
    case Consulting => ["Professional", "consultation", "services", "including", "analysis,", "recommendations,", "and", "follow-up", "support."]
    case Management => ["Comprehensive", "management", "services", "including", "planning,", "coordination,", "and", "progress", "reporting."]
    case Support => ["Ongoing", "support", "and", "maintenance", "services", "to", "ensure", "optimal", "performance", "and", "reliability."]
    case General => ["Professional", "services", "delivered", "according", "to", "agreed", "specifications", "and", "timeline."]
  }

  /** What is appended to a short description: " - Custom design work
      including ...", one text per topic. */
  function Suffix(t: Topic): (r: string)
    ensures |r| > 2 && r[..2] == " -"
  {
    " -" + Spaced(SuffixWords(t))
  }

  /** `expandWithoutAI`. A blank description gives the default sentence; a
      trimmed description of six or more space-separated pieces is kept; a
      shorter one gets the suffix of its topic, matched case-insensitively. */
  function ExpandWithoutAI(description: string): (r: string)
    ensures IsBlank(description) ==> r == DefaultSentence
    ensures !IsBlank(description) && SpacePieces(Trim(description)) >= 6 ==> r == Trim(description)
    ensures !IsBlank(description) && SpacePieces(Trim(description)) < 6 ==>
      r == Trim(description) + Suffix(TopicOf(ToLower(Trim(description))))
  {
    var desc := Trim(description);
    if desc == [] then DefaultSentence
    else if SpacePieces(desc) >= 6 then desc
    else desc + Suffix(TopicOf(ToLower(desc)))
  }

  /** A text that is its own trim and has six or more pieces: what the
      function keeps as it is. */
  predicate Finished(s: string)
  {
    s != [] && Trim(s) == s && SpacePieces(s) >= 6
  }

  /** There is a space for each word. */
  lemma {:induction false} SpacedSpaces(ws: seq<string>)
    ensures CountChar(Spaced(ws), ' ') >= |ws|
  {
    if ws != [] {
      SpacedSpaces(ws[1..]);
      CountCharConcat(" " + ws[0], Spaced(ws[1..]), ' ');
      CountCharConcat(" ", ws[0], ' ');
    }
  }

  /** The text ends with the last character of the last word. */
  lemma {:induction false} SpacedEnd(ws: seq<string>)
    requires ws != [] && ws[|ws| - 1] != []
    ensures Spaced(ws) != [] && Spaced(ws)[|Spaced(ws)| - 1] == ws[|ws| - 1][|ws[|ws| - 1]| - 1]
  {
    if |ws| > 1 {
      SpacedEnd(ws[1..]);
    }
  }

  /** " -" and five or more words, the last ending in a full stop, hold
      five or more spaces and end in a full stop. */
  lemma DashedWords(ws: seq<string>)
    requires |ws| >= 5 && ws[|ws| - 1] != [] && ws[|ws| - 1][|ws[|ws| - 1]| - 1] == '.'
    ensures CountChar(" -" + Spaced(ws), ' ') >= 5
    ensures (" -" + Spaced(ws))[|" -" + Spaced(ws)| - 1] == '.'
  {
    SpacedSpaces(ws);
    SpacedEnd(ws);
    CountCharConcat(" -", Spaced(ws), ' ');
  }

  /** Every suffix holds at least five spaces and ends with a full stop. */
  lemma SuffixShape(t: Topic)
    ensures CountChar(Suffix(t), ' ') >= 5
    ensures Suffix(t)[|Suffix(t)| - 1] == '.'
  {
    DashedWords(SuffixWords(t));
  }

  /** Joining a text that starts with a visible character to one that ends
      with one gives a text that is its own trim. */
  lemma JoinTrimmed(a: string, b: string)
    requires a != [] && !IsWhitespace(a[0])
    requires b != [] && !IsWhitespace(b[|b| - 1])
    ensures Trim(a + b) == a + b
  {
    var r := a + b;
    assert r[0] == a[0];
    assert r[|r| - 1] == b[|b| - 1];
    TrimOfTrimmed(r);
  }

  /** A text that starts and ends with a visible character and whose tail
      holds five or more spaces is finished. */
  lemma JoinFinished(a: string, b: string)
    requires a != [] && !IsWhitespace(a[0])
    requires b != [] && !IsWhitespace(b[|b| - 1]) && CountChar(b, ' ') >= 5
    ensures Finished(a + b)
  {
    JoinTrimmed(a, b);
    CountCharConcat(a, b, ' ');
  }

  /** The default sentence is finished. */
  lemma DefaultFinished()
    ensures Finished(DefaultSentence)
  {
    var ws := ["services", "as", "discussed", "and", "agreed", "upon."];
    SpacedSpaces(ws);
    SpacedEnd(ws);
    JoinFinished("Professional", Spaced(ws));
  }

  /** A blank description becomes the default sentence, which is finished. */
  lemma BlankExpansionFinished(description: string)
    requires IsBlank(description)
    ensures Finished(ExpandWithoutAI(description))
  {
    DefaultFinished();
  }

  /** A long description is kept trimmed, which is finished. */
  lemma LongExpansionFinished(description: string)
    requires !IsBlank(description) && SpacePieces(Trim(description)) >= 6
    ensures Finished(ExpandWithoutAI(description))
  {
    TrimIdempotent(description);
  }

  /** A text starting with a visible character, followed by " -" and five
      or more words of which the last ends in a full stop, is finished. */
  lemma DashedFinished(desc: string, ws: seq<string>)
    requires desc != [] && !IsWhitespace(desc[0])
    requires |ws| >= 5 && ws[|ws| - 1] != [] && ws[|ws| - 1][|ws[|ws| - 1]| - 1] == '.'
    ensures Finished(desc + (" -" + Spaced(ws)))
  {
    DashedWords(ws);
    JoinFinished(desc, " -" + Spaced(ws));
  }

  /** A short description gets a suffix, and the result is finished. */
  lemma ShortExpansionFinished(description: string)
    requires !IsBlank(description) && SpacePieces(Trim(description)) < 6
    ensures Finished(ExpandWithoutAI(description))
  {
    var desc := Trim(description);
    var t := TopicOf(ToLower(desc));
    DashedFinished(desc, SuffixWords(t));
  }

  /** Whatever the function returns is finished. */
  lemma ExpandFinished(description: string)
    ensures Finished(ExpandWithoutAI(description))
  {
    if IsBlank(description) {
      BlankExpansionFinished(description);
    } else if SpacePieces(Trim(description)) >= 6 {
      LongExpansionFinished(description);
    } else {
      ShortExpansionFinished(description);
    }
  }

  /** A finished text comes back unchanged. */
  lemma FinishedIsKept(s: string)
    requires Finished(s)
    ensures ExpandWithoutAI(s) == s
  {
  }

  /** Expanding an expansion changes nothing. */
  lemma ExpandIdempotent(description: string)
    ensures ExpandWithoutAI(ExpandWithoutAI(description)) == ExpandWithoutAI(description)
  {
    ExpandFinished(description);
    FinishedIsKept(ExpandWithoutAI(description));
  }

  /** The result begins with the trimmed description unless that is blank. */
  lemma ExpansionKeepsText(description: string)
    requires !IsBlank(description)
    ensures StartsWith(ExpandWithoutAI(description), Trim(description))
  {
    var desc := Trim(description);
    if SpacePieces(desc) < 6 {
      assert (desc + Suffix(TopicOf(ToLower(desc))))[..|desc|] == desc;
    }
  }

  /** Any text containing "management" contains "manage", and any text
      containing "development" contains "develop": the longer keywords
      never decide the topic. */
  lemma LongerKeywordsAreCovered(lower: string)
    ensures Contains(lower, "management") ==> Contains(lower, "manage")
    ensures Contains(lower, "development") ==> Contains(lower, "develop")
  {
    if Contains(lower, "management") {
      var i :| OccursAt(lower, "management", i);
      assert lower[i..i + 6] == lower[i..i + 10][..6];
      assert OccursAt(lower, "manage", i);
    }
    if Contains(lower, "development") {
      var i :| OccursAt(lower, "development", i);
      assert lower[i..i + 7] == lower[i..i + 11][..7];
      assert OccursAt(lower, "develop", i);
    }
  }

  /** The keywords are found in any letter case: a description holding
      "Design", "DESIGN" or any other casing of "design" is a design. */
  lemma DesignInAnyCase(s: string, i: int)
    requires 0 <= i && i + 6 <= |s| && ToLower(s[i..i + 6]) == "design"
    ensures TopicOf(ToLower(s)) == Design
  {
    var l := ToLower(s);
    assert l[i..i + 6] == ToLower(s[i..i + 6]);
    assert OccursAt(l, "design", i);
  }
}
