/** The name under which a document's PDF is downloaded:
    `<type>-<number>-<client>.pdf`. */
module PdfFileName {
  import opened InvoiceTypes

  /** A character the client part keeps: an ASCII letter or digit. */
  predicate IsAlphanumeric(c: char)
  {
    'a' <= c <= 'z' || 'A' <= c <= 'Z' || '0' <= c <= '9'
  }

  /** `name.replace(/[^a-zA-Z0-9]/g, '-')`: every other character becomes
      one '-'. */
  function Sanitize(name: string): (r: string)
    ensures |r| == |name|
    ensures forall k :: 0 <= k < |name| ==> r[k] == (if IsAlphanumeric(name[k]) then name[k] else '-')
  {
    seq(|name|, k requires 0 <= k < |name| => if IsAlphanumeric(name[k]) then name[k] else '-')
  }

  /** Only letters, digits and '-' are left. */
  predicate SafeName(s: string)
  {
    forall k :: 0 <= k < |s| ==> IsAlphanumeric(s[k]) || s[k] == '-'
  }

  /** The type part: the document type's code, `invoice` when there is none. */
  function TypePart(docType: Option<DocumentType>): (r: string)
    ensures r != [] && SafeName(r)
    ensures docType.None? ==> r == "invoice"
  {
    if docType.Some? then TypeCode(docType.value) else "invoice"
  }

  /** The number part: the number, `draft` when it is missing or empty. */
  function NumberPart(number: Option<string>): (r: string)
    ensures r != []
    ensures number.Some? && number.value != [] ==> r == number.value
    ensures number.None? || number.value == [] ==> r == "draft"
  {
    if number.Some? && number.value != [] then number.value else "draft"
  }

  /** The client part: the sanitised client name, `client` when there is no
      client or the name is empty. */
  function ClientPart(to: Option<Client>): (r: string)
    ensures r != [] && SafeName(r)
    ensures to.Some? && to.value.name != [] ==> r == Sanitize(to.value.name)
    ensures to.None? || to.value.name == [] ==> r == "client"
  {
    if to.Some? && to.value.name != [] then Sanitize(to.value.name) else "client"
  }

  /** The download name of a (partial) document. */
  function FileName(docType: Option<DocumentType>, number: Option<string>, to: Option<Client>): (r: string)
    ensures |r| >= 4 && r[|r| - 4..] == ".pdf"
    ensures r == TypePart(docType) + "-" + NumberPart(number) + "-" + ClientPart(to) + ".pdf"
  {
    TypePart(docType) + "-" + NumberPart(number) + "-" + ClientPart(to) + ".pdf"
  }

  /** For a client with a name, the file name is `type-number-client.pdf`
      with the client's name sanitised character for character, so it is
      six characters longer than the three parts. */
  lemma NamedClientFileName(docType: Option<DocumentType>, number: Option<string>, c: Client)
    requires c.name != []
    ensures FileName(docType, number, Some(c))
      == TypePart(docType) + "-" + NumberPart(number) + "-" + Sanitize(c.name) + ".pdf"
    ensures |FileName(docType, number, Some(c))| == |TypePart(docType)| + |NumberPart(number)| + |c.name| + 6
  {
  }

  /** A sanitised name is safe, and sanitising it again changes nothing. */
  lemma SanitizeIdempotent(name: string)
    ensures SafeName(Sanitize(name))
    ensures Sanitize(Sanitize(name)) == Sanitize(name)
  {
  }

  /** A name of letters and digits only is kept as it is. */
  lemma SanitizeKeepsAlphanumeric(name: string)
    requires forall k :: 0 <= k < |name| ==> IsAlphanumeric(name[k])
    ensures Sanitize(name) == name
  {
  }

  /** No part is empty; the client part is safe while the type and number
      parts are used as they are. */
  lemma PartsAreNonEmpty(docType: Option<DocumentType>, number: Option<string>, to: Option<Client>)
    ensures TypePart(docType) != [] && NumberPart(number) != [] && ClientPart(to) != []
    ensures SafeName(ClientPart(to))
  {
  }

  /** A new document with no number and no client downloads as
      `invoice-draft-client.pdf`. */
  lemma DefaultFileName()
    ensures FileName(None, None, None) == "invoice-draft-client.pdf"
  {
  }

  /** A client called "Acme & Co." becomes `Acme---Co-`: the space, the '&'
      and the '.' are each replaced. */
  lemma SanitizeExample()
    ensures Sanitize("Acme & Co.") == "Acme---Co-"
  {
    var r := Sanitize("Acme & Co.");
    assert |r| == 10;
    assert r[4] == '-' && r[5] == '-' && r[6] == '-' && r[9] == '-';
    assert r[0] == 'A' && r[1] == 'c' && r[2] == 'm' && r[3] == 'e' && r[7] == 'C' && r[8] == 'o';
  }
}
