/** The hand-written, non-validating XML tokenizer: a cursor over an immutable
    source text, a LIFO pushback list and the last token, which selects between the
    markup grammar and the tag-interior grammar. The pure functions below say what
    each scanning step computes; the class LlmXmlLexer performs the steps in place
    and is proved to agree with them. */
module Lexer {
  import opened Results
  import opened Strings

  datatype Token =
    | NoToken                              // the initial sentinel (Token.None)
    | ElementStart(name: string)
    | ElementStartEnd
    | ElementEnd(endName: Option<string>)
    | AttributeName(attribute: string)
    | AttributeValue(value: string)
    | AttributeEnd
    | Text(content: string)
    | DocumentEnd

  datatype QualifiedName = QualifiedName(name: string, namespace: Option<string>)

  /** After these tokens the next token is read with the markup grammar. */
  predicate MarkupMode(t: Token) {
    t.NoToken? || t.ElementStartEnd? || t.ElementEnd? || t.Text?
  }

  /** After these tokens the next token is read with the tag-interior grammar. */
  predicate TagMode(t: Token) {
    t.ElementStart? || t.AttributeValue? || t.AttributeEnd?
  }

  /** The four characters skipWhitespace consumes. */
  predicate IsXmlSpace(c: char) { c == ' ' || c == '\n' || c == '\t' || c == '\r' }

  function CharAt(s: string, p: nat): Option<char> {
    if p < |s| then Some(s[p]) else None
  }

  // ---------------------------------------------------------------------------
  // Cursor primitives as functions of the source and a position

  /** Where skipWhitespace leaves the cursor. */
  function SkipSpaces(s: string, p: nat): (q: nat)
    requires p <= |s|
    ensures p <= q <= |s|
    ensures q == |s| || !IsXmlSpace(s[q])
    decreases |s| - p
  {
    if p < |s| && IsXmlSpace(s[p]) then SkipSpaces(s, p + 1) else p
  }

  /** skipWhitespace passes over whitespace only. */
  lemma {:induction false} SkipSpacesSkipsOnlySpaces(s: string, p: nat)
    requires p <= |s|
    ensures forall k :: p <= k < SkipSpaces(s, p) ==> IsXmlSpace(s[k])
    decreases |s| - p
  {
    if p < |s| && IsXmlSpace(s[p]) { SkipSpacesSkipsOnlySpaces(s, p + 1); }
  }

  /** Where skipToChar(c) leaves the cursor: just past the first c, or at the end. */
  function SkipTo(s: string, p: nat, c: char): (q: nat)
    requires p <= |s|
    ensures p <= q <= |s|
    ensures q == |s| || (p < q && s[q - 1] == c)
    decreases |s| - p
  {
    if p == |s| then p else if s[p] == c then p + 1 else SkipTo(s, p + 1, c)
  }

  /** skipToChar stops at the first occurrence of c, and reaches the end only when c is absent. */
  lemma {:induction false} SkipToFirst(s: string, p: nat, c: char)
    requires p <= |s|
    ensures var q := SkipTo(s, p, c);
      (p < q && s[q - 1] == c && forall k :: p <= k < q - 1 ==> s[k] != c)
      || (q == |s| && forall k :: p <= k < |s| ==> s[k] != c)
    decreases |s| - p
  {
    if p < |s| && s[p] != c { SkipToFirst(s, p + 1, c); }
  }

  datatype NameKind = ElementNameKind | AttributeNameKind

  /** The characters that end an element name or an attribute name. */
  predicate IsNameDelimiter(kind: NameKind, c: char) {
    match kind
    case ElementNameKind => IsXmlSpace(c) || c == '>' || c == '/'
    case AttributeNameKind => IsXmlSpace(c) || c == '='
  }

  predicate ColonFree(s: string, i: nat, j: nat)
    requires i <= j <= |s|
  {
    forall k :: i <= k < j ==> s[k] != ':'
  }

  /** The name loop of readElementName / readAttributeName from index j, the
      current name starting at start and the namespace seen so far. Each ':'
      makes the text since start the namespace and restarts the name. */
  function ScanName(s: string, kind: NameKind, start: nat, ns: Option<string>, j: nat)
    : (r: Result<(QualifiedName, nat)>)
    requires start <= j <= |s|
    requires ColonFree(s, start, j)
    ensures r.Success? ==> j <= r.value.1 < |s| && IsNameDelimiter(kind, s[r.value.1])
    ensures r.Failure? ==> r.error == UnexpectedEndOfFile
    decreases |s| - j
  {
    if j == |s| then Failure(UnexpectedEndOfFile)
    else if s[j] == ':' then ScanName(s, kind, j + 1, Some(s[start..j]), j + 1)
    else if IsNameDelimiter(kind, s[j]) then Success((QualifiedName(s[start..j], ns), j))
    else ScanName(s, kind, start, ns, j + 1)
  }

  /** A name scan stops at the first delimiter, and fails only when no
      delimiter follows. */
  lemma {:induction false} ScanNameStopsAtFirstDelimiter(s: string, kind: NameKind, start: nat, ns: Option<string>, j: nat)
    requires start <= j <= |s| && ColonFree(s, start, j)
    ensures var r := ScanName(s, kind, start, ns, j);
      (r.Success? ==> forall k :: j <= k < r.value.1 ==> !IsNameDelimiter(kind, s[k]))
      && (r.Failure? ==> forall k :: j <= k < |s| ==> !IsNameDelimiter(kind, s[k]))
    decreases |s| - j
  {
    if j < |s| {
      if s[j] == ':' {
        ScanNameStopsAtFirstDelimiter(s, kind, j + 1, Some(s[start..j]), j + 1);
      } else if !IsNameDelimiter(kind, s[j]) {
        ScanNameStopsAtFirstDelimiter(s, kind, start, ns, j + 1);
      }
    }
  }

  /** n is the colon-free text of s just before index e, preceded by a ':' or by
      index start: the text after the last ':' of s[start..e]. */
  predicate LastSegment(s: string, start: nat, n: string, e: nat) {
    start <= e - |n| && e <= |s| && n == s[e - |n|..e] && ':' !in n
    && (e - |n| == start || s[e - |n| - 1] == ':')
  }

  /** A scanned name is the colon-free text just before the delimiter, preceded
      by a ':' or by the start of the run: the text after the last ':'. */
  lemma {:induction false} ScanNameIsLastSegment(s: string, kind: NameKind, start: nat, ns: Option<string>, j: nat)
    requires start <= j <= |s| && ColonFree(s, start, j)
    requires ScanName(s, kind, start, ns, j).Success?
    ensures LastSegment(s, start, ScanName(s, kind, start, ns, j).value.0.name, ScanName(s, kind, start, ns, j).value.1)
    decreases |s| - j
  {
    if s[j] == ':' {
      assert ScanName(s, kind, start, ns, j) == ScanName(s, kind, j + 1, Some(s[start..j]), j + 1);
      ScanNameIsLastSegment(s, kind, j + 1, Some(s[start..j]), j + 1);
    } else if !IsNameDelimiter(kind, s[j]) {
      assert ScanName(s, kind, start, ns, j) == ScanName(s, kind, start, ns, j + 1);
      ScanNameIsLastSegment(s, kind, start, ns, j + 1);
    } else {
      var n := s[start..j];
      assert ScanName(s, kind, start, ns, j) == Success((QualifiedName(n, ns), j));
      assert forall k :: 0 <= k < |n| ==> n[k] == s[start + k];
    }
  }

  /** readElementName / readAttributeName from position p: the name and the
      position of the (unconsumed) delimiter. */
  function NameAt(s: string, kind: NameKind, p: nat): (r: Result<(QualifiedName, nat)>)
    requires p <= |s|
    ensures r.Success? ==> p <= r.value.1 < |s|
  {
    var q := SkipSpaces(s, p);
    ScanName(s, kind, q, None, q)
  }

  /** The first quote character at or after p, or |s|. */
  function FindQuote(s: string, p: nat): (k: nat)
    requires p <= |s|
    ensures p <= k <= |s| && (k == |s| || s[k] == '\'' || s[k] == '"')
    decreases |s| - p
  {
    if p == |s| || s[p] == '\'' || s[p] == '"' then p else FindQuote(s, p + 1)
  }

  lemma {:induction false} FindQuoteFirst(s: string, p: nat)
    requires p <= |s|
    ensures forall i :: p <= i < FindQuote(s, p) ==> s[i] != '\'' && s[i] != '"'
    decreases |s| - p
  {
    if p < |s| && s[p] != '\'' && s[p] != '"' { FindQuoteFirst(s, p + 1); }
  }

  /** The first index at or after p holding the closing quote, '<' or '&', or |s|. */
  function ValueEnd(s: string, p: nat, quote: char): (k: nat)
    requires p <= |s|
    ensures p <= k <= |s|
    ensures k == |s| || s[k] == quote || s[k] == '<' || s[k] == '&'
    decreases |s| - p
  {
    if p == |s| || s[p] == quote || s[p] == '<' || s[p] == '&' then p
    else ValueEnd(s, p + 1, quote)
  }

  lemma {:induction false} ValueEndFirst(s: string, p: nat, quote: char)
    requires p <= |s|
    ensures forall i :: p <= i < ValueEnd(s, p, quote) ==> s[i] != quote && s[i] != '<' && s[i] != '&'
    decreases |s| - p
  {
    if p < |s| && s[p] != quote && s[p] != '<' && s[p] != '&' { ValueEndFirst(s, p + 1, quote); }
  }

  /** readAttributeValue from position p: the value and the position after its closing quote. */
  function AttributeValueAt(s: string, p: nat): (r: Result<(string, nat)>)
    requires p <= |s|
    ensures r.Success? ==> p + 2 <= r.value.1 <= |s|
  {
    var q := SkipSpaces(s, p);
    var k := FindQuote(s, q);
    if k == |s| then Failure(UnexpectedEndOfFile)
    else
      var e := ValueEnd(s, k + 1, s[k]);
      if e == |s| then Failure(UnexpectedEndOfFile)
      else if s[e] == '<' || s[e] == '&' then Failure(InvalidAttributeCharacter(s[e]))
      else Success((s[k + 1..e], e + 1))
  }

  /** An attribute value is exactly the text between two equal quote characters,
      and it contains neither that quote nor '<' nor '&'. */
  lemma AttributeValueShape(s: string, p: nat)
    requires p <= |s| && AttributeValueAt(s, p).Success?
    ensures var v := AttributeValueAt(s, p).value.0; var e := AttributeValueAt(s, p).value.1;
      e - |v| - 2 >= p
      && (s[e - 1] == '\'' || s[e - 1] == '"') && s[e - |v| - 2] == s[e - 1]
      && v == s[e - |v| - 1..e - 1]
      && s[e - 1] !in v && '<' !in v && '&' !in v
  {
    var q := SkipSpaces(s, p);
    var k := FindQuote(s, q);
    ValueEndFirst(s, k + 1, s[k]);
  }

  /** True when "![CDATA[" starts at index p of s (just after a '<'). */
  predicate CdataOpens(s: string, p: nat) {
    p + 8 <= |s| && s[p] == '!' && s[p + 1] == '[' && s[p + 2] == 'C' && s[p + 3] == 'D'
    && s[p + 4] == 'A' && s[p + 5] == 'T' && s[p + 6] == 'A' && s[p + 7] == '['
  }

  /** A CDATA section whose "![CDATA[" starts at q: its body, copied verbatim,
      and the position after the "]]>" that closes it. */
  function CdataSection(s: string, q: nat): (r: Result<(string, nat)>)
    requires q + 8 <= |s|
    ensures r.Success? ==> q + 11 <= r.value.1 <= |s|
  {
    var end := IndexOf(s, "]]>", q + 8);
    if end < 0 then Failure(SubstringOutOfBounds) else Success((s[q + 8..end], end + 3))
  }

  function PrependText(t: string, r: Result<(string, nat)>): Result<(string, nat)> {
    match r
    case Success((u, e)) => Success((t + u, e))
    case Failure(err) => Failure(err)
  }

  /** The untrimmed text readText gathers from p, and the position of the '<'
      that ends it. CDATA bodies are copied verbatim. */
  function TextScan(s: string, p: nat): (r: Result<(string, nat)>)
    requires p <= |s|
    ensures r.Success? ==> p <= r.value.1 < |s| && s[r.value.1] == '<'
    ensures r.Success? && p < |s| && s[p] != '<' ==> p < r.value.1
    decreases |s| - p
  {
    if p == |s| then Failure(UnexpectedEndOfFile)
    else if s[p] != '<' then PrependText([s[p]], TextScan(s, p + 1))
    else if p + 1 < |s| && s[p + 1] == '!' then
      if p + 9 > |s| then Failure(SubstringOutOfBounds)
      else if CdataOpens(s, p + 1) then
        var c := CdataSection(s, p + 1);
        if c.Failure? then Failure(c.error) else PrependText(c.value.0, TextScan(s, c.value.1))
      else Success(([], p))
    else Success(([], p))
  }

  /** A text run ends at a '<' that does not open a CDATA section. */
  lemma {:induction false} TextScanStopsAtMarkup(s: string, p: nat)
    requires p <= |s| && TextScan(s, p).Success?
    ensures !CdataOpens(s, TextScan(s, p).value.1 + 1)
    decreases |s| - p
  {
    if s[p] != '<' {
      assert TextScan(s, p) == PrependText([s[p]], TextScan(s, p + 1));
      PrependKeepsEnd([s[p]], TextScan(s, p + 1));
      TextScanStopsAtMarkup(s, p + 1);
    } else if p + 1 < |s| && s[p + 1] == '!' && CdataOpens(s, p + 1) {
      var c := CdataSection(s, p + 1);
      assert TextScan(s, p) == PrependText(c.value.0, TextScan(s, c.value.1));
      PrependKeepsEnd(c.value.0, TextScan(s, c.value.1));
      TextScanStopsAtMarkup(s, c.value.1);
    } else {
      assert TextScan(s, p).value.1 == p;
    }
  }

  /** Text put in front of a scan leaves where the scan ends. */
  lemma PrependKeepsEnd(t: string, r: Result<(string, nat)>)
    ensures PrependText(t, r).Success? == r.Success?
    ensures r.Success? ==> PrependText(t, r).value.1 == r.value.1
  {
  }

  /** readText from position p: the trimmed text and the position of its closing '<'. */
  function TextAt(s: string, p: nat): (r: Result<(string, nat)>)
    requires p <= |s|
    ensures r.Success? ==> p <= r.value.1 < |s|
  {
    var t := TextScan(s, SkipSpaces(s, p));
    if t.Success? then Success((Trim(t.value.0), t.value.1)) else Failure(t.error)
  }

  // ---------------------------------------------------------------------------
  // One token: the three grammars of readNextToken

  /** A token, the position after it and the new last token. */
  datatype Lexeme = Lexeme(token: Token, position: nat, last: Token)

  /** "<!" or "<?" at q: a declaration, comment or processing instruction. */
  predicate DeclarationAt(s: string, q: nat) {
    q + 1 < |s| && s[q] == '<' && (s[q + 1] == '!' || s[q + 1] == '?')
  }

  /** The first position at or after p that is neither whitespace nor the start
      of a declaration; each declaration is skipped up to its first '>'. */
  function SkipDeclarations(s: string, p: nat): (q: nat)
    requires p <= |s|
    ensures p <= q <= |s|
    ensures q == |s| || (!IsXmlSpace(s[q]) && !DeclarationAt(s, q))
    decreases |s| - p
  {
    var q := SkipSpaces(s, p);
    if DeclarationAt(s, q) then SkipDeclarations(s, SkipTo(s, q + 1, '>')) else q
  }

  /** An end tag whose '/' is at p (just after the '<'): the name, then
      whitespace, then one more character (the '>') is consumed. */
  function EndTagAt(s: string, p: nat): (r: Result<Lexeme>)
    requires p < |s|
    ensures r.Success? ==> p < r.value.position <= |s| && r.value.last == r.value.token
    ensures r.Success? ==> r.value.token.ElementEnd? && r.value.token.endName.Some?
  {
    match NameAt(s, ElementNameKind, p + 1)
    case Failure(e) => Failure(e)
    case Success((qn, j)) =>
      var k := SkipSpaces(s, j);
      var t := ElementEnd(Some(qn.name));
      Success(Lexeme(t, if k < |s| then k + 1 else k, t))
  }

  /** A start tag whose name starts at p (just after "<"); the delimiter
      after the name is left for the tag-interior grammar. */
  function StartTagAt(s: string, p: nat): (r: Result<Lexeme>)
    requires p <= |s|
    ensures r.Success? ==> p <= r.value.position <= |s| && r.value.last == r.value.token
    ensures r.Success? ==> r.value.token.ElementStart?
  {
    match NameAt(s, ElementNameKind, p)
    case Failure(e) => Failure(e)
    case Success((qn, j)) => Success(Lexeme(ElementStart(qn.name), j, ElementStart(qn.name)))
  }

  /** A text run starting at q. */
  function TextToken(s: string, q: nat): (r: Result<Lexeme>)
    requires q <= |s|
    ensures r.Success? ==> q <= r.value.position < |s| && r.value.last == r.value.token
    ensures r.Success? ==> r.value.token.Text?
    ensures r.Success? && q < |s| && !IsXmlSpace(s[q]) && s[q] != '<' ==> q < r.value.position
  {
    match TextAt(s, q)
    case Failure(e) => Failure(e)
    case Success((t, j)) => Success(Lexeme(Text(t), j, Text(t)))
  }

  /** The markup token at q, once whitespace and declarations are skipped.
      A bare '/' yields a nameless end without updating the last token. */
  function MarkupToken(s: string, q: nat, last: Token): (r: Result<Lexeme>)
    requires q <= |s|
    requires q == |s| || (!IsXmlSpace(s[q]) && !DeclarationAt(s, q))
    ensures r.Success? ==> q <= r.value.position <= |s|
    ensures r.Success? && r.value.token != DocumentEnd ==>
      q < r.value.position && (MarkupMode(r.value.last) || TagMode(r.value.last) || r.value.last == last)
    ensures r.Success? && r.value.token == DocumentEnd ==> r.value.last == DocumentEnd
  {
    if q == |s| then Success(Lexeme(DocumentEnd, q, DocumentEnd))
    else if s[q] == '<' then TagOpeningAt(s, q)
    else if s[q] == '/' then Success(Lexeme(ElementEnd(None), SkipTo(s, q, '>'), last))
    else TextToken(s, q)
  }

  /** After the "<" at q: an end tag when "/" follows it, a start tag otherwise. */
  function TagOpeningAt(s: string, q: nat): (r: Result<Lexeme>)
    requires q < |s| && s[q] == '<'
    ensures r.Success? ==> q < r.value.position <= |s| && r.value.last == r.value.token
    ensures r.Success? ==> (r.value.token.ElementEnd? <==> q + 1 < |s| && s[q + 1] == '/')
    ensures r.Success? ==> r.value.token.ElementStart? || r.value.token.ElementEnd?
  {
    if q + 1 < |s| && s[q + 1] == '/' then EndTagAt(s, q + 1) else StartTagAt(s, q + 1)
  }

  /** Markup mode: skip whitespace and declarations, then read one token. */
  function MarkupStep(s: string, p: nat, last: Token): (r: Result<Lexeme>)
    requires p <= |s|
    ensures r.Success? ==> p <= r.value.position <= |s|
    ensures r.Success? && r.value.token != DocumentEnd ==>
      p < r.value.position && (MarkupMode(r.value.last) || TagMode(r.value.last) || r.value.last == last)
    ensures r.Success? && r.value.token == DocumentEnd ==> r.value.last == DocumentEnd
  {
    MarkupToken(s, SkipDeclarations(s, p), last)
  }

  /** Tag-interior mode: "/" closes the element, ">" ends the start tag,
      anything else is an attribute name. */
  function TagStep(s: string, p: nat): (r: Result<Lexeme>)
    requires p <= |s|
    ensures r.Success? ==> p <= r.value.position <= |s| && r.value.last == r.value.token
    ensures r.Success? ==> r.value.token.ElementEnd? || r.value.token.ElementStartEnd? || r.value.token.AttributeName?
  {
    var q := SkipSpaces(s, p);
    if q < |s| && s[q] == '/' then Success(Lexeme(ElementEnd(None), SkipTo(s, q, '>'), ElementEnd(None)))
    else if q < |s| && s[q] == '>' then Success(Lexeme(ElementStartEnd, q + 1, ElementStartEnd))
    else
      match NameAt(s, AttributeNameKind, q)
      case Failure(e) => Failure(e)
      case Success((qn, j)) => Success(Lexeme(AttributeName(qn.name), j, AttributeName(qn.name)))
  }

  /** After an attribute name: "=" introduces a value, anything else ends the attribute. */
  function AttributeStep(s: string, p: nat): (r: Result<Lexeme>)
    requires p <= |s|
    ensures r.Success? ==> p <= r.value.position <= |s| && r.value.last == r.value.token
    ensures r.Success? ==> r.value.token.AttributeValue? || r.value.token.AttributeEnd?
  {
    var q := SkipSpaces(s, p);
    if q < |s| && s[q] == '=' then
      match AttributeValueAt(s, q + 1)
      case Failure(e) => Failure(e)
      case Success((v, j)) => Success(Lexeme(AttributeValue(v), j, AttributeValue(v)))
    else Success(Lexeme(AttributeEnd, q, AttributeEnd))
  }

  /** readNextToken with an empty pushback, as a function of the position and the last token. */
  function Step(s: string, p: nat, last: Token): (r: Result<Lexeme>)
    requires p <= |s|
    ensures r.Success? ==> p <= r.value.position <= |s|
    ensures r.Success? && r.value.token == DocumentEnd ==> r.value.last == DocumentEnd
    ensures last == DocumentEnd ==> r == Success(Lexeme(DocumentEnd, p, DocumentEnd))
  {
    if last.DocumentEnd? then Success(Lexeme(DocumentEnd, p, DocumentEnd))
    else if MarkupMode(last) then MarkupStep(s, p, last)
    else if TagMode(last) then TagStep(s, p)
    else AttributeStep(s, p)
  }

  // ---------------------------------------------------------------------------
  // The token stream

  /** How a stream ends once its tokens are used up: DocumentEnd forever, or a failure. */
  datatype StreamEnd = AtDocumentEnd | AtFailure(error: Error)

  /** Everything the lexer will still return: the tokens in order, then its end. */
  datatype TokenStream = TokenStream(tokens: seq<Token>, end: StreamEnd)

  /** Reading one token from a stream. */
  function Read(st: TokenStream): (r: (Result<Token>, TokenStream))
    ensures |r.1.tokens| <= |st.tokens| && r.1.end == st.end
    ensures r.0.Success? && r.0.value != DocumentEnd ==> |r.1.tokens| == |st.tokens| - 1
    ensures st.tokens == [] ==> r.1 == st && (r.0.Success? <==> st.end.AtDocumentEnd?)
  {
    if st.tokens != [] then (Success(st.tokens[0]), TokenStream(st.tokens[1..], st.end))
    else match st.end
      case AtDocumentEnd => (Success(DocumentEnd), st)
      case AtFailure(e) => (Failure(e), st)
  }

  /** Pushing a token back puts it in front of the stream. */
  function Unread(t: Token, st: TokenStream): TokenStream {
    TokenStream([t] + st.tokens, st.end)
  }

  /** A token put in front of a stream is the next one read, and the stream is left. */
  lemma ReadUnread(t: Token, st: TokenStream)
    ensures Read(Unread(t, st)) == (Success(t), st)
  {
    assert ([t] + st.tokens)[1..] == st.tokens;
  }

  /** A ranking that every token other than DocumentEnd strictly lowers. */
  function Measure(s: string, p: nat, last: Token): nat
    requires p <= |s|
  {
    4 * (|s| - p) + Rank(s, p, last)
  }

  function Rank(s: string, p: nat, last: Token): (r: nat)
    requires p <= |s|
    ensures r <= 3
  {
    if TagMode(last) then
      var q := SkipSpaces(s, p);
      if q < |s| && s[q] == '=' then 3 else 1
    else if last.AttributeName? then 2
    else 0
  }

  lemma StepLowersMeasure(s: string, p: nat, last: Token)
    requires p <= |s|
    requires Step(s, p, last).Success? && Step(s, p, last).value.token != DocumentEnd
    ensures Measure(s, Step(s, p, last).value.position, Step(s, p, last).value.last) < Measure(s, p, last)
  {
    var x := Step(s, p, last).value;
    var q := SkipSpaces(s, p);
    if TagMode(last) {
      if q < |s| && (s[q] == '/' || s[q] == '>') {
      } else {
        var n := NameAt(s, AttributeNameKind, q);
        assert q < |s| && q <= n.value.1;
      }
    } else if last.AttributeName? {
      if q < |s| && s[q] == '=' {
      } else {
        assert SkipSpaces(s, q) == q;
      }
    }
  }

  /** The whole stream the lexer produces from position p after the token last. */
  ghost function Lex(s: string, p: nat, last: Token): (st: TokenStream)
    requires p <= |s|
    decreases Measure(s, p, last)
  {
    match Step(s, p, last)
    case Failure(e) => TokenStream([], AtFailure(e))
    case Success(x) =>
      if x.token == DocumentEnd then TokenStream([], AtDocumentEnd)
      else
        StepLowersMeasure(s, p, last);
        var rest := Lex(s, x.position, x.last);
        TokenStream([x.token] + rest.tokens, rest.end)
  }

  /** Reading from the stream is taking one step of the lexer. */
  lemma LexReads(s: string, p: nat, last: Token)
    requires p <= |s|
    ensures Step(s, p, last).Failure? ==> Read(Lex(s, p, last)) == (Failure(Step(s, p, last).error), Lex(s, p, last))
    ensures Step(s, p, last).Success? ==>
      var x := Step(s, p, last).value;
      Read(Lex(s, p, last)) == (Success(x.token), Lex(s, x.position, x.last))
  {
    if Step(s, p, last).Success? && Step(s, p, last).value.token == DocumentEnd {
      LexAfterDocumentEnd(s, Step(s, p, last).value.position);
    }
  }

  /** A token read by one step of the lexer, with nothing pushed back, is the
      first of the stream, and the stream after it is what the lexer produces from
      its new state. */
  lemma LexFollows(s: string, p: nat, last: Token, r: Result<Token>, p': nat, last': Token)
    requires p <= |s| && p' <= |s| && Follows(Step(s, p, last), r, p', last')
    ensures var st := Lex(s, p, last);
      var st' := Lex(s, p', last');
      var empty: seq<Token> := [];
      r == Read(TokenStream(Reversed(empty) + st.tokens, st.end)).0
      && (r.Success? ==> TokenStream(Reversed(empty) + st'.tokens, st'.end) == Read(TokenStream(Reversed(empty) + st.tokens, st.end)).1)
  {
    LexReads(s, p, last);
    var st := Lex(s, p, last);
    var st' := Lex(s, p', last');
    var empty: seq<Token> := [];
    assert Reversed(empty) + st.tokens == st.tokens;
    assert Reversed(empty) + st'.tokens == st'.tokens;
  }

  /** Once the last token is DocumentEnd the stream is DocumentEnd forever. */
  lemma LexAfterDocumentEnd(s: string, p: nat)
    requires p <= |s|
    ensures Lex(s, p, DocumentEnd) == TokenStream([], AtDocumentEnd)
  {
  }

  // ---------------------------------------------------------------------------
  // Properties of the token grammar

  /** Two pushed-back tokens are read back last-in first-out, and then the
      stream is exactly as it was. */
  lemma PushBackIsLifo(a: Token, b: Token, st: TokenStream)
    ensures Read(Unread(b, Unread(a, st))).0 == Success(b)
    ensures Read(Read(Unread(b, Unread(a, st))).1).0 == Success(a)
    ensures Read(Read(Unread(b, Unread(a, st))).1).1 == st
  {
    assert ([b] + ([a] + st.tokens))[1..] == [a] + st.tokens;
    assert ([a] + st.tokens)[1..] == st.tokens;
  }

  /** skipWhitespace over a blank rest of input reaches the end. */
  lemma {:induction false} SkipSpacesOverBlank(s: string, p: nat)
    requires p <= |s| && forall k :: p <= k < |s| ==> IsXmlSpace(s[k])
    ensures SkipSpaces(s, p) == |s|
    decreases |s| - p
  {
    if p < |s| { SkipSpacesOverBlank(s, p + 1); }
  }

  /** In markup mode, only whitespace before the end of input gives DocumentEnd,
      and DocumentEnd is then returned forever. */
  lemma MarkupAtEndOfInput(s: string, p: nat, last: Token)
    requires p <= |s| && MarkupMode(last)
    requires forall k :: p <= k < |s| ==> IsXmlSpace(s[k])
    ensures Step(s, p, last) == Success(Lexeme(DocumentEnd, |s|, DocumentEnd))
    ensures Lex(s, p, last) == TokenStream([], AtDocumentEnd)
  {
    SkipSpacesOverBlank(s, p);
  }

  /** A name made of characters that neither end it nor separate a namespace. */
  predicate PlainName(n: string, kind: NameKind) {
    forall k :: 0 <= k < |n| ==> !IsNameDelimiter(kind, n[k]) && n[k] != ':'
  }

  /** A scan over a plain run of characters ends at the delimiter after it. */
  lemma {:induction false} ScanNameOverRun(s: string, kind: NameKind, start: nat, ns: Option<string>, j: nat, e: nat)
    requires start <= j <= e < |s| && ColonFree(s, start, e)
    requires forall k :: j <= k < e ==> !IsNameDelimiter(kind, s[k])
    requires IsNameDelimiter(kind, s[e])
    ensures ScanName(s, kind, start, ns, j) == Success((QualifiedName(s[start..e], ns), e))
    decreases e - j
  {
    if j < e { ScanNameOverRun(s, kind, start, ns, j + 1, e); }
  }

  /** The name read is the text after the last ':' of the scanned run. */
  lemma NameIsTextAfterLastColon(s: string, kind: NameKind, p: nat)
    requires p <= |s| && NameAt(s, kind, p).Success?
    ensures var q := SkipSpaces(s, p); var e := NameAt(s, kind, p).value.1;
      NameAt(s, kind, p).value.0.name == SubstringAfterLast(s[q..e], ':')
  {
    var q := SkipSpaces(s, p);
    var n := NameAt(s, kind, p).value.0.name;
    var e := NameAt(s, kind, p).value.1;
    ScanNameIsLastSegment(s, kind, q, None, q);
    var y := s[q..e - |n|];
    assert y + n == s[q..e];
    SubstringAfterLastOfSuffix(y, n, ':');
  }

  /** "</n>" in markup mode yields ElementEnd(n) and consumes the whole tag. */
  lemma EndTagRecognised(s: string, q: nat, n: string, last: Token)
    requires MarkupMode(last) && PlainName(n, ElementNameKind)
    requires q + |n| + 3 <= |s| && s[q] == '<' && s[q + 1] == '/'
    requires s[q + 2..q + 2 + |n|] == n && s[q + 2 + |n|] == '>'
    ensures MarkupStep(s, q, last) == Success(Lexeme(ElementEnd(Some(n)), q + |n| + 3, ElementEnd(Some(n))))
  {
    var e := q + 2 + |n|;
    assert forall k :: 0 <= k < |n| ==> s[q + 2 + k] == n[k];
    assert SkipDeclarations(s, q) == q;
    assert SkipSpaces(s, q + 2) == q + 2 by {
      if |n| > 0 { assert s[q + 2] == n[0]; }
    }
    ScanNameOverRun(s, ElementNameKind, q + 2, None, q + 2, e);
    assert NameAt(s, ElementNameKind, q + 2) == Success((QualifiedName(n, None), e));
    assert SkipSpaces(s, e) == e;
  }

  /** "<n" followed by a delimiter yields ElementStart(n) and stops at the delimiter. */
  lemma StartTagRecognised(s: string, q: nat, n: string, last: Token)
    requires MarkupMode(last) && PlainName(n, ElementNameKind)
    requires |n| > 0 && n[0] != '!' && n[0] != '?'
    requires q + |n| + 1 < |s| && s[q] == '<' && s[q + 1..q + 1 + |n|] == n
    requires IsNameDelimiter(ElementNameKind, s[q + 1 + |n|])
    ensures MarkupStep(s, q, last) == Success(Lexeme(ElementStart(n), q + 1 + |n|, ElementStart(n)))
  {
    var e := q + 1 + |n|;
    assert forall k :: 0 <= k < |n| ==> s[q + 1 + k] == n[k];
    assert s[q + 1] == n[0];
    ScanNameOverRun(s, ElementNameKind, q + 1, None, q + 1, e);
  }

  /** A comment, declaration or processing instruction is skipped through its first '>'. */
  lemma DeclarationSkipped(s: string, p: nat, last: Token)
    requires p <= |s| && DeclarationAt(s, SkipSpaces(s, p))
    ensures MarkupStep(s, p, last) == MarkupStep(s, SkipTo(s, SkipSpaces(s, p) + 1, '>'), last)
  {
  }

  /** Text without any '<' up to the end of the input fails: the text must be closed. */
  lemma {:induction false} TextWithoutMarkupFails(s: string, p: nat)
    requires p <= |s| && forall k :: p <= k < |s| ==> s[k] != '<'
    ensures TextScan(s, p) == Failure(UnexpectedEndOfFile)
    decreases |s| - p
  {
    if p < |s| { TextWithoutMarkupFails(s, p + 1); }
  }

  /** Plain text runs up to, and not including, a '<' that opens no CDATA section. */
  lemma {:induction false} TextScanPlainRun(s: string, p: nat, e: nat)
    requires p <= e < |s| && s[e] == '<' && forall k :: p <= k < e ==> s[k] != '<'
    requires e + 1 == |s| || s[e + 1] != '!'
    ensures TextScan(s, p) == Success((s[p..e], e))
    decreases e - p
  {
    if p < e {
      TextScanPlainRun(s, p + 1, e);
      assert [s[p]] + s[p + 1..e] == s[p..e];
    } else {
      assert s[p..e] == [];
      assert TextScan(s, p) == Success(([], p));
    }
  }

  /** A CDATA section contributes its body verbatim, '<' and '&' included, and
      the text goes on after the first "]]>". */
  lemma CdataCopiedVerbatim(s: string, p: nat, e: nat)
    requires p < |s| && s[p] == '<' && CdataOpens(s, p + 1) && p + 9 <= e && OccursAt(s, "]]>", e)
    requires forall k :: p + 9 <= k < e ==> !OccursAt(s, "]]>", k)
    ensures TextScan(s, p) == PrependText(s[p + 9..e], TextScan(s, e + 3))
  {
    IndexOfFinds(s, "]]>", p + 9, e);
    assert CdataSection(s, p + 1) == Success((s[p + 9..e], e + 3));
  }

  /** In markup mode, text is returned trimmed and ends just before the '<'. */
  lemma TextTokenRecognised(s: string, q: nat, e: nat, last: Token)
    requires MarkupMode(last) && q < e < |s|
    requires !IsXmlSpace(s[q]) && s[q] != '/'
    requires s[e] == '<' && (e + 1 == |s| || s[e + 1] != '!')
    requires forall k :: q <= k < e ==> s[k] != '<'
    ensures MarkupStep(s, q, last) == Success(Lexeme(Text(Trim(s[q..e])), e, Text(Trim(s[q..e]))))
  {
    TextScanPlainRun(s, q, e);
  }

  /** In tag mode, a plain name is an attribute name and ends at its delimiter. */
  lemma AttributeNameRecognised(s: string, p: nat, n: string, last: Token)
    requires TagMode(last) && PlainName(n, AttributeNameKind)
    requires |n| > 0 && n[0] != '/' && n[0] != '>'
    requires p + |n| < |s| && s[p..p + |n|] == n && IsNameDelimiter(AttributeNameKind, s[p + |n|])
    ensures Step(s, p, last) == Success(Lexeme(AttributeName(n), p + |n|, AttributeName(n)))
  {
    var e := p + |n|;
    assert forall k :: 0 <= k < |n| ==> s[p + k] == n[k];
    assert s[p] == n[0];
    ScanNameOverRun(s, AttributeNameKind, p, None, p, e);
  }

  /** After an attribute name, ="v" is its value; the closing quote is consumed. */
  lemma AttributeValueRecognised(s: string, p: nat, n: string, v: string)
    requires p + |v| + 3 <= |s| && s[p] == '=' && s[p + 1] == '"'
    requires s[p + 2..p + 2 + |v|] == v && s[p + 2 + |v|] == '"'
    requires '"' !in v && '<' !in v && '&' !in v
    ensures Step(s, p, AttributeName(n)) == Success(Lexeme(AttributeValue(v), p + |v| + 3, AttributeValue(v)))
  {
    assert forall k :: 0 <= k < |v| ==> s[p + 2 + k] == v[k];
    ValueEndOverRun(s, p + 2, p + 2 + |v|, '"');
  }

  /** The value scan runs to the closing quote over a run free of it, '<' and '&'. */
  lemma {:induction false} ValueEndOverRun(s: string, p: nat, e: nat, quote: char)
    requires p <= e < |s| && s[e] == quote
    requires forall k :: p <= k < e ==> s[k] != quote && s[k] != '<' && s[k] != '&'
    ensures ValueEnd(s, p, quote) == e
    decreases e - p
  {
    if p < e { ValueEndOverRun(s, p + 1, e, quote); }
  }

  /** The last element put on is the first one of the reversal. */
  /** A token pushed on top of the pushback list comes out in front of the stream
      the list and the rest of the input make. */
  lemma PushedInFront(pushback: seq<Token>, t: Token, rest: TokenStream)
    ensures TokenStream(Reversed(pushback + [t]) + rest.tokens, rest.end)
      == Unread(t, TokenStream(Reversed(pushback) + rest.tokens, rest.end))
  {
    ReversedSnoc(pushback, t);
    assert ([t] + Reversed(pushback)) + rest.tokens == [t] + (Reversed(pushback) + rest.tokens);
  }

  lemma ReversedSnoc<T>(xs: seq<T>, x: T)
    ensures Reversed(xs + [x]) == [x] + Reversed(xs)
  {
    assert (xs + [x])[..|xs|] == xs;
  }

  function Reversed<T>(xs: seq<T>): (r: seq<T>)
    ensures |r| == |xs|
    ensures forall k :: 0 <= k < |xs| ==> r[k] == xs[|xs| - 1 - k]
  {
    if xs == [] then [] else [xs[|xs| - 1]] + Reversed(xs[..|xs| - 1])
  }

  lemma ScanNameOnward(s: string, kind: NameKind, start: nat, ns: Option<string>, j: nat)
    requires start <= j <= |s| && ColonFree(s, start, j)
    ensures j == |s| ==> ScanName(s, kind, start, ns, j) == Failure(UnexpectedEndOfFile)
    ensures j < |s| ==> ScanNameUnfolds(s, kind, start, ns, j)
  {
    if j < |s| { ScanNameUnfold(s, kind, start, ns, j); }
  }

  ghost predicate ScanNameUnfolds(s: string, kind: NameKind, start: nat, ns: Option<string>, j: nat)
    requires start <= j < |s| && ColonFree(s, start, j)
  {
    && (s[j] == ':' ==>
      ScanName(s, kind, start, ns, j) == ScanName(s, kind, j + 1, Some(s[start..j]), j + 1))
    && (s[j] != ':' && IsNameDelimiter(kind, s[j]) ==>
      ScanName(s, kind, start, ns, j) == Success((QualifiedName(s[start..j], ns), j)))
    && (s[j] != ':' && !IsNameDelimiter(kind, s[j]) ==>
      ColonFree(s, start, j + 1) && ScanName(s, kind, start, ns, j) == ScanName(s, kind, start, ns, j + 1))
  }

  lemma ScanNameUnfold(s: string, kind: NameKind, start: nat, ns: Option<string>, j: nat)
    requires start <= j < |s| && ColonFree(s, start, j)
    ensures s[j] == ':' ==>
      ScanName(s, kind, start, ns, j) == ScanName(s, kind, j + 1, Some(s[start..j]), j + 1)
    ensures s[j] != ':' && IsNameDelimiter(kind, s[j]) ==>
      ScanName(s, kind, start, ns, j) == Success((QualifiedName(s[start..j], ns), j))
    ensures s[j] != ':' && !IsNameDelimiter(kind, s[j]) ==>
      ColonFree(s, start, j + 1) && ScanName(s, kind, start, ns, j) == ScanName(s, kind, start, ns, j + 1)
  {

  }

  /** The text loop after a '<' at q - 1. */
  lemma TextAfterBracket(s: string, q: nat)
    requires 1 <= q <= |s| && s[q - 1] == '<'
    ensures q < |s| && s[q] == '!' && q + 8 > |s| ==> TextScan(s, q - 1) == Failure(SubstringOutOfBounds)
    ensures q < |s| && s[q] == '!' && CdataOpens(s, q) ==>
      var c := CdataSection(s, q);
      (c.Failure? ==> TextScan(s, q - 1) == Failure(c.error))
      && (c.Success? ==> TextScan(s, q - 1) == PrependText(c.value.0, TextScan(s, c.value.1)))
    ensures !(q < |s| && s[q] == '!' && (q + 8 > |s| || CdataOpens(s, q))) ==>
      TextScan(s, q - 1) == Success(([], q - 1))
  {
  }

  /** The text loop after any other character at q - 1. */
  lemma TextAfterChar(s: string, q: nat)
    requires 1 <= q <= |s| && s[q - 1] != '<'
    ensures TextScan(s, q - 1) == PrependText([s[q - 1]], TextScan(s, q))
  {
  }

  lemma PrependOnto(t: string, p: nat)
    ensures PrependText(t, Success(([], p))) == Success((t, p))
  {
    assert t + [] == t;
  }

  lemma PrependFailure(t: string, e: Error)
    ensures PrependText(t, Failure(e)) == Failure(e)
  {
  }

  lemma PrependNothing(r: Result<(string, nat)>)
    ensures PrependText([], r) == r
  {
    if r.Success? { assert [] + r.value.0 == r.value.0; }
  }

  lemma PrependTwice(a: string, b: string, r: Result<(string, nat)>)
    ensures PrependText(a, PrependText(b, r)) == PrependText(a + b, r)
  {
    if r.Success? { assert a + (b + r.value.0) == (a + b) + r.value.0; }
  }


  /** The result of one scanning step agrees with its specification. */
  ghost predicate Yields<T>(spec: Result<(T, nat)>, r: Result<T>, p: nat) {
    && r.Success? == spec.Success?
    && (spec.Success? ==> r.value == spec.value.0 && p == spec.value.1)
    && (spec.Failure? ==> r.error == spec.error)
  }

  ghost predicate Follows(spec: Result<Lexeme>, r: Result<Token>, p: nat, last: Token) {
    && r.Success? == spec.Success?
    && (spec.Success? ==> r.value == spec.value.token && p == spec.value.position && last == spec.value.last)
    && (spec.Failure? ==> r.error == spec.error)
  }

  // ---------------------------------------------------------------------------
  // The lexer object

  class LlmXmlLexer {
    const source: string
    var position: nat
    /** Pushed-back tokens; the last one is returned first. */
    var pushback: seq<Token>
    var lastToken: Token

    ghost predicate Valid()
      reads this
    {
      position <= |source|
    }

    /** What the lexer will return from now on. */
    ghost function Stream(): TokenStream
      reads this
      requires Valid()
    {
      var rest := Lex(source, position, lastToken);
      TokenStream(Reversed(pushback) + rest.tokens, rest.end)
    }

    constructor (source: string)
      ensures Valid() && this.source == source
      ensures position == 0 && pushback == [] && lastToken == NoToken
    {
      this.source := source;
      position := 0;
      pushback := [];
      lastToken := NoToken;
    }

    /** copy(): same source, position and last token, but an empty pushback. */
    method Copy() returns (other: LlmXmlLexer)
      requires Valid()
      ensures fresh(other) && other.Valid()
      ensures other.source == source && other.position == position
      ensures other.lastToken == lastToken && other.pushback == []
      ensures other.Stream() == Lex(source, position, lastToken)
    {
      other := new LlmXmlLexer(source);
      other.position := position;
      other.lastToken := lastToken;
    }

    /** next(): the character under the cursor, advancing past it; None at the end. */
    method Next() returns (c: Option<char>)
      requires Valid()
      modifies this`position
      ensures Valid() && c == CharAt(source, old(position))
      ensures position == if old(position) < |source| then old(position) + 1 else old(position)
    {
      if position < |source| {
        c := Some(source[position]);
        position := position + 1;
      } else {
        c := None;
      }
    }

    /** peek(): the character under the cursor, without moving. */
    method Peek() returns (c: Option<char>)
      requires Valid()
      ensures c == CharAt(source, position)
    {
      c := if position < |source| then Some(source[position]) else None;
    }

    method SkipToChar(ch: char)
      requires Valid()
      modifies this`position
      ensures Valid() && position == SkipTo(source, old(position), ch)
    {
      var c := Next();
      while c != None
        invariant Valid() && old(position) <= position
        invariant c == None ==> position == |source| && SkipTo(source, old(position), ch) == |source|
        invariant c != None ==> (old(position) < position && c == Some(source[position - 1])
          && SkipTo(source, old(position), ch) == SkipTo(source, position - 1, ch))
        decreases |source| - position + (if c == None then 0 else 1)
      {
        if c == Some(ch) { return; }
        c := Next();
      }
    }

    method SkipWhitespace()
      requires Valid()
      modifies this`position
      ensures Valid() && position == SkipSpaces(source, old(position))
    {
      var c := Peek();
      while c != None
        invariant Valid() && c == CharAt(source, position)
        invariant SkipSpaces(source, old(position)) == SkipSpaces(source, position)
        decreases |source| - position
      {
        if IsXmlSpace(c.value) {
          c := Next();
          c := Peek();
        } else {
          return;
        }
      }
    }

    /** requireChar(ch): skips whitespace and demands ch under the cursor. */
    method RequireChar(ch: char) returns (r: Outcome)
      requires Valid()
      modifies this`position
      ensures Valid() && position == SkipSpaces(source, old(position))
      ensures r == if position == |source| then Fail(UnexpectedEndOfFile)
                   else if source[position] != ch then Fail(UnexpectedCharacter(source[position], ch))
                   else Pass
    {
      SkipWhitespace();
      var c := Peek();
      if c == None { return Fail(UnexpectedEndOfFile); }
      if c != Some(ch) { return Fail(UnexpectedCharacter(c.value, ch)); }
      r := Pass;
    }

    /** readElementName(): the name up to a delimiter, which stays unconsumed. */
    method ReadElementName() returns (r: Result<QualifiedName>)
      requires Valid()
      modifies this`position
      ensures Valid() && Yields(NameAt(source, ElementNameKind, old(position)), r, position)
    {
      SkipWhitespace();
      var start: nat := position;
      var namespace: Option<string> := None;
      while true
        invariant Valid() && start <= position
        invariant ColonFree(source, start, position)
        invariant NameAt(source, ElementNameKind, old(position))
               == ScanName(source, ElementNameKind, start, namespace, position)
        decreases |source| - position
      {
        ghost var p := position;
        ScanNameOnward(source, ElementNameKind, start, namespace, p);
        var c := Next();
        if c == None { return Failure(UnexpectedEndOfFile); }
        if c == Some(':') {
          namespace := Some(source[start..position - 1]);
          start := position;
        } else if IsNameDelimiter(ElementNameKind, c.value) {
          break;
        }
      }
      position := position - 1;
      r := Success(QualifiedName(source[start..position], namespace));
    }

    /** readAttributeName(): like readElementName with '=' as delimiter and
        '>' or '/' allowed in the name. */
    method ReadAttributeName() returns (r: Result<QualifiedName>)
      requires Valid()
      modifies this`position
      ensures Valid() && Yields(NameAt(source, AttributeNameKind, old(position)), r, position)
    {
      SkipWhitespace();
      var start: nat := position;
      var namespace: Option<string> := None;
      while true
        invariant Valid() && start <= position
        invariant ColonFree(source, start, position)
        invariant NameAt(source, AttributeNameKind, old(position))
               == ScanName(source, AttributeNameKind, start, namespace, position)
        decreases |source| - position
      {
        ScanNameOnward(source, AttributeNameKind, start, namespace, position);
        var c := Peek();
        if c == None { return Failure(UnexpectedEndOfFile); }
        if c == Some(':') {
          namespace := Some(source[start..position]);
          position := position + 1;
          start := position;
        } else if IsNameDelimiter(AttributeNameKind, c.value) {
          break;
        } else {
          position := position + 1;
        }
      }
      r := Success(QualifiedName(source[start..position], namespace));
    }

    /** readAttributeValue(): the characters between a quote and the next same quote. */
    method ReadAttributeValue() returns (r: Result<string>)
      requires Valid()
      modifies this`position
      ensures Valid() && Yields(AttributeValueAt(source, old(position)), r, position)
    {
      ghost var spec := AttributeValueAt(source, position);
      SkipWhitespace();
      ghost var q := position;
      var quote := SkipToQuote();
      if quote == None {
        assert spec == Failure(UnexpectedEndOfFile);
        return Failure(UnexpectedEndOfFile);
      }
      ghost var k := position - 1;
      var valueStart := position;
      var c := Next();
      while true
        invariant Valid() && valueStart <= position
        invariant c == None ==> position == |source| && ValueEnd(source, valueStart, quote.value) == |source|
        invariant c != None ==> (valueStart < position && c == Some(source[position - 1])
          && ValueEnd(source, valueStart, quote.value) == ValueEnd(source, position - 1, quote.value))
        decreases |source| - position + (if c == None then 0 else 1)
      {
        if c == None {
          assert spec == Failure(UnexpectedEndOfFile);
          return Failure(UnexpectedEndOfFile);
        }
        if c.value == '<' || c.value == '&' {
          assert spec == Failure(InvalidAttributeCharacter(c.value));
          return Failure(InvalidAttributeCharacter(c.value));
        }
        if c.value == quote.value { break; }
        c := Next();
      }
      assert spec == Success((source[valueStart..position - 1], position));
      r := Success(source[valueStart..position - 1]);
    }

    /** The first loop of readAttributeValue: characters up to and including the
        opening quote are consumed. */
    method SkipToQuote() returns (quote: Option<char>)
      requires Valid()
      modifies this`position
      ensures Valid()
      ensures quote == None ==> position == |source| && FindQuote(source, old(position)) == |source|
      ensures quote != None ==>
        position == FindQuote(source, old(position)) + 1 <= |source| && quote == Some(source[position - 1])
    {
      ghost var q := position;
      quote := Next();
      while quote != None && quote != Some('\'') && quote != Some('"')
        invariant Valid() && q <= position
        invariant quote == None ==> position == |source| && FindQuote(source, q) == |source|
        invariant quote != None ==> (q < position && quote == Some(source[position - 1])
          && FindQuote(source, q) == FindQuote(source, position - 1))
        decreases |source| - position + (if quote == None then 0 else 1)
      {
        quote := Next();
      }
    }

    /** readText(): the trimmed text up to the next '<' that does not open a CDATA section. */
    method ReadText() returns (r: Result<string>)
      requires Valid()
      modifies this`position
      ensures Valid() && Yields(TextAt(source, old(position)), r, position)
    {
      SkipWhitespace();
      var text := ScanText();
      if text.Failure? {
        return Failure(text.error);
      }
      r := Success(Trim(text.value));
    }

    /** The loop of readText: the untrimmed text, CDATA bodies included, up to the
        '<' that ends it, where the cursor is left. */
    method ScanText() returns (r: Result<string>)
      requires Valid()
      modifies this`position
      ensures Valid() && Yields(TextScan(source, old(position)), r, position)
    {
      ghost var q := position;
      var text: string := [];
      PrependNothing(TextScan(source, q));
      while true
        invariant Valid() && q <= position
        invariant TextScan(source, q) == PrependText(text, TextScan(source, position))
        decreases |source| - position
      {
        ghost var p := position;
        var c := Next();
        if c == None {
          PrependFailure(text, UnexpectedEndOfFile);
          assert TextScan(source, q) == Failure(UnexpectedEndOfFile);
          return Failure(UnexpectedEndOfFile);
        }
        assert p == position - 1;
        if c.value == '<' {
          TextAfterBracket(source, position);
          var d := Peek();
          if d == Some('!') && position + 8 > |source| {
            PrependFailure(text, SubstringOutOfBounds);
            assert TextScan(source, q) == Failure(SubstringOutOfBounds);
            return Failure(SubstringOutOfBounds);
          } else if d == Some('!') && CdataOpens(source, position) {
            var body := ReadCdataSection();
            if body.Failure? {
              PrependFailure(text, body.error);
              assert TextScan(source, q) == Failure(body.error);
              return Failure(body.error);
            }
            PrependTwice(text, body.value, TextScan(source, position));
            text := text + body.value;
          } else {
            position := position - 1;
            PrependOnto(text, position);
            break;
          }
        } else {
          TextAfterChar(source, position);
          PrependTwice(text, [c.value], TextScan(source, position));
          text := text + [c.value];
        }
      }
      assert TextScan(source, q) == Success((text, position));
      r := Success(text);
    }

    /** The CDATA branch of readText; the cursor is on the '!' of "![CDATA[". */
    method ReadCdataSection() returns (r: Result<string>)
      requires Valid() && position + 8 <= |source|
      modifies this`position
      ensures Valid() && Yields(CdataSection(source, old(position)), r, position)
    {
      position := position + 8;
      var end := IndexOf(source, "]]>", position);
      if end < 0 { return Failure(SubstringOutOfBounds); }
      r := Success(source[position..end]);
      position := end + 3;
    }

    /** pushBack(token): the token is returned by the next read. */
    method PushBack(token: Token)
      requires Valid()
      modifies this`pushback
      ensures Valid() && pushback == old(pushback) + [token]
      ensures Stream() == Unread(token, old(Stream()))
    {
      PushedInFront(pushback, token, Lex(source, position, lastToken));
      pushback := pushback + [token];
    }

    /** "</name" followed by whitespace and one more character; the cursor is on the '/'. */
    method ReadEndTag() returns (r: Result<Token>)
      requires Valid() && position < |source|
      modifies this`position, this`lastToken
      ensures Valid() && Follows(EndTagAt(source, old(position)), r, position, lastToken)
    {
      var _ := Next();
      var name := ReadElementName();
      if name.Failure? { return Failure(name.error); }
      SkipWhitespace();
      var _ := Next();
      lastToken := ElementEnd(Some(name.value.name));
      r := Success(lastToken);
    }

    /** "<name"; the cursor is just after the '<'. */
    method ReadStartTag() returns (r: Result<Token>)
      requires Valid()
      modifies this`position, this`lastToken
      ensures Valid() && Follows(StartTagAt(source, old(position)), r, position, lastToken)
    {
      var name := ReadElementName();
      if name.Failure? { return Failure(name.error); }
      lastToken := ElementStart(name.value.name);
      r := Success(lastToken);
    }

    method ReadTextToken() returns (r: Result<Token>)
      requires Valid()
      modifies this`position, this`lastToken
      ensures Valid() && Follows(TextToken(source, old(position)), r, position, lastToken)
    {
      var text := ReadText();
      if text.Failure? { return Failure(text.error); }
      lastToken := Text(text.value);
      r := Success(lastToken);
    }

    /** The skipping loop of the markup branch: whitespace, then any number of
        declarations each followed by whitespace. */
    method SkipMarkupDeclarations()
      requires Valid()
      modifies this`position
      ensures Valid() && position == SkipDeclarations(source, old(position))
    {
      SkipWhitespace();
      while DeclarationAt(source, position)
        invariant Valid() && SkipDeclarations(source, old(position)) == SkipDeclarations(source, position)
        invariant position == |source| || !IsXmlSpace(source[position])
        decreases |source| - position
      {
        position := position + 1;
        SkipToChar('>');
        SkipWhitespace();
      }
    }

    /** The markup branch of readNextToken. */
    method ReadMarkup() returns (r: Result<Token>)
      requires Valid() && MarkupMode(lastToken)
      modifies this`position, this`lastToken
      ensures Valid() && Follows(MarkupStep(source, old(position), old(lastToken)), r, position, lastToken)
    {
      ghost var spec := MarkupStep(source, position, lastToken);
      SkipMarkupDeclarations();
      ghost var q := position;
      assert spec == MarkupToken(source, q, lastToken);
      var c := Peek();
      if c == None {
        assert spec == Success(Lexeme(DocumentEnd, q, DocumentEnd));
        lastToken := DocumentEnd;
        r := Success(DocumentEnd);
      } else if c == Some('<') {
        assert spec == TagOpeningAt(source, q);
        r := ReadTagOpening();
      } else if c == Some('/') {
        assert spec == Success(Lexeme(ElementEnd(None), SkipTo(source, q, '>'), lastToken));
        SkipToChar('>');
        r := Success(ElementEnd(None));
      } else {
        assert spec == TextToken(source, q);
        r := ReadTextToken();
      }
    }

    /** The "<" branch of the markup mode: an end tag after "</", a start tag otherwise. */
    method ReadTagOpening() returns (r: Result<Token>)
      requires Valid() && position < |source| && source[position] == '<'
      modifies this`position, this`lastToken
      ensures Valid() && Follows(TagOpeningAt(source, old(position)), r, position, lastToken)
    {
      var _ := Next();
      var d := Peek();
      if d == Some('/') {
        r := ReadEndTag();
      } else {
        r := ReadStartTag();
      }
    }

    /** The tag-interior branch of readNextToken. */
    method ReadTagInterior() returns (r: Result<Token>)
      requires Valid()
      modifies this`position, this`lastToken
      ensures Valid() && Follows(TagStep(source, old(position)), r, position, lastToken)
    {
      SkipWhitespace();
      var c := Peek();
      if c == Some('/') {
        SkipToChar('>');
        r := Success(ElementEnd(None));
      } else if c == Some('>') {
        var _ := Next();
        r := Success(ElementStartEnd);
      } else {
        var name := ReadAttributeName();
        if name.Failure? { return Failure(name.error); }
        r := Success(AttributeName(name.value.name));
      }
      lastToken := r.value;
    }

    /** The branch of readNextToken after an attribute name. */
    method ReadAfterAttributeName() returns (r: Result<Token>)
      requires Valid()
      modifies this`position, this`lastToken
      ensures Valid() && Follows(AttributeStep(source, old(position)), r, position, lastToken)
    {
      SkipWhitespace();
      var c := Peek();
      if c == Some('=') {
        position := position + 1;
        var v := ReadAttributeValue();
        if v.Failure? { return Failure(v.error); }
        r := Success(AttributeValue(v.value));
      } else {
        r := Success(AttributeEnd);
      }
      lastToken := r.value;
    }

    /** readNextToken(): a pushed-back token if there is one, otherwise the next
        token of the source under the grammar the last token selects. */
    method ReadNextToken() returns (r: Result<Token>)
      requires Valid()
      modifies this`position, this`lastToken, this`pushback
      ensures Valid()
      ensures old(pushback) != [] ==>
        r == Success(old(pushback)[|old(pushback)| - 1])
        && pushback == old(pushback)[..|old(pushback)| - 1]
        && position == old(position) && lastToken == old(lastToken)
      ensures old(pushback) == [] ==>
        pushback == [] && Follows(Step(source, old(position), old(lastToken)), r, position, lastToken)
      ensures r == Read(old(Stream())).0
      ensures r.Success? ==> Stream() == Read(old(Stream())).1
    {
      if pushback != [] {
        r := Success(pushback[|pushback| - 1]);
        pushback := pushback[..|pushback| - 1];
        assert old(pushback) == pushback + [r.value];
        ReversedSnoc(pushback, r.value);
        return;
      }
      ghost var p0, l0 := position, lastToken;
      if lastToken.DocumentEnd? {
        r := Success(DocumentEnd);
      } else if MarkupMode(lastToken) {
        r := ReadMarkup();
      } else if TagMode(lastToken) {
        r := ReadTagInterior();
      } else {
        r := ReadAfterAttributeName();
      }
      LexFollows(source, p0, l0, r, position, lastToken);
    }
  }
}
