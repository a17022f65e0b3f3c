/** The streaming decoder: three walkers that pull tokens from the lexer. The
    record walker finds the fields of a class and reads their text, the list
    walker steps through the entries of a list, and the top-level decoder reads
    the content of a single value. Each scan is first stated as a function of the
    token stream the lexer will still deliver; the decoder objects perform the
    scans in place on the lexer and are proved to agree with those functions. */
module Decoder {
  import opened Results
  import opened Strings
  import opened Schema
  import opened Lexer

  /** A value scanned off the front of a stream, and the stream that remains. */
  datatype Scanned<T> = Scanned(value: T, rest: TokenStream)

  /** rest is what is left of st after reading some of its tokens. */
  predicate Consumed(st: TokenStream, rest: TokenStream) {
    rest.end == st.end && |rest.tokens| <= |st.tokens| && rest.tokens == st.tokens[|st.tokens| - |rest.tokens|..]
  }

  lemma ReadConsumes(st: TokenStream)
    ensures Consumed(st, Read(st).1)
  {
  }

  lemma ConsumedTransitive(a: TokenStream, b: TokenStream, c: TokenStream)
    requires Consumed(a, b) && Consumed(b, c)
    ensures Consumed(a, c)
  {
    assert c.tokens == a.tokens[|a.tokens| - |b.tokens|..][|b.tokens| - |c.tokens|..];
  }

  /** A scan fails only where the stream itself fails. */
  predicate FailsWithStream<T>(st: TokenStream, r: Result<Scanned<T>>) {
    r.Failure? ==> st.end == AtFailure(r.error)
  }

  // ---------------------------------------------------------------------------
  // LlmXmlElementDecoder.decodeElementIndex

  /** The index found and the element stack afterwards. */
  datatype Found = Found(index: int, stack: seq<string>)

  /** decodeElementIndex: skip to the next start tag that names a field, pushing its
      name; an end tag pops a matching top, and once the stack is empty, or at the
      end of the document, the class is done. */
  function ElementIndexScan(st: TokenStream, d: ClassDescriptor, stack: seq<string>): (r: Result<Scanned<Found>>)
    ensures FailsWithStream(st, r)
    ensures r.Success? ==> Consumed(st, r.value.rest)
    decreases |st.tokens|
  {
    var (t, rest) := Read(st);
    match t
    case Failure(e) => Failure(e)
    case Success(ElementStart(n)) =>
      var i := ElementIndex(d, n);
      if i != UnknownName then Success(Scanned(Found(i, stack + [n]), rest))
      else ConsumedAfter(st, rest, ElementIndexScan(rest, d, stack))
    case Success(ElementEnd(endName)) =>
      var popped := if stack != [] && Some(stack[|stack| - 1]) == endName then stack[..|stack| - 1] else stack;
      if popped == [] then Success(Scanned(Found(DecodeDone, popped), rest))
      else
        ConsumedAfter(st, rest, ElementIndexScan(rest, d, popped))
    case Success(DocumentEnd) => Success(Scanned(Found(DecodeDone, stack), rest))
    case Success(_) => ConsumedAfter(st, rest, ElementIndexScan(rest, d, stack))
  }

  /** One step of decodeElementIndex. */
  lemma ElementIndexUnfolds(st: TokenStream, d: ClassDescriptor, stack: seq<string>)
    requires Read(st).0.Success?
    ensures var (t, rest) := (Read(st).0.value, Read(st).1);
      var r := ElementIndexScan(st, d, stack);
      (t.ElementStart? && ElementIndex(d, t.name) != UnknownName ==>
        r == Success(Scanned(Found(ElementIndex(d, t.name), stack + [t.name]), rest)))
      && (t.ElementStart? && ElementIndex(d, t.name) == UnknownName ==> r == ElementIndexScan(rest, d, stack))
      && (t.ElementEnd? ==>
        var popped := if stack != [] && Some(stack[|stack| - 1]) == t.endName then stack[..|stack| - 1] else stack;
        r == if popped == [] then Success(Scanned(Found(DecodeDone, popped), rest)) else ElementIndexScan(rest, d, popped))
      && (t == DocumentEnd ==> r == Success(Scanned(Found(DecodeDone, stack), rest)))
      && (!t.ElementStart? && !t.ElementEnd? && t != DocumentEnd ==> r == ElementIndexScan(rest, d, stack))
  {
  }

  /** A found index other than DECODE_DONE names a field of the class, and that
      field's name is the one on top of the stack. */
  predicate NamesTopField(d: ClassDescriptor, f: Found) {
    f.index != DecodeDone ==>
      f.stack != [] && 0 <= f.index < |d.fields| && d.fields[f.index].name == f.stack[|f.stack| - 1]
  }

  /** The stack decodeElementIndex's loop goes on with after the token t, or None
      when the loop returns at t. */
  function ElementIndexContinue(t: Token, d: ClassDescriptor, stack: seq<string>): Option<seq<string>> {
    if t.ElementStart? then (if ElementIndex(d, t.name) == UnknownName then Some(stack) else None)
    else if t.ElementEnd? then
      var popped := if stack != [] && Some(stack[|stack| - 1]) == t.endName then stack[..|stack| - 1] else stack;
      if popped == [] then None else Some(popped)
    else if t == DocumentEnd then None
    else Some(stack)
  }

  /** One token of decodeElementIndex: where the loop returns, the result names the
      field on top of the stack; otherwise the loop goes on from the rest. */
  lemma ElementIndexStep(st: TokenStream, d: ClassDescriptor, stack: seq<string>)
    requires Read(st).0.Success?
    ensures var (t, rest) := (Read(st).0.value, Read(st).1);
      var n := ElementIndexContinue(t, d, stack);
      var r := ElementIndexScan(st, d, stack);
      (n.None? ==> r.Success? && NamesTopField(d, r.value.value))
      && (n.Some? ==> r == ElementIndexScan(rest, d, n.value) && |rest.tokens| < |st.tokens|)
  {
    ElementIndexUnfolds(st, d, stack);
  }

  /** An index other than DECODE_DONE names a field of the class, and that field's
      name is the one just pushed on the stack. */
  lemma {:induction false} ElementIndexScanFinds(st: TokenStream, d: ClassDescriptor, stack: seq<string>)
    requires ElementIndexScan(st, d, stack).Success?
    ensures NamesTopField(d, ElementIndexScan(st, d, stack).value.value)
    decreases |st.tokens|
  {
    ElementIndexStep(st, d, stack);
    var n := ElementIndexContinue(Read(st).0.value, d, stack);
    if n.Some? {
      ElementIndexScanFinds(Read(st).1, d, n.value);
    }
  }

  /** The names kept from the stack: all of them when the class is done, all but
      the found name otherwise. */
  function KeptNames(f: Found): seq<string> {
    if f.index == DecodeDone || f.stack == [] then f.stack else f.stack[..|f.stack| - 1]
  }

  /** The stack only loses names from its top, and gains the found name. */
  lemma {:induction false} ElementIndexScanStack(st: TokenStream, d: ClassDescriptor, stack: seq<string>)
    requires ElementIndexScan(st, d, stack).Success?
    ensures IsPrefix(KeptNames(ElementIndexScan(st, d, stack).value.value), stack)
    decreases |st.tokens|
  {
    var (t, rest) := Read(st);
    ElementIndexUnfolds(st, d, stack);
    match t.value
    case ElementStart(n) =>
      if ElementIndex(d, n) == UnknownName {
        ElementIndexScanStack(rest, d, stack);
      } else {
        assert (stack + [n])[..|stack|] == stack;
      }
    case ElementEnd(endName) =>
      var popped := if stack != [] && Some(stack[|stack| - 1]) == endName then stack[..|stack| - 1] else stack;
      assert IsPrefix(popped, stack);
      if popped != [] {
        ElementIndexScanStack(rest, d, popped);
        PrefixTransitive(KeptNames(ElementIndexScan(rest, d, popped).value.value), popped, stack);
      }
    case DocumentEnd =>
      assert stack[..|stack|] == stack;
    case _ =>
      ElementIndexScanStack(rest, d, stack);
  }

  /** A scan continued after one token: what it consumed it consumed from st. */
  function ConsumedAfter<T>(st: TokenStream, next: TokenStream, r: Result<Scanned<T>>): (r': Result<Scanned<T>>)
    requires next == Read(st).1
    requires r.Success? ==> Consumed(next, r.value.rest)
    ensures r' == r
    ensures r'.Success? ==> Consumed(st, r'.value.rest)
  {
    if r.Success? then ConsumedTransitive(st, next, r.value.rest); r else r
  }

  // ---------------------------------------------------------------------------
  // LlmXmlElementDecoder.decodeCollectionSize

  /** The counters of decodeCollectionSize. */
  datatype SizeCount = SizeCount(size: nat, depth: int)

  /** One pass of the loop body as written: a start tag is counted when it opens at
      depth 1 and goes one level deeper, an end tag goes one level up, and every
      other token, DocumentEnd included, changes nothing. */
  function CollectionSizeStepAsWritten(t: Token, c: SizeCount): (r: SizeCount)
    ensures t.ElementStart? ==> r.depth == c.depth + 1 && r.size == c.size + (if c.depth == 1 then 1 else 0)
    ensures t.ElementEnd? ==> r == SizeCount(c.size, c.depth - 1)
    ensures !t.ElementStart? && !t.ElementEnd? ==> r == c
  {
    match t
    case ElementStart(_) => SizeCount(if c.depth == 1 then c.size + 1 else c.size, c.depth + 1)
    case ElementEnd(_) => SizeCount(c.size, c.depth - 1)
    case _ => c
  }

  /** As written the loop never leaves a document that ends inside the
      collection: at the end every read gives DocumentEnd and leaves both the
      counters and the stream as they were, so the depth never reaches 0. */
  lemma CollectionSizeLoopsAtDocumentEnd(c: SizeCount)
    requires c.depth > 0
    ensures var st := TokenStream([], AtDocumentEnd);
      Read(st) == (Success(DocumentEnd), st) && CollectionSizeStepAsWritten(DocumentEnd, c) == c
      && CollectionSizeStepAsWritten(Read(st).0.value, c).depth > 0
  {
  }

  /** decodeCollectionSize, with the end of the document closing the count as
      endStructure of the list walker does: the number of start tags at depth 1
      before the depth returns to 0. */
  function CollectionSizeScan(st: TokenStream, c: SizeCount): (r: Result<Scanned<nat>>)
    requires c.depth > 0
    ensures FailsWithStream(st, r)
    ensures r.Success? ==> Consumed(st, r.value.rest) && r.value.value >= c.size
    decreases |st.tokens|
  {
    var (t, rest) := Read(st);
    if t.Failure? then Failure(t.error)
    else if t.value == DocumentEnd then Success(Scanned(c.size, rest))
    else
      var next := CollectionSizeStepAsWritten(t.value, c);
      if next.depth <= 0 then Success(Scanned(next.size, rest))
      else ConsumedAfter(st, rest, CollectionSizeScan(rest, next))
  }

  /** One step of the scan, on a token other than the end of the document. */
  lemma CollectionSizeUnfolds(st: TokenStream, c: SizeCount)
    requires c.depth > 0 && Read(st).0.Success? && Read(st).0.value != DocumentEnd
    ensures var next := CollectionSizeStepAsWritten(Read(st).0.value, c);
      (next.depth > 0 ==> CollectionSizeScan(st, c) == CollectionSizeScan(Read(st).1, next))
      && (next.depth <= 0 ==> ValueOf(CollectionSizeScan(st, c)) == Success(next.size))
  {
  }

  /** The end of the document closes the count with the size reached. */
  lemma CollectionSizeAtDocumentEnd(st: TokenStream, c: SizeCount)
    requires c.depth > 0 && Read(st).0 == Success(DocumentEnd)
    ensures ValueOf(CollectionSizeScan(st, c)) == Success(c.size)
  {
  }

  /** The number of start tags opened directly inside the collection, for a
      token list that closes it: a reference count independent of the scan. */
  function DirectChildren(tokens: seq<Token>, depth: nat): nat
    decreases |tokens|
  {
    if tokens == [] then 0
    else match tokens[0]
      case ElementStart(_) => (if depth == 1 then 1 else 0) + DirectChildren(tokens[1..], depth + 1)
      case ElementEnd(_) => if depth <= 1 then 0 else DirectChildren(tokens[1..], depth - 1)
      case DocumentEnd => 0
      case _ => DirectChildren(tokens[1..], depth)
  }

  /** One token of the reference count: the counters after the step, plus what the
      rest of the tokens add while the collection is still open. */
  lemma DirectChildrenStep(tokens: seq<Token>, c: SizeCount)
    requires c.depth > 0 && tokens != [] && tokens[0] != DocumentEnd
    ensures var next := CollectionSizeStepAsWritten(tokens[0], c);
      c.size + DirectChildren(tokens, c.depth as nat)
      == next.size + (if next.depth <= 0 then 0 else DirectChildren(tokens[1..], next.depth as nat))
  {
  }

  /** The scan counts exactly the direct children. */
  lemma {:induction false} CollectionSizeCountsChildren(st: TokenStream, c: SizeCount)
    requires c.depth > 0 && CollectionSizeScan(st, c).Success?
    ensures CollectionSizeScan(st, c).value.value == c.size + DirectChildren(st.tokens, c.depth as nat)
    decreases |st.tokens|
  {
    var r := CollectionSizeScan(st, c);
    if st.tokens == [] {
      assert r.value.value == c.size;
    } else {
      var (t, rest) := Read(st);
      assert t == Success(st.tokens[0]) && rest.tokens == st.tokens[1..];
      if t.value == DocumentEnd {
        assert r.value.value == c.size;
      } else {
        var next := CollectionSizeStepAsWritten(t.value, c);
        CollectionSizeUnfolds(st, c);
        DirectChildrenStep(st.tokens, c);
        if next.depth > 0 {
          assert r == CollectionSizeScan(rest, next);
          CollectionSizeCountsChildren(rest, next);
        } else {
          assert r.value.value == next.size;
        }
      }
    }
  }

  // ---------------------------------------------------------------------------
  // LlmXmlElementDecoder.decodeElement

  /** The text gathered for the field tagged name: start tags of that name go one
      level deeper, end tags of that name one level up and end the scan at depth 0,
      text is kept only at depth 1, and the end of the document ends the scan. */
  function ElementTextScan(st: TokenStream, name: string, depth: int, content: string): (r: Result<Scanned<string>>)
    ensures FailsWithStream(st, r)
    ensures r.Success? ==> Consumed(st, r.value.rest)
    decreases |st.tokens|
  {
    var (t, rest) := Read(st);
    match t
    case Failure(e) => Failure(e)
    case Success(ElementStart(n)) =>
      ConsumedAfter(st, rest, ElementTextScan(rest, name, if n == name then depth + 1 else depth, content))
    case Success(Text(c)) =>
      ConsumedAfter(st, rest, ElementTextScan(rest, name, depth, if depth == 1 then content + c else content))
    case Success(ElementEnd(endName)) =>
      if endName == Some(name) && depth - 1 == 0 then Success(Scanned(content, rest))
      else ConsumedAfter(st, rest, ElementTextScan(rest, name, if endName == Some(name) then depth - 1 else depth, content))
    case Success(DocumentEnd) => Success(Scanned(content, rest))
    case Success(_) => ConsumedAfter(st, rest, ElementTextScan(rest, name, depth, content))
  }

  /** One step of decodeElement's loop. */
  lemma ElementTextUnfolds(st: TokenStream, name: string, depth: int, content: string)
    requires Read(st).0.Success?
    ensures var (t, rest) := (Read(st).0.value, Read(st).1);
      var r := ElementTextScan(st, name, depth, content);
      (t.ElementStart? ==> r == ElementTextScan(rest, name, if t.name == name then depth + 1 else depth, content))
      && (t.Text? ==> r == ElementTextScan(rest, name, depth, if depth == 1 then content + t.content else content))
      && (t.ElementEnd? && t.endName == Some(name) && depth - 1 == 0 ==> r == Success(Scanned(content, rest)))
      && (t.ElementEnd? && t.endName == Some(name) && depth - 1 != 0 ==> r == ElementTextScan(rest, name, depth - 1, content))
      && (t.ElementEnd? && t.endName != Some(name) ==> r == ElementTextScan(rest, name, depth, content))
      && (t == DocumentEnd ==> r == Success(Scanned(content, rest)))
      && (!t.ElementStart? && !t.Text? && !t.ElementEnd? && t != DocumentEnd ==> r == ElementTextScan(rest, name, depth, content))
  {
  }

  /** Where decodeElement's loop goes after the token t: the depth and text it
      goes on with, and whether it stops there. */
  datatype TextStep = TextStep(depth: int, content: string, done: bool)

  function ElementTextStep(t: Token, name: string, depth: int, content: string): TextStep {
    if t.ElementStart? then TextStep(if t.name == name then depth + 1 else depth, content, false)
    else if t.Text? then TextStep(depth, if depth == 1 then content + t.content else content, false)
    else if t.ElementEnd? && t.endName == Some(name) then TextStep(depth - 1, content, depth - 1 == 0)
    else TextStep(depth, content, t == DocumentEnd)
  }

  /** decodeElement's loop stops with its text where ElementTextStep says and goes
      on from the rest of the stream otherwise. */
  lemma ElementTextSteps(st: TokenStream, name: string, depth: int, content: string)
    requires Read(st).0.Success?
    ensures var (t, rest) := (Read(st).0.value, Read(st).1);
      var n := ElementTextStep(t, name, depth, content);
      var r := ElementTextScan(st, name, depth, content);
      (n.done ==> r == Success(Scanned(n.content, rest)))
      && (!n.done ==> r == ElementTextScan(rest, name, n.depth, n.content))
  {
    ElementTextUnfolds(st, name, depth, content);
  }

  /** ifEmpty { null }. */
  function NonEmpty(s: string): (r: Option<string>)
    ensures r.None? <==> s == []
    ensures r.Some? ==> r.value == s
  {
    if s == [] then None else Some(s)
  }

  /** decodeElement: nothing is read for a field without an LlmField; otherwise the
      text of the field's element, trimmed, or null when that is empty. */
  function DecodeElementScan(st: TokenStream, f: FieldDecl): (r: Result<Scanned<Option<string>>>)
    ensures f.llmField.None? ==> r == Success(Scanned(None, st))
    ensures FailsWithStream(st, r)
    ensures r.Success? ==> Consumed(st, r.value.rest)
    ensures r.Success? && r.value.value.Some? ==>
      var v := r.value.value.value;
      v != [] && !IsWhitespace(v[0]) && !IsWhitespace(v[|v| - 1])
  {
    if f.llmField.None? then Success(Scanned(None, st))
    else
      match ElementTextScan(st, FieldTag(f), 0, "")
      case Failure(e) => Failure(e)
      case Success(Scanned(content, rest)) => Success(Scanned(NonEmpty(Trim(content)), rest))
  }

  /** A token that does not concern the element tagged name at depth 0: anything
      but its start tag, its end tag and the end of the document. */
  predicate Unrelated(t: Token, name: string) {
    t != ElementStart(name) && t != ElementEnd(Some(name)) && t != DocumentEnd
  }

  /** decodeElement scans forward: tokens before the field's start tag that do not
      concern it are passed over without effect. */
  lemma {:induction false} ElementTextSkips(pre: seq<Token>, rest: seq<Token>, end: StreamEnd, name: string, content: string)
    requires forall k :: 0 <= k < |pre| ==> Unrelated(pre[k], name)
    ensures ElementTextScan(TokenStream(pre + rest, end), name, 0, content)
         == ElementTextScan(TokenStream(rest, end), name, 0, content)
    decreases |pre|
  {
    if pre == [] {
      assert pre + rest == rest;
    } else {
      var st := TokenStream(pre + rest, end);
      var next := TokenStream(pre[1..] + rest, end);
      assert st.tokens[0] == pre[0] && st.tokens[1..] == pre[1..] + rest;
      assert Read(st) == (Success(pre[0]), next);
      assert Unrelated(pre[0], name);
      assert ElementTextScan(st, name, 0, content) == ElementTextScan(next, name, 0, content) by {
        match pre[0]
        case ElementStart(n) =>
        case ElementEnd(endName) =>
        case _ =>
      }
      ElementTextSkips(pre[1..], rest, end, name, content);
    }
  }

  /** decodeElement's loop on a token put in front of a stream: it stops there with
      its text, or goes on at the depth and with the text ElementTextStep gives. */
  lemma ElementTextAfter(t: Token, st: TokenStream, name: string, depth: int, content: string)
    ensures var n := ElementTextStep(t, name, depth, content);
      ElementTextScan(Unread(t, st), name, depth, content)
      == if n.done then Success(Scanned(n.content, st)) else ElementTextScan(st, name, n.depth, n.content)
  {
    ReadUnread(t, st);
    ElementTextSteps(Unread(t, st), name, depth, content);
  }

  /** The field <name>text</name> as the lexer tokenizes it decodes to its trimmed text. */
  lemma ElementTextOfSimpleField(name: string, text: string, rest: TokenStream)
    ensures var st := TokenStream([ElementStart(name), ElementStartEnd, Text(text), ElementEnd(Some(name))] + rest.tokens, rest.end);
      ElementTextScan(st, name, 0, "") == Success(Scanned(text, rest))
  {
    var s3 := Unread(ElementEnd(Some(name)), rest);
    var s2 := Unread(Text(text), s3);
    var s1 := Unread(ElementStartEnd, s2);
    var st := Unread(ElementStart(name), s1);
    assert st.tokens == [ElementStart(name), ElementStartEnd, Text(text), ElementEnd(Some(name))] + rest.tokens;
    assert "" + text == text;
    ElementTextAfter(ElementEnd(Some(name)), rest, name, 1, text);
    ElementTextAfter(Text(text), s3, name, 1, "");
    ElementTextAfter(ElementStartEnd, s2, name, 1, "");
    ElementTextAfter(ElementStart(name), s1, name, 0, "");
  }

  // ---------------------------------------------------------------------------
  // The typed decode*Element of the record decoder: never failing, with defaults

  function StringOrEmpty(v: Option<string>): (r: string)
    ensures v.None? ==> r == []
    ensures v.Some? ==> r == v.value
  {
    if v.Some? then v.value else []
  }

  /** toBoolean() ?: false: true only for "true" in any letter case. */
  function BooleanOrFalse(v: Option<string>): (r: bool)
    ensures r ==> v.Some? && |v.value| == 4
  {
    v.Some? && IsTrueIgnoringCase(v.value)
  }

  /** toByteOrNull(), toShortOrNull(), toIntOrNull() or toLongOrNull() ?: 0, by bit width. */
  function IntegerOrZero(v: Option<string>, bits: nat): (r: int)
    requires 1 <= bits <= 64
    ensures InWidth(r, bits)
    ensures v.Some? && ParseSigned(v.value, bits).Some? ==> r == ParseSigned(v.value, bits).value
    ensures v.None? || ParseSigned(v.value, bits).None? ==> r == 0
  {
    if v.Some? && ParseSigned(v.value, bits).Some? then ParseSigned(v.value, bits).value else 0
  }

  /** firstOrNull() ?: Char(0). */
  function CharOrZero(v: Option<string>): (r: char)
    ensures v.Some? && v.value != [] ==> r == v.value[0]
    ensures v.None? || v.value == [] ==> r == 0 as char
  {
    if v.Some? && v.value != [] then v.value[0] else 0 as char
  }

  /** What the encoder's integer text reads back as. */
  lemma IntegerReadsDecimalText(n: int, bits: nat)
    requires 1 <= bits <= 64 && InWidth(n, bits)
    ensures IntegerOrZero(Some(DecimalString(n)), bits) == n
  {
    ParseDecimalRoundTrip(n);
  }

  lemma BooleanReadsText(b: bool)
    ensures BooleanOrFalse(Some(if b then "true" else "false")) == b
    ensures BooleanOrFalse(Some("TRUE")) && BooleanOrFalse(Some("True"))
  {
  }

  // ---------------------------------------------------------------------------
  // LlmXmlElementDecoder.decodeSerializableElement for a list field

  /** How a field is decoded by decodeSerializableElement. */
  datatype ElementPlan =
    | ListEntries(itemName: string)   // the list walker reads entries tagged itemName
    | EmptyList                       // the look-ahead found no entries
    | Delegated                       // the field's own deserializer reads it

  /** The item tag of a list: the annotation's tagName, or else the last '.'
      segment of the serial name of the class that holds the field. */
  function ListItemName(d: ClassDescriptor, lf: LlmListField): (r: string)
    ensures lf.tagName != [] ==> r == lf.tagName
    ensures lf.tagName == [] ==> r == SimpleName(d.serialName) && '.' !in r
  {
    IfEmpty(lf.tagName, SimpleName(d.serialName))
  }

  /** True when three look-ahead tokens announce list entries. */
  predicate Announces(t1: Token, t2: Token, t3: Token) {
    t1.ElementStart? && t2 != DocumentEnd && t3 != DocumentEnd && !t3.ElementEnd?
  }

  /** The three-token look-ahead: when the tokens announce entries they are pushed
      back in reverse order, otherwise they stay consumed. */
  function ListLookahead(st: TokenStream): (r: Result<Scanned<bool>>)
    ensures FailsWithStream(st, r)
    ensures r.Success? && !r.value.value ==> r.value.rest == Read(Read(Read(st).1).1).1
  {
    var (a, s1) := Read(st);
    var (b, s2) := Read(s1);
    var (c, s3) := Read(s2);
    if a.Failure? then Failure(a.error)
    else if b.Failure? then Failure(b.error)
    else if c.Failure? then Failure(c.error)
    else if Announces(a.value, b.value, c.value) then
      Success(Scanned(true, Unread(a.value, Unread(b.value, Unread(c.value, s3)))))
    else Success(Scanned(false, s3))
  }

  /** Entries are announced exactly when the stream starts with a start tag and two
      more tokens, none the end of the document and the third not an end tag; the
      stream is then left exactly as it was. */
  lemma LookaheadAnnounces(st: TokenStream)
    requires ListLookahead(st).Success?
    ensures ListLookahead(st).value.value <==>
      |st.tokens| >= 3 && Announces(st.tokens[0], st.tokens[1], st.tokens[2])
    ensures ListLookahead(st).value.value ==> ListLookahead(st).value.rest == st
  {
    if |st.tokens| >= 3 {
      assert st.tokens == [st.tokens[0], st.tokens[1], st.tokens[2]] + st.tokens[3..];
    }
  }

  /** decodeSerializableElement of the record decoder, up to the hand-over. */
  function SerializableElementScan(st: TokenStream, d: ClassDescriptor, index: nat): (r: Result<Scanned<ElementPlan>>)
    requires index < |d.fields|
    ensures d.fields[index].llmListField.None? ==> r == Success(Scanned(Delegated, st))
    ensures r.Success? && r.value.value.ListEntries? ==>
      d.fields[index].llmListField.Some? && r.value.rest == st
      && r.value.value.itemName == ListItemName(d, d.fields[index].llmListField.value)
    ensures d.fields[index].llmListField.Some? && r.Success? ==>
      (r.value.value.ListEntries? <==> |st.tokens| >= 3 && Announces(st.tokens[0], st.tokens[1], st.tokens[2]))
      && (r.value.value.EmptyList? ==> r.value.rest == Read(Read(Read(st).1).1).1)
  {
    var f := d.fields[index];
    if f.llmListField.None? then Success(Scanned(Delegated, st))
    else
      match ListLookahead(st)
      case Failure(e) => Failure(e)
      case Success(Scanned(announced, rest)) =>
        LookaheadAnnounces(st);
        if announced then Success(Scanned(ListEntries(ListItemName(d, f.llmListField.value)), rest))
        else Success(Scanned(EmptyList, rest))
  }

  // ---------------------------------------------------------------------------
  // ListLlmXmlElementDecoder.decodeElementIndex and endStructure

  /** Whether an entry was found, and the text gathered on the way. */
  datatype EntryScan = EntryScan(found: bool, content: string)

  /** The one case where a pushed-back token is not one the stream held: the
      DocumentEnd peeked at the end of the input goes back in front of it. */
  predicate PeekedEnd(st: TokenStream, rest: TokenStream) {
    st.end == AtDocumentEnd && rest == TokenStream([DocumentEnd], AtDocumentEnd)
  }

  /** rest is what is left of st, give or take a DocumentEnd peeked and pushed back. */
  predicate Left(st: TokenStream, rest: TokenStream) {
    Consumed(st, rest) || PeekedEnd(st, rest)
  }

  /** LeftAfter is to Left what ConsumedAfter is to Consumed. */
  function LeftAfter<T>(st: TokenStream, next: TokenStream, r: Result<Scanned<T>>): (r': Result<Scanned<T>>)
    requires next == Read(st).1
    requires r.Success? ==> Left(next, r.value.rest)
    ensures r' == r
    ensures r'.Success? ==> Left(st, r'.value.rest)
  {
    if r.Success? && Consumed(next, r.value.rest) then ConsumedTransitive(st, next, r.value.rest); r else r
  }

  /** decodeElementIndex of the list walker: an entry is a start tag of the item
      name that is not closed at once, or a closed start tag; the item's end tag, an
      at once closed item and the end of the document end the list; text on the way
      is gathered; other tokens are passed over. The token peeked after the item's
      start tag is pushed back. */
  function ListIndexScan(st: TokenStream, name: string, content: string): (r: Result<Scanned<EntryScan>>)
    ensures FailsWithStream(st, r)
    ensures r.Success? ==> Left(st, r.value.rest)
    decreases |st.tokens|
  {
    var (t, rest) := Read(st);
    match t
    case Failure(e) => Failure(e)
    case Success(ElementStart(n)) =>
      if n == name then
        var (t2, rest2) := Read(rest);
        if t2.Failure? then Failure(t2.error)
        else if t2.value == ElementEnd(Some(name)) then Success(Scanned(EntryScan(false, content), rest2))
        else Success(Scanned(EntryScan(true, content), Unread(t2.value, rest2)))
      else LeftAfter(st, rest, ListIndexScan(rest, name, content))
    case Success(ElementEnd(endName)) =>
      if endName == Some(name) then Success(Scanned(EntryScan(false, content), rest))
      else LeftAfter(st, rest, ListIndexScan(rest, name, content))
    case Success(ElementStartEnd) => Success(Scanned(EntryScan(true, content), rest))
    case Success(Text(c)) => LeftAfter(st, rest, ListIndexScan(rest, name, content + c))
    case Success(DocumentEnd) => Success(Scanned(EntryScan(false, content), rest))
    case Success(_) => LeftAfter(st, rest, ListIndexScan(rest, name, content))
  }

  /** The text carried by a token: the content of a Text token, nothing otherwise. */
  function TextIn(t: Token): string {
    if t.Text? then t.content else ""
  }

  /** The text carried by a run of tokens, in order. */
  function TextOf(ts: seq<Token>): string
    decreases |ts|
  {
    if ts == [] then "" else TextIn(ts[0]) + TextOf(ts[1..])
  }

  /** Text gathered token by token adds up to the text of the whole run. */
  lemma TextOfAfter(acc: string, ts: seq<Token>)
    requires ts != []
    ensures acc + TextIn(ts[0]) + TextOf(ts[1..]) == acc + TextOf(ts)
  {
    Associative(acc, TextIn(ts[0]), TextOf(ts[1..]));
  }

  lemma Associative(a: string, b: string, c: string)
    ensures a + b + c == a + (b + c)
  {
  }

  /** A token the list walker passes over while looking for an entry. */
  predicate PassedOver(t: Token, name: string) {
    t != ElementStart(name) && t != ElementEnd(Some(name)) && t != ElementStartEnd && t != DocumentEnd
  }

  /** Before an entry, the walker gathers the text of the tokens it passes over. */
  lemma {:induction false} ListIndexGathersText(pre: seq<Token>, rest: seq<Token>, end: StreamEnd, name: string, content: string)
    requires forall k :: 0 <= k < |pre| ==> PassedOver(pre[k], name)
    ensures ListIndexScan(TokenStream(pre + rest, end), name, content)
         == ListIndexScan(TokenStream(rest, end), name, content + TextOf(pre))
    decreases |pre|
  {
    if pre == [] {
      assert pre + rest == rest && content + TextOf(pre) == content;
    } else {
      var next := pre[1..] + rest;
      assert pre + rest == [pre[0]] + next;
      assert forall k :: 0 <= k < |pre[1..]| ==> pre[1..][k] == pre[k + 1];
      var content' := content + TextIn(pre[0]);
      ListIndexStepsOver(pre[0], next, end, name, content);
      assert ListIndexScan(TokenStream(pre + rest, end), name, content)
          == ListIndexScan(TokenStream(next, end), name, content');
      ListIndexGathersText(pre[1..], rest, end, name, content');
      TextOfAfter(content, pre);
    }
  }

  /** One step of the list walker's decodeElementIndex. */
  lemma ListIndexUnfolds(st: TokenStream, name: string, content: string)
    requires Read(st).0.Success?
    ensures var (t, rest) := (Read(st).0.value, Read(st).1);
      var r := ListIndexScan(st, name, content);
      (t == ElementStart(name) ==>
        var (t2, rest2) := Read(rest);
        r == if t2.Failure? then Failure(t2.error)
             else if t2.value == ElementEnd(Some(name)) then Success(Scanned(EntryScan(false, content), rest2))
             else Success(Scanned(EntryScan(true, content), Unread(t2.value, rest2))))
      && (t == ElementEnd(Some(name)) || t == DocumentEnd ==> r == Success(Scanned(EntryScan(false, content), rest)))
      && (t == ElementStartEnd ==> r == Success(Scanned(EntryScan(true, content), rest)))
      && (t.Text? ==> r == ListIndexScan(rest, name, content + t.content))
      && (PassedOver(t, name) && !t.Text? ==> r == ListIndexScan(rest, name, content))
  {
  }

  /** One token passed over. */
  lemma ListIndexStepsOver(t: Token, rest: seq<Token>, end: StreamEnd, name: string, content: string)
    requires PassedOver(t, name)
    ensures ListIndexScan(TokenStream([t] + rest, end), name, content)
         == ListIndexScan(TokenStream(rest, end), name, content + TextIn(t))
  {
    var st := TokenStream([t] + rest, end);
    assert st.tokens[1..] == rest;
    if !t.Text? {
      assert content + TextIn(t) == content;
    }
  }

  /** An entry's start tag followed by anything but its end tag is an entry, and
      the token after the start tag is left for the entry's own decoder. */
  lemma ListIndexKeepsPeeked(name: string, next: Token, rest: seq<Token>, end: StreamEnd, content: string)
    requires next != ElementEnd(Some(name))
    ensures ListIndexScan(TokenStream([ElementStart(name), next] + rest, end), name, content)
         == Success(Scanned(EntryScan(true, content), TokenStream([next] + rest, end)))
  {
    var st := TokenStream([ElementStart(name), next] + rest, end);
    assert st.tokens[1..] == [next] + rest && st.tokens[1..][1..] == rest;
  }

  /** An entry closed at once, <item></item>, ends the list. */
  lemma ListIndexClosedAtOnce(name: string, rest: seq<Token>, end: StreamEnd, content: string)
    ensures ListIndexScan(TokenStream([ElementStart(name), ElementEnd(Some(name))] + rest, end), name, content)
         == Success(Scanned(EntryScan(false, content), TokenStream(rest, end)))
  {
    var st := TokenStream([ElementStart(name), ElementEnd(Some(name))] + rest, end);
    assert st.tokens[1..] == [ElementEnd(Some(name))] + rest && st.tokens[1..][1..] == rest;
  }

  /** How endStructure of the list walker stopped. */
  datatype Closing =
    | Balanced               // the depth came back to 0
    | DocumentEnded          // the document ended first
    | Interrupted(tag: string) // a start tag of another name, pushed back

  /** endStructure of the list walker: start tags of the item name go one level
      deeper, every end tag one level up, and the walk stops at depth 0, at the end
      of the document, or before a start tag of another name, which is pushed back. */
  function ListEndScan(st: TokenStream, name: string, depth: int): (r: Result<Scanned<Closing>>)
    requires depth > 0
    ensures FailsWithStream(st, r)
    ensures r.Success? ==> Consumed(st, r.value.rest)
    ensures r.Success? && r.value.value.Interrupted? ==>
      r.value.value.tag != name && r.value.rest.tokens != [] && r.value.rest.tokens[0] == ElementStart(r.value.value.tag)
    decreases |st.tokens|
  {
    var (t, rest) := Read(st);
    match t
    case Failure(e) => Failure(e)
    case Success(ElementStart(n)) =>
      if n == name then ConsumedAfter(st, rest, ListEndScan(rest, name, depth + 1))
      else
        assert Unread(ElementStart(n), rest) == st;
        Success(Scanned(Interrupted(n), Unread(ElementStart(n), rest)))
    case Success(ElementEnd(_)) =>
      if depth - 1 == 0 then Success(Scanned(Balanced, rest))
      else ConsumedAfter(st, rest, ListEndScan(rest, name, depth - 1))
    case Success(DocumentEnd) => Success(Scanned(DocumentEnded, rest))
    case Success(_) => ConsumedAfter(st, rest, ListEndScan(rest, name, depth))
  }

  /** The walk of endStructure at depth, from st, ends as goal says; at depth 0 it
      has ended, leaving st. */
  predicate ClosingFrom(goal: Result<Scanned<Closing>>, st: TokenStream, name: string, depth: int) {
    depth >= 0
    && (depth > 0 ==> ListEndScan(st, name, depth) == goal)
    && (depth == 0 ==> goal.Success? && goal.value.rest == st)
  }

  /** One step of endStructure's walk. */
  lemma ListEndUnfolds(st: TokenStream, name: string, depth: int)
    requires depth > 0 && Read(st).0.Success?
    ensures var (t, rest) := (Read(st).0.value, Read(st).1);
      var r := ListEndScan(st, name, depth);
      (t.ElementStart? && t.name == name ==> r == ListEndScan(rest, name, depth + 1))
      && (t.ElementStart? && t.name != name ==> r == Success(Scanned(Interrupted(t.name), Unread(t, rest))))
      && (t.ElementEnd? && depth > 1 ==> r == ListEndScan(rest, name, depth - 1))
      && (t.ElementEnd? && depth == 1 ==> r == Success(Scanned(Balanced, rest)))
      && (t == DocumentEnd ==> r == Success(Scanned(DocumentEnded, rest)))
      && (Neutral(t) ==> r == ListEndScan(rest, name, depth))
  {
    var t := Read(st).0.value;
    var rest := Read(st).1;
    if t.ElementStart? && t.name == name {
      assert ListEndScan(st, name, depth) == ListEndScan(rest, name, depth + 1);
    } else if t.ElementEnd? && depth > 1 {
      assert ListEndScan(st, name, depth) == ListEndScan(rest, name, depth - 1);
    } else if Neutral(t) {
      assert ListEndScan(st, name, depth) == ListEndScan(rest, name, depth);
    }
  }

  /** The depth endStructure's walk goes on at after the token t. */
  function EndDepth(t: Token, name: string, depth: int): int {
    if t.ElementStart? then depth + 1
    else if t.ElementEnd? then depth - 1
    else if t == DocumentEnd then 0
    else depth
  }

  /** One token of endStructure's walk: a start tag of another name stops it with the
      tag pushed back; any other token leaves the walk to go on at EndDepth from the
      rest of the stream, which is shorter or else reached at a smaller depth. */
  lemma ListEndStep(st: TokenStream, name: string, depth: int)
    requires depth > 0 && Read(st).0.Success?
    ensures var (t, rest) := (Read(st).0.value, Read(st).1);
      var s := ListEndScan(st, name, depth);
      (t.ElementStart? && t.name != name ==> s == Success(Scanned(Interrupted(t.name), Unread(t, rest))))
      && (!(t.ElementStart? && t.name != name) ==>
        ClosingFrom(s, rest, name, EndDepth(t, name, depth))
        && (|rest.tokens| < |st.tokens| || EndDepth(t, name, depth) < depth))
  {
    ListEndUnfolds(st, name, depth);
  }

  /** A token that leaves the depth of the list walker's endStructure alone. */
  predicate Neutral(t: Token) {
    !t.ElementStart? && !t.ElementEnd? && t != DocumentEnd
  }

  /** endStructure passes over tokens that leave the depth alone. */
  lemma {:induction false} ListEndSkips(pre: seq<Token>, rest: seq<Token>, end: StreamEnd, name: string, depth: int)
    requires depth > 0
    requires forall k :: 0 <= k < |pre| ==> Neutral(pre[k])
    ensures ListEndScan(TokenStream(pre + rest, end), name, depth) == ListEndScan(TokenStream(rest, end), name, depth)
    decreases |pre|
  {
    if pre == [] {
      assert pre + rest == rest;
    } else {
      var st := TokenStream(pre + rest, end);
      var next := TokenStream(pre[1..] + rest, end);
      assert st.tokens[0] == pre[0] && st.tokens[1..] == pre[1..] + rest;
      assert Read(st) == (Success(pre[0]), next);
      assert Neutral(pre[0]);
      ListEndSkips(pre[1..], rest, end, name, depth);
    }
  }

  /** Inside the last entry, the next end tag closes the list. */
  lemma ListEndClosesEntry(pre: seq<Token>, endName: Option<string>, rest: seq<Token>, end: StreamEnd, name: string)
    requires forall k :: 0 <= k < |pre| ==> Neutral(pre[k])
    ensures ListEndScan(TokenStream(pre + [ElementEnd(endName)] + rest, end), name, 1)
         == Success(Scanned(Balanced, TokenStream(rest, end)))
  {
    var tail := [ElementEnd(endName)] + rest;
    assert pre + [ElementEnd(endName)] + rest == pre + tail;
    ListEndSkips(pre, tail, end, name, 1);
    var st := TokenStream(tail, end);
    assert st.tokens[1..] == rest;
  }

  /** A nested entry of the item name needs its own end tag before the list closes. */
  lemma ListEndSkipsNestedEntry(pre: seq<Token>, endName: Option<string>, rest: seq<Token>, end: StreamEnd, name: string)
    requires forall k :: 0 <= k < |pre| ==> Neutral(pre[k])
    ensures ListEndScan(TokenStream([ElementStart(name)] + pre + [ElementEnd(endName)] + rest, end), name, 1)
         == ListEndScan(TokenStream(rest, end), name, 1)
  {
    var tail := [ElementEnd(endName)] + rest;
    var nested := TokenStream([ElementStart(name)] + pre + [ElementEnd(endName)] + rest, end);
    assert nested.tokens[0] == ElementStart(name) && nested.tokens[1..] == pre + tail;
    ListEndSkips(pre, tail, end, name, 2);
    var st := TokenStream(tail, end);
    assert st.tokens[1..] == rest;
  }

  /** A start tag of another name ends the walk and is left in the stream. */
  lemma ListEndStopsAtOtherTag(pre: seq<Token>, tag: string, rest: seq<Token>, end: StreamEnd, name: string, depth: int)
    requires depth > 0 && tag != name
    requires forall k :: 0 <= k < |pre| ==> Neutral(pre[k])
    ensures ListEndScan(TokenStream(pre + [ElementStart(tag)] + rest, end), name, depth)
         == Success(Scanned(Interrupted(tag), TokenStream([ElementStart(tag)] + rest, end)))
  {
    var tail := [ElementStart(tag)] + rest;
    assert pre + [ElementStart(tag)] + rest == pre + tail;
    ListEndSkips(pre, tail, end, name, depth);
    var st := TokenStream(tail, end);
    assert st.tokens[1..] == rest;
  }

  // ---------------------------------------------------------------------------
  // StreamingLlmXmlDecoder.readContent and the scalar decoders

  /** One pass of readContent's inner loop as written: text is appended, an end
      tag breaks the loop, and every other token, DocumentEnd included, is ignored. */
  function ContentStepAsWritten(t: Token, acc: string): (r: (bool, string))
    ensures r.0 <==> t.ElementEnd?
    ensures t.Text? ==> r.1 == acc + t.content
    ensures !t.Text? ==> r.1 == acc
  {
    match t
    case Text(c) => (false, acc + c)
    case ElementEnd(_) => (true, acc)
    case _ => (false, acc)
  }

  /** As written the inner loop never leaves an element the document does not
      close: at the end every read gives DocumentEnd, which neither breaks the loop
      nor changes the text or the stream. */
  lemma ReadContentLoopsAtDocumentEnd(acc: string)
    ensures var st := TokenStream([], AtDocumentEnd);
      Read(st) == (Success(DocumentEnd), st) && ContentStepAsWritten(Read(st).0.value, acc) == (false, acc)
  {
  }

  /** The inner loop of readContent, with the end of the document ending it as
      decodeElement does: the text up to the first end tag. */
  function ContentScan(st: TokenStream, acc: string): (r: Result<Scanned<string>>)
    ensures FailsWithStream(st, r)
    ensures r.Success? ==> Consumed(st, r.value.rest) && IsPrefix(acc, r.value.value)
    decreases |st.tokens|
  {
    var (t, rest) := Read(st);
    match t
    case Failure(e) => Failure(e)
    case Success(Text(c)) => ContentAfter(st, rest, acc, acc + c, ContentScan(rest, acc + c))
    case Success(ElementEnd(_)) => assert acc[..|acc|] == acc; Success(Scanned(acc, rest))
    case Success(DocumentEnd) => assert acc[..|acc|] == acc; Success(Scanned(acc, rest))
    case Success(_) => ContentAfter(st, rest, acc, acc, ContentScan(rest, acc))
  }

  /** ContentScan continued after one token that extended acc to next. */
  function ContentAfter(st: TokenStream, rest: TokenStream, acc: string, next: string, r: Result<Scanned<string>>): (r': Result<Scanned<string>>)
    requires rest == Read(st).1 && IsPrefix(acc, next)
    requires r.Success? ==> Consumed(rest, r.value.rest) && IsPrefix(next, r.value.value)
    ensures r' == r
    ensures r'.Success? ==> Consumed(st, r'.value.rest) && IsPrefix(acc, r'.value.value)
  {
    if r.Success? then
      ConsumedTransitive(st, rest, r.value.rest);
      PrefixTransitive(acc, next, r.value.value);
      r
    else r
  }

  /** The corrected loop differs from the one written only at the end of the
      document: on every other token it takes the step as written. */
  lemma ContentScanFollowsStep(t: Token, rest: seq<Token>, end: StreamEnd, acc: string)
    requires t != DocumentEnd
    ensures var (stop, next) := ContentStepAsWritten(t, acc);
      ContentScan(TokenStream([t] + rest, end), acc)
      == if stop then Success(Scanned(next, TokenStream(rest, end))) else ContentScan(TokenStream(rest, end), next)
  {
    var st := TokenStream([t] + rest, end);
    assert st.tokens[1..] == rest;
  }

  /** One step of the inner loop. */
  lemma ContentUnfolds(st: TokenStream, acc: string)
    requires Read(st).0.Success?
    ensures var (t, rest) := (Read(st).0.value, Read(st).1);
      var r := ContentScan(st, acc);
      (t.Text? ==> r == ContentScan(rest, acc + t.content))
      && (t.ElementEnd? || t == DocumentEnd ==> r == Success(Scanned(acc, rest)))
      && (!t.Text? && !t.ElementEnd? && t != DocumentEnd ==> r == ContentScan(rest, acc))
  {
  }

  /** A token readContent's inner loop passes over, gathering its text. */
  predicate InsideContent(t: Token) {
    !t.ElementEnd? && t != DocumentEnd
  }

  lemma ContentStepsOver(t: Token, rest: seq<Token>, end: StreamEnd, acc: string)
    requires InsideContent(t)
    ensures ContentScan(TokenStream([t] + rest, end), acc) == ContentScan(TokenStream(rest, end), acc + TextIn(t))
  {
    var st := TokenStream([t] + rest, end);
    assert st.tokens[1..] == rest;
    if !t.Text? {
      assert acc + TextIn(t) == acc;
    }
  }

  /** The inner loop returns the text of every token before the first end tag. */
  lemma {:induction false} ContentGathersText(pre: seq<Token>, tail: seq<Token>, end: StreamEnd, acc: string)
    requires forall k :: 0 <= k < |pre| ==> InsideContent(pre[k])
    requires tail != [] && tail[0].ElementEnd?
    ensures ContentScan(TokenStream(pre + tail, end), acc) == Success(Scanned(acc + TextOf(pre), TokenStream(tail[1..], end)))
    decreases |pre|
  {
    if pre == [] {
      assert pre + tail == tail && acc + TextOf(pre) == acc;
      var st := TokenStream(tail, end);
      assert Read(st) == (Success(tail[0]), TokenStream(tail[1..], end));
      ContentUnfolds(st, acc);
    } else {
      var next := pre[1..] + tail;
      assert pre + tail == [pre[0]] + next;
      assert forall k :: 0 <= k < |pre[1..]| ==> pre[1..][k] == pre[k + 1];
      var acc' := acc + TextIn(pre[0]);
      ContentStepsOver(pre[0], next, end, acc);
      assert ContentScan(TokenStream(pre + tail, end), acc) == ContentScan(TokenStream(next, end), acc');
      ContentGathersText(pre[1..], tail, end, acc');
      TextOfAfter(acc, pre);
    }
  }

  /** The tokens readContent accepts first. */
  predicate StartsContent(t: Token) {
    t.Text? || t.AttributeValue? || t.ElementStart? || t.ElementStartEnd?
  }

  /** readContent: a text or attribute value is the content itself; after a start
      tag, or the end of one, the text up to the first end tag; any other token is
      an error. */
  function ReadContentScan(st: TokenStream): (r: Result<Scanned<string>>)
    ensures r.Failure? ==> st.end == AtFailure(r.error) || r.error == UnexpectedToken
    ensures r.Success? ==> Consumed(st, r.value.rest)
    ensures r.Success? ==> st.tokens != [] && StartsContent(st.tokens[0])
  {
    var (t, rest) := Read(st);
    match t
    case Failure(e) => Failure(e)
    case Success(Text(c)) => Success(Scanned(c, rest))
    case Success(AttributeValue(v)) => Success(Scanned(v, rest))
    case Success(ElementStart(_)) => ConsumedAfter(st, rest, ContentScan(rest, ""))
    case Success(ElementStartEnd) => ConsumedAfter(st, rest, ContentScan(rest, ""))
    case Success(_) => Failure(UnexpectedToken)
  }

  /** The first step of readContent. */
  lemma ReadContentUnfolds(st: TokenStream)
    requires Read(st).0.Success?
    ensures var (t, rest) := (Read(st).0.value, Read(st).1);
      var r := ReadContentScan(st);
      (t.Text? ==> r == Success(Scanned(t.content, rest)))
      && (t.AttributeValue? ==> r == Success(Scanned(t.value, rest)))
      && (t.ElementStart? || t.ElementStartEnd? ==> r == ContentScan(rest, ""))
      && (!StartsContent(t) ==> r == Failure(UnexpectedToken))
  {
  }

  /** A value written as <tag>text</tag> reads back as its text. */
  lemma ReadContentOfElement(tag: string, text: string, rest: seq<Token>, end: StreamEnd)
    ensures ReadContentScan(TokenStream([ElementStart(tag), ElementStartEnd, Text(text), ElementEnd(Some(tag))] + rest, end))
         == Success(Scanned(text, TokenStream(rest, end)))
  {
    var st := TokenStream([ElementStart(tag), ElementStartEnd, Text(text), ElementEnd(Some(tag))] + rest, end);
    var tail := [ElementEnd(Some(tag))] + rest;
    assert st.tokens[0] == ElementStart(tag) && st.tokens[1..] == [ElementStartEnd, Text(text)] + tail;
    assert tail[1..] == rest;
    ContentGathersText([ElementStartEnd, Text(text)], tail, end, "");
    assert TextOf([ElementStartEnd, Text(text)]) == text by {
      assert [ElementStartEnd, Text(text)][1..] == [Text(text)];
      assert [Text(text)][1..] == [];
      assert TextOf([Text(text)]) == text + "" == text;
      assert "" + text == text;
    }
  }

  /** toByte(), toShort(), toInt() or toLong() by bit width: the number, or a
      NumberFormatException for a text that is not one or is out of range. */
  function ContentInteger(s: string, bits: nat): (r: Result<int>)
    requires 1 <= bits <= 64
    ensures r.Success? <==> ParseSigned(s, bits).Some?
    ensures r.Success? ==> r.value == ParseSigned(s, bits).value && InWidth(r.value, bits)
    ensures r.Failure? ==> r.error == NumberFormat
  {
    match ParseSigned(s, bits)
    case Some(n) => Success(n)
    case None => Failure(NumberFormat)
  }

  /** single(): the one character of the text, an error otherwise. */
  function ContentChar(s: string): (r: Result<char>)
    ensures r.Success? <==> |s| == 1
    ensures r.Success? ==> r.value == s[0]
    ensures r.Failure? ==> r.error == NotSingleCharacter
  {
    if |s| == 1 then Success(s[0]) else Failure(NotSingleCharacter)
  }

  /** An integer printed by toString() decodes to itself at every width it fits. */
  lemma ContentIntegerRoundTrip(n: int, bits: nat)
    requires 1 <= bits <= 64 && InWidth(n, bits)
    ensures ContentInteger(DecimalString(n), bits) == Success(n)
  {
    ParseDecimalRoundTrip(n);
  }

  // ---------------------------------------------------------------------------
  // The typed getters of the list walker read the gathered text, trimmed

  /** An integer surrounded by whitespace reads as itself. */
  lemma ListIntegerOfPaddedText(before: string, n: int, after: string, bits: nat)
    requires 1 <= bits <= 64 && InWidth(n, bits)
    requires AllWhitespace(before) && AllWhitespace(after)
    ensures ContentInteger(Trim(before + DecimalString(n) + after), bits) == Success(n)
  {
    DecimalStringTrimmed(n);
    TrimPadded(before, DecimalString(n), after);
    ContentIntegerRoundTrip(n, bits);
  }

  /** A boolean surrounded by whitespace reads as itself. */
  lemma ListBooleanOfPaddedText(before: string, b: bool, after: string)
    requires AllWhitespace(before) && AllWhitespace(after)
    ensures IsTrueIgnoringCase(Trim(before + (if b then "true" else "false") + after)) == b
  {
    var text := if b then "true" else "false";
    assert !IsWhitespace(text[0]) && !IsWhitespace(text[|text| - 1]);
    TrimPadded(before, text, after);
  }

  // ---------------------------------------------------------------------------
  // The decoder objects

  /** The value of a scan, without the stream it leaves. */
  function ValueOf<T>(r: Result<Scanned<T>>): (v: Result<T>)
    ensures v.Success? <==> r.Success?
    ensures v.Success? ==> v.value == r.value.value
    ensures v.Failure? ==> v.error == r.error
  {
    match r
    case Success(Scanned(value, _)) => Success(value)
    case Failure(e) => Failure(e)
  }

  /** readNextToken, seen only through the stream it delivers. */
  method NextToken(lexer: LlmXmlLexer) returns (r: Result<Token>)
    requires lexer.Valid()
    modifies lexer
    ensures lexer.Valid()
    ensures r == Read(old(lexer.Stream())).0
    ensures r.Success? ==> lexer.Stream() == Read(old(lexer.Stream())).1
  {
    r := lexer.ReadNextToken();
  }

  /** LlmXmlElementDecoder: reads the fields of one class from the lexer. Each
      method performs its scan on the lexer in place and leaves the lexer
      delivering what the scan leaves over. */
  class LlmXmlElementDecoder {
    const lexer: LlmXmlLexer
    const descriptor: ClassDescriptor
    /** The names of the field elements entered and not yet left. */
    var elementStack: seq<string>

    constructor (lexer: LlmXmlLexer, descriptor: ClassDescriptor)
      ensures this.lexer == lexer && this.descriptor == descriptor && elementStack == []
    {
      this.lexer := lexer;
      this.descriptor := descriptor;
      elementStack := [];
    }

    /** decodeElementIndex. */
    method DecodeElementIndex() returns (r: Result<int>)
      requires lexer.Valid()
      modifies this`elementStack, lexer
      ensures lexer.Valid()
      ensures var s := ElementIndexScan(old(lexer.Stream()), descriptor, old(elementStack));
        (r.Success? <==> s.Success?) && (r.Failure? ==> r.error == s.error)
        && (r.Success? ==>
              r.value == s.value.value.index && elementStack == s.value.value.stack && lexer.Stream() == s.value.rest)
    {
      ghost var goal := ElementIndexScan(lexer.Stream(), descriptor, elementStack);
      while true
        invariant lexer.Valid()
        invariant ElementIndexScan(lexer.Stream(), descriptor, elementStack) == goal
        decreases |lexer.Stream().tokens|
      {
        ghost var st := lexer.Stream();
        var token := NextToken(lexer);
        if token.Failure? {
          return Failure(token.error);
        }
        ElementIndexUnfolds(st, descriptor, elementStack);
        if token.value.ElementStart? {
          var index := ElementIndex(descriptor, token.value.name);
          if index != UnknownName {
            elementStack := elementStack + [token.value.name];
            return Success(index);
          }
        } else if token.value.ElementEnd? {
          if elementStack != [] && Some(elementStack[|elementStack| - 1]) == token.value.endName {
            elementStack := elementStack[..|elementStack| - 1];
          }
          if elementStack == [] {
            return Success(DecodeDone);
          }
        } else if token.value == DocumentEnd {
          return Success(DecodeDone);
        }
      }
    }

    /** decodeCollectionSize, stopping at the end of the document, then the lexer
        is sent back to the start of the source. */
    method DecodeCollectionSize() returns (r: Result<nat>)
      requires lexer.Valid()
      modifies lexer
      ensures lexer.Valid()
      ensures r == ValueOf(CollectionSizeScan(old(lexer.Stream()), SizeCount(0, 1)))
      ensures r.Success? ==> lexer.position == 0
    {
      var size: nat := 0;
      var depth := 1;
      ghost var cur := lexer.Stream();
      ghost var goal := ValueOf(CollectionSizeScan(cur, SizeCount(0, 1)));
      while depth > 0
        invariant lexer.Valid() && lexer.Stream() == cur
        invariant depth > 0 ==> ValueOf(CollectionSizeScan(cur, SizeCount(size, depth))) == goal
        invariant depth <= 0 ==> goal == Success(size)
        decreases |cur.tokens|
      {
        ghost var st := cur;
        var token := NextToken(lexer);
        if token.Failure? {
          return Failure(token.error);
        }
        cur := Read(st).1;
        if token.value == DocumentEnd {
          CollectionSizeAtDocumentEnd(st, SizeCount(size, depth));
          break;
        }
        ghost var c := SizeCount(size, depth);
        CollectionSizeUnfolds(st, c);
        if token.value.ElementStart? {
          if depth == 1 {
            size := size + 1;
          }
          depth := depth + 1;
        } else if token.value.ElementEnd? {
          depth := depth - 1;
        }
        assert SizeCount(size, depth) == CollectionSizeStepAsWritten(token.value, c);
      }
      lexer.position := 0;
      r := Success(size);
    }

    /** decodeElement. */
    method DecodeElement(index: nat) returns (r: Result<Option<string>>)
      requires lexer.Valid() && index < |descriptor.fields|
      modifies lexer
      ensures lexer.Valid()
      ensures var s := DecodeElementScan(old(lexer.Stream()), descriptor.fields[index]);
        r == ValueOf(s) && (r.Success? ==> lexer.Stream() == s.value.rest)
    {
      var f := descriptor.fields[index];
      if f.llmField.None? {
        return Success(None);
      }
      var tag := FieldTag(f);
      var content := "";
      var depth := 0;
      ghost var goal := ElementTextScan(lexer.Stream(), tag, 0, "");
      while true
        invariant lexer.Valid()
        invariant ElementTextScan(lexer.Stream(), tag, depth, content) == goal
        decreases |lexer.Stream().tokens|
      {
        ghost var st := lexer.Stream();
        var token := NextToken(lexer);
        if token.Failure? {
          return Failure(token.error);
        }
        ElementTextSteps(st, tag, depth, content);
        ghost var n := ElementTextStep(token.value, tag, depth, content);
        if token.value.ElementStart? {
          if token.value.name == tag {
            depth := depth + 1;
          }
        } else if token.value.Text? {
          if depth == 1 {
            content := content + token.value.content;
          }
        } else if token.value.ElementEnd? {
          if token.value.endName == Some(tag) {
            depth := depth - 1;
            if depth == 0 {
              break;
            }
          }
        } else if token.value == DocumentEnd {
          break;
        }
        assert !n.done && depth == n.depth && content == n.content;
      }
      r := Success(NonEmpty(Trim(content)));
    }

    /** decodeStringElement: the element's text, or "". */
    method DecodeStringElement(index: nat) returns (r: Result<string>)
      requires lexer.Valid() && index < |descriptor.fields|
      modifies lexer
      ensures lexer.Valid()
      ensures var s := DecodeElementScan(old(lexer.Stream()), descriptor.fields[index]);
        (r.Success? <==> s.Success?) && (r.Failure? ==> r.error == s.error)
        && (r.Success? ==> r.value == StringOrEmpty(s.value.value) && lexer.Stream() == s.value.rest)
    {
      var v := DecodeElement(index);
      r := if v.Success? then Success(StringOrEmpty(v.value)) else Failure(v.error);
    }

    /** decodeBooleanElement: true only for the text "true" in any letter case. */
    method DecodeBooleanElement(index: nat) returns (r: Result<bool>)
      requires lexer.Valid() && index < |descriptor.fields|
      modifies lexer
      ensures lexer.Valid()
      ensures var s := DecodeElementScan(old(lexer.Stream()), descriptor.fields[index]);
        (r.Success? <==> s.Success?) && (r.Failure? ==> r.error == s.error)
        && (r.Success? ==> r.value == BooleanOrFalse(s.value.value) && lexer.Stream() == s.value.rest)
    {
      var v := DecodeElement(index);
      r := if v.Success? then Success(BooleanOrFalse(v.value)) else Failure(v.error);
    }

    /** decodeByteElement (8 bits), decodeShortElement (16), decodeIntElement (32)
        and decodeLongElement (64): the number, or 0. */
    method DecodeIntegerElement(index: nat, bits: nat) returns (r: Result<int>)
      requires lexer.Valid() && index < |descriptor.fields| && 1 <= bits <= 64
      modifies lexer
      ensures lexer.Valid()
      ensures var s := DecodeElementScan(old(lexer.Stream()), descriptor.fields[index]);
        (r.Success? <==> s.Success?) && (r.Failure? ==> r.error == s.error)
        && (r.Success? ==> r.value == IntegerOrZero(s.value.value, bits) && lexer.Stream() == s.value.rest)
    {
      var v := DecodeElement(index);
      r := if v.Success? then Success(IntegerOrZero(v.value, bits)) else Failure(v.error);
    }

    /** decodeCharElement: the first character, or Char(0). */
    method DecodeCharElement(index: nat) returns (r: Result<char>)
      requires lexer.Valid() && index < |descriptor.fields|
      modifies lexer
      ensures lexer.Valid()
      ensures var s := DecodeElementScan(old(lexer.Stream()), descriptor.fields[index]);
        (r.Success? <==> s.Success?) && (r.Failure? ==> r.error == s.error)
        && (r.Success? ==> r.value == CharOrZero(s.value.value) && lexer.Stream() == s.value.rest)
    {
      var v := DecodeElement(index);
      r := if v.Success? then Success(CharOrZero(v.value)) else Failure(v.error);
    }

    /** decodeSerializableElement up to the hand-over: a field without LlmListField
        goes to its own deserializer; for a list field three tokens are read, and
        pushed back in reverse order when they announce entries. */
    method DecodeSerializableElement(index: nat) returns (r: Result<ElementPlan>)
      requires lexer.Valid() && index < |descriptor.fields|
      modifies lexer
      ensures lexer.Valid()
      ensures var s := SerializableElementScan(old(lexer.Stream()), descriptor, index);
        r == ValueOf(s) && (r.Success? ==> lexer.Stream() == s.value.rest)
    {
      var f := descriptor.fields[index];
      if f.llmListField.None? {
        return Success(Delegated);
      }
      var itemName := ListItemName(descriptor, f.llmListField.value);
      var startToken := NextToken(lexer);
      if startToken.Failure? {
        return Failure(startToken.error);
      }
      var skippedToken := NextToken(lexer);
      if skippedToken.Failure? {
        return Failure(skippedToken.error);
      }
      var possibleEndToken := NextToken(lexer);
      if possibleEndToken.Failure? {
        return Failure(possibleEndToken.error);
      }
      if Announces(startToken.value, skippedToken.value, possibleEndToken.value) {
        lexer.PushBack(possibleEndToken.value);
        lexer.PushBack(skippedToken.value);
        lexer.PushBack(startToken.value);
        return Success(ListEntries(itemName));
      }
      r := Success(EmptyList);
    }
  }

  /** ListLlmXmlElementDecoder: steps through the entries of a list whose items are
      tagged listElementName, numbering them from 0. */
  class ListLlmXmlElementDecoder {
    const lexer: LlmXmlLexer
    const listElementName: string
    var index: nat
    /** The text gathered by the last decodeElementIndex. */
    var content: string

    constructor (lexer: LlmXmlLexer, listElementName: string)
      ensures this.lexer == lexer && this.listElementName == listElementName
      ensures index == 0 && content == []
    {
      this.lexer := lexer;
      this.listElementName := listElementName;
      index := 0;
      content := [];
    }

    /** decodeElementIndex: the next index for an entry, DECODE_DONE at the end of
        the list. */
    method DecodeElementIndex() returns (r: Result<int>)
      requires lexer.Valid()
      modifies this`index, this`content, lexer
      ensures lexer.Valid()
      ensures var s := ListIndexScan(old(lexer.Stream()), listElementName, "");
        (r.Success? <==> s.Success?) && (r.Failure? ==> r.error == s.error)
        && (r.Success? ==>
              lexer.Stream() == s.value.rest && content == s.value.value.content
              && r.value == (if s.value.value.found then old(index) else DecodeDone)
              && index == (if s.value.value.found then old(index) + 1 else old(index)))
    {
      content := [];
      ghost var goal := ListIndexScan(lexer.Stream(), listElementName, "");
      while true
        invariant lexer.Valid() && index == old(index)
        invariant ListIndexScan(lexer.Stream(), listElementName, content) == goal
        decreases |lexer.Stream().tokens|
      {
        ghost var st := lexer.Stream();
        var token := NextToken(lexer);
        if token.Failure? {
          return Failure(token.error);
        }
        ListIndexUnfolds(st, listElementName, content);
        if token.value == ElementStart(listElementName) {
          var nextToken := NextToken(lexer);
          if nextToken.Failure? {
            return Failure(nextToken.error);
          }
          if nextToken.value == ElementEnd(Some(listElementName)) {
            return Success(DecodeDone);
          }
          lexer.PushBack(nextToken.value);
          r := Success(index);
          index := index + 1;
          return;
        } else if token.value == ElementEnd(Some(listElementName)) {
          return Success(DecodeDone);
        } else if token.value == ElementStartEnd {
          r := Success(index);
          index := index + 1;
          return;
        } else if token.value.Text? {
          content := content + token.value.content;
        } else if token.value == DocumentEnd {
          return Success(DecodeDone);
        }
      }
    }

    /** endStructure: the rest of the list is skipped as ListEndScan describes. */
    method EndStructure() returns (r: Outcome)
      requires lexer.Valid()
      modifies lexer
      ensures lexer.Valid()
      ensures var s := ListEndScan(old(lexer.Stream()), listElementName, 1);
        (r.Pass? <==> s.Success?) && (r.Fail? ==> r.error == s.error) && (r.Pass? ==> lexer.Stream() == s.value.rest)
    {
      var depth := 1;
      ghost var goal := ListEndScan(lexer.Stream(), listElementName, 1);
      while depth > 0
        invariant lexer.Valid() && ClosingFrom(goal, lexer.Stream(), listElementName, depth)
        decreases |lexer.Stream().tokens|, depth
      {
        var stop;
        depth, stop := EndStep(depth);
        if stop.Some? {
          return stop.value;
        }
      }
      r := Pass;
    }

    /** One token of endStructure's walk: the depth it leaves, or the outcome once
        a read fails or a start tag of another name has been pushed back. */
    method EndStep(depth: int) returns (next: int, stop: Option<Outcome>)
      requires lexer.Valid() && depth > 0
      modifies lexer
      ensures lexer.Valid()
      ensures var s := ListEndScan(old(lexer.Stream()), listElementName, depth);
        (stop == Some(Pass) ==> s.Success? && lexer.Stream() == s.value.rest)
        && (stop.Some? && stop.value.Fail? ==> s == Failure(stop.value.error))
        && (stop.None? ==> ClosingFrom(s, lexer.Stream(), listElementName, next))
      ensures stop.None? ==>
        |lexer.Stream().tokens| < |old(lexer.Stream()).tokens|
        || (|lexer.Stream().tokens| == |old(lexer.Stream()).tokens| && next < depth)
    {
      ghost var st := lexer.Stream();
      var token := NextToken(lexer);
      if token.Failure? {
        return depth, Some(Fail(token.error));
      }
      ListEndStep(st, listElementName, depth);
      next, stop := depth, None;
      if token.value.ElementStart? {
        if token.value.name == listElementName {
          next := depth + 1;
        } else {
          lexer.PushBack(token.value);
          stop := Some(Pass);
        }
      } else if token.value.ElementEnd? {
        next := depth - 1;
      } else if token.value == DocumentEnd {
        next := 0;
      }
      assert stop.None? ==> next == EndDepth(token.value, listElementName, depth);
    }

    /** decodeBooleanElement: true only when the gathered text, trimmed, is "true"
        in some letter case; a blank text is false. */
    function DecodeBooleanElement(): (r: bool)
      reads this
      ensures r ==> |Trim(content)| == 4
      ensures AllWhitespace(content) ==> !r
    {
      TrimEmptyIffBlank(content);
      IsTrueIgnoringCase(Trim(content))
    }

    /** decodeByteElement (8 bits), decodeIntElement (32) and decodeLongElement (64). */
    function DecodeIntegerElement(bits: nat): (r: Result<int>)
      requires 1 <= bits <= 64
      reads this
      ensures r.Success? ==> InWidth(r.value, bits)
      ensures r.Failure? ==> r.error == NumberFormat
    {
      ContentInteger(Trim(content), bits)
    }

    /** decodeStringElement: the gathered text without surrounding whitespace,
        empty exactly when the text is blank. */
    function DecodeStringElement(): (r: string)
      reads this
      ensures r == [] || (!IsWhitespace(r[0]) && !IsWhitespace(r[|r| - 1]))
      ensures r == [] <==> AllWhitespace(content)
    {
      TrimEmptyIffBlank(content);
      Trim(content)
    }
  }

  /** StreamingLlmXmlDecoder: the decoder of single values. */
  class StreamingLlmXmlDecoder {
    const lexer: LlmXmlLexer

    constructor (lexer: LlmXmlLexer)
      ensures this.lexer == lexer
    {
      this.lexer := lexer;
    }

    /** beginStructure: a record walker over the same lexer. */
    method BeginStructure(d: ClassDescriptor) returns (e: LlmXmlElementDecoder)
      ensures fresh(e) && e.lexer == lexer && e.descriptor == d && e.elementStack == []
    {
      e := new LlmXmlElementDecoder(lexer, d);
    }

    /** readContent, with the end of the document ending its inner loop. */
    method ReadContent() returns (r: Result<string>)
      requires lexer.Valid()
      modifies lexer
      ensures lexer.Valid()
      ensures var s := ReadContentScan(old(lexer.Stream()));
        r == ValueOf(s) && (r.Success? ==> lexer.Stream() == s.value.rest)
    {
      ghost var st := lexer.Stream();
      var token := NextToken(lexer);
      if token.Failure? {
        return Failure(token.error);
      }
      ReadContentUnfolds(st);
      if token.value.Text? {
        return Success(token.value.content);
      } else if token.value.AttributeValue? {
        return Success(token.value.value);
      } else if !token.value.ElementStart? && !token.value.ElementStartEnd? {
        return Failure(UnexpectedToken);
      }
      var content := "";
      ghost var goal := ContentScan(lexer.Stream(), "");
      while true
        invariant lexer.Valid()
        invariant ContentScan(lexer.Stream(), content) == goal
        decreases |lexer.Stream().tokens|
      {
        ghost var cur := lexer.Stream();
        var next := NextToken(lexer);
        if next.Failure? {
          return Failure(next.error);
        }
        ghost var rest := lexer.Stream();
        ContentUnfolds(cur, content);
        if next.value.Text? {
          assert goal == ContentScan(rest, content + next.value.content);
          content := content + next.value.content;
        } else if next.value.ElementEnd? || next.value == DocumentEnd {
          assert goal == Success(Scanned(content, rest));
          break;
        } else {
          assert goal == ContentScan(rest, content);
        }
      }
      r := Success(content);
    }

    /** decodeBoolean: true only for "true" in any letter case, untrimmed. */
    method DecodeBoolean() returns (r: Result<bool>)
      requires lexer.Valid()
      modifies lexer
      ensures lexer.Valid()
      ensures var s := ReadContentScan(old(lexer.Stream()));
        (r.Success? <==> s.Success?) && (r.Failure? ==> r.error == s.error)
        && (r.Success? ==> r.value == IsTrueIgnoringCase(s.value.value) && lexer.Stream() == s.value.rest)
    {
      var content := ReadContent();
      r := if content.Success? then Success(IsTrueIgnoringCase(content.value)) else Failure(content.error);
    }

    /** decodeByte (8 bits), decodeShort (16), decodeInt (32) and decodeLong (64). */
    method DecodeInteger(bits: nat) returns (r: Result<int>)
      requires lexer.Valid() && 1 <= bits <= 64
      modifies lexer
      ensures lexer.Valid()
      ensures var s := ReadContentScan(old(lexer.Stream()));
        (s.Failure? ==> r == Failure(s.error))
        && (s.Success? ==> r == ContentInteger(s.value.value, bits) && lexer.Stream() == s.value.rest)
    {
      var content := ReadContent();
      r := if content.Success? then ContentInteger(content.value, bits) else Failure(content.error);
    }

    /** decodeChar: the content must be a single character. */
    method DecodeChar() returns (r: Result<char>)
      requires lexer.Valid()
      modifies lexer
      ensures lexer.Valid()
      ensures var s := ReadContentScan(old(lexer.Stream()));
        (s.Failure? ==> r == Failure(s.error))
        && (s.Success? ==> r == ContentChar(s.value.value) && lexer.Stream() == s.value.rest)
    {
      var content := ReadContent();
      r := if content.Success? then ContentChar(content.value) else Failure(content.error);
    }

    /** decodeString. */
    method DecodeString() returns (r: Result<string>)
      requires lexer.Valid()
      modifies lexer
      ensures lexer.Valid()
      ensures var s := ReadContentScan(old(lexer.Stream()));
        r == ValueOf(s) && (r.Success? ==> lexer.Stream() == s.value.rest)
    {
      r := ReadContent();
    }

    /** decodeEnum: the index of the entry the content names, UNKNOWN_NAME when none does. */
    method DecodeEnum(entries: seq<string>) returns (r: Result<int>)
      requires lexer.Valid()
      modifies lexer
      ensures lexer.Valid()
      ensures var s := ReadContentScan(old(lexer.Stream()));
        (r.Success? <==> s.Success?) && (r.Failure? ==> r.error == s.error)
        && (r.Success? ==> r.value == EntryIndex(entries, s.value.value) && lexer.Stream() == s.value.rest)
    {
      var name := DecodeString();
      r := if name.Success? then Success(EntryIndex(entries, name.value)) else Failure(name.error);
    }
  }
}
