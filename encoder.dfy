/** StreamingLlmXmlEncoder: writes the prompt template of a class through the
    pretty-printing composer. Fields are written as placeholders built from
    their annotations; the field values themselves are never written. */
module Encoder {
  import opened Results
  import opened Strings
  import opened Schema
  import opened Composer

  // ---------------------------------------------------------------------------
  // The text of the template pieces

  /** "{... prompt ...}". */
  function Placeholder(prompt: string): string {
    "{... " + prompt + " ...}"
  }

  function OpenTag(name: string): string { "<" + name + ">" }

  function CloseTag(name: string): string { "</" + name + ">" }

  /** The trailer that stands for the further entries of a list. */
  function OtherEntries(elementTag: string): string {
    "{... other \"" + elementTag + "\" entries ...}"
  }

  /** What encodeElement writes for field f at the given level: nothing unless f
      carries an LlmField with a non-empty prompt; otherwise a line break and the
      placeholder element under the field's tag. */
  function FieldText(o: Output, f: FieldDecl, level: int, width: int): (r: Output)
    ensures f.llmField.None? || f.llmField.value.promptDescription == [] ==> r == o
  {
    if f.llmField.None? || f.llmField.value.promptDescription == [] then o
    else
      var tag := FieldTag(f);
      Put(PutLine(o, level, width), OpenTag(tag) + Placeholder(f.llmField.value.promptDescription) + CloseTag(tag))
  }

  /** The element tag of a list: elementTagName, or else the last '.' segment of
      the element's serial name. */
  function ElementTag(lf: LlmListField, element: SerialType): string {
    IfEmpty(lf.elementTagName, SimpleName(SerialName(element)))
  }

  /** The element prompt of a list: elementPromptDescription, or else the kind's name. */
  function ElementPrompt(lf: LlmListField, element: SerialType): string {
    IfEmpty(lf.elementPromptDescription, KindName(element))
  }

  /** The lines of one example entry of a list of classes: its opening tag, its
      inner lines and its closing tag, as cut out of the entry's own rendering. */
  datatype ExampleBlock = ExampleBlock(opening: string, inner: seq<string>, closing: string)

  /** Lines, each followed by a line break at the given level. */
  function LinesText(o: Output, lines: seq<string>, level: int, width: int): Output {
    if lines == [] then o
    else PutLine(Put(LinesText(o, lines[..|lines| - 1], level, width), lines[|lines| - 1]), level, width)
  }

  /** The example entry of a list of classes written at the given level: the
      opening tag, the inner lines one level deeper with the indentation dropped
      again after the last one, the closing tag and a line break. */
  function BlockText(o: Output, b: ExampleBlock, level: int, width: int): Output {
    var start := PutLine(Put(o, b.opening), level + 1, width);
    var body := if b.inner == [] then start
      else Put(LinesText(start, b.inner[..|b.inner| - 1], level + 1, width), b.inner[|b.inner| - 1]);
    PutLine(Put(PutLine(body, level, width), b.closing), level, width)
  }

  /** How one entry of the list is exemplified. */
  datatype Example = PrimitiveExample | ClassExample(block: ExampleBlock)

  /** The list opening at the wrapper's level: a line break, the wrapper tag, a line
      break one level deeper, and the list prompt on its own line when there is one. */
  function ListOpeningText(o: Output, tag: string, listPrompt: string, level: int, width: int): Output {
    var start := PutLine(Put(PutLine(o, level, width), OpenTag(tag)), level + 1, width);
    if listPrompt == [] then start else PutLine(Put(start, Placeholder(listPrompt)), level + 1, width)
  }

  /** The example entry at the entries' level. */
  function EntryText(o: Output, elementTag: string, elementPrompt: string, example: Example, level: int, width: int): Output {
    match example
    case PrimitiveExample =>
      PutLine(Put(o, OpenTag(elementTag) + Placeholder(elementPrompt) + CloseTag(elementTag)), level, width)
    case ClassExample(b) => BlockText(o, b, level, width)
  }

  /** The trailer, then the wrapper's closing tag back at the wrapper's level. */
  function ListClosingText(o: Output, elementTag: string, closing: string, level: int, width: int): Output {
    Put(PutLine(Put(o, OtherEntries(elementTag)), level, width), CloseTag(closing))
  }

  /** The list wrapper with one example entry and the trailer, at the given level.
      closing is the name in the closing tag. */
  function ListTextClosedBy(o: Output, tag: string, closing: string, listPrompt: string, elementTag: string,
                            elementPrompt: string, example: Example, level: int, width: int): Output
  {
    var start := ListOpeningText(o, tag, listPrompt, level, width);
    ListClosingText(EntryText(start, elementTag, elementPrompt, example, level + 1, width), elementTag, closing, level, width)
  }

  /** The list text as the source writes it: the closing tag carries the
      annotation's own tagName even when that is empty. */
  function ListTextAsWritten(o: Output, f: FieldDecl, example: Example, level: int, width: int): Output
    requires f.llmListField.Some? && f.fieldType.ListOf?
  {
    var lf := f.llmListField.value;
    ListTextClosedBy(o, IfEmpty(lf.tagName, f.name), lf.tagName, lf.listPromptDescription,
      ElementTag(lf, f.fieldType.element), ElementPrompt(lf, f.fieldType.element), example, level, width)
  }

  /** The list text with the wrapper closed by the tag it was opened with. */
  function ListText(o: Output, f: FieldDecl, example: Example, level: int, width: int): Output
    requires f.llmListField.Some? && f.fieldType.ListOf?
  {
    var lf := f.llmListField.value;
    var tag := IfEmpty(lf.tagName, f.name);
    ListTextClosedBy(o, tag, tag, lf.listPromptDescription,
      ElementTag(lf, f.fieldType.element), ElementPrompt(lf, f.fieldType.element), example, level, width)
  }

  // ---------------------------------------------------------------------------
  // The encoder object

  /** What encodeSerializableElement did with a field. */
  datatype ElementOutcome =
    | Written                  // a list template was written
    | HandedToSerializer       // no list annotation: the value is serialized through this encoder
    | Failed(error: Error)

  class StreamingLlmXmlEncoder {
    const composer: PrettyPrintLlmXmlComposer
    var startTagClosed: bool

    constructor (composer: PrettyPrintLlmXmlComposer)
      ensures this.composer == composer && !startTagClosed
    {
      this.composer := composer;
      startTagClosed := false;
    }

    /** beginStructure: "<N>" for the simple name N, one level deeper, and a new
        encoder over the same composer for the fields. */
    method BeginStructure(d: ClassDescriptor) returns (child: StreamingLlmXmlEncoder)
      modifies this, composer
      ensures !startTagClosed
      ensures composer.buffer == old(composer.buffer) + OpenTag(SimpleName(d.serialName))
      ensures composer.level == old(composer.level) + 1
      ensures fresh(child) && child.composer == composer && !child.startTagClosed
    {
      startTagClosed := false;
      composer.Append(OpenTag(SimpleName(d.serialName)));
      composer.Indent();
      child := new StreamingLlmXmlEncoder(composer);
    }

    /** endStructure: one level shallower, a line break and "</N>". */
    method EndStructure(d: ClassDescriptor) returns (r: Outcome)
      modifies this, composer
      ensures startTagClosed && composer.level == old(composer.level) - 1
      ensures Output(composer.buffer, r)
        == Put(PutLine(Output(old(composer.buffer), Pass), composer.level, composer.width), CloseTag(SimpleName(d.serialName)))
    {
      startTagClosed := true;
      composer.Unindent();
      r := composer.AppendLine();
      if r.Fail? {
        return;
      }
      composer.Append(CloseTag(SimpleName(d.serialName)));
    }

    /** encodeNull: always refused. */
    method EncodeNull() returns (r: Outcome)
      ensures r == Fail(NullNotSupported)
    {
      r := Fail(NullNotSupported);
    }

    /** encodeValue: the value's text, in double quotes unless the start tag is closed. */
    method EncodeValue(text: string)
      modifies composer
      ensures composer.level == old(composer.level)
      ensures composer.buffer == old(composer.buffer) + Quoted(text, startTagClosed)
    {
      composer.Append(Quoted(text, startTagClosed));
    }

    method EncodeBoolean(value: bool)
      modifies composer
      ensures composer.level == old(composer.level)
      ensures composer.buffer == old(composer.buffer) + Quoted(if value then "true" else "false", startTagClosed)
    {
      EncodeValue(if value then "true" else "false");
    }

    /** encodeByte, encodeShort, encodeInt and encodeLong: the decimal text. */
    method EncodeInteger(value: int)
      modifies composer
      ensures composer.level == old(composer.level)
      ensures composer.buffer == old(composer.buffer) + Quoted(DecimalString(value), startTagClosed)
    {
      EncodeValue(DecimalString(value));
    }

    method EncodeChar(value: char)
      modifies composer
      ensures composer.level == old(composer.level)
      ensures composer.buffer == old(composer.buffer) + Quoted([value], startTagClosed)
    {
      EncodeValue([value]);
    }

    method EncodeString(value: string)
      modifies composer
      ensures composer.level == old(composer.level)
      ensures composer.buffer == old(composer.buffer) + Quoted(value, startTagClosed)
    {
      EncodeValue(value);
    }

    /** encodeEnum: the ordinal, not the name. */
    method EncodeEnum(index: int)
      modifies composer
      ensures composer.level == old(composer.level)
      ensures composer.buffer == old(composer.buffer) + Quoted(DecimalString(index), startTagClosed)
    {
      EncodeValue(DecimalString(index));
    }

    /** encodeElement (every encodeXElement): the field's placeholder line; the
        value is never looked at. */
    method EncodeElement(d: ClassDescriptor, index: nat, value: string) returns (r: Outcome)
      requires index < |d.fields|
      modifies composer
      ensures composer.level == old(composer.level)
      ensures Output(composer.buffer, r) == FieldText(Output(old(composer.buffer), Pass), d.fields[index], composer.level, composer.width)
    {
      var f := d.fields[index];
      if f.llmField.Some? && f.llmField.value.promptDescription != [] {
        var tag := IfEmpty(f.llmField.value.tagName, f.name);
        r := composer.AppendLine();
        if r.Fail? {
          return;
        }
        composer.Append(OpenTag(tag) + Placeholder(f.llmField.value.promptDescription) + CloseTag(tag));
      } else {
        r := Pass;
      }
    }

    /** The list opening, leaving the composer one level deeper. */
    method WriteListOpening(tag: string, listPrompt: string) returns (r: Outcome)
      modifies composer
      ensures Output(composer.buffer, r)
        == ListOpeningText(Output(old(composer.buffer), Pass), tag, listPrompt, old(composer.level), composer.width)
      ensures r.Pass? ==> composer.level == old(composer.level) + 1
    {
      r := composer.AppendLine();
      if r.Fail? {
        return;
      }
      composer.Append(OpenTag(tag));
      composer.Indent();
      r := composer.AppendLine();
      if r.Fail? || listPrompt == [] {
        return;
      }
      composer.Append(Placeholder(listPrompt));
      r := composer.AppendLine();
    }

    /** Lines, each followed by a line break; a failed line break stops the loop. */
    method WriteLines(lines: seq<string>) returns (r: Outcome)
      modifies composer
      ensures composer.level == old(composer.level)
      ensures Output(composer.buffer, r) == LinesText(Output(old(composer.buffer), Pass), lines, composer.level, composer.width)
    {
      ghost var o := Output(composer.buffer, Pass);
      r := Pass;
      var i := 0;
      while i < |lines| && r.Pass?
        invariant 0 <= i <= |lines| && composer.level == old(composer.level)
        invariant Output(composer.buffer, r) == LinesText(o, lines[..i], composer.level, composer.width)
      {
        composer.Append(lines[i]);
        r := composer.AppendLine();
        assert lines[..i + 1][..i] == lines[..i];
        i := i + 1;
      }
      if i < |lines| {
        LinesAfterFailure(o, lines, i, composer.level, composer.width);
      } else {
        assert lines[..i] == lines;
      }
    }

    /** One example entry of a list of classes: the block's composer calls. */
    method WriteExampleBlock(b: ExampleBlock) returns (r: Outcome)
      modifies composer
      ensures Output(composer.buffer, r) == BlockText(Output(old(composer.buffer), Pass), b, old(composer.level), composer.width)
      ensures r.Pass? ==> composer.level == old(composer.level)
    {
      ghost var o := Output(composer.buffer, Pass);
      ghost var level := composer.level;
      composer.Append(b.opening);
      composer.Indent();
      r := composer.AppendLine();
      ghost var start := PutLine(Put(o, b.opening), level + 1, composer.width);
      assert Output(composer.buffer, r) == start;
      if b.inner != [] {
        if r.Pass? {
          r := WriteLines(b.inner[..|b.inner| - 1]);
        } else {
          LinesAfterFailure(start, b.inner[..|b.inner| - 1], 0, level + 1, composer.width);
        }
        if r.Pass? {
          composer.Append(b.inner[|b.inner| - 1]);
        }
      }
      ghost var body := if b.inner == [] then start
        else Put(LinesText(start, b.inner[..|b.inner| - 1], level + 1, composer.width), b.inner[|b.inner| - 1]);
      assert Output(composer.buffer, r) == body;
      if r.Fail? {
        return;
      }
      composer.Unindent();
      r := composer.AppendLine();
      if r.Fail? {
        return;
      }
      composer.Append(b.closing);
      r := composer.AppendLine();
    }

    /** The example entry at the current level. */
    method WriteEntry(elementTag: string, elementPrompt: string, example: Example) returns (r: Outcome)
      modifies composer
      ensures Output(composer.buffer, r)
        == EntryText(Output(old(composer.buffer), Pass), elementTag, elementPrompt, example, old(composer.level), composer.width)
      ensures r.Pass? ==> composer.level == old(composer.level)
    {
      match example
      case PrimitiveExample =>
        composer.Append(OpenTag(elementTag) + Placeholder(elementPrompt) + CloseTag(elementTag));
        r := composer.AppendLine();
      case ClassExample(b) =>
        r := WriteExampleBlock(b);
    }

    /** The trailer and the closing tag, one level shallower. */
    method WriteListClosing(elementTag: string, closing: string) returns (r: Outcome)
      modifies composer
      ensures composer.level == old(composer.level) - 1
      ensures Output(composer.buffer, r)
        == ListClosingText(Output(old(composer.buffer), Pass), elementTag, closing, composer.level, composer.width)
    {
      composer.Append(OtherEntries(elementTag));
      composer.Unindent();
      r := composer.AppendLine();
      if r.Fail? {
        return;
      }
      composer.Append(CloseTag(closing));
    }

    /** The list template: opening, one example entry and the trailer. */
    method WriteList(tag: string, closing: string, listPrompt: string, elementTag: string, elementPrompt: string,
                     example: Example) returns (r: Outcome)
      modifies composer
      ensures Output(composer.buffer, r) == ListTextClosedBy(Output(old(composer.buffer), Pass), tag, closing, listPrompt,
        elementTag, elementPrompt, example, old(composer.level), composer.width)
      ensures r.Pass? ==> composer.level == old(composer.level)
    {
      ghost var o := Output(composer.buffer, Pass);
      ghost var level := composer.level;
      r := WriteListOpening(tag, listPrompt);
      ghost var start := ListOpeningText(o, tag, listPrompt, level, composer.width);
      if r.Fail? {
        EntryAfterFailure(start, elementTag, elementPrompt, example, level + 1, composer.width);
        return;
      }
      r := WriteEntry(elementTag, elementPrompt, example);
      ghost var entry := EntryText(start, elementTag, elementPrompt, example, level + 1, composer.width);
      if r.Fail? {
        assert ListClosingText(entry, elementTag, closing, level, composer.width) == entry;
        return;
      }
      r := WriteListClosing(elementTag, closing);
    }

    /** encodeSerializableElement: a field with an LlmListField is written as a
        list template, the same whatever the list holds; any other field is
        handed to its serializer. block is the example entry of a list of classes. */
    method EncodeSerializableElement(d: ClassDescriptor, index: nat, block: ExampleBlock) returns (r: ElementOutcome)
      requires index < |d.fields|
      modifies composer
      ensures d.fields[index].llmListField.None? ==>
        r == HandedToSerializer && composer.buffer == old(composer.buffer) && composer.level == old(composer.level)
      ensures d.fields[index].llmListField.Some? && !d.fields[index].fieldType.ListOf? ==>
        r == Failed(ListAnnotationOnNonList) && composer.buffer == old(composer.buffer) && composer.level == old(composer.level)
      ensures var f := d.fields[index];
        f.llmListField.Some? && f.fieldType.ListOf? && !IsPrimitive(f.fieldType.element) && !IsStructure(f.fieldType.element) ==>
        var t := ListOpeningText(Output(old(composer.buffer), Pass), IfEmpty(f.llmListField.value.tagName, f.name),
          f.llmListField.value.listPromptDescription, old(composer.level), composer.width);
        composer.buffer == t.text && r == Failed(if t.outcome.Pass? then UnsupportedElementKind else t.outcome.error)
      ensures var f := d.fields[index];
        f.llmListField.Some? && f.fieldType.ListOf? && (IsPrimitive(f.fieldType.element) || IsStructure(f.fieldType.element)) ==>
        var t := ListText(Output(old(composer.buffer), Pass), f, ExampleFor(f.fieldType.element, block), old(composer.level), composer.width);
        composer.buffer == t.text && r == (if t.outcome.Pass? then Written else Failed(t.outcome.error))
        && (r == Written ==> composer.level == old(composer.level))
    {
      var f := d.fields[index];
      if f.llmListField.None? {
        return HandedToSerializer;
      }
      var lf := f.llmListField.value;
      var tag := IfEmpty(lf.tagName, f.name);
      if !f.fieldType.ListOf? {
        return Failed(ListAnnotationOnNonList);
      }
      var element := f.fieldType.element;
      var o: Outcome;
      if !IsPrimitive(element) && !IsStructure(element) {
        o := WriteListOpening(tag, lf.listPromptDescription);
        return Failed(if o.Pass? then UnsupportedElementKind else o.error);
      }
      o := WriteList(tag, tag, lf.listPromptDescription, ElementTag(lf, element), ElementPrompt(lf, element),
        ExampleFor(element, block));
      r := if o.Pass? then Written else Failed(o.error);
    }
  }

  /** A failed line break stops the lines: nothing after it is written. */
  lemma {:induction false} LinesAfterFailure(o: Output, lines: seq<string>, n: nat, level: int, width: int)
    requires n <= |lines| && LinesText(o, lines[..n], level, width).outcome.Fail?
    ensures LinesText(o, lines, level, width) == LinesText(o, lines[..n], level, width)
    decreases |lines|
  {
    if n == |lines| {
      assert lines[..n] == lines;
    } else {
      var front := lines[..|lines| - 1];
      assert front[..n] == lines[..n];
      LinesAfterFailure(o, front, n, level, width);
    }
  }

  lemma PutExtends(o: Output, s: string)
    ensures IsPrefix(o.text, Put(o, s).text)
  {
  }

  lemma PutLineExtends(o: Output, level: int, width: int)
    ensures IsPrefix(o.text, PutLine(o, level, width).text)
  {
  }

  lemma {:induction false} LinesExtend(o: Output, lines: seq<string>, level: int, width: int)
    ensures IsPrefix(o.text, LinesText(o, lines, level, width).text)
    decreases |lines|
  {
    if lines != [] {
      var front := LinesText(o, lines[..|lines| - 1], level, width);
      LinesExtend(o, lines[..|lines| - 1], level, width);
      PutExtends(front, lines[|lines| - 1]);
      PrefixTransitive(o.text, front.text, Put(front, lines[|lines| - 1]).text);
      PutLineExtends(Put(front, lines[|lines| - 1]), level, width);
      PrefixTransitive(o.text, Put(front, lines[|lines| - 1]).text, LinesText(o, lines, level, width).text);
    }
  }

  lemma BlockExtends(o: Output, b: ExampleBlock, level: int, width: int)
    ensures IsPrefix(o.text, BlockText(o, b, level, width).text)
  {
    var p1 := Put(o, b.opening);
    var start := PutLine(p1, level + 1, width);
    PutExtends(o, b.opening);
    PutLineExtends(p1, level + 1, width);
    PrefixTransitive(o.text, p1.text, start.text);
    var body := if b.inner == [] then start
      else Put(LinesText(start, b.inner[..|b.inner| - 1], level + 1, width), b.inner[|b.inner| - 1]);
    if b.inner != [] {
      var lines := LinesText(start, b.inner[..|b.inner| - 1], level + 1, width);
      LinesExtend(start, b.inner[..|b.inner| - 1], level + 1, width);
      PutExtends(lines, b.inner[|b.inner| - 1]);
      PrefixTransitive(start.text, lines.text, body.text);
    }
    PrefixTransitive(o.text, start.text, body.text);
    var q1 := PutLine(body, level, width);
    var q2 := Put(q1, b.closing);
    PutLineExtends(body, level, width);
    PutExtends(q1, b.closing);
    PutLineExtends(q2, level, width);
    PrefixTransitive(o.text, body.text, q1.text);
    PrefixTransitive(o.text, q1.text, q2.text);
    PrefixTransitive(o.text, q2.text, BlockText(o, b, level, width).text);
  }

  lemma EntryExtends(o: Output, elementTag: string, elementPrompt: string, example: Example, level: int, width: int)
    ensures IsPrefix(o.text, EntryText(o, elementTag, elementPrompt, example, level, width).text)
  {
    match example
    case PrimitiveExample =>
      var p1 := Put(o, OpenTag(elementTag) + Placeholder(elementPrompt) + CloseTag(elementTag));
      PutExtends(o, OpenTag(elementTag) + Placeholder(elementPrompt) + CloseTag(elementTag));
      PutLineExtends(p1, level, width);
      PrefixTransitive(o.text, p1.text, PutLine(p1, level, width).text);
    case ClassExample(b) =>
      BlockExtends(o, b, level, width);
  }

  lemma OpeningExtends(o: Output, tag: string, listPrompt: string, level: int, width: int)
    ensures IsPrefix(o.text, ListOpeningText(o, tag, listPrompt, level, width).text)
  {
    var p1 := PutLine(o, level, width);
    var p2 := Put(p1, OpenTag(tag));
    var start := PutLine(p2, level + 1, width);
    PutLineExtends(o, level, width);
    PutExtends(p1, OpenTag(tag));
    PutLineExtends(p2, level + 1, width);
    PrefixTransitive(o.text, p1.text, p2.text);
    PrefixTransitive(o.text, p2.text, start.text);
    if listPrompt != [] {
      var p3 := Put(start, Placeholder(listPrompt));
      PutExtends(start, Placeholder(listPrompt));
      PutLineExtends(p3, level + 1, width);
      PrefixTransitive(o.text, start.text, p3.text);
      PrefixTransitive(o.text, p3.text, PutLine(p3, level + 1, width).text);
    }
  }

  lemma ClosingExtends(o: Output, elementTag: string, closing: string, level: int, width: int)
    ensures IsPrefix(o.text, ListClosingText(o, elementTag, closing, level, width).text)
  {
    var p1 := Put(o, OtherEntries(elementTag));
    var p2 := PutLine(p1, level, width);
    PutExtends(o, OtherEntries(elementTag));
    PutLineExtends(p1, level, width);
    PutExtends(p2, CloseTag(closing));
    PrefixTransitive(o.text, p1.text, p2.text);
    PrefixTransitive(o.text, p2.text, Put(p2, CloseTag(closing)).text);
  }

  /** The list template only ever appends to what the buffer held. */
  lemma ListExtends(o: Output, tag: string, closing: string, listPrompt: string, elementTag: string,
                    elementPrompt: string, example: Example, level: int, width: int)
    ensures IsPrefix(o.text, ListTextClosedBy(o, tag, closing, listPrompt, elementTag, elementPrompt, example, level, width).text)
  {
    var start := ListOpeningText(o, tag, listPrompt, level, width);
    var entry := EntryText(start, elementTag, elementPrompt, example, level + 1, width);
    OpeningExtends(o, tag, listPrompt, level, width);
    EntryExtends(start, elementTag, elementPrompt, example, level + 1, width);
    ClosingExtends(entry, elementTag, closing, level, width);
    PrefixTransitive(o.text, start.text, entry.text);
    PrefixTransitive(o.text, entry.text, ListClosingText(entry, elementTag, closing, level, width).text);
  }

  /** At a level and an indent width that are not negative no line break fails,
      so the whole list template is written. */
  lemma {:induction false} LinesPass(o: Output, lines: seq<string>, level: int, width: int)
    requires o.outcome.Pass? && level >= 0 && width >= 0
    ensures LinesText(o, lines, level, width).outcome.Pass?
    decreases |lines|
  {
    if lines != [] {
      LinesPass(o, lines[..|lines| - 1], level, width);
    }
  }

  lemma ListPasses(o: Output, tag: string, closing: string, listPrompt: string, elementTag: string,
                   elementPrompt: string, example: Example, level: int, width: int)
    requires o.outcome.Pass? && level >= 0 && width >= 0
    ensures ListTextClosedBy(o, tag, closing, listPrompt, elementTag, elementPrompt, example, level, width).outcome.Pass?
  {
    if example.ClassExample? && example.block.inner != [] {
      var b := example.block;
      var start := ListOpeningText(o, tag, listPrompt, level, width);
      LinesPass(PutLine(Put(start, b.opening), level + 2, width), b.inner[..|b.inner| - 1], level + 2, width);
    }
  }

  /** A failure before the wrapper tag is written stops the whole template. */
  lemma ListFailsBeforeTag(o: Output, tag: string, closing: string, listPrompt: string, elementTag: string,
                           elementPrompt: string, example: Example, level: int, width: int)
    ensures ListTextClosedBy(o, tag, closing, listPrompt, elementTag, elementPrompt, example, level, width).outcome.Pass?
      ==> Put(PutLine(o, level, width), OpenTag(tag)).outcome.Pass?
  {
    var first := Put(PutLine(o, level, width), OpenTag(tag));
    if first.outcome.Fail? {
      var start := ListOpeningText(o, tag, listPrompt, level, width);
      assert start == first;
      EntryAfterFailure(start, elementTag, elementPrompt, example, level + 1, width);
    }
  }

  /** A written list template opens, after a line break at the wrapper's level,
      with the wrapper tag and ends with the closing tag. */
  lemma ListWrappedBy(o: Output, tag: string, closing: string, listPrompt: string, elementTag: string,
                      elementPrompt: string, example: Example, level: int, width: int)
    requires ListTextClosedBy(o, tag, closing, listPrompt, elementTag, elementPrompt, example, level, width).outcome.Pass?
    ensures var t := ListTextClosedBy(o, tag, closing, listPrompt, elementTag, elementPrompt, example, level, width).text;
      var head := o.text + LineBreak(level, width).text + OpenTag(tag);
      IsPrefix(head, t) && |CloseTag(closing)| <= |t| && t[|t| - |CloseTag(closing)|..] == CloseTag(closing)
  {
    var final := ListTextClosedBy(o, tag, closing, listPrompt, elementTag, elementPrompt, example, level, width);
    ListFailsBeforeTag(o, tag, closing, listPrompt, elementTag, elementPrompt, example, level, width);
    var p1 := PutLine(o, level, width);
    var first := Put(p1, OpenTag(tag));
    assert first.text == o.text + LineBreak(level, width).text + OpenTag(tag);
    // from the wrapper tag on
    var second := PutLine(first, level + 1, width);
    PutLineExtends(first, level + 1, width);
    var start := ListOpeningText(o, tag, listPrompt, level, width);
    if listPrompt != [] {
      var p3 := Put(second, Placeholder(listPrompt));
      PutExtends(second, Placeholder(listPrompt));
      PutLineExtends(p3, level + 1, width);
      PrefixTransitive(second.text, p3.text, start.text);
    }
    PrefixTransitive(first.text, second.text, start.text);
    var entry := EntryText(start, elementTag, elementPrompt, example, level + 1, width);
    EntryExtends(start, elementTag, elementPrompt, example, level + 1, width);
    PrefixTransitive(first.text, start.text, entry.text);
    ClosingExtends(entry, elementTag, closing, level, width);
    PrefixTransitive(first.text, entry.text, final.text);
    // the closing tag
    var beforeClose := PutLine(Put(entry, OtherEntries(elementTag)), level, width);
    assert final == Put(beforeClose, CloseTag(closing));
    assert final.text == beforeClose.text + CloseTag(closing);
  }

  /** The corrected list template closes the wrapper with the tag it opened. */
  lemma ListTextBalanced(o: Output, f: FieldDecl, example: Example, level: int, width: int)
    requires f.llmListField.Some? && f.fieldType.ListOf? && ListText(o, f, example, level, width).outcome.Pass?
    ensures var tag := IfEmpty(f.llmListField.value.tagName, f.name);
      var t := ListText(o, f, example, level, width).text;
      IsPrefix(o.text + LineBreak(level, width).text + OpenTag(tag), t)
      && |CloseTag(tag)| <= |t| && t[|t| - |CloseTag(tag)|..] == CloseTag(tag)
  {
    var lf := f.llmListField.value;
    var tag := IfEmpty(lf.tagName, f.name);
    ListWrappedBy(o, tag, tag, lf.listPromptDescription,
      ElementTag(lf, f.fieldType.element), ElementPrompt(lf, f.fieldType.element), example, level, width);
  }

  /** The list prompt line, when there is a list prompt. */
  function PromptLine(listPrompt: string, level: int, width: int): string {
    if listPrompt == [] then [] else Placeholder(listPrompt) + LineBreak(level, width).text
  }

  /** The template of a list of primitives, written out: wrapper tag, prompt line,
      one example entry, the trailer and the closing tag, each on its own line,
      the inner ones one level deeper. */
  lemma PrimitiveListLayout(o: Output, tag: string, closing: string, listPrompt: string, elementTag: string,
                            elementPrompt: string, level: int, width: int)
    requires o.outcome.Pass? && level >= 0 && width >= 0
    ensures var inner := LineBreak(level + 1, width).text;
      var outer := LineBreak(level, width).text;
      ListTextClosedBy(o, tag, closing, listPrompt, elementTag, elementPrompt, PrimitiveExample, level, width)
      == Output(o.text + outer + OpenTag(tag) + inner + PromptLine(listPrompt, level + 1, width)
           + OpenTag(elementTag) + Placeholder(elementPrompt) + CloseTag(elementTag) + inner
           + OtherEntries(elementTag) + outer + CloseTag(closing), Pass)
  {
    var inner := LineBreak(level + 1, width).text;
    var outer := LineBreak(level, width).text;
    var entryLine := OpenTag(elementTag) + Placeholder(elementPrompt) + CloseTag(elementTag);
    var head := o.text + outer + OpenTag(tag) + inner + PromptLine(listPrompt, level + 1, width);
    assert ListOpeningText(o, tag, listPrompt, level, width) == Output(head, Pass);
    assert head + entryLine + inner == head + OpenTag(elementTag) + Placeholder(elementPrompt) + CloseTag(elementTag) + inner;
  }

  /** Lines, each followed by the line break lb. */
  function JoinedLines(lines: seq<string>, lb: string): string {
    if lines == [] then [] else JoinedLines(lines[..|lines| - 1], lb) + lines[|lines| - 1] + lb
  }

  lemma {:induction false} LinesLayout(o: Output, lines: seq<string>, level: int, width: int)
    requires o.outcome.Pass? && level >= 0 && width >= 0
    ensures LinesText(o, lines, level, width) == Output(o.text + JoinedLines(lines, LineBreak(level, width).text), Pass)
    decreases |lines|
  {
    if lines != [] {
      var front := lines[..|lines| - 1];
      var lb := LineBreak(level, width).text;
      LinesLayout(o, front, level, width);
      assert o.text + JoinedLines(front, lb) + lines[|lines| - 1] + lb == o.text + JoinedLines(lines, lb);
    }
  }

  /** The inner lines of an example entry: all but the last followed by a line break. */
  function BodyLines(inner: seq<string>, lb: string): string {
    if inner == [] then [] else JoinedLines(inner[..|inner| - 1], lb) + inner[|inner| - 1]
  }

  /** The example entry of a list of classes, written out. */
  lemma BlockLayout(o: Output, b: ExampleBlock, level: int, width: int)
    requires o.outcome.Pass? && level >= 0 && width >= 0
    ensures var deeper := LineBreak(level + 1, width).text;
      var here := LineBreak(level, width).text;
      BlockText(o, b, level, width)
      == Output(o.text + b.opening + deeper + BodyLines(b.inner, deeper) + here + b.closing + here, Pass)
  {
    var deeper := LineBreak(level + 1, width).text;
    var start := PutLine(Put(o, b.opening), level + 1, width);
    assert start == Output(o.text + b.opening + deeper, Pass);
    if b.inner != [] {
      var front := b.inner[..|b.inner| - 1];
      LinesLayout(start, front, level + 1, width);
      assert start.text + JoinedLines(front, deeper) + b.inner[|b.inner| - 1]
        == o.text + b.opening + deeper + BodyLines(b.inner, deeper);
    }
  }

  /** The template of a list of classes, written out. */
  lemma ClassListLayout(o: Output, tag: string, closing: string, listPrompt: string, elementTag: string,
                        elementPrompt: string, b: ExampleBlock, level: int, width: int)
    requires o.outcome.Pass? && level >= 0 && width >= 0
    ensures var inner := LineBreak(level + 1, width).text;
      var outer := LineBreak(level, width).text;
      var deepest := LineBreak(level + 2, width).text;
      ListTextClosedBy(o, tag, closing, listPrompt, elementTag, elementPrompt, ClassExample(b), level, width)
      == Output(o.text + outer + OpenTag(tag) + inner + PromptLine(listPrompt, level + 1, width)
           + b.opening + deepest + BodyLines(b.inner, deepest) + inner + b.closing + inner
           + OtherEntries(elementTag) + outer + CloseTag(closing), Pass)
  {
    var inner := LineBreak(level + 1, width).text;
    var outer := LineBreak(level, width).text;
    var head := o.text + outer + OpenTag(tag) + inner + PromptLine(listPrompt, level + 1, width);
    assert ListOpeningText(o, tag, listPrompt, level, width) == Output(head, Pass);
    BlockLayout(Output(head, Pass), b, level + 1, width);
  }

  /** The element tag of a list of Step records is "Step". */
  lemma StepTag(lf: LlmListField, step: ClassDescriptor)
    requires lf.elementTagName == [] && step.serialName == "dev.genos.kotlinx.serialization.llm.xml.Step"
    ensures ElementTag(lf, Record(step)) == "Step"
  {
    SubstringAfterLastOfSuffix("dev.genos.kotlinx.serialization.llm.xml.", "Step", '.');
    assert "dev.genos.kotlinx.serialization.llm.xml." + "Step" == step.serialName;
  }

  /** The instructions list of the recipe template: a list of Step records, whose
      element tag is the last segment of the record's serial name, with a list
      prompt ("all of the steps required to prepare the recipe") and an example
      entry with one inner line. */
  lemma RecipeInstructionsTemplate(listPrompt: string, line: string)
    ensures var step := ClassDescriptor("dev.genos.kotlinx.serialization.llm.xml.Step", []);
      var f := FieldDecl("instructions", None, Some(LlmListField("instructions", listPrompt, "", "")), ListOf(Record(step)));
      listPrompt != [] ==>
      ListText(Output("", Pass), f, ClassExample(ExampleBlock("<Step>", [line], "</Step>")), 1, 2)
      == Output("\n  " + OpenTag("instructions") + "\n    " + Placeholder(listPrompt) + "\n    "
           + "<Step>" + "\n      " + line + "\n    " + "</Step>" + "\n    "
           + OtherEntries("Step") + "\n  " + CloseTag("instructions"), Pass)
  {
    var step := ClassDescriptor("dev.genos.kotlinx.serialization.llm.xml.Step", []);
    var lf := LlmListField("instructions", listPrompt, "", "");
    StepTag(lf, step);
    var b := ExampleBlock("<Step>", [line], "</Step>");
    ClassListLayout(Output("", Pass), "instructions", "instructions", listPrompt, "Step", ElementPrompt(lf, Record(step)), b, 1, 2);
    LineBreaksAtWidthTwo();
    assert BodyLines([line], "\n      ") == line;
    assert "" + "\n  " == "\n  ";
  }

  /** As written, a list field whose annotation leaves tagName empty opens the
      wrapper with the field's name but closes it with "</>". */
  lemma ListClosingTagAsWritten(prompt: string)
    requires prompt != []
    ensures var f := FieldDecl("items", None, Some(LlmListField("", "", "item", prompt)), ListOf(Scalar(StringKind)));
      var t := ListTextAsWritten(Output("", Pass), f, PrimitiveExample, 0, 2);
      t.outcome.Pass? && IsPrefix("\n<items>", t.text) && |t.text| >= 3 && t.text[|t.text| - 3..] == "</>"
  {
    var o := Output("", Pass);
    var f := FieldDecl("items", None, Some(LlmListField("", "", "item", prompt)), ListOf(Scalar(StringKind)));
    var lf := f.llmListField.value;
    assert ElementTag(lf, f.fieldType.element) == "item" && ElementPrompt(lf, f.fieldType.element) == prompt;
    assert ListTextAsWritten(o, f, PrimitiveExample, 0, 2) == ListTextClosedBy(o, "items", "", "", "item", prompt, PrimitiveExample, 0, 2);
    ListPasses(o, "items", "", "", "item", prompt, PrimitiveExample, 0, 2);
    ListWrappedBy(o, "items", "", "", "item", prompt, PrimitiveExample, 0, 2);
    ItemsWrapperText();
  }

  /** The text around the list of ListClosingTagAsWritten. */
  lemma ItemsWrapperText()
    ensures Output("", Pass).text + LineBreak(0, 2).text + OpenTag("items") == "\n<items>"
    ensures CloseTag("") == "</>"
  {
    assert LineBreak(0, 2).text == "\n";
    assert OpenTag("items") == "<items>";
    assert "" + "\n" == "\n";
    assert "\n" + "<items>" == "\n<items>";
  }

  /** The overview list of the coach feedback template: a list of strings with an
      element tag and a prompt (in the template, "Key observation about the user's
      day"), written one level below the class tag. */
  lemma CoachOverviewTemplate(prompt: string)
    ensures var f := FieldDecl("overview", None, Some(LlmListField("overview", "", "point", prompt)), ListOf(Scalar(StringKind)));
      prompt != [] ==>
      ListText(Output("", Pass), f, PrimitiveExample, 1, 2)
      == Output("\n  " + "<overview>" + "\n    " + "<point>" + Placeholder(prompt) + "</point>"
           + "\n    " + OtherEntries("point") + "\n  " + "</overview>", Pass)
  {
    var o := Output("", Pass);
    PrimitiveListLayout(o, "overview", "overview", "", "point", prompt, 1, 2);
    LineBreaksAtWidthTwo();
    assert OpenTag("overview") == "<overview>" && OpenTag("point") == "<point>";
    assert CloseTag("point") == "</point>" && CloseTag("overview") == "</overview>";
    assert o.text + "\n  " == "\n  " && PromptLine("", 2, 2) == [];
    assert "\n  " + "<overview>" + "\n    " + [] == "\n  " + "<overview>" + "\n    ";
  }

  /** A scalar field of the greeting template on its own line under the class tag
      (in the template the prompt is "the name of the greeter"). */
  lemma GreetingFromLine(prompt: string)
    ensures var f := FieldDecl("from", Some(LlmField("from", prompt)), None, Scalar(StringKind));
      prompt != [] ==>
      FieldText(Output("", Pass), f, 1, 2) == Output("\n  <from>" + Placeholder(prompt) + "</from>", Pass)
  {
    LineBreaksAtWidthTwo();
    assert "\n  " + OpenTag("from") == "\n  <from>" && CloseTag("from") == "</from>";
  }

  /** Nothing of an example entry is written after a failure. */
  lemma EntryAfterFailure(o: Output, elementTag: string, elementPrompt: string, example: Example, level: int, width: int)
    requires o.outcome.Fail?
    ensures EntryText(o, elementTag, elementPrompt, example, level, width) == o
  {
    if example.ClassExample? && example.block.inner != [] {
      var b := example.block;
      LinesAfterFailure(o, b.inner[..|b.inner| - 1], 0, level + 1, width);
    }
  }

  /** The example lines exemplify a list of this element type: classes and lists
      take the supplied block, primitives their placeholder. */
  function ExampleFor(element: SerialType, block: ExampleBlock): Example {
    if IsPrimitive(element) then PrimitiveExample else ClassExample(block)
  }

  /** The text encodeValue writes. */
  function Quoted(text: string, startTagClosed: bool): (r: string)
    ensures startTagClosed ==> r == text
    ensures !startTagClosed ==> |r| == |text| + 2 && r[0] == '"' && r[|r| - 1] == '"' && r[1..|r| - 1] == text
  {
    if startTagClosed then text else "\"" + text + "\""
  }
}
