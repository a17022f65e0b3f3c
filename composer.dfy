/** The text sinks the encoder writes the prompt template through. Each composer
    appends to a text buffer that stands for the StringBuilder it is given. */
module Composer {
  import opened Results
  import opened Strings

  /** The indent width the pretty printer uses unless told otherwise. */
  const DefaultIndent: int := 2

  /** The text written so far and how the writing ended: once a call has
      failed, nothing more is written. */
  datatype Output = Output(text: string, outcome: Outcome)

  /** append(s) on an output. */
  function Put(o: Output, s: string): (r: Output)
    ensures o.outcome.Fail? ==> r == o
    ensures o.outcome.Pass? ==> r == Output(o.text + s, Pass)
  {
    if o.outcome.Fail? then o else Output(o.text + s, Pass)
  }

  /** appendLine() at the given level on an output. */
  function PutLine(o: Output, level: int, width: int): (r: Output)
    ensures o.outcome.Fail? ==> r == o
    ensures o.outcome.Pass? ==> r == Output(o.text + LineBreak(level, width).text, LineBreak(level, width).outcome)
  {
    if o.outcome.Fail? then o else Output(o.text + LineBreak(level, width).text, LineBreak(level, width).outcome)
  }

  /** What appendLine() writes at a given level and width: a newline and
      level * width spaces, or, when that count is negative, the newline alone
      and a failure. */
  function LineBreak(level: int, width: int): (r: Output)
    ensures r.outcome.Pass? <==> level * width >= 0
    ensures r.outcome.Fail? ==> r.outcome.error == NegativeRepeatCount && r.text == "\n"
    ensures r.outcome.Pass? ==> |r.text| == 1 + level * width
    ensures r.text[0] == '\n'
  {
    if level * width < 0 then Output("\n", Fail(NegativeRepeatCount))
    else Output("\n" + Spaces(level * width), Pass)
  }

  /** After the newline, a line break holds only spaces. */
  lemma LineBreakIndents(level: int, width: int)
    ensures forall k :: 1 <= k < |LineBreak(level, width).text| ==> LineBreak(level, width).text[k] == ' '
  {
    if level * width >= 0 { SpacesAreSpaces(level * width); }
  }

  /** A line break one level deeper is the line break followed by one indent
      width of spaces: newAttribute() at level L writes the break of level L + 1. */
  lemma DeeperLineBreak(level: int, width: int)
    requires level >= 0 && width >= 0
    ensures LineBreak(level + 1, width).outcome.Pass?
    ensures LineBreak(level + 1, width).text == LineBreak(level, width).text + Spaces(width)
  {
    assert (level + 1) * width == level * width + width;
    var a := LineBreak(level + 1, width).text;
    var b := LineBreak(level, width).text + Spaces(width);
    LineBreakIndents(level + 1, width);
    LineBreakIndents(level, width);
    SpacesAreSpaces(width);
    assert |a| == |b|;
    forall k | 0 <= k < |a| ensures a[k] == b[k] {
      if k > 0 {
        if k <= level * width { assert b[k] == LineBreak(level, width).text[k]; }
        else { assert b[k] == Spaces(width)[k - 1 - level * width]; }
      }
    }
  }

  /** LlmXmlComposer: the compact composer. Only newAttribute() and append()
      write anything; there is no indentation and no line break. */
  class LlmXmlComposer {
    var buffer: string

    constructor (buffer: string)
      ensures this.buffer == buffer
    {
      this.buffer := buffer;
    }

    method Indent()
      ensures buffer == old(buffer)
    {
    }

    method Unindent()
      ensures buffer == old(buffer)
    {
    }

    method NewElement()
      ensures buffer == old(buffer)
    {
    }

    /** newAttribute(): exactly one space. */
    method NewAttribute()
      modifies this
      ensures buffer == old(buffer) + " "
    {
      buffer := buffer + " ";
    }

    /** append(value): the value verbatim. */
    method Append(value: string)
      modifies this
      ensures buffer == old(buffer) + value
    {
      buffer := buffer + value;
    }

    method AppendLine()
      ensures buffer == old(buffer)
    {
    }
  }

  /** The line breaks of the default indent at the first three levels. */
  lemma LineBreaksAtWidthTwo()
    ensures LineBreak(1, DefaultIndent).text == "\n  "
    ensures LineBreak(2, DefaultIndent).text == "\n    "
    ensures LineBreak(3, DefaultIndent).text == "\n      "
  {
    assert Spaces(2) == "  ";
    assert Spaces(4) == "    ";
    assert Spaces(6) == "      ";
  }

  /** PrettyPrintLlmXmlComposer: every line starts with level * width spaces. */
  class PrettyPrintLlmXmlComposer {
    var buffer: string
    var level: int
    const width: int

    /** A fresh composer at level 0 over the given buffer. */
    constructor (buffer: string, width: int := DefaultIndent)
      ensures this.buffer == buffer && this.width == width && level == 0
    {
      this.buffer := buffer;
      this.width := width;
      level := 0;
    }

    /** indent(): one level deeper; the text is untouched. */
    method Indent()
      modifies this
      ensures level == old(level) + 1 && buffer == old(buffer)
    {
      level := level + 1;
    }

    /** unindent(): one level shallower; the text is untouched. */
    method Unindent()
      modifies this
      ensures level == old(level) - 1 && buffer == old(buffer)
    {
      level := level - 1;
    }

    /** append(value): the value verbatim. */
    method Append(value: string)
      modifies this
      ensures buffer == old(buffer) + value && level == old(level)
    {
      buffer := buffer + value;
    }

    /** appendLine(): a newline, then the indentation of the current level. When
        that indentation is negative, the newline is written and the call fails. */
    method AppendLine() returns (r: Outcome)
      modifies this
      ensures level == old(level)
      ensures buffer == old(buffer) + LineBreak(level, width).text && r == LineBreak(level, width).outcome
    {
      buffer := buffer + "\n";
      var count := level * width;
      if count < 0 {
        return Fail(NegativeRepeatCount);
      }
      buffer := buffer + Spaces(count);
      r := Pass;
    }

    /** newElement(): the same as appendLine(). */
    method NewElement() returns (r: Outcome)
      modifies this
      ensures level == old(level)
      ensures buffer == old(buffer) + LineBreak(level, width).text && r == LineBreak(level, width).outcome
    {
      r := AppendLine();
    }

    /** newAttribute(): appendLine() followed by one indent width of spaces;
        a negative width fails once the line break is written. */
    method NewAttribute() returns (r: Outcome)
      modifies this
      ensures level == old(level)
      ensures r.Pass? <==> LineBreak(level, width).outcome.Pass? && width >= 0
      ensures r.Pass? ==> buffer == old(buffer) + LineBreak(level, width).text + Spaces(width)
      ensures r.Fail? ==> buffer == old(buffer) + LineBreak(level, width).text && r.error == NegativeRepeatCount
    {
      r := AppendLine();
      if r.Pass? {
        if width < 0 {
          return Fail(NegativeRepeatCount);
        }
        Append(Spaces(width));
      }
    }
  }
}
