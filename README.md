# LLM XML codec, modelled in Dafny

This project models the hand-written, non-validating XML codec of the
kotlinx-serialization "LLM XML" format. The format serves two purposes:

- It writes a prompt template for a class. Every annotated field becomes a
  placeholder element `<tag>{... prompt ...}</tag>`. Every annotated list becomes
  a wrapper holding one example entry and a `{... other "X" entries ...}` trailer.
- It reads back the XML a language model answers with.

The codec has four pieces, and each one is a module here.

| module | models | form |
|---|---|---|
| `Lexer` | `LlmXmlLexer`: a cursor over an immutable source text, a LIFO pushback list and the last token. The last token selects the markup grammar or the tag-interior grammar. | class `LlmXmlLexer` with methods, proved against pure step functions (`Step`, `MarkupStep`, `TagStep`, `AttributeStep`) and the token stream `Lex` they generate |
| `Composer` | `LlmXmlComposer` and `PrettyPrintLlmXmlComposer`: append-only text sinks. The pretty printer also tracks an indent level. | two classes over a `string` buffer |
| `Encoder` | `StreamingLlmXmlEncoder`: writes the template through the pretty printer. | class over a shared composer, proved against text functions (`FieldText`, `ListText`, …) |
| `Decoder` | `LlmXmlElementDecoder` (record fields), `ListLlmXmlElementDecoder` (list entries) and `StreamingLlmXmlDecoder` (single values). They pull tokens from the lexer. | classes whose methods are proved against scans over the token stream (`ElementIndexScan`, `DecodeElementScan`, `ListIndexScan`, `ListEndScan`, `ReadContentScan`, …) |

Three supporting modules complete the model:

- `Results` holds the failure conditions. Every exception the codec can raise is a constructor of `Error`.
- `Strings` models the Kotlin string functions the codec relies on: `trim`, `substringAfterLast`, `indexOf`, `toBoolean`, `toIntOrNull` and friends, `repeat`. Numbers are read with the decimal digits of every script, as `Character.digit` reads them.
- `Schema` stands in for the kotlinx descriptors. It provides:
  - a field table, whose entries are a name, an optional `LlmField` and an optional `LlmListField`, with the empty string meaning "unset";
  - the serial names of types;
  - the name-to-index lookups, where `UNKNOWN_NAME` is -3 and `DECODE_DONE` is -1.

Integers are unbounded. Where the codec parses numbers it uses a bit width (8, 16, 32 or 64) and the range that width allows.

How the lexer and decoder models connect:

- **Token stream.** `Lexer.LlmXmlLexer.Stream()` is the sequence of tokens the lexer will still deliver: the pushed-back tokens, most recent first, followed by `Lex(source, position, lastToken)`. `Read` takes one token from such a stream.
- **Lexer side.** `ReadNextToken` is proved to be exactly such a read: `r == Read(old(Stream())).0`.
- **Decoder side.** Each decoder method is stated as a function of the stream it starts from, so the decoder's loops are proved against pure scans of that stream.
- **Streams that end.** A stream ends either at the end of the document or at a failure. At the end of the document, `Read` keeps returning `DocumentEnd` without consuming anything, just as the lexer does once its last token is `DocumentEnd`.

Where this model departs from the codec's own description, it follows the code:

- **No field values in the template.** The encoder never writes primitive field values into the template. `encodeElement` writes only placeholders, and the value is never looked at.
- **Namespace of a name.** In a name such as `a:b:c`, `readElementName` returns `c` as the name. The recorded namespace is `b`, the segment between the last two `:`, not the whole prefix.
- **List item tag.** The record decoder picks the list item tag from the list annotation's `tagName` (the wrapper tag). When that is empty, it uses the last `.` segment of the enclosing class's serial name. It does not use `elementTagName`.
- **Unknown enum names.** `decodeEnum` returns `UNKNOWN_NAME` (-3) for a name that is not an entry. It does not fail.

## Model

Paths are relative to the repository root.

| member | source | states |
|---|---|---|
| Lexer.SkipSpaces | src/commonMain/kotlin/dev/genos/kotlinx/serialization/llm/xml/LlmXmlLexer.kt:33-44 | skipWhitespace never moves back or past the end, and stops at the end or on a character other than ' ', '\n', '\t', '\r' |
| Lexer.SkipSpacesSkipsOnlySpaces | src/commonMain/kotlin/dev/genos/kotlinx/serialization/llm/xml/LlmXmlLexer.kt:33-44 | every character skipWhitespace passes over is one of the four whitespace characters |
| Lexer.SkipTo | src/commonMain/kotlin/dev/genos/kotlinx/serialization/llm/xml/LlmXmlLexer.kt:23-31 | skipToChar(c) ends just past a c, or at the end of the input |
| Lexer.SkipToFirst | src/commonMain/kotlin/dev/genos/kotlinx/serialization/llm/xml/LlmXmlLexer.kt:23-31 | skipToChar(c) stops past the first c; it reaches the end only when no c follows |
| Lexer.ScanName | src/commonMain/kotlin/dev/genos/kotlinx/serialization/llm/xml/LlmXmlLexer.kt:57-92 | a name scan ends on a delimiter of its kind and fails only with "Unexpected end of file" |
| Lexer.ScanNameStopsAtFirstDelimiter | src/commonMain/kotlin/dev/genos/kotlinx/serialization/llm/xml/LlmXmlLexer.kt:57-92 | the scan stops at the first delimiter, and fails exactly when no delimiter follows |
| Lexer.ScanNameIsLastSegment | src/commonMain/kotlin/dev/genos/kotlinx/serialization/llm/xml/LlmXmlLexer.kt:57-73 | the scanned name is the colon-free text just before the delimiter, preceded by ':' or by the start of the scan |
| Lexer.NameAt | src/commonMain/kotlin/dev/genos/kotlinx/serialization/llm/xml/LlmXmlLexer.kt:57-92 | readElementName/readAttributeName leave the cursor on the delimiter, which stays unconsumed |
| Lexer.NameIsTextAfterLastColon | src/commonMain/kotlin/dev/genos/kotlinx/serialization/llm/xml/LlmXmlLexer.kt:57-73 | the name returned is the text after the last ':' of the scanned run (substringAfterLast) |
| Lexer.FindQuote | src/commonMain/kotlin/dev/genos/kotlinx/serialization/llm/xml/LlmXmlLexer.kt:95-100 | the opening-quote loop ends on a ' or " or at the end |
| Lexer.FindQuoteFirst | src/commonMain/kotlin/dev/genos/kotlinx/serialization/llm/xml/LlmXmlLexer.kt:95-100 | no quote lies before the one the loop finds |
| Lexer.ValueEnd | src/commonMain/kotlin/dev/genos/kotlinx/serialization/llm/xml/LlmXmlLexer.kt:102-112 | the value loop ends on the closing quote, a '<', a '&', or at the end |
| Lexer.ValueEndFirst | src/commonMain/kotlin/dev/genos/kotlinx/serialization/llm/xml/LlmXmlLexer.kt:102-112 | the value loop passes only over characters that are neither the quote nor '<' nor '&' |
| Lexer.ValueEndOverRun | src/commonMain/kotlin/dev/genos/kotlinx/serialization/llm/xml/LlmXmlLexer.kt:102-112 | over a run free of the quote, '<' and '&', the value ends at the closing quote |
| Lexer.AttributeValueAt | src/commonMain/kotlin/dev/genos/kotlinx/serialization/llm/xml/LlmXmlLexer.kt:94-113 | a read value consumes at least its two quotes and stays within the input |
| Lexer.AttributeValueShape | src/commonMain/kotlin/dev/genos/kotlinx/serialization/llm/xml/LlmXmlLexer.kt:94-113 | a value is exactly the text between two equal quote characters, and holds neither that quote nor '<' nor '&' |
| Lexer.CdataSection | src/commonMain/kotlin/dev/genos/kotlinx/serialization/llm/xml/LlmXmlLexer.kt:122-126 | a CDATA section is consumed through its "]]>", or fails when "]]>" is missing |
| Lexer.TextScan | src/commonMain/kotlin/dev/genos/kotlinx/serialization/llm/xml/LlmXmlLexer.kt:115-134 | the text loop ends on a '<', and consumes at least one character when it does not start on one |
| Lexer.TextScanStopsAtMarkup | src/commonMain/kotlin/dev/genos/kotlinx/serialization/llm/xml/LlmXmlLexer.kt:119-132 | the '<' that ends a text does not open a CDATA section |
| Lexer.TextWithoutMarkupFails | src/commonMain/kotlin/dev/genos/kotlinx/serialization/llm/xml/LlmXmlLexer.kt:115-134 | text that reaches the end of the input without a '<' fails with "Unexpected end of file" |
| Lexer.TextScanPlainRun | src/commonMain/kotlin/dev/genos/kotlinx/serialization/llm/xml/LlmXmlLexer.kt:115-134 | plain text is exactly the characters up to, and not including, the next '<' |
| Lexer.CdataCopiedVerbatim | src/commonMain/kotlin/dev/genos/kotlinx/serialization/llm/xml/LlmXmlLexer.kt:122-126 | a CDATA body is copied verbatim, '<' and '&' included, and the text goes on after the first "]]>" |
| Lexer.TextAfterBracket | src/commonMain/kotlin/dev/genos/kotlinx/serialization/llm/xml/LlmXmlLexer.kt:119-130 | after a '<' the text fails when fewer than 8 characters remain for the CDATA probe, takes the CDATA body, or ends at that '<' |
| Lexer.TextAt | src/commonMain/kotlin/dev/genos/kotlinx/serialization/llm/xml/LlmXmlLexer.kt:115-136 | readText leaves the cursor on the '<' that ends the text, within the input |
| Lexer.SkipDeclarations | src/commonMain/kotlin/dev/genos/kotlinx/serialization/llm/xml/LlmXmlLexer.kt:150-160 | the skipping loop stops on a character that is neither whitespace nor the start of "<!" or "<?" |
| Lexer.DeclarationSkipped | src/commonMain/kotlin/dev/genos/kotlinx/serialization/llm/xml/LlmXmlLexer.kt:158-160 | a comment, declaration or processing instruction is skipped through its first '>' and the markup step restarts there |
| Lexer.EndTagAt | src/commonMain/kotlin/dev/genos/kotlinx/serialization/llm/xml/LlmXmlLexer.kt:161-169 | an end tag yields a named ElementEnd, consumes input and becomes the last token |
| Lexer.StartTagAt | src/commonMain/kotlin/dev/genos/kotlinx/serialization/llm/xml/LlmXmlLexer.kt:170-175 | a start tag yields ElementStart and becomes the last token |
| Lexer.TextToken | src/commonMain/kotlin/dev/genos/kotlinx/serialization/llm/xml/LlmXmlLexer.kt:182-184 | text in markup mode yields a Text token ending before the '<', and makes progress |
| Lexer.MarkupToken | src/commonMain/kotlin/dev/genos/kotlinx/serialization/llm/xml/LlmXmlLexer.kt:153-184 | every markup token other than DocumentEnd consumes input; a DocumentEnd becomes the last token |
| Lexer.TagOpeningAt | src/commonMain/kotlin/dev/genos/kotlinx/serialization/llm/xml/LlmXmlLexer.kt:155-176 | after a '<' the token is an end tag exactly when '/' follows, a start tag otherwise; it consumes input and becomes the last token |
| Lexer.MarkupStep | src/commonMain/kotlin/dev/genos/kotlinx/serialization/llm/xml/LlmXmlLexer.kt:149-187 | the same for the whole markup branch, declarations included |
| Lexer.TagStep | src/commonMain/kotlin/dev/genos/kotlinx/serialization/llm/xml/LlmXmlLexer.kt:188-206 | in tag mode the only tokens are ElementEnd ('/'), ElementStartEnd ('>') and AttributeName |
| Lexer.AttributeStep | src/commonMain/kotlin/dev/genos/kotlinx/serialization/llm/xml/LlmXmlLexer.kt:207-215 | after an attribute name the only tokens are AttributeValue ('=') and AttributeEnd |
| Lexer.Step | src/commonMain/kotlin/dev/genos/kotlinx/serialization/llm/xml/LlmXmlLexer.kt:146-216 | readNextToken never moves back; after DocumentEnd it returns DocumentEnd again without moving |
| Lexer.Read | src/commonMain/kotlin/dev/genos/kotlinx/serialization/llm/xml/LlmXmlLexer.kt:142-217 | every read other than DocumentEnd consumes exactly one token, and an exhausted stream repeats its ending |
| Lexer.ReadUnread | src/commonMain/kotlin/dev/genos/kotlinx/serialization/llm/xml/LlmXmlLexer.kt:138-145 | a token pushed back is the very next one read, and the read leaves exactly the stream it was pushed onto |
| Lexer.Rank | src/commonMain/kotlin/dev/genos/kotlinx/serialization/llm/xml/LlmXmlLexer.kt:188-215 | the grammar-dependent part of the termination measure is bounded |
| Lexer.StepLowersMeasure | src/commonMain/kotlin/dev/genos/kotlinx/serialization/llm/xml/LlmXmlLexer.kt:142-217 | every token other than DocumentEnd lowers the measure, so the token stream is finite |
| Lexer.LexReads | src/commonMain/kotlin/dev/genos/kotlinx/serialization/llm/xml/LlmXmlLexer.kt:146-216 | reading the generated stream is taking one lexer step, failures included |
| Lexer.LexFollows | src/commonMain/kotlin/dev/genos/kotlinx/serialization/llm/xml/LlmXmlLexer.kt:146-216 | a step performed in place delivers the stream's next token and leaves the rest of the stream |
| Lexer.LexAfterDocumentEnd | src/commonMain/kotlin/dev/genos/kotlinx/serialization/llm/xml/LlmXmlLexer.kt:148 | once the last token is DocumentEnd the stream is DocumentEnd forever |
| Lexer.MarkupAtEndOfInput | src/commonMain/kotlin/dev/genos/kotlinx/serialization/llm/xml/LlmXmlLexer.kt:150-154 | in markup mode only whitespace before the end of input yields DocumentEnd, and then it repeats forever |
| Lexer.PushBackIsLifo | src/commonMain/kotlin/dev/genos/kotlinx/serialization/llm/xml/LlmXmlLexer.kt:138-145 | after pushBack(a); pushBack(b) the reads return b then a, and then the stream is exactly as before |
| Lexer.ReversedSnoc | src/commonMain/kotlin/dev/genos/kotlinx/serialization/llm/xml/LlmXmlLexer.kt:138-145 | the token pushed last is the first one read back |
| Lexer.Reversed | src/commonMain/kotlin/dev/genos/kotlinx/serialization/llm/xml/LlmXmlLexer.kt:143-145 | pushed-back tokens are read in reverse order of pushing |
| Lexer.ScanNameOverRun | src/commonMain/kotlin/dev/genos/kotlinx/serialization/llm/xml/LlmXmlLexer.kt:57-73 | a run of plain name characters followed by a delimiter is scanned as exactly that name |
| Lexer.ScanNameUnfold | src/commonMain/kotlin/dev/genos/kotlinx/serialization/llm/xml/LlmXmlLexer.kt:57-73 | a ':' restarts the name with the text before it as namespace; a delimiter ends the name; anything else is kept |
| Lexer.EndTagRecognised | src/commonMain/kotlin/dev/genos/kotlinx/serialization/llm/xml/LlmXmlLexer.kt:161-169 | "</n>" in markup mode yields ElementEnd(n) and consumes the whole tag |
| Lexer.StartTagRecognised | src/commonMain/kotlin/dev/genos/kotlinx/serialization/llm/xml/LlmXmlLexer.kt:170-175 | "<n" followed by a delimiter yields ElementStart(n) and leaves the delimiter for tag mode |
| Lexer.TextTokenRecognised | src/commonMain/kotlin/dev/genos/kotlinx/serialization/llm/xml/LlmXmlLexer.kt:182-184 | text in markup mode is returned trimmed and ends just before the closing '<' |
| Lexer.AttributeNameRecognised | src/commonMain/kotlin/dev/genos/kotlinx/serialization/llm/xml/LlmXmlLexer.kt:200-204 | in tag mode a plain name is an attribute name ending at its delimiter |
| Lexer.AttributeValueRecognised | src/commonMain/kotlin/dev/genos/kotlinx/serialization/llm/xml/LlmXmlLexer.kt:207-215 | after an attribute name, ="v" yields AttributeValue(v) with the closing quote consumed |
| Lexer.PrependKeepsEnd | src/commonMain/kotlin/dev/genos/kotlinx/serialization/llm/xml/LlmXmlLexer.kt:119-132 | text gathered in front of a scan leaves where the scan ends and whether it fails |
| Lexer.LlmXmlLexer.constructor | src/commonMain/kotlin/dev/genos/kotlinx/serialization/llm/xml/LlmXmlLexer.kt:3-10 | a fresh lexer starts at position 0 with an empty pushback and the None token |
| Lexer.LlmXmlLexer.Copy | src/commonMain/kotlin/dev/genos/kotlinx/serialization/llm/xml/LlmXmlLexer.kt:12-17 | copy() keeps source, position and last token, starts with an empty pushback, and delivers the source's own stream |
| Lexer.LlmXmlLexer.Next | src/commonMain/kotlin/dev/genos/kotlinx/serialization/llm/xml/LlmXmlLexer.kt:19 | next() returns the character under the cursor and advances by one, or returns null at the end without moving |
| Lexer.LlmXmlLexer.Peek | src/commonMain/kotlin/dev/genos/kotlinx/serialization/llm/xml/LlmXmlLexer.kt:21 | peek() returns the character under the cursor and never moves |
| Lexer.LlmXmlLexer.SkipToChar | src/commonMain/kotlin/dev/genos/kotlinx/serialization/llm/xml/LlmXmlLexer.kt:23-31 | the loop ends where SkipTo says |
| Lexer.LlmXmlLexer.SkipWhitespace | src/commonMain/kotlin/dev/genos/kotlinx/serialization/llm/xml/LlmXmlLexer.kt:33-44 | the loop ends where SkipSpaces says |
| Lexer.LlmXmlLexer.RequireChar | src/commonMain/kotlin/dev/genos/kotlinx/serialization/llm/xml/LlmXmlLexer.kt:46-50 | after skipping whitespace: end of input and a wrong character are the two failures, otherwise success without consuming |
| Lexer.LlmXmlLexer.ReadElementName | src/commonMain/kotlin/dev/genos/kotlinx/serialization/llm/xml/LlmXmlLexer.kt:57-73 | returns NameAt's name and leaves the cursor at its delimiter |
| Lexer.LlmXmlLexer.ReadAttributeName | src/commonMain/kotlin/dev/genos/kotlinx/serialization/llm/xml/LlmXmlLexer.kt:75-92 | returns NameAt's attribute name and leaves the cursor at its delimiter |
| Lexer.LlmXmlLexer.ReadAttributeValue | src/commonMain/kotlin/dev/genos/kotlinx/serialization/llm/xml/LlmXmlLexer.kt:94-113 | returns AttributeValueAt's value and position, or its failure |
| Lexer.LlmXmlLexer.SkipToQuote | src/commonMain/kotlin/dev/genos/kotlinx/serialization/llm/xml/LlmXmlLexer.kt:95-100 | consumes through the first quote and returns it, or reaches the end |
| Lexer.LlmXmlLexer.ReadText | src/commonMain/kotlin/dev/genos/kotlinx/serialization/llm/xml/LlmXmlLexer.kt:115-136 | returns TextAt's trimmed text and leaves the cursor on the closing '<', or fails as TextAt does |
| Lexer.LlmXmlLexer.ScanText | src/commonMain/kotlin/dev/genos/kotlinx/serialization/llm/xml/LlmXmlLexer.kt:117-134 | the text loop gathers exactly TextScan's untrimmed text |
| Lexer.LlmXmlLexer.ReadCdataSection | src/commonMain/kotlin/dev/genos/kotlinx/serialization/llm/xml/LlmXmlLexer.kt:122-126 | the CDATA branch agrees with CdataSection |
| Lexer.LlmXmlLexer.PushBack | src/commonMain/kotlin/dev/genos/kotlinx/serialization/llm/xml/LlmXmlLexer.kt:138-140 | pushBack(t) puts t in front of the stream to be delivered |
| Lexer.LlmXmlLexer.ReadEndTag | src/commonMain/kotlin/dev/genos/kotlinx/serialization/llm/xml/LlmXmlLexer.kt:161-169 | the end-tag branch agrees with EndTagAt, also on the last token |
| Lexer.LlmXmlLexer.ReadStartTag | src/commonMain/kotlin/dev/genos/kotlinx/serialization/llm/xml/LlmXmlLexer.kt:170-175 | the start-tag branch agrees with StartTagAt |
| Lexer.LlmXmlLexer.ReadTextToken | src/commonMain/kotlin/dev/genos/kotlinx/serialization/llm/xml/LlmXmlLexer.kt:182-184 | the text branch agrees with TextToken |
| Lexer.LlmXmlLexer.SkipMarkupDeclarations | src/commonMain/kotlin/dev/genos/kotlinx/serialization/llm/xml/LlmXmlLexer.kt:150-160 | the skipping loop ends where SkipDeclarations says |
| Lexer.LlmXmlLexer.ReadMarkup | src/commonMain/kotlin/dev/genos/kotlinx/serialization/llm/xml/LlmXmlLexer.kt:149-187 | the markup branch agrees with MarkupStep, including the bare '/' that leaves the last token alone |
| Lexer.LlmXmlLexer.ReadTagOpening | src/commonMain/kotlin/dev/genos/kotlinx/serialization/llm/xml/LlmXmlLexer.kt:155-176 | the '<' branch agrees with TagOpeningAt |
| Lexer.LlmXmlLexer.ReadTagInterior | src/commonMain/kotlin/dev/genos/kotlinx/serialization/llm/xml/LlmXmlLexer.kt:188-206 | the tag-interior branch agrees with TagStep |
| Lexer.LlmXmlLexer.ReadAfterAttributeName | src/commonMain/kotlin/dev/genos/kotlinx/serialization/llm/xml/LlmXmlLexer.kt:207-215 | the attribute branch agrees with AttributeStep |
| Lexer.LlmXmlLexer.ReadNextToken | src/commonMain/kotlin/dev/genos/kotlinx/serialization/llm/xml/LlmXmlLexer.kt:142-217 | a pushed-back token takes priority, most recent first, without moving the cursor or changing the last token; otherwise one Step; either way the next token of the stream, leaving the rest |
| Composer.Put | src/commonMain/kotlin/dev/genos/kotlinx/serialization/llm/xml/internal/Composer.kt:59 | append(s) adds s verbatim, and nothing once a call has failed |
| Composer.PutLine | src/commonMain/kotlin/dev/genos/kotlinx/serialization/llm/xml/internal/Composer.kt:61-65 | appendLine() adds the line break of the current level, and nothing once a call has failed |
| Composer.LineBreak | src/commonMain/kotlin/dev/genos/kotlinx/serialization/llm/xml/internal/Composer.kt:61-65 | a line break is one newline and level * indent further characters; it fails (" ".repeat of a negative count) exactly when level * indent is negative, after the newline |
| Composer.LineBreakIndents | src/commonMain/kotlin/dev/genos/kotlinx/serialization/llm/xml/internal/Composer.kt:61-65 | after the newline a line break holds only spaces |
| Composer.DeeperLineBreak | src/commonMain/kotlin/dev/genos/kotlinx/serialization/llm/xml/internal/Composer.kt:54-57 | a line break one level deeper is a line break followed by one indent width of spaces |
| Composer.LlmXmlComposer.constructor | src/commonMain/kotlin/dev/genos/kotlinx/serialization/llm/xml/internal/Composer.kt:17-19 | the compact composer writes into the given buffer |
| Composer.LlmXmlComposer.Indent | src/commonMain/kotlin/dev/genos/kotlinx/serialization/llm/xml/internal/Composer.kt:20 | indent() leaves the buffer unchanged |
| Composer.LlmXmlComposer.Unindent | src/commonMain/kotlin/dev/genos/kotlinx/serialization/llm/xml/internal/Composer.kt:22 | unindent() leaves the buffer unchanged |
| Composer.LlmXmlComposer.NewElement | src/commonMain/kotlin/dev/genos/kotlinx/serialization/llm/xml/internal/Composer.kt:24 | newElement() leaves the buffer unchanged |
| Composer.LlmXmlComposer.NewAttribute | src/commonMain/kotlin/dev/genos/kotlinx/serialization/llm/xml/internal/Composer.kt:26 | newAttribute() appends exactly one space |
| Composer.LlmXmlComposer.Append | src/commonMain/kotlin/dev/genos/kotlinx/serialization/llm/xml/internal/Composer.kt:28 | append(s) appends s verbatim |
| Composer.LlmXmlComposer.AppendLine | src/commonMain/kotlin/dev/genos/kotlinx/serialization/llm/xml/internal/Composer.kt:30 | appendLine() leaves the buffer unchanged |
| Composer.PrettyPrintLlmXmlComposer.constructor | src/commonMain/kotlin/dev/genos/kotlinx/serialization/llm/xml/internal/Composer.kt:33-37 | a fresh pretty printer is at level 0 with the given indent width, which is DefaultIndent (2) when the caller leaves it out |
| Composer.PrettyPrintLlmXmlComposer.Indent | src/commonMain/kotlin/dev/genos/kotlinx/serialization/llm/xml/internal/Composer.kt:39-42 | indent() raises the level by exactly 1 and leaves the buffer alone |
| Composer.PrettyPrintLlmXmlComposer.Unindent | src/commonMain/kotlin/dev/genos/kotlinx/serialization/llm/xml/internal/Composer.kt:44-47 | unindent() lowers the level by exactly 1 and leaves the buffer alone, so indent(); unindent() restores the state |
| Composer.PrettyPrintLlmXmlComposer.Append | src/commonMain/kotlin/dev/genos/kotlinx/serialization/llm/xml/internal/Composer.kt:59 | append(s) appends s verbatim at the same level |
| Composer.PrettyPrintLlmXmlComposer.AppendLine | src/commonMain/kotlin/dev/genos/kotlinx/serialization/llm/xml/internal/Composer.kt:61-65 | appendLine() appends exactly the line break of the current level, and fails only on a negative indentation |
| Composer.PrettyPrintLlmXmlComposer.NewElement | src/commonMain/kotlin/dev/genos/kotlinx/serialization/llm/xml/internal/Composer.kt:49-52 | newElement() is exactly appendLine() |
| Composer.PrettyPrintLlmXmlComposer.NewAttribute | src/commonMain/kotlin/dev/genos/kotlinx/serialization/llm/xml/internal/Composer.kt:54-57 | newAttribute() is appendLine() followed by one indent width of spaces; a negative width fails after the line break |
| Composer.LineBreaksAtWidthTwo | src/commonMain/kotlin/dev/genos/kotlinx/serialization/llm/xml/internal/Composer.kt:35 | at DefaultIndent, the width a pretty printer gets when none is given, the first three levels indent by 2, 4 and 6 spaces |
| Encoder.FieldText | src/commonMain/kotlin/dev/genos/kotlinx/serialization/llm/xml/internal/StreamingLlmXmlEncoder.kt:49-64 | a field without an LlmField, or with an empty prompt, writes nothing at all |
| Encoder.GreetingFromLine | src/commonMain/kotlin/dev/genos/kotlinx/serialization/llm/xml/internal/StreamingLlmXmlEncoder.kt:49-64 | an annotated scalar field writes a line break and `<tag>{... prompt ...}</tag>` |
| Encoder.Quoted | src/commonMain/kotlin/dev/genos/kotlinx/serialization/llm/xml/internal/StreamingLlmXmlEncoder.kt:44-47 | a value is wrapped in double quotes unless the start tag is closed, and is otherwise verbatim |
| Encoder.StreamingLlmXmlEncoder.constructor | src/commonMain/kotlin/dev/genos/kotlinx/serialization/llm/xml/internal/StreamingLlmXmlEncoder.kt:20-26 | a new encoder shares the composer and starts with the start tag open |
| Encoder.StreamingLlmXmlEncoder.BeginStructure | src/commonMain/kotlin/dev/genos/kotlinx/serialization/llm/xml/internal/StreamingLlmXmlEncoder.kt:28-34 | appends `<N>` for the last '.' segment N of the serial name, indents once, and hands out a fresh encoder over the same composer |
| Encoder.StreamingLlmXmlEncoder.EndStructure | src/commonMain/kotlin/dev/genos/kotlinx/serialization/llm/xml/internal/StreamingLlmXmlEncoder.kt:36-40 | closes the start tag, unindents, breaks the line at the new level and appends `</N>`, so a begin/end pair leaves the level unchanged |
| Encoder.StreamingLlmXmlEncoder.EncodeNull | src/commonMain/kotlin/dev/genos/kotlinx/serialization/llm/xml/internal/StreamingLlmXmlEncoder.kt:42 | null is always refused |
| Encoder.StreamingLlmXmlEncoder.EncodeValue | src/commonMain/kotlin/dev/genos/kotlinx/serialization/llm/xml/internal/StreamingLlmXmlEncoder.kt:44-47 | appends the value's text, quoted unless the start tag is closed |
| Encoder.StreamingLlmXmlEncoder.EncodeBoolean | src/commonMain/kotlin/dev/genos/kotlinx/serialization/llm/xml/internal/StreamingLlmXmlEncoder.kt:157 | appends "true" or "false" through encodeValue |
| Encoder.StreamingLlmXmlEncoder.EncodeInteger | src/commonMain/kotlin/dev/genos/kotlinx/serialization/llm/xml/internal/StreamingLlmXmlEncoder.kt:159-165 | appends the decimal text of the number through encodeValue |
| Encoder.StreamingLlmXmlEncoder.EncodeChar | src/commonMain/kotlin/dev/genos/kotlinx/serialization/llm/xml/internal/StreamingLlmXmlEncoder.kt:171 | appends the character through encodeValue |
| Encoder.StreamingLlmXmlEncoder.EncodeString | src/commonMain/kotlin/dev/genos/kotlinx/serialization/llm/xml/internal/StreamingLlmXmlEncoder.kt:173 | appends the string through encodeValue |
| Encoder.StreamingLlmXmlEncoder.EncodeEnum | src/commonMain/kotlin/dev/genos/kotlinx/serialization/llm/xml/internal/StreamingLlmXmlEncoder.kt:175-178 | appends the ordinal index, not the name |
| Encoder.StreamingLlmXmlEncoder.EncodeElement | src/commonMain/kotlin/dev/genos/kotlinx/serialization/llm/xml/internal/StreamingLlmXmlEncoder.kt:49-64 | writes FieldText for the field; the value is never looked at |
| Encoder.StreamingLlmXmlEncoder.WriteListOpening | src/commonMain/kotlin/dev/genos/kotlinx/serialization/llm/xml/internal/StreamingLlmXmlEncoder.kt:100-104 | a line break, the wrapper tag, one level deeper, and the list prompt line only when that prompt is non-empty |
| Encoder.StreamingLlmXmlEncoder.WriteLines | src/commonMain/kotlin/dev/genos/kotlinx/serialization/llm/xml/internal/StreamingLlmXmlEncoder.kt:134-136 | each line followed by a line break; a failed break stops the loop |
| Encoder.StreamingLlmXmlEncoder.WriteExampleBlock | src/commonMain/kotlin/dev/genos/kotlinx/serialization/llm/xml/internal/StreamingLlmXmlEncoder.kt:130-143 | the example entry of a list of classes as BlockText lays it out, at an unchanged level |
| Encoder.StreamingLlmXmlEncoder.WriteEntry | src/commonMain/kotlin/dev/genos/kotlinx/serialization/llm/xml/internal/StreamingLlmXmlEncoder.kt:106-148 | the one example entry, a primitive placeholder or a class block |
| Encoder.StreamingLlmXmlEncoder.WriteListClosing | src/commonMain/kotlin/dev/genos/kotlinx/serialization/llm/xml/internal/StreamingLlmXmlEncoder.kt:150-151 | the trailer, one level shallower, a line break and the closing tag |
| Encoder.StreamingLlmXmlEncoder.WriteList | src/commonMain/kotlin/dev/genos/kotlinx/serialization/llm/xml/internal/StreamingLlmXmlEncoder.kt:100-151 | the whole list template, leaving the level where it was |
| Encoder.StreamingLlmXmlEncoder.EncodeSerializableElement | src/commonMain/kotlin/dev/genos/kotlinx/serialization/llm/xml/internal/StreamingLlmXmlEncoder.kt:66-155 | an unannotated field goes to its serializer; a list annotation on a non-list fails its check with nothing written; an element that is neither primitive nor structure fails after the opening; otherwise the corrected list template |
| Encoder.LinesAfterFailure | src/commonMain/kotlin/dev/genos/kotlinx/serialization/llm/xml/internal/StreamingLlmXmlEncoder.kt:134-136 | nothing is written after a failed line break |
| Encoder.PutExtends | src/commonMain/kotlin/dev/genos/kotlinx/serialization/llm/xml/internal/Composer.kt:59 | append only extends the buffer |
| Encoder.PutLineExtends | src/commonMain/kotlin/dev/genos/kotlinx/serialization/llm/xml/internal/Composer.kt:61-65 | appendLine only extends the buffer |
| Encoder.LinesExtend | src/commonMain/kotlin/dev/genos/kotlinx/serialization/llm/xml/internal/StreamingLlmXmlEncoder.kt:134-136 | the line loop only extends the buffer |
| Encoder.BlockExtends | src/commonMain/kotlin/dev/genos/kotlinx/serialization/llm/xml/internal/StreamingLlmXmlEncoder.kt:130-143 | the example block only extends the buffer |
| Encoder.EntryExtends | src/commonMain/kotlin/dev/genos/kotlinx/serialization/llm/xml/internal/StreamingLlmXmlEncoder.kt:106-148 | the example entry only extends the buffer |
| Encoder.OpeningExtends | src/commonMain/kotlin/dev/genos/kotlinx/serialization/llm/xml/internal/StreamingLlmXmlEncoder.kt:100-104 | the list opening only extends the buffer |
| Encoder.ClosingExtends | src/commonMain/kotlin/dev/genos/kotlinx/serialization/llm/xml/internal/StreamingLlmXmlEncoder.kt:150-151 | the list closing only extends the buffer |
| Encoder.ListExtends | src/commonMain/kotlin/dev/genos/kotlinx/serialization/llm/xml/internal/StreamingLlmXmlEncoder.kt:100-151 | the whole list template only extends the buffer |
| Encoder.LinesPass | src/commonMain/kotlin/dev/genos/kotlinx/serialization/llm/xml/internal/StreamingLlmXmlEncoder.kt:134-136 | at a non-negative level and width no line of the loop fails |
| Encoder.ListPasses | src/commonMain/kotlin/dev/genos/kotlinx/serialization/llm/xml/internal/StreamingLlmXmlEncoder.kt:100-151 | at a non-negative level and width the whole list template is written |
| Encoder.ListFailsBeforeTag | src/commonMain/kotlin/dev/genos/kotlinx/serialization/llm/xml/internal/StreamingLlmXmlEncoder.kt:100-101 | a written template got past its first line break and wrapper tag |
| Encoder.ListWrappedBy | src/commonMain/kotlin/dev/genos/kotlinx/serialization/llm/xml/internal/StreamingLlmXmlEncoder.kt:100-151 | a written template starts, after a line break at the wrapper's level, with the wrapper tag and ends with the closing tag |
| Encoder.ListTextBalanced | src/commonMain/kotlin/dev/genos/kotlinx/serialization/llm/xml/internal/StreamingLlmXmlEncoder.kt:75 | the corrected template closes the wrapper with the tag it opened (tagName, or else the field name) |
| Encoder.ListClosingTagAsWritten | src/commonMain/kotlin/dev/genos/kotlinx/serialization/llm/xml/internal/StreamingLlmXmlEncoder.kt:151 | as written, a list whose annotation leaves tagName empty opens `<items>` and closes with `</>` |
| Encoder.PrimitiveListLayout | src/commonMain/kotlin/dev/genos/kotlinx/serialization/llm/xml/internal/StreamingLlmXmlEncoder.kt:100-151 | a list of primitives writes, in order: line break, `<tag>`, deeper break, optional prompt line, `<elemTag>{... prompt ...}</elemTag>`, deeper break, trailer, outer break, closing tag; no list value is involved |
| Encoder.LinesLayout | src/commonMain/kotlin/dev/genos/kotlinx/serialization/llm/xml/internal/StreamingLlmXmlEncoder.kt:134-136 | the line loop writes each line followed by the line break |
| Encoder.BlockLayout | src/commonMain/kotlin/dev/genos/kotlinx/serialization/llm/xml/internal/StreamingLlmXmlEncoder.kt:130-143 | a class entry is its opening tag, inner lines one level deeper, and its closing tag back at the entry's level |
| Encoder.ClassListLayout | src/commonMain/kotlin/dev/genos/kotlinx/serialization/llm/xml/internal/StreamingLlmXmlEncoder.kt:100-150 | a list of classes written out in full |
| Encoder.StepTag | src/commonMain/kotlin/dev/genos/kotlinx/serialization/llm/xml/internal/StreamingLlmXmlEncoder.kt:88-94 | the element tag defaults to the last '.' segment of the element's serial name |
| Encoder.RecipeInstructionsTemplate | src/commonMain/kotlin/dev/genos/kotlinx/serialization/llm/xml/internal/StreamingLlmXmlEncoder.kt:100-151 | the instructions list of the recipe template, with a Step entry one level below the wrapper, text for text |
| Encoder.CoachOverviewTemplate | src/commonMain/kotlin/dev/genos/kotlinx/serialization/llm/xml/internal/StreamingLlmXmlEncoder.kt:100-151 | the overview list of the coach template, text for text |
| Encoder.EntryAfterFailure | src/commonMain/kotlin/dev/genos/kotlinx/serialization/llm/xml/internal/StreamingLlmXmlEncoder.kt:106-148 | an example entry writes nothing after a failure |
| Decoder.ReadConsumes | src/commonMain/kotlin/dev/genos/kotlinx/serialization/llm/xml/LlmXmlLexer.kt:142-217 | a read only ever removes tokens from the front of the stream |
| Decoder.ConsumedTransitive | src/commonMain/kotlin/dev/genos/kotlinx/serialization/llm/xml/LlmXmlLexer.kt:142-217 | consumption composes across reads |
| Decoder.ElementIndexScan | src/commonMain/kotlin/dev/genos/kotlinx/serialization/llm/xml/internal/StreamingLlmXmlDecoder.kt:33-59 | decodeElementIndex fails only where the stream fails, and only consumes tokens |
| Decoder.ElementIndexStep | src/commonMain/kotlin/dev/genos/kotlinx/serialization/llm/xml/internal/StreamingLlmXmlDecoder.kt:34-57 | after one token decodeElementIndex either returns the index of the field on top of the name stack or goes on from a strictly shorter rest with the stack ElementIndexContinue gives |
| Decoder.ElementIndexUnfolds | src/commonMain/kotlin/dev/genos/kotlinx/serialization/llm/xml/internal/StreamingLlmXmlDecoder.kt:37-57 | a known start tag pushes its name and returns its index; unknown names and other tokens are skipped; an end tag pops a matching top and ends the class once the stack is empty; DocumentEnd ends it |
| Decoder.ElementIndexScanFinds | src/commonMain/kotlin/dev/genos/kotlinx/serialization/llm/xml/internal/StreamingLlmXmlDecoder.kt:38-43 | an index other than DECODE_DONE names a field whose name is the one just pushed |
| Decoder.ElementIndexScanStack | src/commonMain/kotlin/dev/genos/kotlinx/serialization/llm/xml/internal/StreamingLlmXmlDecoder.kt:41-49 | the stack loses names only from its top and gains only the found name |
| Decoder.ConsumedAfter | src/commonMain/kotlin/dev/genos/kotlinx/serialization/llm/xml/internal/StreamingLlmXmlDecoder.kt:34-35 | a scan continued after one token consumed only from where it began |
| Decoder.CollectionSizeStepAsWritten | src/commonMain/kotlin/dev/genos/kotlinx/serialization/llm/xml/internal/StreamingLlmXmlDecoder.kt:69-77 | a start tag counts at depth 1 and deepens; an end tag rises; every other token, DocumentEnd included, changes nothing |
| Decoder.CollectionSizeLoopsAtDocumentEnd | src/commonMain/kotlin/dev/genos/kotlinx/serialization/llm/xml/internal/StreamingLlmXmlDecoder.kt:66-78 | at the end of the document the loop as written reads DocumentEnd without change forever |
| Decoder.CollectionSizeScan | src/commonMain/kotlin/dev/genos/kotlinx/serialization/llm/xml/internal/StreamingLlmXmlDecoder.kt:63-81 | the corrected count fails only where the stream fails, only consumes, and never goes below the count so far |
| Decoder.CollectionSizeAtDocumentEnd | src/commonMain/kotlin/dev/genos/kotlinx/serialization/llm/xml/internal/StreamingLlmXmlDecoder.kt:63-81 | inside an open collection, the corrected count stops at the end of the document with the count so far |
| Decoder.CollectionSizeUnfolds | src/commonMain/kotlin/dev/genos/kotlinx/serialization/llm/xml/internal/StreamingLlmXmlDecoder.kt:66-78 | on every token except DocumentEnd the corrected count takes the step as written, and ends when the depth reaches 0 |
| Decoder.CollectionSizeCountsChildren | src/commonMain/kotlin/dev/genos/kotlinx/serialization/llm/xml/internal/StreamingLlmXmlDecoder.kt:63-81 | the count is exactly the number of start tags opened directly inside the collection |
| Decoder.ElementTextScan | src/commonMain/kotlin/dev/genos/kotlinx/serialization/llm/xml/internal/StreamingLlmXmlDecoder.kt:93-132 | decodeElement's loop fails only where the stream fails, and only consumes |
| Decoder.ElementTextSteps | src/commonMain/kotlin/dev/genos/kotlinx/serialization/llm/xml/internal/StreamingLlmXmlDecoder.kt:100-131 | after one token decodeElement's loop either stops with the text gathered so far or goes on from the rest of the stream with the depth and text ElementTextStep gives |
| Decoder.ElementTextAfter | src/commonMain/kotlin/dev/genos/kotlinx/serialization/llm/xml/internal/StreamingLlmXmlDecoder.kt:100-131 | decodeElement's loop on a token pushed in front of a stream stops there with its text or continues on that stream |
| Decoder.ElementTextUnfolds | src/commonMain/kotlin/dev/genos/kotlinx/serialization/llm/xml/internal/StreamingLlmXmlDecoder.kt:100-131 | same-name starts deepen; text is kept only at depth 1; the matching end that reaches depth 0, or DocumentEnd, ends the loop; other tokens are skipped |
| Decoder.NonEmpty | src/commonMain/kotlin/dev/genos/kotlinx/serialization/llm/xml/internal/StreamingLlmXmlDecoder.kt:133 | ifEmpty { null }: null exactly for the empty text |
| Decoder.DecodeElementScan | src/commonMain/kotlin/dev/genos/kotlinx/serialization/llm/xml/internal/StreamingLlmXmlDecoder.kt:83-136 | a field without an LlmField reads nothing and yields null; otherwise the value is trimmed and non-empty, or null |
| Decoder.ElementTextSkips | src/commonMain/kotlin/dev/genos/kotlinx/serialization/llm/xml/internal/StreamingLlmXmlDecoder.kt:93-132 | tokens before the field's tag that do not concern it are passed over without effect |
| Decoder.ElementTextOfSimpleField | src/commonMain/kotlin/dev/genos/kotlinx/serialization/llm/xml/internal/StreamingLlmXmlDecoder.kt:93-132 | `<name>text</name>`, as the lexer tokenizes it, yields its text and consumes exactly those tokens |
| Decoder.StringOrEmpty | src/commonMain/kotlin/dev/genos/kotlinx/serialization/llm/xml/internal/StreamingLlmXmlDecoder.kt:143 | a missing value reads as "" |
| Decoder.BooleanOrFalse | src/commonMain/kotlin/dev/genos/kotlinx/serialization/llm/xml/internal/StreamingLlmXmlDecoder.kt:151 | only a four-letter present value can read as true; a missing value is false |
| Decoder.BooleanReadsText | src/commonMain/kotlin/dev/genos/kotlinx/serialization/llm/xml/internal/StreamingLlmXmlDecoder.kt:151 | "true" and "false" read back as themselves, and "TRUE" and "True" as true |
| Decoder.IntegerOrZero | src/commonMain/kotlin/dev/genos/kotlinx/serialization/llm/xml/internal/StreamingLlmXmlDecoder.kt:154-184 | the number in range of its width, or 0 for a missing or unparsable value: never a failure |
| Decoder.IntegerReadsDecimalText | src/commonMain/kotlin/dev/genos/kotlinx/serialization/llm/xml/internal/StreamingLlmXmlDecoder.kt:154-184 | a number's decimal text reads back as the number at every width it fits |
| Decoder.CharOrZero | src/commonMain/kotlin/dev/genos/kotlinx/serialization/llm/xml/internal/StreamingLlmXmlDecoder.kt:207 | the first character, or Char(0) for a missing or empty value |
| Decoder.ListItemName | src/commonMain/kotlin/dev/genos/kotlinx/serialization/llm/xml/internal/StreamingLlmXmlDecoder.kt:221-225 | the list item tag is the annotation's tagName, or else the last '.' segment of the class's serial name |
| Decoder.ListLookahead | src/commonMain/kotlin/dev/genos/kotlinx/serialization/llm/xml/internal/StreamingLlmXmlDecoder.kt:229-248 | the three-token look-ahead fails only where the stream fails, and when the tokens do not announce entries all three stay consumed |
| Decoder.LookaheadAnnounces | src/commonMain/kotlin/dev/genos/kotlinx/serialization/llm/xml/internal/StreamingLlmXmlDecoder.kt:229-248 | the look-ahead finds entries exactly when the first token is a start tag, neither of the others is DocumentEnd and the third is no end tag; then the stream is left exactly as it was |
| Decoder.SerializableElementScan | src/commonMain/kotlin/dev/genos/kotlinx/serialization/llm/xml/internal/StreamingLlmXmlDecoder.kt:210-259 | an unannotated field is delegated with nothing read; for a list field, entries are handed over (with the item name and the stream untouched) exactly when the next three tokens announce them, and otherwise the result is the empty list with those three tokens consumed |
| Decoder.LeftAfter | src/commonMain/kotlin/dev/genos/kotlinx/serialization/llm/xml/internal/StreamingLlmXmlDecoder.kt:306-307 | a list scan continued after one token leaves only what the first read left |
| Decoder.ListIndexScan | src/commonMain/kotlin/dev/genos/kotlinx/serialization/llm/xml/internal/StreamingLlmXmlDecoder.kt:304-351 | the list walker fails only where the stream fails, and loses no token except the ones it consumed |
| Decoder.TextOfAfter | src/commonMain/kotlin/dev/genos/kotlinx/serialization/llm/xml/internal/StreamingLlmXmlDecoder.kt:335-338 | text gathered token by token adds up to the text of the whole run |
| Decoder.ListIndexGathersText | src/commonMain/kotlin/dev/genos/kotlinx/serialization/llm/xml/internal/StreamingLlmXmlDecoder.kt:335-348 | before an entry the walker gathers exactly the text of the tokens it passes over |
| Decoder.ListIndexUnfolds | src/commonMain/kotlin/dev/genos/kotlinx/serialization/llm/xml/internal/StreamingLlmXmlDecoder.kt:307-349 | an item start is an entry unless immediately closed, with the peeked token pushed back; the item end and DocumentEnd end the list; a self-closed tag is an entry; text is gathered |
| Decoder.ListIndexStepsOver | src/commonMain/kotlin/dev/genos/kotlinx/serialization/llm/xml/internal/StreamingLlmXmlDecoder.kt:335-348 | a passed-over token only adds its text |
| Decoder.ListIndexKeepsPeeked | src/commonMain/kotlin/dev/genos/kotlinx/serialization/llm/xml/internal/StreamingLlmXmlDecoder.kt:310-321 | after an item start the peeked token is left for the entry's own decoder: no token is lost |
| Decoder.ListIndexClosedAtOnce | src/commonMain/kotlin/dev/genos/kotlinx/serialization/llm/xml/internal/StreamingLlmXmlDecoder.kt:312-316 | an immediately closed `<x></x>` ends the list |
| Decoder.ListEndScan | src/commonMain/kotlin/dev/genos/kotlinx/serialization/llm/xml/internal/StreamingLlmXmlDecoder.kt:353-378 | endStructure fails only where the stream fails, only consumes, and when interrupted leaves the other tag's start in front |
| Decoder.ListEndUnfolds | src/commonMain/kotlin/dev/genos/kotlinx/serialization/llm/xml/internal/StreamingLlmXmlDecoder.kt:358-375 | an item start deepens; another start is pushed back and ends the walk; any end rises and closes at depth 0; DocumentEnd ends the walk; other tokens are ignored |
| Decoder.ListEndSkips | src/commonMain/kotlin/dev/genos/kotlinx/serialization/llm/xml/internal/StreamingLlmXmlDecoder.kt:374 | tokens that leave the depth alone are passed over |
| Decoder.ListEndClosesEntry | src/commonMain/kotlin/dev/genos/kotlinx/serialization/llm/xml/internal/StreamingLlmXmlDecoder.kt:369 | inside the last entry the next end tag closes the list |
| Decoder.ListEndSkipsNestedEntry | src/commonMain/kotlin/dev/genos/kotlinx/serialization/llm/xml/internal/StreamingLlmXmlDecoder.kt:359-369 | a nested item needs its own end tag before the list closes |
| Decoder.ListEndStopsAtOtherTag | src/commonMain/kotlin/dev/genos/kotlinx/serialization/llm/xml/internal/StreamingLlmXmlDecoder.kt:362-366 | a start tag of another name ends the walk and stays in the stream |
| Decoder.ContentStepAsWritten | src/commonMain/kotlin/dev/genos/kotlinx/serialization/llm/xml/internal/StreamingLlmXmlDecoder.kt:474-482 | text is appended, an end tag breaks the loop, every other token, DocumentEnd included, is ignored |
| Decoder.ReadContentLoopsAtDocumentEnd | src/commonMain/kotlin/dev/genos/kotlinx/serialization/llm/xml/internal/StreamingLlmXmlDecoder.kt:474-482 | at the end of the document the loop as written neither ends nor changes the text or the stream |
| Decoder.ContentScan | src/commonMain/kotlin/dev/genos/kotlinx/serialization/llm/xml/internal/StreamingLlmXmlDecoder.kt:473-484 | the corrected loop fails only where the stream fails, only consumes, and only extends the text |
| Decoder.ContentAfter | src/commonMain/kotlin/dev/genos/kotlinx/serialization/llm/xml/internal/StreamingLlmXmlDecoder.kt:474-482 | the content loop continued after one token still only consumes and extends |
| Decoder.ContentScanFollowsStep | src/commonMain/kotlin/dev/genos/kotlinx/serialization/llm/xml/internal/StreamingLlmXmlDecoder.kt:474-482 | on every token but DocumentEnd the corrected loop takes the step as written |
| Decoder.ContentUnfolds | src/commonMain/kotlin/dev/genos/kotlinx/serialization/llm/xml/internal/StreamingLlmXmlDecoder.kt:474-482 | one step of the corrected loop |
| Decoder.ContentStepsOver | src/commonMain/kotlin/dev/genos/kotlinx/serialization/llm/xml/internal/StreamingLlmXmlDecoder.kt:477-480 | a token inside the content only adds its text |
| Decoder.ContentGathersText | src/commonMain/kotlin/dev/genos/kotlinx/serialization/llm/xml/internal/StreamingLlmXmlDecoder.kt:471-485 | the loop returns the concatenated text of all tokens before the first end tag, which it consumes |
| Decoder.ReadContentScan | src/commonMain/kotlin/dev/genos/kotlinx/serialization/llm/xml/internal/StreamingLlmXmlDecoder.kt:465-488 | readContent succeeds only on a stream starting with Text, AttributeValue, ElementStart or ElementStartEnd; fails with that stream's failure or "Unexpected token" |
| Decoder.ReadContentUnfolds | src/commonMain/kotlin/dev/genos/kotlinx/serialization/llm/xml/internal/StreamingLlmXmlDecoder.kt:468-487 | a Text token gives its content, an AttributeValue its value, a start the inner loop, anything else fails |
| Decoder.ReadContentOfElement | src/commonMain/kotlin/dev/genos/kotlinx/serialization/llm/xml/internal/StreamingLlmXmlDecoder.kt:465-488 | a value written as `<tag>text</tag>` reads back as its text, consuming exactly that element |
| Decoder.ContentInteger | src/commonMain/kotlin/dev/genos/kotlinx/serialization/llm/xml/internal/StreamingLlmXmlDecoder.kt:492-498 | toByte()…toLong() succeed exactly on a number in range of the width, and otherwise fail with NumberFormatException |
| Decoder.ContentIntegerRoundTrip | src/commonMain/kotlin/dev/genos/kotlinx/serialization/llm/xml/internal/StreamingLlmXmlDecoder.kt:492-498 | an integer's toString() decodes to itself at every width it fits |
| Decoder.ContentChar | src/commonMain/kotlin/dev/genos/kotlinx/serialization/llm/xml/internal/StreamingLlmXmlDecoder.kt:504 | single() succeeds exactly on a one-character text |
| Decoder.ListIntegerOfPaddedText | src/commonMain/kotlin/dev/genos/kotlinx/serialization/llm/xml/internal/StreamingLlmXmlDecoder.kt:390-398 | a list entry holding a number surrounded by whitespace reads as that number |
| Decoder.ListBooleanOfPaddedText | src/commonMain/kotlin/dev/genos/kotlinx/serialization/llm/xml/internal/StreamingLlmXmlDecoder.kt:380-383 | a list entry holding true or false surrounded by whitespace reads as that boolean |
| Decoder.ValueOf | src/commonMain/kotlin/dev/genos/kotlinx/serialization/llm/xml/internal/StreamingLlmXmlDecoder.kt:465-488 | the result of a scan without the stream it leaves |
| Decoder.NextToken | src/commonMain/kotlin/dev/genos/kotlinx/serialization/llm/xml/LlmXmlLexer.kt:142-217 | a lexer read is the next token of the lexer's stream, leaving the rest |
| Decoder.LlmXmlElementDecoder.constructor | src/commonMain/kotlin/dev/genos/kotlinx/serialization/llm/xml/internal/StreamingLlmXmlDecoder.kt:20-31 | a record walker starts with an empty element stack |
| Decoder.LlmXmlElementDecoder.DecodeElementIndex | src/commonMain/kotlin/dev/genos/kotlinx/serialization/llm/xml/internal/StreamingLlmXmlDecoder.kt:33-59 | the loop performs ElementIndexScan: its index, its new stack and the stream it leaves |
| Decoder.LlmXmlElementDecoder.DecodeCollectionSize | src/commonMain/kotlin/dev/genos/kotlinx/serialization/llm/xml/internal/StreamingLlmXmlDecoder.kt:63-81 | the loop performs the corrected CollectionSizeScan, then resets the position to 0 |
| Decoder.LlmXmlElementDecoder.DecodeElement | src/commonMain/kotlin/dev/genos/kotlinx/serialization/llm/xml/internal/StreamingLlmXmlDecoder.kt:83-136 | the loop performs DecodeElementScan for the field and leaves the stream it leaves |
| Decoder.LlmXmlElementDecoder.DecodeStringElement | src/commonMain/kotlin/dev/genos/kotlinx/serialization/llm/xml/internal/StreamingLlmXmlDecoder.kt:138-144 | the element's text, or "" |
| Decoder.LlmXmlElementDecoder.DecodeBooleanElement | src/commonMain/kotlin/dev/genos/kotlinx/serialization/llm/xml/internal/StreamingLlmXmlDecoder.kt:146-152 | the element's text read with toBoolean(), or false |
| Decoder.LlmXmlElementDecoder.DecodeIntegerElement | src/commonMain/kotlin/dev/genos/kotlinx/serialization/llm/xml/internal/StreamingLlmXmlDecoder.kt:154-184 | the element's number at the given width, or 0 |
| Decoder.LlmXmlElementDecoder.DecodeCharElement | src/commonMain/kotlin/dev/genos/kotlinx/serialization/llm/xml/internal/StreamingLlmXmlDecoder.kt:202-208 | the element's first character, or Char(0) |
| Decoder.LlmXmlElementDecoder.DecodeSerializableElement | src/commonMain/kotlin/dev/genos/kotlinx/serialization/llm/xml/internal/StreamingLlmXmlDecoder.kt:210-259 | performs SerializableElementScan, the look-ahead with its push-backs included |
| Decoder.ListLlmXmlElementDecoder.constructor | src/commonMain/kotlin/dev/genos/kotlinx/serialization/llm/xml/internal/StreamingLlmXmlDecoder.kt:284-302 | a list walker starts at index 0 with no gathered text |
| Decoder.ListLlmXmlElementDecoder.DecodeElementIndex | src/commonMain/kotlin/dev/genos/kotlinx/serialization/llm/xml/internal/StreamingLlmXmlDecoder.kt:304-351 | the loop performs ListIndexScan: entries get the consecutive indices 0, 1, 2, …, the end of the list gives DECODE_DONE, and the gathered text is kept |
| Decoder.ListLlmXmlElementDecoder.EndStructure | src/commonMain/kotlin/dev/genos/kotlinx/serialization/llm/xml/internal/StreamingLlmXmlDecoder.kt:353-378 | the loop performs ListEndScan from depth 1 |
| Decoder.ListEndStep | src/commonMain/kotlin/dev/genos/kotlinx/serialization/llm/xml/internal/StreamingLlmXmlDecoder.kt:358-375 | after one token endStructure either stops at a start tag of another name, pushing it back, or goes on at the next depth from a shorter stream or at a smaller depth |
| Decoder.ListLlmXmlElementDecoder.EndStep | src/commonMain/kotlin/dev/genos/kotlinx/serialization/llm/xml/internal/StreamingLlmXmlDecoder.kt:356-376 | one pass of endStructure's loop agrees with ListEndScan and lowers the loop's measure |
| Decoder.ListLlmXmlElementDecoder.DecodeBooleanElement | src/commonMain/kotlin/dev/genos/kotlinx/serialization/llm/xml/internal/StreamingLlmXmlDecoder.kt:380-383 | only a four-character trimmed text can read as true, and a blank text reads as false |
| Decoder.ListLlmXmlElementDecoder.DecodeIntegerElement | src/commonMain/kotlin/dev/genos/kotlinx/serialization/llm/xml/internal/StreamingLlmXmlDecoder.kt:385-398 | a number in range of the width, or NumberFormatException |
| Decoder.ListLlmXmlElementDecoder.DecodeStringElement | src/commonMain/kotlin/dev/genos/kotlinx/serialization/llm/xml/internal/StreamingLlmXmlDecoder.kt:410-413 | the gathered text without surrounding whitespace, empty exactly when the text is blank |
| Decoder.StreamingLlmXmlDecoder.constructor | src/commonMain/kotlin/dev/genos/kotlinx/serialization/llm/xml/internal/StreamingLlmXmlDecoder.kt:453-456 | the decoder reads from the given lexer |
| Decoder.StreamingLlmXmlDecoder.BeginStructure | src/commonMain/kotlin/dev/genos/kotlinx/serialization/llm/xml/internal/StreamingLlmXmlDecoder.kt:463 | a fresh record walker over the same lexer, with an empty stack |
| Decoder.StreamingLlmXmlDecoder.ReadContent | src/commonMain/kotlin/dev/genos/kotlinx/serialization/llm/xml/internal/StreamingLlmXmlDecoder.kt:465-488 | performs ReadContentScan, with the end of the document ending the inner loop |
| Decoder.StreamingLlmXmlDecoder.DecodeBoolean | src/commonMain/kotlin/dev/genos/kotlinx/serialization/llm/xml/internal/StreamingLlmXmlDecoder.kt:490 | the content, untrimmed, is true exactly when it is "true" in some letter case |
| Decoder.StreamingLlmXmlDecoder.DecodeInteger | src/commonMain/kotlin/dev/genos/kotlinx/serialization/llm/xml/internal/StreamingLlmXmlDecoder.kt:492-498 | the content read as a number of the width, failures included |
| Decoder.StreamingLlmXmlDecoder.DecodeChar | src/commonMain/kotlin/dev/genos/kotlinx/serialization/llm/xml/internal/StreamingLlmXmlDecoder.kt:504 | the content must be a single character |
| Decoder.StreamingLlmXmlDecoder.DecodeString | src/commonMain/kotlin/dev/genos/kotlinx/serialization/llm/xml/internal/StreamingLlmXmlDecoder.kt:506 | the content itself |
| Decoder.StreamingLlmXmlDecoder.DecodeEnum | src/commonMain/kotlin/dev/genos/kotlinx/serialization/llm/xml/internal/StreamingLlmXmlDecoder.kt:508 | the index of the entry the content names, UNKNOWN_NAME when none does |
| Strings.Trim | src/commonMain/kotlin/dev/genos/kotlinx/serialization/llm/xml/internal/StreamingLlmXmlDecoder.kt:133 | trim() leaves a text that neither starts nor ends with whitespace |
| Strings.TrimStartDropsWhitespace | src/commonMain/kotlin/dev/genos/kotlinx/serialization/llm/xml/internal/StreamingLlmXmlDecoder.kt:133 | only whitespace is dropped at the front |
| Strings.TrimEndDropsWhitespace | src/commonMain/kotlin/dev/genos/kotlinx/serialization/llm/xml/internal/StreamingLlmXmlDecoder.kt:133 | only whitespace is dropped at the back |
| Strings.TrimEmptyIffBlank | src/commonMain/kotlin/dev/genos/kotlinx/serialization/llm/xml/internal/StreamingLlmXmlDecoder.kt:133 | trimming yields "" exactly for a blank text, which decodeElement then turns into null |
| Strings.TrimKeepsTrimmed | src/commonMain/kotlin/dev/genos/kotlinx/serialization/llm/xml/LlmXmlLexer.kt:135 | trimming a trimmed text changes nothing |
| Strings.TrimPadded | src/commonMain/kotlin/dev/genos/kotlinx/serialization/llm/xml/internal/StreamingLlmXmlDecoder.kt:383-413 | trim() undoes any whitespace padding of a trimmed text |
| Strings.SubstringAfterLast | src/commonMain/kotlin/dev/genos/kotlinx/serialization/llm/xml/internal/StreamingLlmXmlEncoder.kt:31 | substringAfterLast(c) is the c-free suffix after the last c, or the whole text when c does not occur |
| Strings.IndexOf | src/commonMain/kotlin/dev/genos/kotlinx/serialization/llm/xml/LlmXmlLexer.kt:124 | indexOf returns an occurrence at or after the start, or -1 |
| Strings.IndexOfFirst | src/commonMain/kotlin/dev/genos/kotlinx/serialization/llm/xml/LlmXmlLexer.kt:124 | indexOf finds the first occurrence, and -1 means there is none |
| Strings.IndexOfFinds | src/commonMain/kotlin/dev/genos/kotlinx/serialization/llm/xml/LlmXmlLexer.kt:124 | the first occurrence is the one returned |
| Strings.Spaces | src/commonMain/kotlin/dev/genos/kotlinx/serialization/llm/xml/internal/Composer.kt:64 | " ".repeat(n) has length n |
| Strings.SpacesAreSpaces | src/commonMain/kotlin/dev/genos/kotlinx/serialization/llm/xml/internal/Composer.kt:64 | and consists of spaces only |
| Strings.ParseInteger | src/commonMain/kotlin/dev/genos/kotlinx/serialization/llm/xml/internal/StreamingLlmXmlDecoder.kt:175 | a number starts with a digit or a sign; a digit is a decimal digit of any script, as Character.digit reads it |
| Strings.DigitValue | src/commonMain/kotlin/dev/genos/kotlinx/serialization/llm/xml/internal/StreamingLlmXmlDecoder.kt:175 | the value digitOf gives a decimal digit of any script is below 10 |
| Strings.OtherScriptDigitsParse | src/commonMain/kotlin/dev/genos/kotlinx/serialization/llm/xml/internal/StreamingLlmXmlDecoder.kt:175 | Arabic-Indic "٣٢" parses as 32 and "-۷" in Extended Arabic-Indic as -7 |
| Strings.ParseOfDigits | src/commonMain/kotlin/dev/genos/kotlinx/serialization/llm/xml/internal/StreamingLlmXmlDecoder.kt:496 | a run of ASCII digits parses as its value, and with a leading '-' as its negation |
| Strings.ParseSigned | src/commonMain/kotlin/dev/genos/kotlinx/serialization/llm/xml/internal/StreamingLlmXmlDecoder.kt:175 | toIntOrNull and friends give the parsed number exactly when it is in range of the width |
| Strings.ParseDecimalRoundTrip | src/commonMain/kotlin/dev/genos/kotlinx/serialization/llm/xml/internal/StreamingLlmXmlDecoder.kt:496 | parsing what toString() prints gives the number back |
| Schema.SimpleName | src/commonMain/kotlin/dev/genos/kotlinx/serialization/llm/xml/internal/StreamingLlmXmlEncoder.kt:31 | the text after the last '.' of a serial name (which holds no '.' and is preceded by that '.'), the whole name when it has no '.' |
| Schema.IfEmpty | src/commonMain/kotlin/dev/genos/kotlinx/serialization/llm/xml/internal/StreamingLlmXmlEncoder.kt:57 | ifEmpty { other }: the text, or other when it is empty |
| Schema.ElementIndex | src/commonMain/kotlin/dev/genos/kotlinx/serialization/llm/xml/internal/StreamingLlmXmlDecoder.kt:39 | getElementIndex returns the index of a field of that name, or UNKNOWN_NAME |
| Schema.ElementIndexFirst | src/commonMain/kotlin/dev/genos/kotlinx/serialization/llm/xml/internal/StreamingLlmXmlDecoder.kt:39-40 | the lookup finds the first field of that name, and UNKNOWN_NAME exactly when there is none |
| Schema.EntryIndex | src/commonMain/kotlin/dev/genos/kotlinx/serialization/llm/xml/internal/StreamingLlmXmlDecoder.kt:508 | an enum lookup returns the ordinal of an entry of that name, or UNKNOWN_NAME |
| Schema.EntryIndexOfEntry | src/commonMain/kotlin/dev/genos/kotlinx/serialization/llm/xml/internal/StreamingLlmXmlDecoder.kt:508 | with distinct entries every entry's name decodes to its own ordinal |
| Schema.FieldTag | src/commonMain/kotlin/dev/genos/kotlinx/serialization/llm/xml/internal/StreamingLlmXmlDecoder.kt:94-96 | a scalar field is read and written under its tagName, or else its name |
| Schema.FieldNames | src/commonMain/kotlin/dev/genos/kotlinx/serialization/llm/xml/internal/StreamingLlmXmlDecoder.kt:39 | the field names in declaration order, which the lookup searches |

## Left out

- Logging: the `logger.debug` and `logger.warn` calls and the `println` calls in `encodeSerializableElement` write output only and are treated as no-ops.
- Floating point: `encodeFloat`/`encodeDouble`, `decodeFloat`/`decodeDouble`, `decodeFloatElement`/`decodeDoubleElement` and the list getters for Float and Double are not modelled; parsing and printing IEEE numbers is out of reach of this model.
- The kotlinx runtime: descriptors are a field table (`Schema`) and the generated serializers are not modelled. Where the codec hands over to a serializer (`encodeSerializableValue`, `deserializer.deserialize`, the list walker's `decodeSerializableElement` and `decodeNullableSerializableElement`, the record walker's `decodeNullableSerializableElement`), the model returns a plan (`Delegated`, `ListEntries(itemName)`, `EmptyList`, `HandedToSerializer`) instead of running the serializer.
- The class-list path of `encodeSerializableElement` (`encodeToString`, the regex and the line slicing): the example entry is given as a pre-rendered `ExampleBlock` of opening tag, inner lines and closing tag; how that block is cut out of the nested rendering, including the slice at the repeated opening tag, is not modelled.
- Constant answers with no logic: `decodeSequentially` (true), `decodeInline`/`encodeInline`, `decodeInlineElement`, `decodeNotNullMark` (true), `decodeNull` (null), the record walker's `endStructure` (a no-op) and `ListLlmXmlDecoder.beginStructure` (it only builds a list walker, which `ListLlmXmlElementDecoder.constructor` models).
- The `TODO()` stubs, which only throw: the list walker's `decodeCharElement`, `decodeShortElement` and `decodeInlineElement`, the encoder's `encodeNullableSerializableElement` and `encodeInlineElement`, and `decodeLlmXmlEntity`; `encodeLlmXmlEntity` delegates to the entity serializer, which is not part of this model.
- Driving a whole record through the generated serializer (decoding the Recipe example end to end) is not modelled, since the serializer is external; the model proves each walker's scan and reads `<tag>text</tag>` back (`ElementTextOfSimpleField`, `ReadContentOfElement`).
- Integer widths: the pretty printer's `level * indent` and the list walker's `index` are unbounded here; 32-bit wrap-around of those counters is not modelled. Parsed numbers do respect their width (`ParseSigned`).
- Decoder.LlmXmlElementDecoder.DecodeCollectionSize: it ends with the position reset to 0 but does not state the stream the lexer then delivers; the source leaves the pushback and the last token as they were, so that stream depends on both.
- Decoder.BooleanOrFalse: its contract states only that true needs a present four-letter value; the exact reading is `IsTrueIgnoringCase`, and `BooleanReadsText` states the round trip.
- Decoder.ListLlmXmlElementDecoder.DecodeBooleanElement: its contract states only that true needs a four-character trimmed text and that a blank text is false; `ListBooleanOfPaddedText` states the round trip of a padded boolean.
- Decoder.ListLlmXmlElementDecoder.DecodeIntegerElement: its contract states the range and the failure; `ListIntegerOfPaddedText` states the round trip of a padded number.
- Character classes: `Strings.IsWhitespace` lists the characters Kotlin's `Char.isWhitespace` accepts (what `trim()` removes), while the lexer's own `skipWhitespace` uses only ' ', '\n', '\t' and '\r'; both are modelled as the source has them, but Unicode categories outside those listed code points are not.
- Decimal digits: `Strings.IsDigit` takes '0'..'9' and the 36 other runs of Unicode decimal digits in the Basic Multilingual Plane, as a JVM of Unicode 7.0 or later lists them; a JVM with an older Unicode table, or another Kotlin platform's digit table, is not modelled. A digit outside that plane is a surrogate pair in a Kotlin string, which `Character.digit` rejects, and the model rejects it too.

## Findings

| source | as written | input that shows it | evidently intended | confidence | as-written member | corrected member |
|---|---|---|---|---|---|---|
| src/commonMain/kotlin/dev/genos/kotlinx/serialization/llm/xml/internal/StreamingLlmXmlDecoder.kt:474-482 | the inner loop of `readContent` ignores `DocumentEnd`, and the lexer repeats `DocumentEnd` forever, so the loop never ends | `decodeString()` on the source `<v>`: ElementStart(v), ElementStartEnd, then DocumentEnd forever | stop at the end of the document, as `decodeElement` does at lines 122-125 | not executed | Decoder.ReadContentLoopsAtDocumentEnd | Decoder.ContentGathersText |
| src/commonMain/kotlin/dev/genos/kotlinx/serialization/llm/xml/internal/StreamingLlmXmlDecoder.kt:66-78 | the loop of `decodeCollectionSize` ignores `DocumentEnd`, so on an unclosed collection the depth never returns to 0 and the loop never ends | `decodeCollectionSize` on the source `<items><item>` | stop at the end of the document, as the list walker's `endStructure` does at lines 370-373 | not executed | Decoder.CollectionSizeLoopsAtDocumentEnd | Decoder.CollectionSizeCountsChildren |
| src/commonMain/kotlin/dev/genos/kotlinx/serialization/llm/xml/internal/StreamingLlmXmlEncoder.kt:151 | the list wrapper is closed with the annotation's raw `tagName`, while line 75 opens it with `tagName` or else the field name | a `List<String>` field `items` annotated `LlmListField(tagName = "", elementTagName = "item", elementPromptDescription = "p")`: the template opens `<items>` and closes `</>` | close the wrapper with the tag it was opened with | not executed | Encoder.ListClosingTagAsWritten | Encoder.ListTextBalanced |
