/** The stand-in for the kotlinx serial descriptors: what the codec asks of a
    class (its serial name, its fields in declaration order, each field's name,
    annotations and type). The empty string in an annotation means "unset". */
module Schema {
  import opened Results
  import opened Strings

  /** @LlmField(tagName, promptDescription). */
  datatype LlmField = LlmField(tagName: string, promptDescription: string)

  /** @LlmListField(tagName, listPromptDescription, elementTagName, elementPromptDescription). */
  datatype LlmListField = LlmListField(
    tagName: string, listPromptDescription: string,
    elementTagName: string, elementPromptDescription: string)

  /** The primitive kinds the codec handles (floating point is not modelled). */
  datatype ScalarKind = BooleanKind | ByteKind | ShortKind | IntKind | LongKind | CharKind | StringKind

  /** The type a serializer stands for. */
  datatype SerialType =
    | Scalar(kind: ScalarKind)
    | Enum(enumName: string, entries: seq<string>)
    | Record(descriptor: ClassDescriptor)
    | ListOf(element: SerialType)

  /** A property of a class: its name, its annotations and its type. */
  datatype FieldDecl = FieldDecl(
    name: string, llmField: Option<LlmField>, llmListField: Option<LlmListField>, fieldType: SerialType)

  /** A class descriptor: the serial name and the fields in declaration order. */
  datatype ClassDescriptor = ClassDescriptor(serialName: string, fields: seq<FieldDecl>)

  /** CompositeDecoder.UNKNOWN_NAME and CompositeDecoder.DECODE_DONE. */
  const UnknownName: int := -3
  const DecodeDone: int := -1

  /** The serial name kotlinx gives each type. */
  function SerialName(t: SerialType): string {
    match t
    case Scalar(k) => "kotlin." + ScalarName(k)
    case Enum(n, _) => n
    case Record(d) => d.serialName
    case ListOf(_) => "kotlin.collections.ArrayList"
  }

  function ScalarName(k: ScalarKind): string {
    match k
    case BooleanKind => "Boolean"
    case ByteKind => "Byte"
    case ShortKind => "Short"
    case IntKind => "Int"
    case LongKind => "Long"
    case CharKind => "Char"
    case StringKind => "String"
  }

  /** The text of "$kind": the simple class name of the descriptor's kind. */
  function KindName(t: SerialType): string {
    match t
    case Scalar(BooleanKind) => "BOOLEAN"
    case Scalar(ByteKind) => "BYTE"
    case Scalar(ShortKind) => "SHORT"
    case Scalar(IntKind) => "INT"
    case Scalar(LongKind) => "LONG"
    case Scalar(CharKind) => "CHAR"
    case Scalar(StringKind) => "STRING"
    case Enum(_, _) => "ENUM"
    case Record(_) => "CLASS"
    case ListOf(_) => "LIST"
  }

  /** PrimitiveKind and StructureKind; an enum is neither. */
  predicate IsPrimitive(t: SerialType) { t.Scalar? }

  predicate IsStructure(t: SerialType) { t.Record? || t.ListOf? }

  /** The last '.' segment of a serial name: substringAfterLast('.') and
      split(".").last() agree. */
  function SimpleName(serialName: string): (r: string)
    ensures '.' !in r && |r| <= |serialName| && r == serialName[|serialName| - |r|..]
    ensures '.' !in serialName ==> r == serialName
    ensures '.' in serialName ==> |r| < |serialName| && serialName[|serialName| - |r| - 1] == '.'
  {
    SubstringAfterLast(serialName, '.')
  }

  /** Kotlin's ifEmpty { other } and takeUnless { it.isEmpty() } ?: other. */
  function IfEmpty(s: string, other: string): (r: string)
    ensures s != [] ==> r == s
    ensures s == [] ==> r == other
  {
    if s == [] then other else s
  }

  /** The names of the fields, in declaration order. */
  function FieldNames(fields: seq<FieldDecl>): (r: seq<string>)
    ensures |r| == |fields| && forall k :: 0 <= k < |fields| ==> r[k] == fields[k].name
  {
    seq(|fields|, k requires 0 <= k < |fields| => fields[k].name)
  }

  /** getElementIndex(name) of a class: the index of the first field with that
      name, or UNKNOWN_NAME. */
  function ElementIndex(d: ClassDescriptor, name: string): (r: int)
    ensures r == UnknownName || (0 <= r < |d.fields| && d.fields[r].name == name)
  {
    IndexFrom(FieldNames(d.fields), name, 0)
  }

  /** getElementIndex(name) of an enum: the ordinal of the entry with that name,
      or UNKNOWN_NAME. */
  function EntryIndex(entries: seq<string>, name: string): (r: int)
    ensures r == UnknownName || (0 <= r < |entries| && entries[r] == name)
  {
    IndexFrom(entries, name, 0)
  }

  function IndexFrom(names: seq<string>, name: string, i: nat): (r: int)
    requires i <= |names|
    ensures r == UnknownName || (i <= r < |names| && names[r] == name)
    decreases |names| - i
  {
    if i == |names| then UnknownName
    else if names[i] == name then i
    else IndexFrom(names, name, i + 1)
  }

  /** The lookup finds the first occurrence, and fails only when there is none. */
  lemma {:induction false} IndexFromFirst(names: seq<string>, name: string, i: nat)
    requires i <= |names|
    ensures IndexFrom(names, name, i) == UnknownName <==> forall k :: i <= k < |names| ==> names[k] != name
    ensures IndexFrom(names, name, i) != UnknownName ==>
      forall k :: i <= k < IndexFrom(names, name, i) ==> names[k] != name
    decreases |names| - i
  {
    if i < |names| && names[i] != name { IndexFromFirst(names, name, i + 1); }
  }

  lemma ElementIndexFirst(d: ClassDescriptor, name: string)
    ensures ElementIndex(d, name) == UnknownName <==> forall k :: 0 <= k < |d.fields| ==> d.fields[k].name != name
    ensures ElementIndex(d, name) != UnknownName ==>
      forall k :: 0 <= k < ElementIndex(d, name) ==> d.fields[k].name != name
  {
    IndexFromFirst(FieldNames(d.fields), name, 0);
  }

  /** An enum name is found at its ordinal when the entries are distinct. */
  lemma EntryIndexOfEntry(entries: seq<string>, k: nat)
    requires k < |entries| && forall i, j :: 0 <= i < j < |entries| ==> entries[i] != entries[j]
    ensures EntryIndex(entries, entries[k]) == k
  {
    IndexFromFirst(entries, entries[k], 0);
  }

  /** The tag a scalar field is written and read under: the annotation's tagName,
      or else the field name. */
  function FieldTag(f: FieldDecl): (r: string)
    requires f.llmField.Some?
    ensures f.llmField.value.tagName != [] ==> r == f.llmField.value.tagName
    ensures f.llmField.value.tagName == [] ==> r == f.name
  {
    IfEmpty(f.llmField.value.tagName, f.name)
  }
}
