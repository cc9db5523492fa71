/** A plugin's parameter schema: Protobuf descriptors and the form fields that refer to them. */
module Schema {
  import opened Basics
  import opened Ordering

  const SCHEMA_FORMAT_VERSION: nat := 1
  const MAX_SCHEMA_BUNDLE_BYTES: nat := 1024 * 1024
  const MAX_TASKS: nat := 256
  const MAX_FIELDS_PER_TASK: nat := 512
  const MAX_DESCRIPTOR_MESSAGES: nat := 4096
  const MAX_FILES: nat := 256

  // ----- descriptors -----

  /** `rest` stands for everything about a descriptor that nothing here looks at. */
  datatype FieldDescriptor = FieldDescriptor(name: Option<Text>, fieldType: int, rest: nat)
  datatype Message = Message(name: Option<Text>, fields: seq<FieldDescriptor>, nested: seq<Message>, rest: nat)
  datatype File = File(name: Option<Text>, package: Option<Text>, messages: seq<Message>, sourceInfo: Option<nat>,
                       rest: nat)

  const DOT: byte := 46

  function FullName(parent: Text, name: Text): Text {
    if parent == [] then name else parent + [DOT] + name
  }

  /** A message and those nested in it, each under its full name, in the order they are collected. A
      message without a name hides what is nested in it. */
  function MessageEntries(parent: Text, message: Message): seq<(Text, Message)>
    decreases message, |message.nested| + 1
  {
    if message.name.None? then []
    else
      var full := FullName(parent, message.name.value);
      [(full, message)] + NestedEntries(full, message, message.nested)
  }

  function NestedEntries(parent: Text, owner: Message, messages: seq<Message>): seq<(Text, Message)>
    requires forall m :: m in messages ==> m in owner.nested
    decreases owner, |messages|
  {
    if messages == [] then []
    else
      assert messages[0] in owner.nested;
      MessageEntries(parent, messages[0]) + NestedEntries(parent, owner, messages[1..])
  }

  function PackageOf(file: File): Text {
    if file.package.Some? then file.package.value else []
  }

  function TopEntries(package: Text, messages: seq<Message>): seq<(Text, Message)> {
    if messages == [] then [] else MessageEntries(package, messages[0]) + TopEntries(package, messages[1..])
  }

  function FileEntries(file: File): seq<(Text, Message)> {
    TopEntries(PackageOf(file), file.messages)
  }

  function Entries(files: seq<File>): seq<(Text, Message)> {
    if files == [] then [] else FileEntries(files[0]) + Entries(files[1..])
  }

  /** Inserting one by one: of two entries with one name the later stays. */
  function InsertAll(messages: map<Text, Message>, entries: seq<(Text, Message)>): map<Text, Message>
    decreases |entries|
  {
    if entries == [] then messages else InsertAll(messages[entries[0].0 := entries[0].1], entries[1..])
  }

  function DescriptorMessages(files: seq<File>): map<Text, Message> {
    InsertAll(map[], Entries(files))
  }

  lemma {:induction false} InsertAllAppend(messages: map<Text, Message>, a: seq<(Text, Message)>,
                                           b: seq<(Text, Message)>)
    ensures InsertAll(messages, a + b) == InsertAll(InsertAll(messages, a), b)
    decreases |a|
  {
    if a == [] {
      assert a + b == b;
    } else {
      assert (a + b)[1..] == a[1..] + b;
      InsertAllAppend(messages[a[0].0 := a[0].1], a[1..], b);
    }
  }

  method CollectMessage(parent: Text, message: Message, messages: map<Text, Message>)
    returns (collected: map<Text, Message>)
    ensures collected == InsertAll(messages, MessageEntries(parent, message))
    decreases message
  {
    if message.name.None? {
      return messages;
    }
    var full := FullName(parent, message.name.value);
    collected := messages[full := message];
    var nested := message.nested;
    for i := 0 to |nested|
      invariant InsertAll(messages, MessageEntries(parent, message))
                == InsertAll(collected, NestedEntries(full, message, nested[i..]))
    {
      assert nested[i..][1..] == nested[i + 1..];
      InsertAllAppend(collected, MessageEntries(full, nested[i]), NestedEntries(full, message, nested[i + 1..]));
      collected := CollectMessage(full, nested[i], collected);
    }
  }

  method CollectMessages(files: seq<File>) returns (messages: map<Text, Message>)
    ensures messages == DescriptorMessages(files)
  {
    messages := map[];
    for i := 0 to |files|
      invariant DescriptorMessages(files) == InsertAll(messages, Entries(files[i..]))
    {
      assert files[i..][1..] == files[i + 1..];
      InsertAllAppend(messages, FileEntries(files[i]), Entries(files[i + 1..]));
      var top := files[i].messages;
      ghost var before := messages;
      for j := 0 to |top|
        invariant InsertAll(before, FileEntries(files[i]))
                  == InsertAll(messages, TopEntries(PackageOf(files[i]), top[j..]))
      {
        assert top[j..][1..] == top[j + 1..];
        InsertAllAppend(messages, MessageEntries(PackageOf(files[i]), top[j]),
                        TopEntries(PackageOf(files[i]), top[j + 1..]));
        messages := CollectMessage(PackageOf(files[i]), top[j], messages);
      }
    }
  }

  // ----- the bundle and its validation -----

  datatype FieldOption = FieldOption(value: Text, caption: Text)

  datatype FormField = FormField(
    path: Text, caption: Text, description: Text, control: int, required: bool, default: Option<Text>,
    minimum: Option<Text>, maximum: Option<Text>, minLength: Option<nat>, maxLength: Option<nat>, format: Option<Text>,
    options: seq<FieldOption>, order: nat, unit: Text)

  datatype TaskSchema = TaskSchema(
    taskKind: Text, schemaVersion: nat, configMessage: Text, resultMessage: Text, displayName: Text,
    description: Text, fields: seq<FormField>)

  datatype RuntimeSchema = RuntimeSchema(schemaVersion: nat, configMessage: Text, displayName: Text, description: Text,
                                         rest: nat)

  datatype Bundle = Bundle(
    formatVersion: nat, pluginId: Text, pluginVersion: Text, descriptorSet: Bytes, tasks: seq<TaskSchema>,
    runtime: Option<RuntimeSchema>)

  /** Protobuf encodings, and reading a finite number from text. */
  datatype Codec = Codec(
    encodeFiles: seq<File> -> Bytes, decodeFiles: Bytes -> Option<seq<File>>,
    encodeBundle: Bundle -> Bytes, decodeBundle: Bytes -> Option<Bundle>, parseNumber: Text -> Option<real>)

  /** Encodings can be read back, and a set with a file in it does not encode to nothing. */
  ghost predicate Lawful(codec: Codec) {
    && (forall files :: codec.decodeFiles(codec.encodeFiles(files)) == Some(files))
    && (forall bundle :: codec.decodeBundle(codec.encodeBundle(bundle)) == Some(bundle))
    && (forall files :: files != [] ==> codec.encodeFiles(files) != [])
  }

  function Ascii(s: string): Text
    requires forall c :: c in s ==> c < 128 as char
  {
    seq(|s|, i requires 0 <= i < |s| => assert s[i] in s; (s[i] as int) as byte)
  }

  predicate IsSafeByte(b: byte) {
    48 <= b <= 57 || 65 <= b <= 90 || 97 <= b <= 122 || b == 46 || b == 95 || b == 45
  }

  predicate IsSafeComponent(t: Text) {
    1 <= |t| <= 256 && forall i :: 0 <= i < |t| ==> IsSafeByte(t[i])
  }

  /** The control characters of Unicode, as they appear in UTF-8. */
  predicate HasControlCharacter(t: Text) {
    exists i :: 0 <= i < |t|
        && (t[i] < 0x20 || t[i] == 0x7F || (t[i] == 0xC2 && i + 1 < |t| && 0x80 <= t[i + 1] <= 0x9F))
  }

  /** The number of characters: bytes that do not continue one. */
  function CharCount(t: Text): nat {
    if t == [] then 0 else (if 0x80 <= t[0] <= 0xBF then 0 else 1) + CharCount(t[1..])
  }

  function TrimDots(t: Text): Text {
    if t != [] && t[0] == DOT then TrimDots(t[1..]) else t
  }

  const TYPE_BOOL := 8
  const TYPE_STRING := 9
  const TYPE_BYTES := 12
  const TYPE_ENUM := 14
  const CONTROL_AUTO := 0
  const CONTROL_TEXT := 1
  const CONTROL_TEXTAREA := 2
  const CONTROL_NUMBER := 3
  const CONTROL_SELECT := 4
  const CONTROL_COMBOBOX := 5
  const CONTROL_TOGGLE := 6
  const CONTROL_PASSWORD := 7

  predicate IsNumericType(t: int) {
    1 <= t <= 7 || t == 13 || 15 <= t <= 18
  }

  predicate IsTextControl(control: int) {
    control == CONTROL_TEXT || control == CONTROL_TEXTAREA || control == CONTROL_COMBOBOX || control == CONTROL_PASSWORD
  }

  predicate ControlFits(control: int, fieldType: int) {
    && 1 <= fieldType <= 18
    && (control == CONTROL_NUMBER ==> IsNumericType(fieldType))
    && (control == CONTROL_TOGGLE ==> fieldType == TYPE_BOOL)
    && (control == CONTROL_SELECT ==> fieldType == TYPE_ENUM || fieldType == TYPE_STRING)
    && (IsTextControl(control) ==> fieldType == TYPE_STRING || fieldType == TYPE_BYTES)
  }

  predicate DefaultFits(codec: Codec, field: FormField, fieldType: int, default: Text) {
    var auto := field.control == CONTROL_AUTO;
    && (field.control == CONTROL_NUMBER || (auto && IsNumericType(fieldType)) ==>
          && codec.parseNumber(default).Some?
          && (field.minimum.Some? && codec.parseNumber(field.minimum.value).Some? ==>
                codec.parseNumber(default).value >= codec.parseNumber(field.minimum.value).value)
          && (field.maximum.Some? && codec.parseNumber(field.maximum.value).Some? ==>
                codec.parseNumber(default).value <= codec.parseNumber(field.maximum.value).value))
    && (field.control == CONTROL_TOGGLE || (auto && fieldType == TYPE_BOOL) ==>
        default == Ascii("true") || default == Ascii("false"))
    && (IsTextControl(field.control) || (auto && (fieldType == TYPE_STRING || fieldType == TYPE_BYTES)) ==>
          && (field.minLength.Some? ==> CharCount(default) >= field.minLength.value)
          && (field.maxLength.Some? ==> CharCount(default) <= field.maxLength.value))
    && (field.control == CONTROL_SELECT && field.options != [] ==>
          exists i :: 0 <= i < |field.options| && field.options[i].value == default)
  }

  predicate RangesFit(codec: Codec, field: FormField) {
    && (field.minimum.Some? ==> codec.parseNumber(field.minimum.value).Some?)
    && (field.maximum.Some? ==> codec.parseNumber(field.maximum.value).Some?)
    && (field.minimum.Some? && field.maximum.Some? ==>
          codec.parseNumber(field.minimum.value).value <= codec.parseNumber(field.maximum.value).value)
    && (field.minLength.Some? && field.maxLength.Some? ==> field.minLength.value <= field.maxLength.value)
  }

  predicate OptionsFit(field: FormField) {
    && (field.options != [] ==> field.control == CONTROL_SELECT || field.control == CONTROL_COMBOBOX)
    && (forall i :: 0 <= i < |field.options| - 1 ==> Less(field.options[i].value, field.options[i + 1].value))
    && (forall i :: 0 <= i < |field.options| ==>
          && field.options[i].value != [] && field.options[i].caption != []
          && !HasControlCharacter(field.options[i].value) && !HasControlCharacter(field.options[i].caption))
  }

  /** The first field of the message that bears this name. */
  function FindField(fields: seq<FieldDescriptor>, path: Text): Option<FieldDescriptor> {
    if fields == [] then None
    else if fields[0].name == Some(path) then Some(fields[0])
    else FindField(fields[1..], path)
  }

  predicate FieldValid(codec: Codec, config: Message, field: FormField) {
    && 1 <= |field.path| <= 256 && 1 <= |field.caption| <= 256
    && !HasControlCharacter(field.path) && !HasControlCharacter(field.caption)
    && |field.description| <= 4096 && |field.unit| <= 64
    && var descriptor := FindField(config.fields, field.path);
    && descriptor.Some?
    && RangesFit(codec, field)
    && CONTROL_AUTO <= field.control <= CONTROL_PASSWORD
    && ControlFits(field.control, descriptor.value.fieldType)
    && (field.default.Some? ==> DefaultFits(codec, field, descriptor.value.fieldType, field.default.value))
    && (field.format.Some? ==> field.format.value in [Ascii("hostname"), Ascii("ip"), Ascii("url"), Ascii("port")])
    && OptionsFit(field)
  }

  predicate TaskValid(codec: Codec, messages: map<Text, Message>, task: TaskSchema) {
    && IsSafeComponent(task.taskKind) && task.schemaVersion != 0
    && 1 <= |task.configMessage| <= 512 && !HasControlCharacter(task.configMessage)
    && |task.resultMessage| <= 512 && !HasControlCharacter(task.resultMessage)
    && |task.displayName| <= 256 && |task.description| <= 4096
    && TrimDots(task.configMessage) in messages
    && (task.resultMessage != [] ==> TrimDots(task.resultMessage) in messages)
    && |task.fields| <= MAX_FIELDS_PER_TASK
    && (forall i :: 0 <= i < |task.fields| - 1 ==> Less(task.fields[i].path, task.fields[i + 1].path))
    && (forall i :: 0 <= i < |task.fields| ==>
        FieldValid(codec, messages[TrimDots(task.configMessage)], task.fields[i]))
  }

  predicate RuntimeValid(messages: map<Text, Message>, runtime: RuntimeSchema) {
    && runtime.schemaVersion != 0 && 1 <= |runtime.configMessage| <= 512 && !HasControlCharacter(runtime.configMessage)
    && |runtime.displayName| <= 256 && |runtime.description| <= 4096
    && TrimDots(runtime.configMessage) in messages
  }

  /** The part of the validation that looks messages up. */
  predicate FitsTable(codec: Codec, bundle: Bundle, messages: map<Text, Message>) {
    && |messages| <= MAX_DESCRIPTOR_MESSAGES
    && bundle.runtime.Some? && RuntimeValid(messages, bundle.runtime.value)
    && 1 <= |bundle.tasks| <= MAX_TASKS
    && (forall i :: 0 <= i < |bundle.tasks| - 1 ==> Less(bundle.tasks[i].taskKind, bundle.tasks[i + 1].taskKind))
    && (forall i :: 0 <= i < |bundle.tasks| ==> TaskValid(codec, messages, bundle.tasks[i]))
  }

  predicate Valid(codec: Codec, bundle: Bundle) {
    && bundle.formatVersion == SCHEMA_FORMAT_VERSION
    && IsSafeComponent(bundle.pluginId)
    && 1 <= |bundle.pluginVersion| <= 64 && !HasControlCharacter(bundle.pluginVersion)
    && bundle.descriptorSet != []
    && var files := codec.decodeFiles(bundle.descriptorSet);
    && files.Some? && 1 <= |files.value| <= MAX_FILES
    && FitsTable(codec, bundle, DescriptorMessages(files.value))
  }

  // ----- the canonical form -----

  /** The order of optional names, none first, as an order on bytes. */
  function NameKey(file: File): Bytes {
    if file.name.Some? then [0] + file.name.value else []
  }

  function Strip(file: File): File {
    file.(sourceInfo := None)
  }

  function StripAll(files: seq<File>): seq<File> {
    seq(|files|, i requires 0 <= i < |files| => Strip(files[i]))
  }

  function Canonical(files: seq<File>): seq<File> {
    SortBy(StripAll(files), NameKey)
  }

  datatype SchemaError = TooLarge | Decode | Invalid

  function Normalized(codec: Codec, bundle: Bundle): Result<Bundle, SchemaError> {
    if !Valid(codec, bundle) then Err(Invalid)
    else Ok(bundle.(descriptorSet := codec.encodeFiles(Canonical(codec.decodeFiles(bundle.descriptorSet).value))))
  }

  function EncodeChecked(codec: Codec, bundle: Bundle): Result<Bytes, SchemaError> {
    var normalized := Normalized(codec, bundle);
    if normalized.Err? then Err(normalized.error)
    else
      var bytes := codec.encodeBundle(normalized.value);
      if |bytes| > MAX_SCHEMA_BUNDLE_BYTES then Err(TooLarge) else Ok(bytes)
  }

  function DecodeChecked(codec: Codec, bytes: Bytes): Result<Bundle, SchemaError> {
    if |bytes| > MAX_SCHEMA_BUNDLE_BYTES then Err(TooLarge)
    else
      var bundle := codec.decodeBundle(bytes);
      if bundle.None? then Err(Decode)
      else if !Valid(codec, bundle.value) then Err(Invalid)
      else Ok(bundle.value)
  }
}
