/** What a reader of an accepted bundle may rely on: everything it names can be found, nothing is listed twice, and
    every default could have been entered in its own form. */
module SchemaForms {
  import opened Basics
  import opened Ordering
  import opened Schema
  import opened SchemaLaws

  /** Ordered neighbours make an ordered list. */
  lemma {:induction false} NeighboursOrder(keys: seq<Text>, i: nat, j: nat)
    requires forall k :: 0 <= k < |keys| - 1 ==> Less(keys[k], keys[k + 1])
    requires i < j < |keys|
    ensures Less(keys[i], keys[j]) && keys[i] != keys[j]
    decreases j - i
  {
    if i + 1 == j {
      assert Less(keys[i], keys[i + 1]);
    } else {
      NeighboursOrder(keys, i, j - 1);
      assert Less(keys[j - 1], keys[(j - 1) + 1]);
      LessTransitive(keys[i], keys[j - 1], keys[j]);
    }
    LessAsymmetric(keys[i], keys[j]);
  }

  function Kinds(tasks: seq<TaskSchema>): seq<Text> {
    seq(|tasks|, i requires 0 <= i < |tasks| => tasks[i].taskKind)
  }

  function Paths(fields: seq<FormField>): seq<Text> {
    seq(|fields|, i requires 0 <= i < |fields| => fields[i].path)
  }

  function Values(options: seq<FieldOption>): seq<Text> {
    seq(|options|, i requires 0 <= i < |options| => options[i].value)
  }

  ghost predicate Ascending(keys: seq<Text>) {
    forall i, j :: 0 <= i < j < |keys| ==> Less(keys[i], keys[j]) && keys[i] != keys[j]
  }

  lemma OrderedKeys(keys: seq<Text>)
    requires forall k :: 0 <= k < |keys| - 1 ==> Less(keys[k], keys[k + 1])
    ensures Ascending(keys)
  {
    forall i: nat, j: nat | i < j < |keys| ensures Less(keys[i], keys[j]) && keys[i] != keys[j] {
      NeighboursOrder(keys, i, j);
    }
  }

  /** The first field of the message with this name. */
  ghost predicate Names(config: Message, path: Text, k: nat) {
    && k < |config.fields| && config.fields[k].name == Some(path)
    && forall j :: 0 <= j < k ==> config.fields[j].name != Some(path)
  }

  lemma {:induction false} FoundField(fields: seq<FieldDescriptor>, path: Text) returns (k: nat)
    requires FindField(fields, path).Some?
    ensures k < |fields| && fields[k].name == Some(path) && FindField(fields, path) == Some(fields[k])
    ensures forall j :: 0 <= j < k ==> fields[j].name != Some(path)
  {
    if fields[0].name == Some(path) {
      k := 0;
    } else {
      var later := FoundField(fields[1..], path);
      k := later + 1;
      assert forall j :: 1 <= j < |fields| ==> fields[j] == fields[1..][j - 1];
    }
  }

  /** The Protobuf types that hold a number: all but bool, string, group, message, bytes and enum. */
  ghost predicate Numeric(fieldType: int) {
    1 <= fieldType <= 18 && fieldType !in {8, 9, 10, 11, 12, 14}
  }

  /** A number is shown: by choice, or because the field is one. */
  ghost predicate AsNumber(field: FormField, fieldType: int) {
    field.control == 3 || (field.control == 0 && Numeric(fieldType))
  }

  /** Text is shown: by choice, or because the field is text or bytes. */
  ghost predicate AsText(field: FormField, fieldType: int) {
    field.control in {1, 2, 5, 7} || (field.control == 0 && (fieldType == 9 || fieldType == 12))
  }

  /** The default is a value that the field itself would take. */
  ghost predicate Enterable(codec: Codec, field: FormField, fieldType: int, value: Text) {
    && (AsNumber(field, fieldType) ==>
          && codec.parseNumber(value).Some?
          && (field.minimum.Some? ==>
                && codec.parseNumber(field.minimum.value).Some?
                && codec.parseNumber(field.minimum.value).value <= codec.parseNumber(value).value)
          && (field.maximum.Some? ==>
                && codec.parseNumber(field.maximum.value).Some?
                && codec.parseNumber(value).value <= codec.parseNumber(field.maximum.value).value))
    && (field.control == 6 || (field.control == 0 && fieldType == 8) ==>
          value == Ascii("true") || value == Ascii("false"))
    && (AsText(field, fieldType) ==>
          && (field.minLength.Some? ==> CharCount(value) >= field.minLength.value)
          && (field.maxLength.Some? ==> CharCount(value) <= field.maxLength.value))
    && (field.control == 4 && field.options != [] ==> value in Values(field.options))
  }

  /** A form field names a field of the message, is shown by a control that suits its type, lists each choice once,
      and its default could be entered. */
  ghost predicate FieldMeans(codec: Codec, config: Message, field: FormField) {
    exists k: nat ::
      && Names(config, field.path, k)
      && var fieldType := config.fields[k].fieldType;
      && 1 <= |field.path| <= 256 && 1 <= |field.caption| <= 256 && |field.description| <= 4096 && |field.unit| <= 64
      && (field.format.Some? ==>
            field.format.value in {Ascii("hostname"), Ascii("ip"), Ascii("url"), Ascii("port")})
      && 0 <= field.control <= 7
      && (field.control == 3 ==> Numeric(fieldType))
      && (field.control == 6 ==> fieldType == 8)
      && (field.control == 4 ==> fieldType == 14 || fieldType == 9)
      && (field.control in {1, 2, 5, 7} ==> fieldType == 9 || fieldType == 12)
      && Ascending(Values(field.options)) && (field.options != [] ==> field.control == 4 || field.control == 5)
      && (field.default.Some? ==> Enterable(codec, field, fieldType, field.default.value))
  }

  lemma ValuesAscend(field: FormField)
    requires OptionsFit(field)
    ensures Ascending(Values(field.options))
  {
    OrderedKeys(Values(field.options));
  }

  lemma DefaultEnterable(codec: Codec, field: FormField, fieldType: int, value: Text)
    requires RangesFit(codec, field) && DefaultFits(codec, field, fieldType, value)
    ensures Enterable(codec, field, fieldType, value)
  {
    if field.control == 4 && field.options != [] {
      var i :| 0 <= i < |field.options| && field.options[i].value == value;
      assert Values(field.options)[i] == value;
    }
  }

  lemma ValidField(codec: Codec, config: Message, field: FormField)
    requires FieldValid(codec, config, field)
    ensures FieldMeans(codec, config, field)
  {
    var k := FoundField(config.fields, field.path);
    ValuesAscend(field);
    if field.default.Some? { DefaultEnterable(codec, field, config.fields[k].fieldType, field.default.value); }
    assert Names(config, field.path, k);
  }

  /** The message is in one of the files, under its full name; leading dots do not count. */
  ghost predicate Resolves(files: seq<File>, name: Text, message: Message) {
    (TrimDots(name), message) in Entries(files)
  }

  ghost predicate TaskMeans(codec: Codec, files: seq<File>, task: TaskSchema) {
    && task.schemaVersion > 0 && |task.fields| <= 512 && Ascending(Paths(task.fields))
    && 1 <= |task.taskKind| <= 256 && |task.displayName| <= 256 && |task.description| <= 4096
    && (exists config :: Resolves(files, task.configMessage, config)
                         && forall f :: f in task.fields ==> FieldMeans(codec, config, f))
    && (task.resultMessage != [] ==> exists result :: Resolves(files, task.resultMessage, result))
  }

  lemma LooksUp(files: seq<File>, name: Text)
    requires TrimDots(name) in DescriptorMessages(files)
    ensures Resolves(files, name, DescriptorMessages(files)[TrimDots(name)])
  {
    InsertedOnly(map[], Entries(files), TrimDots(name));
  }

  lemma ValidTask(codec: Codec, files: seq<File>, task: TaskSchema)
    requires TaskValid(codec, DescriptorMessages(files), task)
    ensures TaskMeans(codec, files, task)
  {
    var config := DescriptorMessages(files)[TrimDots(task.configMessage)];
    LooksUp(files, task.configMessage);
    if task.resultMessage != [] { LooksUp(files, task.resultMessage); }
    OrderedKeys(Paths(task.fields));
    forall f | f in task.fields ensures FieldMeans(codec, config, f) {
      var i :| 0 <= i < |task.fields| && task.fields[i] == f;
      ValidField(codec, config, f);
    }
  }

  /** What a reader may rely on when a bundle is accepted: the version it can read, descriptors it can decode, between
      one and 256 tasks in order, no kind twice, every task with its messages and its form, and a runtime
      configuration whose message exists. */
  lemma AcceptedMeans(codec: Codec, bundle: Bundle)
    requires Valid(codec, bundle)
    ensures bundle.formatVersion == 1 && codec.decodeFiles(bundle.descriptorSet).Some?
    ensures var files := codec.decodeFiles(bundle.descriptorSet).value;
            && 1 <= |files| <= 256 && |DescriptorMessages(files)| <= 4096
            && 1 <= |bundle.tasks| <= 256 && Ascending(Kinds(bundle.tasks))
            && (forall task :: task in bundle.tasks ==> TaskMeans(codec, files, task))
            && bundle.runtime.Some? && bundle.runtime.value.schemaVersion > 0
            && exists config :: Resolves(files, bundle.runtime.value.configMessage, config)
  {
    var files := codec.decodeFiles(bundle.descriptorSet).value;
    OrderedKeys(Kinds(bundle.tasks));
    LooksUp(files, bundle.runtime.value.configMessage);
    forall task | task in bundle.tasks ensures TaskMeans(codec, files, task) {
      var i :| 0 <= i < |bundle.tasks| && bundle.tasks[i] == task;
      ValidTask(codec, files, task);
    }
  }

  /** What is encoded and what is decoded: valid bundles of at most 1 MiB, measured in their canonical form. */
  lemma SizeDecides(codec: Codec, bundle: Bundle, bytes: Bytes)
    ensures EncodeChecked(codec, bundle).Ok? <==>
              && Valid(codec, bundle)
              && |codec.encodeBundle(Normalized(codec, bundle).value)| <= 1_048_576
    ensures DecodeChecked(codec, bytes).Ok? <==>
              && |bytes| <= 1_048_576 && codec.decodeBundle(bytes).Some?
              && Valid(codec, codec.decodeBundle(bytes).value)
    ensures DecodeChecked(codec, bytes).Ok? ==> Some(DecodeChecked(codec, bytes).value) == codec.decodeBundle(bytes)
  {
  }
}
