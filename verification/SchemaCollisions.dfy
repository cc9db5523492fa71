/** Full names that are defined more than once. The last definition counts, and normalising sorts the files:
    which definition that is before and after, and when a bundle that was encoded is refused for it. */
module SchemaCollisions {
  import opened Basics
  import opened Ordering
  import opened Schema
  import opened SchemaLaws

  // ----- the definition that counts -----

  function LastDefinition(entries: seq<(Text, Message)>, name: Text): Option<Message> {
    if entries == [] then None
    else
      var later := LastDefinition(entries[1..], name);
      if later.Some? then later else if entries[0].0 == name then Some(entries[0].1) else None
  }

  function DefinitionIn(file: File, name: Text): Option<Message> {
    LastDefinition(FileEntries(file), name)
  }

  /** The last file that defines the name. */
  function LastFile(files: seq<File>, name: Text): (file: Option<File>)
    ensures file.Some? ==> file.value in files && DefinitionIn(file.value, name).Some?
  {
    if files == [] then None
    else
      var later := LastFile(files[1..], name);
      if later.Some? then later else if DefinitionIn(files[0], name).Some? then Some(files[0]) else None
  }

  /** Of the files that define the name the one with the greatest file name, the last of these if several
      bear it. */
  function TopFile(files: seq<File>, name: Text): (file: Option<File>)
    ensures file.Some? ==> file.value in files && DefinitionIn(file.value, name).Some?
  {
    if files == [] then None
    else
      var other := TopFile(files[1..], name);
      if DefinitionIn(files[0], name).Some? && (other.None? || Less(NameKey(other.value), NameKey(files[0]))) then
        Some(files[0])
      else other
  }

  lemma {:induction false} InsertedIsLast(messages: map<Text, Message>, entries: seq<(Text, Message)>, name: Text)
    ensures var inserted := InsertAll(messages, entries);
            var last := LastDefinition(entries, name);
            && (name in inserted <==> last.Some? || name in messages)
            && (last.Some? ==> inserted[name] == last.value)
            && (last.None? && name in messages ==> inserted[name] == messages[name])
    decreases |entries|
  {
    if entries != [] {
      InsertedIsLast(messages[entries[0].0 := entries[0].1], entries[1..], name);
    }
  }

  lemma {:induction false} LastOfBoth(a: seq<(Text, Message)>, b: seq<(Text, Message)>, name: Text)
    ensures LastDefinition(a + b, name) == if LastDefinition(b, name).Some? then LastDefinition(b, name)
            else LastDefinition(a, name)
  {
    if a == [] {
      assert a + b == b;
    } else {
      assert (a + b)[1..] == a[1..] + b;
      LastOfBoth(a[1..], b, name);
    }
  }

  lemma {:induction false} EntriesLast(files: seq<File>, name: Text)
    ensures var file := LastFile(files, name);
            LastDefinition(Entries(files), name) == if file.Some? then DefinitionIn(file.value, name) else None
  {
    if files != [] {
      EntriesLast(files[1..], name);
      LastOfBoth(FileEntries(files[0]), Entries(files[1..]), name);
    }
  }

  /** The table gives a name the definition of the last file that has one. */
  lemma TableLookup(files: seq<File>, name: Text)
    ensures var file := LastFile(files, name);
            && (name in DescriptorMessages(files) <==> file.Some?)
            && (file.Some? ==> DefinitionIn(file.value, name) == Some(DescriptorMessages(files)[name]))
  {
    InsertedIsLast(map[], Entries(files), name);
    EntriesLast(files, name);
  }

  // ----- sorting -----

  lemma NotLessTransitive(a: Bytes, b: Bytes, c: Bytes)
    requires !Less(b, a) && !Less(c, b)
    ensures !Less(c, a)
  {
    if Less(c, a) {
      LessTotal(a, b);
      if Less(a, b) { LessTransitive(c, a, b); }
    }
  }

  lemma {:induction false} InsertedFile(x: File, files: seq<File>, name: Text)
    requires SortedBy(files, NameKey)
    ensures var other := LastFile(files, name);
            LastFile(InsertBy(x, files, NameKey), name)
            == if DefinitionIn(x, name).Some? && (other.None? || Less(NameKey(other.value), NameKey(x))) then Some(x)
                else other
  {
    if files != [] {
      var other := LastFile(files, name);
      if Less(NameKey(files[0]), NameKey(x)) {
        InsertedFile(x, files[1..], name);
        var rest := InsertBy(x, files[1..], NameKey);
        assert ([files[0]] + rest)[1..] == rest;
      } else {
        assert ([x] + files)[1..] == files;
        if other.Some? {
          var i :| 0 <= i < |files| && files[i] == other.value;
          LessIrreflexive(NameKey(files[0]));
          NotLessTransitive(NameKey(x), NameKey(files[0]), NameKey(other.value));
        }
      }
    }
  }

  /** In name order the last file is the one with the greatest name. */
  lemma {:induction false} SortedLast(files: seq<File>, name: Text)
    ensures LastFile(SortBy(files, NameKey), name) == TopFile(files, name)
  {
    if files != [] {
      SortedLast(files[1..], name);
      SortSorts(files[1..], NameKey);
      InsertedFile(files[0], SortBy(files[1..], NameKey), name);
    }
  }

  lemma {:induction false} StrippedTop(files: seq<File>, name: Text)
    ensures var file := TopFile(files, name);
            TopFile(StripAll(files), name) == if file.Some? then Some(Strip(file.value)) else None
  {
    if files != [] {
      StrippedTop(files[1..], name);
      assert StripAll(files)[1..] == StripAll(files[1..]);
    }
  }

  lemma {:induction false} SomeFile(files: seq<File>, name: Text)
    ensures LastFile(files, name).Some? <==> TopFile(files, name).Some?
  {
    if files != [] { SomeFile(files[1..], name); }
  }

  /** For every set of files and every name: before normalising, the definition in the last file counts;
      afterwards, the one in the file with the greatest name. No name appears or disappears. */
  lemma CollisionSwapsDefinition(files: seq<File>, name: Text)
    ensures var last, top := LastFile(files, name), TopFile(files, name);
            && (name in DescriptorMessages(files) <==> last.Some?)
            && (name in DescriptorMessages(Canonical(files)) <==> last.Some?)
            && (last.Some? <==> top.Some?)
            && (last.Some? ==> DefinitionIn(last.value, name) == Some(DescriptorMessages(files)[name]))
            && (last.Some? ==> DefinitionIn(top.value, name) == Some(DescriptorMessages(Canonical(files))[name]))
  {
    TableLookup(files, name);
    TableLookup(Canonical(files), name);
    SortedLast(StripAll(files), name);
    StrippedTop(files, name);
    SomeFile(files, name);
  }

  // ----- what that does to a bundle -----

  /** Normalising changes the definition of this name. */
  ghost predicate Swapped(files: seq<File>, name: Text) {
    && LastFile(files, name).Some? && TopFile(files, name).Some?
    && DefinitionIn(LastFile(files, name).value, name) != DefinitionIn(TopFile(files, name).value, name)
  }

  /** The fields of the form are valid for the definition that counts in name order. */
  ghost predicate FieldsSurvive(codec: Codec, files: seq<File>, task: TaskSchema) {
    var top := TopFile(files, TrimDots(task.configMessage));
    top.Some? && forall f :: 0 <= f < |task.fields| ==>
      FieldValid(codec, DefinitionIn(top.value, TrimDots(task.configMessage)).value, task.fields[f])
  }

  lemma SameNames(files: seq<File>)
    ensures DescriptorMessages(Canonical(files)).Keys == DescriptorMessages(files).Keys
    ensures |DescriptorMessages(Canonical(files))| == |DescriptorMessages(files)|
  {
    forall name ensures name in DescriptorMessages(Canonical(files)) <==> name in DescriptorMessages(files) {
      CollisionSwapsDefinition(files, name);
    }
    MapSize(DescriptorMessages(Canonical(files)));
    MapSize(DescriptorMessages(files));
    assert DescriptorMessages(Canonical(files)).Keys == DescriptorMessages(files).Keys;
  }

  lemma TaskSurvives(codec: Codec, files: seq<File>, task: TaskSchema)
    requires TaskValid(codec, DescriptorMessages(files), task)
    ensures TaskValid(codec, DescriptorMessages(Canonical(files)), task) <==>
              (Swapped(files, TrimDots(task.configMessage)) ==> FieldsSurvive(codec, files, task))
  {
    CollisionSwapsDefinition(files, TrimDots(task.configMessage));
    CollisionSwapsDefinition(files, TrimDots(task.resultMessage));
  }

  /** A bundle that fits its table fits the table in name order exactly if every form over a message whose
      definition changes is also valid for the other definition. */
  lemma BundleSurvives(codec: Codec, files: seq<File>, bundle: Bundle)
    requires FitsTable(codec, bundle, DescriptorMessages(files))
    ensures FitsTable(codec, bundle, DescriptorMessages(Canonical(files))) <==> Survives(codec, files, bundle)
  {
    SameNames(files);
    forall t | 0 <= t < |bundle.tasks|
      ensures TaskValid(codec, DescriptorMessages(Canonical(files)), bundle.tasks[t]) <==>
                (Swapped(files, TrimDots(bundle.tasks[t].configMessage)) ==>
                 FieldsSurvive(codec, files, bundle.tasks[t]))
    {
      TaskSurvives(codec, files, bundle.tasks[t]);
    }
  }

  /** Every form over a message whose definition changes is also valid for the other definition. */
  ghost predicate Survives(codec: Codec, files: seq<File>, bundle: Bundle) {
    forall t :: 0 <= t < |bundle.tasks| && Swapped(files, TrimDots(bundle.tasks[t].configMessage)) ==>
      FieldsSurvive(codec, files, bundle.tasks[t])
  }

  /** The normalised form of a valid bundle is valid exactly if every form over a message whose definition changes
      by sorting the files is also valid for the definition in the file with the greatest name; and then it is its
      own normal form. */
  lemma NormalizedIsValidIff(codec: Codec, bundle: Bundle)
    requires Lawful(codec) && Valid(codec, bundle)
    ensures var files := codec.decodeFiles(bundle.descriptorSet).value;
            var n := Normalized(codec, bundle);
            && n.Ok? && (Valid(codec, n.value) <==> Survives(codec, files, bundle))
            && (Survives(codec, files, bundle) ==> Normalized(codec, n.value) == n)
  {
    var files := codec.decodeFiles(bundle.descriptorSet).value;
    var n := Normalized(codec, bundle).value;
    assert codec.decodeFiles(n.descriptorSet) == Some(Canonical(files));
    PermutationMembers(StripAll(files), Canonical(files));
    CanonicalIdempotent(files);
    BundleSurvives(codec, files, bundle);
    var table := DescriptorMessages(Canonical(files));
    assert FitsTable(codec, n, table) == FitsTable(codec, bundle, table);
  }

  /** For every bundle: what was encoded is accepted, and gives back the normalised bundle, exactly if every
      form over a message whose definition changes by sorting the files is also valid for the definition in
      the file with the greatest name; otherwise it is refused. */
  lemma EncodedIsAcceptedIff(codec: Codec, bundle: Bundle)
    requires Lawful(codec) && EncodeChecked(codec, bundle).Ok?
    ensures codec.decodeFiles(bundle.descriptorSet).Some?
    ensures var files := codec.decodeFiles(bundle.descriptorSet).value;
            DecodeChecked(codec, EncodeChecked(codec, bundle).value)
            == if Survives(codec, files, bundle) then Normalized(codec, bundle) else Err(Invalid)
  {
    NormalizedIsValidIff(codec, bundle);
  }

  /** A form field that the other definition does not have is enough. */
  lemma CollisionIsRefused(codec: Codec, bundle: Bundle, t: nat, f: nat)
    requires Lawful(codec) && EncodeChecked(codec, bundle).Ok?
    requires t < |bundle.tasks| && f < |bundle.tasks[t].fields|
    requires var files := codec.decodeFiles(bundle.descriptorSet);
             var name := TrimDots(bundle.tasks[t].configMessage);
             && files.Some? && Swapped(files.value, name)
             && FindField(DefinitionIn(TopFile(files.value, name).value, name).value.fields,
                          bundle.tasks[t].fields[f].path).None?
    ensures DecodeChecked(codec, EncodeChecked(codec, bundle).value) == Err(Invalid)
  {
    EncodedIsAcceptedIff(codec, bundle);
    var files := codec.decodeFiles(bundle.descriptorSet).value;
    var name := TrimDots(bundle.tasks[t].configMessage);
    assert !FieldValid(codec, DefinitionIn(TopFile(files, name).value, name).value, bundle.tasks[t].fields[f]);
  }

  // ----- such a bundle -----

  const MESSAGE_NAME: Text := [77]
  const FIELD_NAME: Text := [120]

  /** A file with one message, `M`, of these fields. */
  function OneMessage(fileName: Text, fields: seq<FieldDescriptor>): File {
    File(Some(fileName), None, [Message(Some(MESSAGE_NAME), fields, [], 0)], None, 0)
  }

  /** File `b` comes first and defines `M` without fields; file `a` defines it with a field `x`. */
  function CollidingFiles(): seq<File> {
    [OneMessage([98], []), OneMessage([97], [FieldDescriptor(Some(FIELD_NAME), TYPE_STRING, 0)])]
  }

  function FormOverX(): FormField {
    FormField(FIELD_NAME, FIELD_NAME, [], CONTROL_AUTO, false, None, None, None, None, None, None, [], 0, [])
  }

  function CollidingBundle(descriptorSet: Bytes): Bundle {
    Bundle(SCHEMA_FORMAT_VERSION, [112], [49], descriptorSet,
           [TaskSchema([116], 1, MESSAGE_NAME, [], [], [], [FormOverX()])],
           Some(RuntimeSchema(1, MESSAGE_NAME, [], [], 0)))
  }

  lemma OneDefinition(file: File, message: Message)
    requires file.messages == [message] && file.package.None? && message.name == Some(MESSAGE_NAME)
    requires message.nested == []
    ensures FileEntries(file) == [(MESSAGE_NAME, message)] && DefinitionIn(file, MESSAGE_NAME) == Some(message)
  {
    assert NestedEntries(MESSAGE_NAME, message, []) == [];
    assert MessageEntries([], message) == [(MESSAGE_NAME, message)];
    assert TopEntries([], file.messages[1..]) == [];
    assert LastDefinition([(MESSAGE_NAME, message)][1..], MESSAGE_NAME) == None;
  }

  lemma CollidingTable()
    ensures var files := CollidingFiles();
            && LastFile(files, MESSAGE_NAME) == Some(files[1]) && TopFile(files, MESSAGE_NAME) == Some(files[0])
            && Swapped(files, MESSAGE_NAME) && DefinitionIn(files[0], MESSAGE_NAME) == Some(files[0].messages[0])
            && DescriptorMessages(files) == map[MESSAGE_NAME := files[1].messages[0]]
  {
    var files := CollidingFiles();
    OneDefinition(files[0], files[0].messages[0]);
    OneDefinition(files[1], files[1].messages[0]);
    assert files[1..] == [files[1]] && files[1..][1..] == [];
    assert LastFile(files[1..], MESSAGE_NAME) == Some(files[1]) && TopFile(files[1..], MESSAGE_NAME) == Some(files[1]);
    assert NameKey(files[1])[1..] == [97] && NameKey(files[0])[1..] == [98] && Less([97], [98]);
    assert Entries(files[1..]) == [(MESSAGE_NAME, files[1].messages[0])];
    assert Entries(files) == [(MESSAGE_NAME, files[0].messages[0]), (MESSAGE_NAME, files[1].messages[0])];
    assert Entries(files)[1..][1..] == [];
    assert InsertAll(map[], Entries(files))
           == InsertAll(map[MESSAGE_NAME := files[0].messages[0]], Entries(files)[1..]);
  }

  lemma CollidingFits(codec: Codec, descriptorSet: Bytes)
    ensures FitsTable(codec, CollidingBundle(descriptorSet), map[MESSAGE_NAME := CollidingFiles()[1].messages[0]])
  {
    var table := map[MESSAGE_NAME := CollidingFiles()[1].messages[0]];
    MapSize(table);
    assert table.Keys == {MESSAGE_NAME};
    assert TrimDots(MESSAGE_NAME) == MESSAGE_NAME;
    assert FindField(table[MESSAGE_NAME].fields, FIELD_NAME) == Some(table[MESSAGE_NAME].fields[0]);
    assert FieldValid(codec, table[MESSAGE_NAME], FormOverX());
    assert TaskValid(codec, table, CollidingBundle(descriptorSet).tasks[0]);
  }

  /** With any encoding of bundles there is one that is valid, is encoded if it is not too large, and is
      refused when it is read. */
  lemma RefusedBundleExists(codec: Codec)
    requires Lawful(codec)
    ensures var bundle := CollidingBundle(codec.encodeFiles(CollidingFiles()));
            && Valid(codec, bundle)
            && (EncodeChecked(codec, bundle).Ok? <==>
                  var sorted := CollidingBundle(codec.encodeFiles(Canonical(CollidingFiles())));
                  |codec.encodeBundle(sorted)| <= MAX_SCHEMA_BUNDLE_BYTES)
            && (EncodeChecked(codec, bundle).Ok? ==>
                DecodeChecked(codec, EncodeChecked(codec, bundle).value) == Err(Invalid))
  {
    var files := CollidingFiles();
    var bundle := CollidingBundle(codec.encodeFiles(files));
    CollidingTable();
    CollidingFits(codec, bundle.descriptorSet);
    assert codec.decodeFiles(bundle.descriptorSet) == Some(files);
    assert Valid(codec, bundle);
    if EncodeChecked(codec, bundle).Ok? {
      assert TrimDots(MESSAGE_NAME) == MESSAGE_NAME;
      CollisionIsRefused(codec, bundle, 0, 0);
    }
  }
}
