/** What normalising a schema keeps, and what it forgets. */
module SchemaLaws {
  import opened Basics
  import opened Ordering
  import opened Schema

  // ----- which definition a name gets -----

  /** No later entry bears the name. */
  predicate IsLast(entries: seq<(Text, Message)>, name: Text, i: nat) {
    i < |entries| && entries[i].0 == name && forall j :: i < j < |entries| ==> entries[j].0 != name
  }

  /** A name is defined by the last entry that bears it. */
  lemma {:induction false} LastEntryWins(messages: map<Text, Message>, entries: seq<(Text, Message)>, name: Text)
    ensures name in InsertAll(messages, entries) <==>
              name in messages || exists i :: 0 <= i < |entries| && entries[i].0 == name
    ensures (forall i :: 0 <= i < |entries| ==> entries[i].0 != name) && name in messages ==>
              InsertAll(messages, entries)[name] == messages[name]
    ensures forall i: nat :: IsLast(entries, name, i) ==>
              InsertAll(messages, entries)[name] == entries[i].1
    decreases |entries|
  {
    if entries != [] {
      var rest := entries[1..];
      LastEntryWins(messages[entries[0].0 := entries[0].1], rest, name);
      assert forall i :: 0 < i < |entries| ==> entries[i] == rest[i - 1];
      assert forall i :: 0 <= i < |rest| ==> rest[i] == entries[i + 1];
      forall i: nat | IsLast(entries, name, i) ensures InsertAll(messages, entries)[name] == entries[i].1 {
        if i > 0 { assert IsLast(rest, name, i - 1); }
      }
    }
  }

  /** No full name is given two different definitions. Pairwise distinct names are a special case. */
  ghost predicate Consistent(files: seq<File>) {
    forall a, b :: a in Entries(files) && b in Entries(files) && a.0 == b.0 ==> a == b
  }

  /** No full name occurs twice. */
  ghost predicate DistinctNames(files: seq<File>) {
    forall i, j :: 0 <= i < j < |Entries(files)| ==> Entries(files)[i].0 != Entries(files)[j].0
  }

  lemma DistinctNamesAreConsistent(files: seq<File>)
    requires DistinctNames(files)
    ensures Consistent(files)
  {
  }

  lemma {:induction false} InsertedOnly(messages: map<Text, Message>, entries: seq<(Text, Message)>, name: Text)
    requires name in InsertAll(messages, entries)
    ensures (name, InsertAll(messages, entries)[name]) in entries
            || (name in messages && messages[name] == InsertAll(messages, entries)[name])
    decreases |entries|
  {
    if entries != [] {
      InsertedOnly(messages[entries[0].0 := entries[0].1], entries[1..], name);
    }
  }

  /** With consistent definitions the table is exactly the set of entries. */
  lemma TableIsEntries(files: seq<File>, name: Text, message: Message)
    requires Consistent(files)
    ensures name in DescriptorMessages(files) && DescriptorMessages(files)[name] == message <==>
              (name, message) in Entries(files)
  {
    var entries := Entries(files);
    LastEntryWins(map[], entries, name);
    if name in DescriptorMessages(files) {
      InsertedOnly(map[], entries, name);
    }
    if (name, message) in entries {
      var i :| 0 <= i < |entries| && entries[i] == (name, message);
      assert entries[i].0 == name;
    }
  }

  lemma SameEntriesSameTable(a: seq<File>, b: seq<File>)
    requires Consistent(a) && forall e :: e in Entries(a) <==> e in Entries(b)
    ensures Consistent(b) && DescriptorMessages(a) == DescriptorMessages(b)
  {
    var x, y := DescriptorMessages(a), DescriptorMessages(b);
    forall name | name in x ensures name in y && y[name] == x[name] {
      TableIsEntries(a, name, x[name]);
      TableIsEntries(b, name, x[name]);
    }
    forall name | name in y ensures name in x {
      TableIsEntries(b, name, y[name]);
      TableIsEntries(a, name, y[name]);
    }
    assert x.Keys == y.Keys;
  }

  // ----- stripping and sorting keep the entries -----

  lemma {:induction false} EntryHasFile(files: seq<File>, e: (Text, Message))
    ensures e in Entries(files) <==> exists i :: 0 <= i < |files| && e in FileEntries(files[i])
  {
    if files != [] {
      EntryHasFile(files[1..], e);
      assert forall i :: 0 < i < |files| ==> files[i] == files[1..][i - 1];
      assert forall i :: 0 <= i < |files| - 1 ==> files[1..][i] == files[i + 1];
    }
  }

  lemma {:induction false} StripKeepsEntries(files: seq<File>)
    ensures Entries(StripAll(files)) == Entries(files)
  {
    if files != [] {
      StripKeepsEntries(files[1..]);
      assert StripAll(files)[1..] == StripAll(files[1..]);
    }
  }

  lemma PermutedEntries(a: seq<File>, b: seq<File>, e: (Text, Message))
    requires multiset(a) == multiset(b)
    ensures e in Entries(a) <==> e in Entries(b)
  {
    PermutationMembers(a, b);
    EntryHasFile(a, e);
    EntryHasFile(b, e);
    if e in Entries(a) {
      var i :| 0 <= i < |a| && e in FileEntries(a[i]);
      assert a[i] in b;
      var j :| 0 <= j < |b| && b[j] == a[i];
    }
    if e in Entries(b) {
      var i :| 0 <= i < |b| && e in FileEntries(b[i]);
      assert b[i] in a;
      var j :| 0 <= j < |a| && a[j] == b[i];
    }
  }

  lemma CanonicalKeepsTable(files: seq<File>)
    requires Consistent(files)
    ensures Consistent(Canonical(files)) && DescriptorMessages(Canonical(files)) == DescriptorMessages(files)
    ensures |Canonical(files)| == |files|
  {
    StripKeepsEntries(files);
    forall e ensures e in Entries(files) <==> e in Entries(Canonical(files)) {
      PermutedEntries(StripAll(files), Canonical(files), e);
    }
    SameEntriesSameTable(files, Canonical(files));
    PermutationMembers(StripAll(files), Canonical(files));
  }

  // ----- sorting -----

  /** Names are sorted as the source compares them: a missing name first, then by bytes. */
  lemma NameKeyOrder(a: File, b: File)
    ensures Less(NameKey(a), NameKey(b)) <==> b.name.Some? && (a.name.None? || Less(a.name.value, b.name.value))
  {
    if a.name.Some? && b.name.Some? {
      assert NameKey(a)[1..] == a.name.value && NameKey(b)[1..] == b.name.value;
    }
  }

  /** A stable sort leaves a sorted sequence alone, even with repeated names. */
  lemma {:induction false} SortedStays(files: seq<File>)
    requires SortedBy(files, NameKey)
    ensures SortBy(files, NameKey) == files
  {
    if files != [] {
      SortedStays(files[1..]);
      assert files == [files[0]] + files[1..];
    }
  }

  lemma CanonicalIsStripped(files: seq<File>)
    ensures StripAll(Canonical(files)) == Canonical(files)
  {
    PermutationMembers(StripAll(files), Canonical(files));
    forall i | 0 <= i < |Canonical(files)| ensures Strip(Canonical(files)[i]) == Canonical(files)[i] {
      assert Canonical(files)[i] in StripAll(files);
    }
  }

  /** Normalising twice is normalising once, for every set of files. */
  lemma CanonicalIdempotent(files: seq<File>)
    ensures Canonical(Canonical(files)) == Canonical(files)
  {
    CanonicalIsStripped(files);
    SortSorts(StripAll(files), NameKey);
    SortedStays(Canonical(files));
  }

  // ----- validity -----

  ghost predicate Known(codec: Codec, bundle: Bundle) {
    codec.decodeFiles(bundle.descriptorSet).Some? && Consistent(codec.decodeFiles(bundle.descriptorSet).value)
  }

  lemma NormalizedIsValid(codec: Codec, bundle: Bundle)
    requires Lawful(codec) && Valid(codec, bundle) && Known(codec, bundle)
    ensures var n := Normalized(codec, bundle);
            n.Ok? && Valid(codec, n.value) && Known(codec, n.value) && Normalized(codec, n.value) == n
  {
    var files := codec.decodeFiles(bundle.descriptorSet).value;
    var n := Normalized(codec, bundle).value;
    CanonicalKeepsTable(files);
    assert codec.decodeFiles(n.descriptorSet) == Some(Canonical(files));
    CanonicalIdempotent(files);
  }

  /** What `encode_checked` produces, `decode_checked` accepts, and gives back the normalised bundle; what
      it refuses was invalid or too large. */
  lemma EncodedIsAccepted(codec: Codec, bundle: Bundle)
    requires Lawful(codec) && Known(codec, bundle)
    ensures EncodeChecked(codec, bundle).Ok? ==>
              && DecodeChecked(codec, EncodeChecked(codec, bundle).value) == Normalized(codec, bundle)
              && Normalized(codec, bundle).Ok?
              && EncodeChecked(codec, Normalized(codec, bundle).value) == EncodeChecked(codec, bundle)
    ensures EncodeChecked(codec, bundle) == Err(Invalid) <==> !Valid(codec, bundle)
  {
    if Valid(codec, bundle) {
      NormalizedIsValid(codec, bundle);
    }
  }

  /** In particular for every bundle whose messages have pairwise distinct full names. */
  lemma DistinctlyNamedIsAccepted(codec: Codec, bundle: Bundle)
    requires Lawful(codec)
    requires codec.decodeFiles(bundle.descriptorSet).Some? ==>
              DistinctNames(codec.decodeFiles(bundle.descriptorSet).value)
    ensures EncodeChecked(codec, bundle).Ok? ==>
              && Normalized(codec, bundle).Ok?
              && DecodeChecked(codec, EncodeChecked(codec, bundle).value) == Normalized(codec, bundle)
              && EncodeChecked(codec, Normalized(codec, bundle).value) == EncodeChecked(codec, bundle)
    ensures EncodeChecked(codec, bundle) == Err(Invalid) <==> !Valid(codec, bundle)
  {
    if codec.decodeFiles(bundle.descriptorSet).Some? {
      DistinctNamesAreConsistent(codec.decodeFiles(bundle.descriptorSet).value);
      EncodedIsAccepted(codec, bundle);
    }
  }

  // ----- what the hash ignores -----

  /** The two bundles differ only in source locations and in the order of their files. */
  ghost predicate SameUpToOrder(codec: Codec, a: Bundle, b: Bundle) {
    && a == b.(descriptorSet := a.descriptorSet)
    && a.descriptorSet != [] && b.descriptorSet != []
    && Known(codec, a) && codec.decodeFiles(b.descriptorSet).Some?
    && multiset(StripAll(codec.decodeFiles(a.descriptorSet).value))
       == multiset(StripAll(codec.decodeFiles(b.descriptorSet).value))
  }

  lemma SameFilesSameTable(x: seq<File>, y: seq<File>)
    requires Consistent(x) && multiset(StripAll(x)) == multiset(StripAll(y))
    ensures DescriptorMessages(x) == DescriptorMessages(y) && |x| == |y|
  {
    StripKeepsEntries(x);
    StripKeepsEntries(y);
    forall e ensures e in Entries(x) <==> e in Entries(y) {
      PermutedEntries(StripAll(x), StripAll(y), e);
    }
    SameEntriesSameTable(x, y);
    PermutationMembers(StripAll(x), StripAll(y));
  }

  /** The bytes that are hashed depend neither on source locations nor on the order of distinctly named
      files, and validity depends on neither. */
  lemma HashInputIgnoresOrder(codec: Codec, a: Bundle, b: Bundle)
    requires Lawful(codec) && SameUpToOrder(codec, a, b)
    requires DistinctKeys(StripAll(codec.decodeFiles(a.descriptorSet).value), NameKey)
    ensures Valid(codec, a) == Valid(codec, b)
    ensures EncodeChecked(codec, a) == EncodeChecked(codec, b)
  {
    var x, y := codec.decodeFiles(a.descriptorSet).value, codec.decodeFiles(b.descriptorSet).value;
    SameFilesSameTable(x, y);
    assert FitsTable(codec, a, DescriptorMessages(x)) == FitsTable(codec, b, DescriptorMessages(y));
    SortIgnoresOrder(StripAll(x), StripAll(y), NameKey);
    assert Valid(codec, a) == Valid(codec, b);
    assert Normalized(codec, a) == Normalized(codec, b);
  }
}
