/** The MIME-type table of `src/constants.ts`: an object literal mapping each
    candidate capture MIME type to a file extension, and `mimeTypes`, its
    keys in declaration order (the negotiation priority). The literal is kept
    as its ordered list of entries; `ObjectFromEntries` and `ObjectKeys`
    give the object and `Object.keys` of it. */
module Constants {

  type Entry = (string, string)

  const MimeToExtensionEntries: seq<Entry> := [
    ("audio/webm", "webm"),
    ("audio/ogg", "ogg"),
    ("audio/mpeg", "mp3"),
    ("audio/mp4", "m4a"),
    ("audio/x-m4a", "m4a"),
    ("audio/wav", "wav"),
    ("audio/x-wav", "wav"),
    ("audio/flac", "flac"),
    ("audio/aac", "aac"),
    ("audio/3gpp", "3gp"),
    ("audio/3gpp2", "3g2"),
    ("audio/x-aiff", "aiff"),
    ("audio/basic", "au"),
    ("audio/mid", "midi"),
    ("audio/x-mid", "midi"),
    ("audio/x-midi", "midi"),
    ("audio/x-ms-wma", "wma"),
    ("audio/x-realaudio", "ra"),
    ("video/webm", "webm"),
    ("video/mp4", "mp4")
  ]

  /** The object an object literal denotes: a later entry for the same key
      overrides an earlier one. */
  function ObjectFromEntries(entries: seq<Entry>): map<string, string> {
    if entries == [] then map[]
    else
      var last := entries[|entries| - 1];
      ObjectFromEntries(entries[..|entries| - 1])[last.0 := last.1]
  }

  /** `Object.keys` of an object literal: each key once, in the order of
      its first appearance. */
  function ObjectKeys(entries: seq<Entry>): seq<string> {
    if entries == [] then []
    else
      var keys := ObjectKeys(entries[..|entries| - 1]);
      var key := entries[|entries| - 1].0;
      if key in keys then keys else keys + [key]
  }

  const MimeToExtensionMap: map<string, string> := ObjectFromEntries(MimeToExtensionEntries)

  const MimeTypes: seq<string> := ObjectKeys(MimeToExtensionEntries)

  predicate DistinctKeys(entries: seq<Entry>) {
    forall i, j :: 0 <= i < j < |entries| ==> entries[i].0 != entries[j].0
  }

  predicate NoDuplicates(s: seq<string>) {
    forall i, j :: 0 <= i < j < |s| ==> s[i] != s[j]
  }

  /** `Object.keys` lists exactly the object's keys, each once. */
  lemma {:induction false} ObjectKeysAreKeys(entries: seq<Entry>)
    ensures (set k | k in ObjectKeys(entries)) == ObjectFromEntries(entries).Keys
    ensures NoDuplicates(ObjectKeys(entries))
  {
    if entries != [] {
      ObjectKeysAreKeys(entries[..|entries| - 1]);
    }
  }

  /** With distinct keys, `Object.keys` is the keys in declaration order. */
  lemma {:induction false} ObjectKeysInOrder(entries: seq<Entry>)
    requires DistinctKeys(entries)
    ensures |ObjectKeys(entries)| == |entries|
    ensures forall i :: 0 <= i < |entries| ==> ObjectKeys(entries)[i] == entries[i].0
  {
    if entries != [] {
      var init := entries[..|entries| - 1];
      ObjectKeysInOrder(init);
    }
  }

  /** With distinct keys, each key looks up its own entry's value. */
  lemma {:induction false} ObjectLookup(entries: seq<Entry>, i: nat)
    requires DistinctKeys(entries) && i < |entries|
    ensures entries[i].0 in ObjectFromEntries(entries)
    ensures ObjectFromEntries(entries)[entries[i].0] == entries[i].1
  {
    if i < |entries| - 1 {
      ObjectLookup(entries[..|entries| - 1], i);
    }
  }

  lemma MimeKeysDistinct()
    ensures DistinctKeys(MimeToExtensionEntries)
  {
  }

  /** `mimeTypes` is the 20 keys of the table in declaration order, without
      duplicates; its highest-priority entry is "audio/webm". */
  lemma MimeTypesAreTableKeys()
    ensures |MimeTypes| == |MimeToExtensionEntries| == 20
    ensures forall i :: 0 <= i < |MimeTypes| ==> MimeTypes[i] == MimeToExtensionEntries[i].0
    ensures NoDuplicates(MimeTypes)
    ensures MimeTypes[0] == "audio/webm"
  {
    MimeKeysDistinct();
    ObjectKeysInOrder(MimeToExtensionEntries);
  }

  /** Every candidate has an extension in the table, and the table has no
      other keys. */
  lemma EveryMimeTypeHasExtension()
    ensures forall m :: m in MimeTypes <==> m in MimeToExtensionMap
  {
    ObjectKeysAreKeys(MimeToExtensionEntries);
  }

  /** Every candidate is a non-empty string (so none is falsy). */
  lemma MimeTypesNonEmpty()
    ensures forall i :: 0 <= i < |MimeTypes| ==> MimeTypes[i] != ""
  {
    MimeTypesAreTableKeys();
  }

  /** The table is not injective: two MP4-audio types share "m4a" and the
      audio and video WebM types share "webm". */
  lemma ExtensionsNotInjective()
    ensures "audio/mp4" in MimeToExtensionMap && "audio/x-m4a" in MimeToExtensionMap
    ensures "audio/webm" in MimeToExtensionMap && "video/webm" in MimeToExtensionMap
    ensures MimeToExtensionMap["audio/mp4"] == MimeToExtensionMap["audio/x-m4a"] == "m4a"
    ensures MimeToExtensionMap["audio/webm"] == MimeToExtensionMap["video/webm"] == "webm"
  {
    MimeKeysDistinct();
    ObjectLookup(MimeToExtensionEntries, 0);
    ObjectLookup(MimeToExtensionEntries, 3);
    ObjectLookup(MimeToExtensionEntries, 4);
    ObjectLookup(MimeToExtensionEntries, 18);
  }
}
