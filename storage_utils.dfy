/**
 * lib/storage-utils.ts: `DocumentStorage`, a store of documents kept in the browser's
 * `localStorage` under prefixed keys, serialised with `JSON.stringify` and optionally passed through
 * `btoa` twice ("compression", then "encryption"); and `AutoSave`, which keeps one current document
 * and an interval timer that saves it.
 */
module StorageUtils {
  import opened Wrappers
  import opened Text
  import opened JsonText
  import opened Base64

  // ---------------------------------------------------------------------------------------------
  // Keyed entries: the storage's items and an object's members

  /** The value of the first entry with key `k`. */
  function Lookup<V>(es: seq<(string, V)>, k: string): Option<V>
  {
    if es == [] then None else if es[0].0 == k then Some(es[0].1) else Lookup(es[1..], k)
  }

  /** `es` with key `k` set to `v`: an existing entry keeps its place, a new one goes last. */
  function Put<V>(es: seq<(string, V)>, k: string, v: V): seq<(string, V)>
  {
    if es == [] then [(k, v)]
    else if es[0].0 == k then [(k, v)] + es[1..]
    else [es[0]] + Put(es[1..], k, v)
  }

  /** `es` without any entry for key `k`. */
  function Without<V>(es: seq<(string, V)>, k: string): (r: seq<(string, V)>)
    ensures forall x :: x in r ==> x in es && x.0 != k
  {
    if es == [] then []
    else if es[0].0 == k then Without(es[1..], k)
    else [es[0]] + Without(es[1..], k)
  }

  lemma {:induction false} LookupPut<V>(es: seq<(string, V)>, k: string, v: V, k2: string)
    ensures Lookup(Put(es, k, v), k2) == if k2 == k then Some(v) else Lookup(es, k2)
  {
    if es != [] && es[0].0 != k {
      LookupPut(es[1..], k, v, k2);
    }
  }

  lemma {:induction false} LookupWithout<V>(es: seq<(string, V)>, k: string, k2: string)
    ensures Lookup(Without(es, k), k2) == if k2 == k then None else Lookup(es, k2)
  {
    if es != [] {
      LookupWithout(es[1..], k, k2);
    }
  }

  lemma {:induction false} LookupFound<V>(es: seq<(string, V)>, k: string)
    ensures Lookup(es, k).Some? <==> exists x :: x in es && x.0 == k
  {
    if es != [] {
      LookupFound(es[1..], k);
      if es[0].0 != k {
        forall x | x in es && x.0 == k ensures x in es[1..] {
          var i :| 0 <= i < |es| && es[i] == x;
          assert i != 0;
          assert es[1..][i - 1] == x;
        }
      }
    }
  }

  // ---------------------------------------------------------------------------------------------
  // localStorage

  /** The browser's `localStorage`: its items in the order `key(i)` enumerates them. */
  class LocalStorage {
    var entries: seq<(string, string)>

    constructor(entries: seq<(string, string)>)
      ensures this.entries == entries
    {
      this.entries := entries;
    }

    /** `localStorage.getItem(key)` */
    function GetItem(key: string): Option<string>
      reads this
    {
      Lookup(entries, key)
    }

    /** `localStorage.setItem(key, value)` */
    method SetItem(key: string, value: string)
      modifies this
      ensures entries == Put(old(entries), key, value)
      ensures forall k :: GetItem(k) == if k == key then Some(value) else old(GetItem(k))
    {
      forall k ensures Lookup(Put(entries, key, value), k) == if k == key then Some(value) else Lookup(entries, k) {
        LookupPut(entries, key, value, k);
      }
      entries := Put(entries, key, value);
    }

    /** `localStorage.removeItem(key)` */
    method RemoveItem(key: string)
      modifies this
      ensures entries == Without(old(entries), key)
      ensures forall k :: GetItem(k) == if k == key then None else old(GetItem(k))
    {
      forall k ensures Lookup(Without(entries, key), k) == if k == key then None else Lookup(entries, k) {
        LookupWithout(entries, key, k);
      }
      entries := Without(entries, key);
    }
  }

  // ---------------------------------------------------------------------------------------------
  // Documents

  datatype DocType = Docs | Changelog | Faq

  datatype Metadata = Metadata(description: string, version: string, tags: seq<string>)

  /** `DocumentData` */
  datatype DocumentData = DocumentData(
    id: string,
    title: string,
    content: string,
    docType: DocType,
    createdAt: string,
    updatedAt: string,
    metadata: Option<Metadata>)

  function DocTypeName(t: DocType): string
  {
    match t
    case Docs => "docs"
    case Changelog => "changelog"
    case Faq => "faq"
  }

  /** The object `JSON.stringify` sees: its properties in declaration order, `metadata` only when
      it is present. */
  function ToJson(d: DocumentData): (j: Json)
    ensures j.JObject? && Lookup(j.members, "id") == Some(JString(d.id))
  {
    var fields := [("id", JString(d.id)), ("title", JString(d.title)), ("content", JString(d.content)),
                   ("type", JString(DocTypeName(d.docType))), ("createdAt", JString(d.createdAt)),
                   ("updatedAt", JString(d.updatedAt))];
    match d.metadata
    case None => JObject(fields)
    case Some(m) =>
      var tags := seq(|m.tags|, i requires 0 <= i < |m.tags| => JString(m.tags[i]));
      JObject(fields + [("metadata", JObject([("description", JString(m.description)),
                                              ("version", JString(m.version)),
                                              ("tags", JArray(tags))]))])
  }

  /** `String(v)`, as a template literal prints a property value. */
  function ToText(v: Json): string
    decreases v
  {
    match v
    case JNull => "null"
    case JBool(b) => if b then "true" else "false"
    case JString(s) => s
    case JArray(items) => JoinTexts(items)
    case JObject(_) => "[object Object]"
  }

  /** `items.join(',')`, where a null item prints as nothing. */
  function JoinTexts(items: seq<Json>): string
    decreases items
  {
    if items == [] then ""
    else
      var first := if items[0].JNull? then "" else ToText(items[0]);
      if |items| == 1 then first else first + "," + JoinTexts(items[1..])
  }

  /** `${document.id}`: `None` where reading the property throws, which is for `null`; a value
      without an `id` property prints as "undefined". */
  function IdText(doc: Json): Option<string>
  {
    if doc.JNull? then None
    else if doc.JObject? && Lookup(doc.members, "id").Some? then Some(ToText(Lookup(doc.members, "id").value))
    else Some("undefined")
  }

  /** A value JavaScript treats as false; numbers are not part of the model. */
  predicate Falsy(j: Json)
  {
    j == JNull || j == JBool(false) || j == JString([])
  }

  /** The own enumerable properties `{...v}` copies, in order. */
  function Spread(v: Json): seq<(string, Json)>
  {
    match v
    case JObject(ms) => ms
    case JArray(items) => seq(|items|, i requires 0 <= i < |items| => (NatToString(i), items[i]))
    case JString(s) => seq(|s|, i requires 0 <= i < |s| => (NatToString(i), JString([s[i]])))
    case _ => []
  }

  /** `{...base, ...updates}` on member lists. */
  function Merge(base: seq<(string, Json)>, updates: seq<(string, Json)>): seq<(string, Json)>
    decreases |updates|
  {
    if updates == [] then base
    else Merge(Put(base, updates[0].0, updates[0].1), updates[1..])
  }

  /** A property given in `updates` takes the value of its last occurrence there; any other
      keeps its value from `base`. */
  lemma {:induction false} LookupMerge(base: seq<(string, Json)>, updates: seq<(string, Json)>, k: string)
    ensures Lookup(Merge(base, updates), k) == if LookupLast(updates, k).Some? then LookupLast(updates, k) else Lookup(base, k)
    decreases |updates|
  {
    if updates != [] {
      LookupPut(base, updates[0].0, updates[0].1, k);
      LookupMerge(Put(base, updates[0].0, updates[0].1), updates[1..], k);
    }
  }

  /** The value of the last entry with key `k`. */
  function LookupLast<V>(es: seq<(string, V)>, k: string): Option<V>
  {
    if es == [] then None
    else match LookupLast(es[1..], k)
      case Some(v) => Some(v)
      case None => if es[0].0 == k then Some(es[0].1) else None
  }

  /** `{ ...document, ...updates, updatedAt: now }` */
  function Updated(doc: Json, updates: seq<(string, Json)>, now: string): Json
  {
    JObject(Merge(Merge(Spread(doc), updates), [("updatedAt", JString(now))]))
  }

  /** The updated document carries the new timestamp, the given updates, and otherwise the stored
      document's properties. */
  lemma UpdatedProperties(doc: Json, updates: seq<(string, Json)>, now: string, k: string)
    ensures Lookup(Updated(doc, updates, now).members, "updatedAt") == Some(JString(now))
    ensures k != "updatedAt" ==>
      Lookup(Updated(doc, updates, now).members, k)
        == if LookupLast(updates, k).Some? then LookupLast(updates, k) else Lookup(Spread(doc), k)
  {
    var inner := Merge(Spread(doc), updates);
    LookupMerge(inner, [("updatedAt", JString(now))], "updatedAt");
    LookupMerge(inner, [("updatedAt", JString(now))], k);
    LookupMerge(Spread(doc), updates, k);
  }

  /** `createDocument(title, type = 'docs')`, with the generated id and the current time as inputs;
      `None` is an omitted type. */
  function CreateDocument(title: string, docType: Option<DocType>, id: string, now: string): (d: DocumentData)
    ensures d.id == id && d.title == title
    ensures d.docType == if docType.Some? then docType.value else Docs
    ensures d.content == [] && d.createdAt == now && d.updatedAt == d.createdAt
    ensures d.metadata == Some(Metadata("", "1.0.0", []))
  {
    DocumentData(id, title, "", docType.GetOr(Docs), now, now, Some(Metadata("", "1.0.0", [])))
  }

  // ---------------------------------------------------------------------------------------------
  // Serialisation

  /** `JSON.stringify`, then `btoa` when compressing, then `btoa` when encrypting; `None` where a
      `btoa` throws. */
  function Serialize(doc: Json, compression: bool, encryption: bool): Option<string>
  {
    var data := Stringify(doc);
    var compressed := if compression then Btoa(data) else Some(data);
    match compressed
    case None => None
    case Some(c) => if encryption then Btoa(c) else Some(c)
  }

  /** `atob` when encrypting, then `atob` when compressing, then `JSON.parse`. */
  function Deserialize(data: string, compression: bool, encryption: bool): Option<Json>
  {
    var decrypted := if encryption then Atob(data) else Some(data);
    match decrypted
    case None => None
    case Some(d) =>
      var decompressed := if compression then Atob(d) else Some(d);
      match decompressed
      case None => None
      case Some(text) => Parse(text)
  }

  lemma {:induction false} EncodeLatin1(s: string)
    requires IsLatin1(s)
    ensures IsLatin1(Encode(s)) && (s != [] ==> Encode(s) != [])
  {
    EncodeAlphabet(s);
    var t := Encode(s);
    forall i | 0 <= i < |t| ensures (t[i] as int) < 256 {
      assert SextetOf(t[i]).Some? || t[i] == '=';
    }
  }

  /** Serialisation fails only when compressing or encrypting a text with a character above
      U+00FF; what it writes is never empty, and it reads back as the document. */
  lemma SerializeRoundTrip(doc: Json, compression: bool, encryption: bool)
    ensures Serialize(doc, compression, encryption).Some?
        <==> (!compression && !encryption) || IsLatin1(Stringify(doc))
    ensures Serialize(doc, compression, encryption).Some? ==>
      Serialize(doc, compression, encryption).value != [] &&
      Deserialize(Serialize(doc, compression, encryption).value, compression, encryption) == Some(doc)
  {
    var data := Stringify(doc);
    ParseStringify(doc);
    if IsLatin1(data) {
      EncodeLatin1(data);
      AtobBtoa(data);
      if compression {
        EncodeLatin1(Encode(data));
        AtobBtoa(Encode(data));
      }
    }
    if encryption && compression && IsLatin1(data) {
      assert Serialize(doc, compression, encryption) == Some(Encode(Encode(data)));
    }
  }

  // ---------------------------------------------------------------------------------------------
  // The store, as functions of the storage's entries

  /** `loadDocument(id)` on the given entries. */
  function LoadFrom(entries: seq<(string, string)>, prefix: string, compression: bool, encryption: bool, id: string): Option<Json>
  {
    match Lookup(entries, prefix + id)
    case None => None
    case Some(data) => if data == [] then None else Deserialize(data, compression, encryption)
  }

  /** What `saveDocument(doc)` returns and the entries it leaves; `writeFails` is a `setItem` that
      throws, as when the storage quota is exceeded. */
  function SaveTo(entries: seq<(string, string)>, prefix: string, compression: bool, encryption: bool,
                  doc: Json, writeFails: bool): (bool, seq<(string, string)>)
  {
    match IdText(doc)
    case None => (false, entries)
    case Some(id) =>
      match Serialize(doc, compression, encryption)
      case None => (false, entries)
      case Some(data) => if writeFails then (false, entries) else (true, Put(entries, prefix + id, data))
  }

  /** After a successful save, loading the document's id gives the document back. */
  lemma LoadAfterSave(entries: seq<(string, string)>, prefix: string, compression: bool, encryption: bool,
                      doc: Json, writeFails: bool)
    requires SaveTo(entries, prefix, compression, encryption, doc, writeFails).0
    ensures IdText(doc).Some?
    ensures LoadFrom(SaveTo(entries, prefix, compression, encryption, doc, writeFails).1,
                     prefix, compression, encryption, IdText(doc).value) == Some(doc)
  {
    var id := IdText(doc).value;
    var data := Serialize(doc, compression, encryption).value;
    LookupPut(entries, prefix + id, data, prefix + id);
    SerializeRoundTrip(doc, compression, encryption);
  }

  /** For a typed document the key is its id, so `loadDocument(d.id)` returns it. */
  lemma LoadDocumentById(entries: seq<(string, string)>, prefix: string, compression: bool, encryption: bool,
                         d: DocumentData, writeFails: bool)
    requires SaveTo(entries, prefix, compression, encryption, ToJson(d), writeFails).0
    ensures LoadFrom(SaveTo(entries, prefix, compression, encryption, ToJson(d), writeFails).1,
                     prefix, compression, encryption, d.id) == Some(ToJson(d))
  {
    LoadAfterSave(entries, prefix, compression, encryption, ToJson(d), writeFails);
  }

  /** A freshly created document is stored under its id by a plain save that can write, and loading
      that id gives it back, typed "docs" unless another type was asked for. */
  lemma NewDocumentSavesAndLoads(entries: seq<(string, string)>, prefix: string, title: string,
                                 docType: Option<DocType>, id: string, now: string)
    ensures var doc := ToJson(CreateDocument(title, docType, id, now));
      && SaveTo(entries, prefix, false, false, doc, false).0
      && LoadFrom(SaveTo(entries, prefix, false, false, doc, false).1, prefix, false, false, id) == Some(doc)
      && Lookup(doc.members, "type") == Some(JString(if docType == Some(Faq) then "faq"
                                                     else if docType == Some(Changelog) then "changelog"
                                                     else "docs"))
  {
    var d := CreateDocument(title, docType, id, now);
    var ms := ToJson(d).members;
    assert ms[0].0 == "id" && ms[1].0 == "title" && ms[2].0 == "content";
    assert ms[3] == ("type", JString(DocTypeName(d.docType)));
    assert Lookup(ms, "type") == Lookup(ms[1..], "type") == Lookup(ms[2..], "type") == Lookup(ms[3..], "type") by {
      assert ms[1..][1..] == ms[2..] && ms[2..][1..] == ms[3..];
    }
    assert Serialize(ToJson(d), false, false).Some?;
    LoadDocumentById(entries, prefix, false, false, d, false);
  }

  /** A save writes only its own key, and fails without writing anything. */
  lemma SaveTouchesOneKey(entries: seq<(string, string)>, prefix: string, compression: bool, encryption: bool,
                          doc: Json, writeFails: bool, k: string)
    ensures var (ok, after) := SaveTo(entries, prefix, compression, encryption, doc, writeFails);
      && (!ok ==> after == entries)
      && (ok ==> k != prefix + IdText(doc).value ==> Lookup(after, k) == Lookup(entries, k))
  {
    var (ok, after) := SaveTo(entries, prefix, compression, encryption, doc, writeFails);
    if ok {
      LookupPut(entries, prefix + IdText(doc).value, Serialize(doc, compression, encryption).value, k);
    }
  }

  /** The keys `clearAllDocuments` collects: every non-empty key that starts with the prefix, in order. */
  function PrefixedKeys(entries: seq<(string, string)>, prefix: string): (r: seq<string>)
    ensures forall k :: k in r ==> k != [] && StartsWith(k, prefix)
  {
    if entries == [] then []
    else
      var key := entries[|entries| - 1].0;
      PrefixedKeys(entries[..|entries| - 1], prefix) + (if key != [] && StartsWith(key, prefix) then [key] else [])
  }

  lemma {:induction false} PrefixedKeysComplete(entries: seq<(string, string)>, prefix: string, x: (string, string))
    requires x in entries && x.0 != [] && StartsWith(x.0, prefix)
    ensures x.0 in PrefixedKeys(entries, prefix)
  {
    var last := entries[|entries| - 1];
    if x != last {
      assert x in entries[..|entries| - 1] by {
        var i :| 0 <= i < |entries| && entries[i] == x;
        assert entries[..|entries| - 1][i] == x;
      }
      PrefixedKeysComplete(entries[..|entries| - 1], prefix, x);
    }
  }

  /** The entries left after removing each of `keys` in turn. */
  function RemoveAll(entries: seq<(string, string)>, keys: seq<string>): seq<(string, string)>
  {
    if keys == [] then entries else Without(RemoveAll(entries, keys[..|keys| - 1]), keys[|keys| - 1])
  }

  lemma {:induction false} RemoveAllEntries(entries: seq<(string, string)>, keys: seq<string>)
    ensures forall x :: x in RemoveAll(entries, keys) ==> x in entries && x.0 !in keys
  {
    if keys != [] {
      RemoveAllEntries(entries, keys[..|keys| - 1]);
      forall x | x in RemoveAll(entries, keys) ensures x in entries && x.0 !in keys {
        assert x.0 !in keys[..|keys| - 1];
        assert keys == keys[..|keys| - 1] + [keys[|keys| - 1]];
      }
    }
  }

  lemma {:induction false} LookupRemoveAll(entries: seq<(string, string)>, keys: seq<string>, k: string)
    ensures Lookup(RemoveAll(entries, keys), k) == if k in keys then None else Lookup(entries, k)
  {
    if keys != [] {
      LookupRemoveAll(entries, keys[..|keys| - 1], k);
      LookupWithout(RemoveAll(entries, keys[..|keys| - 1]), keys[|keys| - 1], k);
      assert keys == keys[..|keys| - 1] + [keys[|keys| - 1]];
    }
  }

  /** `clearAllDocuments()` removes exactly the prefixed keys: every other key keeps its value. */
  lemma ClearRemovesPrefixed(entries: seq<(string, string)>, prefix: string, k: string)
    requires prefix != []
    ensures Lookup(RemoveAll(entries, PrefixedKeys(entries, prefix)), k)
         == if StartsWith(k, prefix) then None else Lookup(entries, k)
  {
    var keys := PrefixedKeys(entries, prefix);
    LookupRemoveAll(entries, keys, k);
    if StartsWith(k, prefix) && k !in keys {
      LookupFound(entries, k);
      if Lookup(entries, k).Some? {
        var x :| x in entries && x.0 == k;
        PrefixedKeysComplete(entries, prefix, x);
      }
    }
  }

  /** The usage `getStorageUsage` adds up: key and value lengths of the prefixed items whose value
      is not empty. */
  function UsedBy(entries: seq<(string, string)>, prefix: string): nat
  {
    if entries == [] then 0
    else
      var (key, value) := entries[|entries| - 1];
      UsedBy(entries[..|entries| - 1], prefix)
        + (if key != [] && StartsWith(key, prefix) && value != [] then |key| + |value| else 0)
  }

  lemma {:induction false} UsedByUnprefixed(entries: seq<(string, string)>, prefix: string)
    requires forall x :: x in entries ==> !(x.0 != [] && StartsWith(x.0, prefix))
    ensures UsedBy(entries, prefix) == 0
  {
    if entries != [] {
      assert entries[|entries| - 1] in entries;
      UsedByUnprefixed(entries[..|entries| - 1], prefix);
    }
  }

  /** After `clearAllDocuments()` the store uses nothing. */
  lemma UsageAfterClear(entries: seq<(string, string)>, prefix: string)
    ensures UsedBy(RemoveAll(entries, PrefixedKeys(entries, prefix)), prefix) == 0
  {
    var keys := PrefixedKeys(entries, prefix);
    RemoveAllEntries(entries, keys);
    forall x | x in RemoveAll(entries, keys) ensures !(x.0 != [] && StartsWith(x.0, prefix)) {
      if x.0 != [] && StartsWith(x.0, prefix) {
        PrefixedKeysComplete(entries, prefix, x);
      }
    }
    UsedByUnprefixed(RemoveAll(entries, keys), prefix);
  }

  /** The counts `importDocuments` returns for the array `docs`, and the entries it leaves. */
  function ImportInto(entries: seq<(string, string)>, prefix: string, compression: bool, encryption: bool,
                      docs: seq<Json>, writeFails: bool): (r: (nat, nat, seq<(string, string)>))
    ensures r.0 + r.1 == |docs|
  {
    if docs == [] then (0, 0, entries)
    else
      var (success, failed, before) := ImportInto(entries, prefix, compression, encryption, docs[..|docs| - 1], writeFails);
      var (ok, after) := SaveTo(before, prefix, compression, encryption, docs[|docs| - 1], writeFails);
      if ok then (success + 1, failed, after) else (success, failed + 1, after)
  }

  /** Saving element `i` after the first `i` have been imported, and counting its result, imports
      the first `i + 1`. */
  lemma ImportStepOf(entries: seq<(string, string)>, prefix: string, compression: bool, encryption: bool,
                     docs: seq<Json>, i: nat, writeFails: bool,
                     success: nat, failed: nat, current: seq<(string, string)>, ok: bool, after: seq<(string, string)>)
    requires i < |docs|
    requires (success, failed, current) == ImportInto(entries, prefix, compression, encryption, docs[..i], writeFails)
    requires (ok, after) == SaveTo(current, prefix, compression, encryption, docs[i], writeFails)
    ensures ImportInto(entries, prefix, compression, encryption, docs[..i + 1], writeFails)
      == (if ok then success + 1 else success, if ok then failed else failed + 1, after)
  {
    assert docs[..i + 1][..i] == docs[..i];
  }

  // ---------------------------------------------------------------------------------------------
  // DocumentStorage

  class DocumentStorage {
    const store: LocalStorage
    const prefix: string
    const encryption: bool
    const compression: bool

    /** `new DocumentStorage(options)`: an absent or empty prefix means "doc-gen-", absent flags
        mean false. */
    constructor(store: LocalStorage, prefix: Option<string>, encryption: Option<bool>, compression: Option<bool>)
      ensures this.store == store
      ensures this.prefix == (if Present(prefix) then prefix.value else "doc-gen-")
      ensures this.encryption == encryption.GetOr(false) && this.compression == compression.GetOr(false)
      ensures this.prefix != []
    {
      this.store := store;
      this.prefix := if Present(prefix) then prefix.value else "doc-gen-";
      this.encryption := encryption.GetOr(false);
      this.compression := compression.GetOr(false);
    }

    /** `saveDocument(doc)` */
    method SaveDocument(doc: Json, writeFails: bool) returns (ok: bool)
      modifies store
      ensures (ok, store.entries) == SaveTo(old(store.entries), prefix, compression, encryption, doc, writeFails)
    {
      var id := IdText(doc);
      if id.None? {
        return false;
      }
      var key := prefix + id.value;
      var data := Serialize(doc, compression, encryption);
      if data.None? || writeFails {
        return false;
      }
      store.SetItem(key, data.value);
      return true;
    }

    /** `loadDocument(id)` */
    function LoadDocument(id: string): Option<Json>
      reads store
    {
      LoadFrom(store.entries, prefix, compression, encryption, id)
    }

    /** `deleteDocument(id)` */
    method DeleteDocument(id: string) returns (ok: bool)
      modifies store
      ensures ok && store.entries == Without(old(store.entries), prefix + id)
      ensures LoadDocument(id).None?
      ensures forall k :: k != prefix + id ==> store.GetItem(k) == old(store.GetItem(k))
    {
      store.RemoveItem(prefix + id);
      assert store.GetItem(prefix + id) == None;
      return true;
    }

    /** `clearAllDocuments()`: collects the prefixed keys, then removes them. */
    method ClearAllDocuments() returns (ok: bool)
      modifies store
      ensures ok && store.entries == RemoveAll(old(store.entries), PrefixedKeys(old(store.entries), prefix))
    {
      var keysToRemove: seq<string> := [];
      for i := 0 to |store.entries|
        invariant keysToRemove == PrefixedKeys(store.entries[..i], prefix)
      {
        var key := store.entries[i].0;
        assert store.entries[..i + 1][..i] == store.entries[..i];
        if key != [] && StartsWith(key, prefix) {
          keysToRemove := keysToRemove + [key];
        }
      }
      assert store.entries[..|store.entries|] == store.entries;
      ghost var before := store.entries;
      for j := 0 to |keysToRemove|
        invariant store.entries == RemoveAll(before, keysToRemove[..j])
      {
        assert keysToRemove[..j + 1][..j] == keysToRemove[..j];
        store.RemoveItem(keysToRemove[j]);
      }
      assert keysToRemove[..|keysToRemove|] == keysToRemove;
      return true;
    }

    /** `getStorageUsage().used` and `.total`. */
    method GetStorageUsage() returns (used: nat, total: nat)
      ensures used == UsedBy(store.entries, prefix) && total == 5 * 1024 * 1024
    {
      used := 0;
      for i := 0 to |store.entries|
        invariant used == UsedBy(store.entries[..i], prefix)
      {
        var (key, value) := store.entries[i];
        assert store.entries[..i + 1][..i] == store.entries[..i];
        if key != [] && StartsWith(key, prefix) {
          if value != [] {
            used := used + |key| + |value|;
          }
        }
      }
      assert store.entries[..|store.entries|] == store.entries;
      total := 5 * 1024 * 1024;
    }

    /** `importDocuments(jsonData)`: text that does not parse counts as one failure, a value that is
        not an array imports nothing, and each array element is saved in turn. */
    method ImportDocuments(jsonData: string, writeFails: bool) returns (success: nat, failed: nat)
      modifies store
      ensures Parse(jsonData).None? ==> success == 0 && failed == 1 && store.entries == old(store.entries)
      ensures Parse(jsonData).Some? && !Parse(jsonData).value.JArray? ==>
        success == 0 && failed == 0 && store.entries == old(store.entries)
      ensures Parse(jsonData).Some? && Parse(jsonData).value.JArray? ==>
        (success, failed, store.entries)
          == ImportInto(old(store.entries), prefix, compression, encryption, Parse(jsonData).value.items, writeFails)
    {
      var documents := Parse(jsonData);
      if documents.None? {
        return 0, 1;
      }
      success, failed := 0, 0;
      if documents.value.JArray? {
        success, failed := ImportAll(documents.value.items, writeFails);
      }
    }

    /** The loop of `importDocuments` over the parsed array. */
    method ImportAll(docs: seq<Json>, writeFails: bool) returns (success: nat, failed: nat)
      modifies store
      ensures (success, failed, store.entries) == ImportInto(old(store.entries), prefix, compression, encryption, docs, writeFails)
    {
      success, failed := 0, 0;
      ghost var before := store.entries;
      for i := 0 to |docs|
        invariant (success, failed, store.entries) == ImportInto(before, prefix, compression, encryption, docs[..i], writeFails)
      {
        ghost var current := store.entries;
        var ok := SaveDocument(docs[i], writeFails);
        ImportStepOf(before, prefix, compression, encryption, docs, i, writeFails, success, failed, current, ok, store.entries);
        success, failed := if ok then success + 1 else success, if ok then failed else failed + 1;
      }
      assert docs[..|docs|] == docs;
    }

    /** `updateDocument(id, updates)`: nothing is written when no document is stored under the id. */
    method UpdateDocument(id: string, updates: seq<(string, Json)>, now: string, writeFails: bool) returns (ok: bool)
      modifies store
      ensures var doc := old(LoadDocument(id));
        && (doc.None? || Falsy(doc.value) ==> !ok && store.entries == old(store.entries))
        && (doc.Some? && !Falsy(doc.value) ==>
              (ok, store.entries)
                == SaveTo(old(store.entries), prefix, compression, encryption, Updated(doc.value, updates, now), writeFails))
    {
      var document := LoadDocument(id);
      if document.None? || Falsy(document.value) {
        return false;
      }
      ok := SaveDocument(Updated(document.value, updates, now), writeFails);
    }
  }

  // ---------------------------------------------------------------------------------------------
  // AutoSave

  class AutoSave {
    const storage: DocumentStorage
    const interval: nat
    var currentDocument: Option<DocumentData>
    /** Whether an interval timer is registered. */
    var saveInterval: bool

    /** `new AutoSave(storage, interval = 30000)` */
    constructor(storage: DocumentStorage, interval: Option<nat>)
      ensures this.storage == storage && this.interval == interval.GetOr(30000)
      ensures currentDocument.None? && !saveInterval
    {
      this.storage := storage;
      this.interval := interval.GetOr(30000);
      currentDocument := None;
      saveInterval := false;
    }

    /** `startAutoSave(document)`: any earlier timer is replaced by a new one. */
    method StartAutoSave(document: DocumentData)
      modifies this
      ensures currentDocument == Some(document) && saveInterval
    {
      currentDocument := Some(document);
      saveInterval := true;
    }

    /** One firing of the interval timer: it saves the current document, if there is one. */
    method Tick(writeFails: bool)
      requires saveInterval
      modifies storage.store
      ensures currentDocument.None? ==> storage.store.entries == old(storage.store.entries)
      ensures currentDocument.Some? ==>
        storage.store.entries == SaveTo(old(storage.store.entries), storage.prefix, storage.compression,
                                        storage.encryption, ToJson(currentDocument.value), writeFails).1
    {
      if currentDocument.Some? {
        var _ := storage.SaveDocument(ToJson(currentDocument.value), writeFails);
      }
    }

    /** `stopAutoSave()` */
    method StopAutoSave()
      modifies this
      ensures currentDocument.None? && !saveInterval
    {
      saveInterval := false;
      currentDocument := None;
    }

    /** `updateContent(content)`: a no-op without a current document. */
    method UpdateContent(content: string, now: string)
      modifies this
      ensures saveInterval == old(saveInterval)
      ensures old(currentDocument).None? ==> currentDocument.None?
      ensures old(currentDocument).Some? ==>
        currentDocument == Some(old(currentDocument).value.(content := content, updatedAt := now))
    {
      if currentDocument.Some? {
        currentDocument := Some(currentDocument.value.(content := content, updatedAt := now));
      }
    }

    /** `saveNow()`: false, and nothing written, without a current document. */
    method SaveNow(writeFails: bool) returns (ok: bool)
      modifies storage.store
      ensures currentDocument.None? ==> !ok && storage.store.entries == old(storage.store.entries)
      ensures currentDocument.Some? ==>
        (ok, storage.store.entries) == SaveTo(old(storage.store.entries), storage.prefix, storage.compression,
                                              storage.encryption, ToJson(currentDocument.value), writeFails)
    {
      if currentDocument.Some? {
        ok := storage.SaveDocument(ToJson(currentDocument.value), writeFails);
      } else {
        ok := false;
      }
    }
  }
}
