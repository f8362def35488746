/** Local and remote reads and writes of submodel documents
    (backend/src/functions/aas_interfaces.rs): composite store keys, the
    `_id`-stripping read, the `$set` write, the "old keys win" deep merge of
    a patch into a stored document, and the remote PATCH and GET of a
    submodel's `$value`. */
module AasInterfaces {
  import opened Json
  import opened Http
  import opened MongoStore
  import Base64Url

  // -----------------------------------------------------------------------
  // Keys and URLs
  // -----------------------------------------------------------------------

  /** The `_id` of a submodel document: "{aasIdShort}:{submodelIdShort}". */
  function SubmodelKey(aas: string, submodel: string): string
  {
    aas + ":" + submodel
  }

  /** The `_id` of the idShort -> UID dictionary of a shell. */
  function DictionaryKey(aas: string): string
  {
    aas + ":submodels_dictionary"
  }

  /** Distinct (shell, submodel) pairs get distinct keys when shell idShorts
      contain no ':'. */
  lemma SubmodelKeyInjective(a1: string, s1: string, a2: string, s2: string)
    requires ':' !in a1 && ':' !in a2
    requires SubmodelKey(a1, s1) == SubmodelKey(a2, s2)
    ensures a1 == a2 && s1 == s2
  {
    var k := SubmodelKey(a1, s1);
    assert k[|a1|] == ':' && k[|a2|] == ':';
    assert a1 == k[..|a1|] && a2 == k[..|a2|];
    assert s1 == k[|a1| + 1..] && s2 == k[|a2| + 1..];
  }

  /** The dictionary lives in the same key space as the submodels: it is the
      key a submodel with idShort "submodels_dictionary" would get. */
  lemma DictionaryKeyShape(aas: string)
    ensures DictionaryKey(aas) == SubmodelKey(aas, "submodels_dictionary")
    ensures forall s :: s != "submodels_dictionary" ==> SubmodelKey(aas, s) != DictionaryKey(aas)
  {
    forall s | s != "submodels_dictionary"
      ensures SubmodelKey(aas, s) != DictionaryKey(aas)
    {
      assert SubmodelKey(aas, s)[|aas| + 1..] == s;
    }
  }

  /** The `$value` URL of the remote PATCH: the base URL is followed directly
      by "shells". */
  function PatchValueUrl(server: string, aasUid: string, submodelUid: string): string
  {
    server + "shells/" + Base64Url.Segment(aasUid) + "/submodels/" + Base64Url.Segment(submodelUid) + "/$value"
  }

  /** The `$value` URL of the remote GET used when polling: here a '/' is put
      between the base URL and "shells". */
  function FetchValueUrl(server: string, aasUid: string, submodelUid: string): string
  {
    server + "/shells/" + Base64Url.Segment(aasUid) + "/submodels/" + Base64Url.Segment(submodelUid) + "/$value"
  }

  // -----------------------------------------------------------------------
  // Reads and writes by key
  // -----------------------------------------------------------------------

  /** `aas_find_one`: the document without its `_id`, or an error. */
  function AasFindOne(c: Collection, id: string): (r: Result<seq<Field>>)
    requires c.Valid()
    reads c
    ensures r.Ok? <==> id !in c.failures.onRead && id in c.docs
    ensures r.Ok? ==> c.docs[id] == [Field("_id", Str(id))] + r.value && "_id" !in Keys(r.value)
    ensures r.Ok? ==> WellFormedFields(r.value)
    ensures id in c.failures.onRead ==> r == Err("Error finding document: " + c.failures.onRead[id])
    ensures id !in c.failures.onRead && id !in c.docs ==> r == Err("Document not found")
  {
    match c.FindOne(id)
    case Err(e) => Err("Error finding document: " + e)
    case Ok(None) => Err("Document not found")
    case Ok(Some(d)) =>
      RemoveStoredId(id, d);
      Ok(Remove(d, "_id"))
  }

  /** Removing `_id` from a stored document leaves its body. */
  lemma RemoveStoredId(id: string, d: seq<Field>)
    requires Stored(id, d)
    ensures Remove(d, "_id") == d[1..]
    ensures "_id" !in Keys(d[1..]) && WellFormedFields(d[1..])
  {
    var body := d[1..];
    forall i | 0 <= i < |body|
      ensures Keys(body)[i] != "_id"
    {
      assert body[i] == d[i + 1];
    }
  }

  /** The text `{:?}` prints for a Rust string: quoted, with a backslash,
      a quote, a tab, a carriage return, a newline and NUL escaped. */
  function DebugQuoted(s: string): string
  {
    "\"" + DebugEscaped(s) + "\""
  }

  function DebugEscaped(s: string): string
  {
    if s == [] then []
    else DebugChar(s[0]) + DebugEscaped(s[1..])
  }

  function DebugChar(ch: char): string
  {
    match ch
    case '\\' => "\\\\"
    case '"' => "\\\""
    case '\t' => "\\t"
    case '\r' => "\\r"
    case '\n' => "\\n"
    case '\0' => "\\0"
    case _ => [ch]
  }

  /** An identifier with no character `{:?}` escapes is printed between
      quotes as it is. */
  lemma {:induction false} DebugQuotedPlain(s: string)
    requires forall i :: 0 <= i < |s| ==> s[i] !in "\\\"\t\r\n\0"
    ensures DebugQuoted(s) == "\"" + s + "\""
  {
    PlainEscaped(s);
  }

  lemma {:induction false} PlainEscaped(s: string)
    requires forall i :: 0 <= i < |s| ==> s[i] !in "\\\"\t\r\n\0"
    ensures DebugEscaped(s) == s
  {
    if s != [] {
      PlainEscaped(s[1..]);
      assert s == [s[0]] + s[1..];
    }
  }

  /** The upsert message: `{:?}` of the upserted `Bson::String` id. */
  function UpsertedText(id: string): string
  {
    "Document upserted with id: String(" + DebugQuoted(id) + ")"
  }

  /** `aas_update_one`: a `$set` of `doc`, with the source's messages. */
  method AasUpdateOne(c: Collection, id: string, doc: seq<Field>, upsert: bool) returns (r: Result<string>)
    requires c.Valid() && WellFormedFields(doc)
    modifies c
    ensures c.Valid() && c.failures == old(c.failures)
    ensures r.Ok? <==> id !in c.failures.onWrite && KeepsId(id, doc)
    ensures r.Err? ==> c.docs == old(c.docs)
    ensures r.Err? ==>
      r.error == "Error upserting document: " + (if id in c.failures.onWrite then c.failures.onWrite[id] else ImmutableId)
    ensures r.Ok? && id in old(c.docs) ==>
      r == Ok("Document updated successfully") && c.docs == old(c.docs)[id := SetFields(old(c.docs)[id], doc)]
    ensures r.Ok? && id !in old(c.docs) && upsert ==>
      r == Ok(UpsertedText(id))
      && c.docs == old(c.docs)[id := SetFields([Field("_id", Str(id))], doc)]
    ensures r.Ok? && id !in old(c.docs) && !upsert ==>
      r == Ok("Document updated successfully") && c.docs == old(c.docs)
  {
    var u := c.UpdateOne(id, doc, upsert);
    match u {
      case Err(e) => r := Err("Error upserting document: " + e);
      case Ok(Some(upserted)) => r := Ok(UpsertedText(upserted));
      case Ok(None) => r := Ok("Document updated successfully");
    }
  }

  /** `get_submodel_database`. */
  function GetSubmodelDatabase(c: Collection, aas: string, submodel: string): (r: Result<seq<Field>>)
    requires c.Valid()
    reads c
    ensures r.Ok? <==> AasFindOne(c, SubmodelKey(aas, submodel)).Ok?
    ensures r.Ok? ==> c.docs[SubmodelKey(aas, submodel)] == [Field("_id", Str(SubmodelKey(aas, submodel)))] + r.value
    ensures r.Err? ==> r.error == "Error getting submodel: " + AasFindOne(c, SubmodelKey(aas, submodel)).error
  {
    match AasFindOne(c, SubmodelKey(aas, submodel))
    case Ok(d) => Ok(d)
    case Err(e) => Err("Error getting submodel: " + e)
  }

  /** `read_managed_device`: the ManagedDevice submodel of a shell. */
  function ReadManagedDevice(c: Collection, aas: string): (r: Result<seq<Field>>)
    requires c.Valid()
    reads c
    ensures r.Ok? <==> AasFindOne(c, SubmodelKey(aas, "ManagedDevice")).Ok?
    ensures r.Ok? ==> c.docs[SubmodelKey(aas, "ManagedDevice")] == [Field("_id", Str(SubmodelKey(aas, "ManagedDevice")))] + r.value
    ensures r.Err? ==> r.error == "Failed to find managed device: " + AasFindOne(c, SubmodelKey(aas, "ManagedDevice")).error
  {
    match AasFindOne(c, SubmodelKey(aas, "ManagedDevice"))
    case Ok(d) => Ok(d)
    case Err(e) => Err("Failed to find managed device: " + e)
  }

  /** The ManagedDevice patch that records `status` at time `now` (the
      RFC 3339 text of the clock reading). */
  function StatusPatch(status: string, now: string): (p: Value)
    ensures WellFormed(p)
  {
    var fs := [Field("BoardingStatus", Str(status)), Field("LastUpdate", Str(now))];
    assert fs[0].key[0] != fs[1].key[0];
    assert WellFormed(fs[0].value) && WellFormed(fs[1].value);
    Obj(fs)
  }

  /** Different idShorts of one shell never share a key. */
  lemma SubmodelKeysDiffer(aas: string, s1: string, s2: string)
    requires s1 != s2
    ensures SubmodelKey(aas, s1) != SubmodelKey(aas, s2)
  {
    assert SubmodelKey(aas, s1)[|aas| + 1..] == s1;
    assert SubmodelKey(aas, s2)[|aas| + 1..] == s2;
  }

  // -----------------------------------------------------------------------
  // Deep merge
  // -----------------------------------------------------------------------

  /** The new value of a key of the old document: kept when the patch does
      not name the key, merged when both are documents, replaced otherwise. */
  function MergedEntry(current: Value, patched: Option<Value>): Value
  {
    match patched
    case None => current
    case Some(p) =>
      if current.Obj? && p.Obj? then Obj(Merged(current.fields, p.fields)) else p
  }

  /** The merge of `patch` into `base`: the keys of `base`, in its order. */
  function Merged(base: seq<Field>, patch: seq<Field>): (r: seq<Field>)
    ensures Keys(r) == Keys(base)
  {
    if base == [] then []
    else
      var rest := Merged(base[1..], patch);
      assert Keys(base) == [base[0].key] + Keys(base[1..]);
      [Field(base[0].key, MergedEntry(base[0].value, Lookup(patch, base[0].key)))] + rest
  }

  /** Position `i` of the merge is key `i` of the old document with its
      merged entry. */
  lemma {:induction false} MergedAt(base: seq<Field>, patch: seq<Field>, i: nat)
    requires i < |base|
    ensures |Merged(base, patch)| == |base|
    ensures Merged(base, patch)[i] == Field(base[i].key, MergedEntry(base[i].value, Lookup(patch, base[i].key)))
  {
    assert |Keys(Merged(base, patch))| == |Keys(base)|;
    if i > 0 {
      MergedAt(base[1..], patch, i - 1);
    }
  }

  /** `merge_documents`: clones the old document and inserts each merged
      entry into the clone, recursing when both sides are documents. The old
      document is a bson Document, so its keys are distinct. */
  method MergeDocuments(base: seq<Field>, patch: seq<Field>) returns (merged: seq<Field>)
    requires WellFormedFields(base)
    ensures merged == Merged(base, patch)
    decreases base
  {
    merged := base;
    var i := 0;
    while i < |base|
      invariant 0 <= i <= |base|
      invariant merged == Merged(base, patch)[..i] + base[i..]
    {
      var key := base[i].key;
      var current := base[i].value;
      match Lookup(patch, key) {
        case Some(p) =>
          if current.Obj? && p.Obj? {
            var sub := MergeDocuments(current.fields, p.fields);
            MergeStep(base, patch, i, merged, Obj(sub));
            merged := Insert(merged, key, Obj(sub));
          } else {
            MergeStep(base, patch, i, merged, p);
            merged := Insert(merged, key, p);
          }
        case None =>
          MergeSkip(base, patch, i);
      }
      i := i + 1;
    }
  }

  /** One iteration of the merge loop: inserting the merged entry of key `i`
      overwrites position `i` of the clone. */
  lemma MergeStep(base: seq<Field>, patch: seq<Field>, i: nat, merged: seq<Field>, v: Value)
    requires WellFormedFields(base) && i < |base|
    requires merged == Merged(base, patch)[..i] + base[i..]
    requires v == MergedEntry(base[i].value, Lookup(patch, base[i].key))
    ensures Insert(merged, base[i].key, v) == Merged(base, patch)[..i + 1] + base[i + 1..]
  {
    var m := Merged(base, patch);
    MergedAt(base, patch, i);
    CloneKeys(m, base, i);
    SameKeysDistinct(merged, base);
    InsertAtField(merged, i, m[i]);
    SpliceNext(m, base, i);
  }

  /** Part merged, part cloned: the keys stay those of the old document. */
  lemma CloneKeys(m: seq<Field>, base: seq<Field>, i: nat)
    requires Keys(m) == Keys(base) && i <= |base|
    ensures SameKeys(m[..i] + base[i..], base)
  {
    var c := m[..i] + base[i..];
    forall j | 0 <= j < |c|
      ensures c[j].key == base[j].key
    {
      if j < i {
        assert c[j] == m[j] && Keys(m)[j] == Keys(base)[j];
      }
    }
  }

  /** Taking one more element from `m` in a splice of `m` and `b`. */
  lemma SpliceNext<T>(m: seq<T>, b: seq<T>, i: nat)
    requires i < |m| == |b|
    ensures (m[..i] + b[i..])[i := m[i]] == m[..i + 1] + b[i + 1..]
  {
  }

  /** A key the patch does not name: the clone is already right at `i`. */
  lemma MergeSkip(base: seq<Field>, patch: seq<Field>, i: nat)
    requires i < |base| && Lookup(patch, base[i].key).None?
    ensures Merged(base, patch)[..i] + base[i..] == Merged(base, patch)[..i + 1] + base[i + 1..]
  {
    var m := Merged(base, patch);
    MergedAt(base, patch, i);
    SpliceSame(m, base, i);
  }

  /** Where `m` and `b` agree, the splice point can move past `i`. */
  lemma SpliceSame<T>(m: seq<T>, b: seq<T>, i: nat)
    requires i < |m| == |b| && m[i] == b[i]
    ensures m[..i] + b[i..] == m[..i + 1] + b[i + 1..]
  {
    assert m[..i + 1] == m[..i] + [m[i]];
    assert b[i..] == [b[i]] + b[i + 1..];
  }

  /** What a key holds after the merge: nothing when only the patch has it,
      the old value when the patch lacks it, the recursive merge when both
      hold documents, and the patch's value otherwise (an array is replaced,
      not merged, and a scalar may replace a document or the reverse). */
  lemma {:induction false} MergedLookup(base: seq<Field>, patch: seq<Field>, k: string)
    ensures Lookup(base, k).None? ==> Lookup(Merged(base, patch), k).None?
    ensures Lookup(base, k).Some? && Lookup(patch, k).None? ==>
      Lookup(Merged(base, patch), k) == Lookup(base, k)
    ensures Lookup(base, k).Some? && Lookup(patch, k).Some? && Lookup(base, k).value.Obj? && Lookup(patch, k).value.Obj? ==>
      Lookup(Merged(base, patch), k) == Some(Obj(Merged(Lookup(base, k).value.fields, Lookup(patch, k).value.fields)))
    ensures Lookup(base, k).Some? && Lookup(patch, k).Some? && !(Lookup(base, k).value.Obj? && Lookup(patch, k).value.Obj?) ==>
      Lookup(Merged(base, patch), k) == Lookup(patch, k)
  {
    if base != [] && base[0].key != k {
      MergedLookup(base[1..], patch, k);
    }
  }

  lemma {:induction false} MergedWellFormed(base: seq<Field>, patch: seq<Field>)
    requires WellFormedFields(base) && WellFormedFields(patch)
    ensures WellFormedFields(Merged(base, patch))
  {
    var r := Merged(base, patch);
    forall i, j | 0 <= i < j < |r|
      ensures r[i].key != r[j].key
    {
      assert Keys(r)[i] == Keys(base)[i] && Keys(r)[j] == Keys(base)[j];
    }
    forall i | 0 <= i < |r|
      ensures WellFormed(r[i].value)
    {
      MergedAt(base, patch, i);
      var p := Lookup(patch, base[i].key);
      if p.Some? {
        var j :| 0 <= j < |patch| && patch[j] == Field(base[i].key, p.value);
        assert WellFormed(patch[j].value);
        if base[i].value.Obj? && p.value.Obj? {
          MergedWellFormed(base[i].value.fields, p.value.fields);
        }
      }
    }
  }

  /** Merging a document into itself changes nothing. */
  lemma {:induction false} MergeSelf(a: seq<Field>)
    requires WellFormedFields(a)
    ensures Merged(a, a) == a
  {
    var r := Merged(a, a);
    forall i | 0 <= i < |a|
      ensures r[i] == a[i]
    {
      MergedAt(a, a, i);
      LookupDistinct(a, i);
      if a[i].value.Obj? {
        MergeSelf(a[i].value.fields);
      }
    }
  }

  /** Patching twice with the same patch is patching once. */
  lemma {:induction false} MergeIdempotent(base: seq<Field>, patch: seq<Field>)
    requires WellFormedFields(patch)
    ensures Merged(Merged(base, patch), patch) == Merged(base, patch)
  {
    var once := Merged(base, patch);
    var twice := Merged(once, patch);
    forall i | 0 <= i < |base|
      ensures twice[i] == once[i]
    {
      MergedAt(base, patch, i);
      assert Keys(once)[i] == Keys(base)[i];
      MergedAt(once, patch, i);
      var p := Lookup(patch, base[i].key);
      if p.Some? {
        var j :| 0 <= j < |patch| && patch[j] == Field(base[i].key, p.value);
        assert WellFormed(patch[j].value);
        if base[i].value.Obj? && p.value.Obj? {
          MergeIdempotent(base[i].value.fields, p.value.fields);
        } else if p.value.Obj? {
          MergeSelf(p.value.fields);
        }
      }
    }
  }

  // -----------------------------------------------------------------------
  // Local patch
  // -----------------------------------------------------------------------

  /** The error bson's `to_document` reports for a value that is not an
      object (its exact text is the library's). */
  const NotADocument: string := "invalid type: expected a document"

  /** The stored documents after the object patch `patch` of the document
      under `key`: the patch merged into its body when both the read and the
      write of `key` succeed, every document as it was otherwise. */
  function PatchedDocs(docs: map<string, seq<Field>>, failures: Faults, key: string, patch: seq<Field>)
    : (r: map<string, seq<Field>>)
    ensures OnlyAt(docs, r, key)
  {
    if key in docs && key !in failures.onRead && key !in failures.onWrite
    then docs[key := [Field("_id", Str(key))] + Merged(Remove(docs[key], "_id"), patch)]
    else docs
  }

  /** `patch_submodel_database`: read the stored submodel, merge the patch
      into it, and `$set` the result back without upsert. */
  method PatchSubmodelDatabase(c: Collection, aas: string, submodel: string, json: Value)
    returns (r: Result<string>)
    requires c.Valid() && WellFormed(json)
    modifies c
    ensures c.Valid() && c.failures == old(c.failures)
    ensures old(AasFindOne(c, SubmodelKey(aas, submodel))).Err? ==>
      r == Err("Error getting submodel: " + old(AasFindOne(c, SubmodelKey(aas, submodel))).error)
      && c.docs == old(c.docs)
    ensures old(AasFindOne(c, SubmodelKey(aas, submodel))).Ok? && !json.Obj? ==>
      r == Err("Error parsing request body: " + NotADocument) && c.docs == old(c.docs)
    ensures old(AasFindOne(c, SubmodelKey(aas, submodel))).Ok? && json.Obj?
            && SubmodelKey(aas, submodel) in c.failures.onWrite ==>
      r == Err("Error patching submodel: " + ("Error upserting document: " + c.failures.onWrite[SubmodelKey(aas, submodel)]))
      && c.docs == old(c.docs)
    ensures old(AasFindOne(c, SubmodelKey(aas, submodel))).Ok? && json.Obj?
            && SubmodelKey(aas, submodel) !in c.failures.onWrite ==>
      r == Ok("Document updated successfully")
      && AasFindOne(c, SubmodelKey(aas, submodel)) == Ok(Merged(old(AasFindOne(c, SubmodelKey(aas, submodel))).value, json.fields))
      && c.docs == old(c.docs)[SubmodelKey(aas, submodel) := c.docs[SubmodelKey(aas, submodel)]]
    ensures json.Obj? ==> c.docs == PatchedDocs(old(c.docs), c.failures, SubmodelKey(aas, submodel), json.fields)
  {
    var key := SubmodelKey(aas, submodel);
    var found := AasFindOne(c, key);
    if found.Err? {
      r := Err("Error getting submodel: " + found.error);
      return;
    }
    if !json.Obj? {
      r := Err("Error parsing request body: " + NotADocument);
      return;
    }
    r := WriteMerged(c, key, found.value, json.fields);
  }

  /** The second half of `patch_submodel_database`, after the read of `key`
      gave `body`: merge the object patch into it and `$set` the result back. */
  method WriteMerged(c: Collection, key: string, body: seq<Field>, patch: seq<Field>) returns (r: Result<string>)
    requires c.Valid() && AasFindOne(c, key) == Ok(body) && WellFormedFields(patch)
    modifies c
    ensures c.Valid() && c.failures == old(c.failures)
    ensures key in c.failures.onWrite ==>
      r == Err("Error patching submodel: " + ("Error upserting document: " + c.failures.onWrite[key])) && c.docs == old(c.docs)
    ensures key !in c.failures.onWrite ==>
      r == Ok("Document updated successfully") && AasFindOne(c, key) == Ok(Merged(body, patch))
      && c.docs == old(c.docs)[key := c.docs[key]]
    ensures c.docs == PatchedDocs(old(c.docs), c.failures, key, patch)
  {
    var merged := MergeDocuments(body, patch);
    MergedKeepsId(key, body, patch);
    ghost var stored := [Field("_id", Str(key))] + merged;
    assert PatchedDocs(c.docs, c.failures, key, patch) ==
      if key in c.failures.onWrite then c.docs else c.docs[key := stored]
    by {
      RemoveStoredId(key, c.docs[key]);
    }
    var u := AasUpdateOne(c, key, merged, false);
    match u {
      case Ok(message) =>
        r := Ok(message);
        assert c.docs[key] == stored;
      case Err(e) =>
        r := Err("Error patching submodel: " + e);
    }
  }

  /** The merge into a stored body is a well-formed document without `_id`,
      and `$set` of it rewrites exactly that body. */
  lemma MergedKeepsId(key: string, body: seq<Field>, patch: seq<Field>)
    requires WellFormedFields(body) && "_id" !in Keys(body) && WellFormedFields(patch)
    ensures WellFormedFields(Merged(body, patch)) && KeepsId(key, Merged(body, patch))
    ensures SetFields([Field("_id", Str(key))] + body, Merged(body, patch))
         == [Field("_id", Str(key))] + Merged(body, patch)
  {
    var merged := Merged(body, patch);
    MergedWellFormed(body, patch);
    forall i | 0 <= i < |merged|
      ensures merged[i].key != "_id"
    {
      assert Keys(merged)[i] == merged[i].key;
    }
    SetFieldsOverwrite(key, body, merged);
  }

  // -----------------------------------------------------------------------
  // Remote patch and fetch
  // -----------------------------------------------------------------------

  /** The submodel UID the shell's dictionary holds for an idShort, when the
      dictionary can be read and the entry is a string. */
  function DictionaryUid(c: Collection, aas: string, submodel: string): (r: Option<string>)
    requires c.Valid()
    reads c
    ensures r.Some? ==>
      AasFindOne(c, DictionaryKey(aas)).Ok? && Field(submodel, Str(r.value)) in AasFindOne(c, DictionaryKey(aas)).value
  {
    match AasFindOne(c, DictionaryKey(aas))
    case Ok(dict) => GetStr(dict, submodel)
    case Err(_) => None
  }

  /** Conversely, a string entry of the readable dictionary is the UID found
      for its idShort: a stored document has distinct keys, so the entry is
      the only one for that idShort. */
  lemma DictionaryUidFound(c: Collection, aas: string, submodel: string, uid: string)
    requires c.Valid() && AasFindOne(c, DictionaryKey(aas)).Ok?
    requires Field(submodel, Str(uid)) in AasFindOne(c, DictionaryKey(aas)).value
    ensures DictionaryUid(c, aas, submodel) == Some(uid)
  {
    var dict := AasFindOne(c, DictionaryKey(aas)).value;
    var i :| 0 <= i < |dict| && dict[i] == Field(submodel, Str(uid));
    LookupDistinct(dict, i);
  }

  /** `patch_submodel_server`: merge the patch into the local copy and send
      the merged document to the registry; only 204 No Content counts as
      success. Nothing is written locally. */
  method PatchSubmodelServer(c: Collection, aas: string, submodel: string, server: string, aasUid: string,
                             json: Value, respond: Request -> Response)
    returns (r: Result<string>, sent: seq<Request>)
    requires c.Valid() && WellFormed(json)
    ensures |sent| <= 1 && (sent == [] ==> r.Err?)
    ensures AasFindOne(c, SubmodelKey(aas, submodel)).Err? ==>
      sent == [] && r == Err("Error getting submodel: " + AasFindOne(c, SubmodelKey(aas, submodel)).error)
    ensures AasFindOne(c, SubmodelKey(aas, submodel)).Ok? && !json.Obj? ==>
      sent == [] && r == Err("Error parsing request body: " + NotADocument)
    ensures AasFindOne(c, SubmodelKey(aas, submodel)).Ok? && json.Obj? && AasFindOne(c, DictionaryKey(aas)).Err? ==>
      sent == [] && r == Err("Error getting submodels dictionary: " + AasFindOne(c, DictionaryKey(aas)).error)
    ensures AasFindOne(c, SubmodelKey(aas, submodel)).Ok? && json.Obj? && AasFindOne(c, DictionaryKey(aas)).Ok?
            && DictionaryUid(c, aas, submodel).None? ==>
      sent == [] && r == Err("Submodel not found in dictionary")
    ensures sent != [] <==>
      AasFindOne(c, SubmodelKey(aas, submodel)).Ok? && json.Obj? && DictionaryUid(c, aas, submodel).Some?
    ensures sent != [] ==>
      sent == [PatchRequest(PatchValueUrl(server, aasUid, DictionaryUid(c, aas, submodel).value),
                            Obj(Merged(AasFindOne(c, SubmodelKey(aas, submodel)).value, json.fields)))]
    ensures sent != [] ==>
      (r.Ok? <==> respond(sent[0]).Response? && respond(sent[0]).status == NoContent)
    ensures r.Ok? ==> r.value == "Submodel patched successfully"
    ensures sent != [] && respond(sent[0]).Response? && respond(sent[0]).status != NoContent ==>
      r == Err(respond(sent[0]).text)
    ensures sent != [] && respond(sent[0]).SendFailure? ==>
      r == Err("Error sending patch request: " + respond(sent[0]).reason)
  {
    sent := [];
    var found := AasFindOne(c, SubmodelKey(aas, submodel));
    if found.Err? {
      r := Err("Error getting submodel: " + found.error);
      return;
    }
    if !json.Obj? {
      r := Err("Error parsing request body: " + NotADocument);
      return;
    }
    var merged := MergeDocuments(found.value, json.fields);
    var dict := AasFindOne(c, DictionaryKey(aas));
    if dict.Err? {
      r := Err("Error getting submodels dictionary: " + dict.error);
      return;
    }
    var uid := GetStr(dict.value, submodel);
    if uid.None? {
      r := Err("Submodel not found in dictionary");
      return;
    }
    var request := PatchRequest(PatchValueUrl(server, aasUid, uid.value), Obj(merged));
    sent := [request];
    var response := respond(request);
    if response.SendFailure? {
      r := Err("Error sending patch request: " + response.reason);
    } else if response.status == NoContent {
      r := Ok("Submodel patched successfully");
    } else {
      r := Err(response.text);
    }
  }

  /** The PATCH `patch_submodel_server` sends for `json`, if it gets as far:
      the merge of the patch into the local copy, to the submodel's UID. */
  function RemotePatch(c: Collection, aas: string, submodel: string, server: string, aasUid: string,
                       json: Value): (q: Option<Request>)
    requires c.Valid()
    reads c
    ensures q.Some? <==>
      AasFindOne(c, SubmodelKey(aas, submodel)).Ok? && json.Obj? && DictionaryUid(c, aas, submodel).Some?
    ensures q.Some? ==>
      q.value.PatchRequest?
      && q.value.url == PatchValueUrl(server, aasUid, DictionaryUid(c, aas, submodel).value)
      && q.value.body == Obj(Merged(AasFindOne(c, SubmodelKey(aas, submodel)).value, json.fields))
  {
    var found := AasFindOne(c, SubmodelKey(aas, submodel));
    var uid := DictionaryUid(c, aas, submodel);
    if found.Ok? && json.Obj? && uid.Some? then
      Some(PatchRequest(PatchValueUrl(server, aasUid, uid.value), Obj(Merged(found.value, json.fields))))
    else None
  }

  /** The request list of a step that sends at most one request. */
  function Requests(q: Option<Request>): seq<Request>
  {
    if q.Some? then [q.value] else []
  }

  /** Both the read and the write of `key` succeed, so a local patch of it
      takes effect. */
  predicate Writable(c: Collection, key: string)
    requires c.Valid()
    reads c
  {
    AasFindOne(c, key).Ok? && key !in c.failures.onWrite
  }

  /** What a ManagedDevice status write (local, then remote only if the
      local patch succeeded) sends, read off the store once the local patch
      is done. */
  function StatusRequests(c: Collection, aas: string, server: string, aasUid: string, status: string, now: string)
    : seq<Request>
    requires c.Valid()
    reads c
  {
    if Writable(c, SubmodelKey(aas, "ManagedDevice"))
    then Requests(RemotePatch(c, aas, "ManagedDevice", server, aasUid, StatusPatch(status, now)))
    else []
  }

  /** Every JSON body the registry returns parses to a map-shaped value. */
  ghost predicate WellFormedResponses(respond: Request -> Response)
  {
    forall q :: respond(q).Response? && respond(q).json.Some? ==> WellFormed(respond(q).json.value)
  }

  /** `fetch_single_submodel_from_server`: GET the submodel's `$value` and
      replace the local document with it wholesale (no merge, no upsert). */
  method FetchSingleSubmodelFromServer(server: string, aas: string, aasUid: string, submodel: string,
                                       c: Collection, respond: Request -> Response)
    returns (r: Result<()>, sent: seq<Request>)
    requires c.Valid() && WellFormedResponses(respond)
    modifies c
    ensures c.Valid() && c.failures == old(c.failures)
    ensures r.Err? ==> c.docs == old(c.docs)
    ensures old(AasFindOne(c, DictionaryKey(aas))).Err? ==>
      sent == [] && r == Err("Error getting submodels dictionary: " + old(AasFindOne(c, DictionaryKey(aas))).error)
    ensures old(AasFindOne(c, DictionaryKey(aas))).Ok? && old(DictionaryUid(c, aas, submodel)).None? ==>
      sent == [] && r == Err("Submodel not found in dictionary")
    ensures sent != [] <==> old(DictionaryUid(c, aas, submodel)).Some?
    ensures sent != [] ==> sent == [GetRequest(FetchValueUrl(server, aasUid, old(DictionaryUid(c, aas, submodel)).value))]
    ensures sent != [] && !Succeeded(respond(sent[0])) ==> r.Err?
    ensures sent != [] && Succeeded(respond(sent[0])) && respond(sent[0]).json.Some?
            && !respond(sent[0]).json.value.Obj? ==>
      r == Err("Response body is not a BSON document")
    ensures r.Ok? ==>
      sent != [] && Succeeded(respond(sent[0])) && respond(sent[0]).json.Some? && respond(sent[0]).json.value.Obj?
    ensures r.Ok? ==> var key := SubmodelKey(aas, submodel);
      var body := respond(sent[0]).json.value.fields;
      c.docs == (if key in old(c.docs) then old(c.docs)[key := [Field("_id", Str(key))] + Remove(body, "_id")]
                 else old(c.docs))
    ensures |sent| <= 1 && OnlyAt(old(c.docs), c.docs, SubmodelKey(aas, submodel))
  {
    sent := [];
    ghost var uid := DictionaryUid(c, aas, submodel);
    var dict := AasFindOne(c, DictionaryKey(aas));
    if dict.Err? {
      r := Err("Error getting submodels dictionary: " + dict.error);
      assert uid.None?;
      return;
    }
    var entry := Lookup(dict.value, submodel);
    if !(entry.Some? && entry.value.Str?) {
      r := Err("Submodel not found in dictionary");
      assert uid.None?;
      return;
    }
    assert uid == Some(entry.value.s);
    var request := GetRequest(FetchValueUrl(server, aasUid, entry.value.s));
    sent := [request];
    var response := respond(request);
    r := ReplaceWithResponse(c, SubmodelKey(aas, submodel), request.url, response);
  }

  /** The messages of the polling GET's failures: each `with_context`
      message behind its `map_err` prefix. */
  function SendFailedText(url: string): string
  {
    "Error sending GET request: " + ("Failed to send request to fetch submodel value from URL: " + url)
  }

  const ParseFailedText := "Error parsing JSON response: Failed to parse JSON response"

  const ReplaceFailedText := "Error replacing submodel in the database: Failed to replace submodel in the database"

  /** The second half of `fetch_single_submodel_from_server`: check the
      response to the GET of `url` and replace the stored document `key` with
      its body. Each failure is reported with its `with_context` message,
      the only text anyhow's `{}` prints. */
  method ReplaceWithResponse(c: Collection, key: string, url: string, response: Response) returns (r: Result<()>)
    requires c.Valid()
    requires response.Response? && response.json.Some? ==> WellFormed(response.json.value)
    modifies c
    ensures c.Valid() && c.failures == old(c.failures)
    ensures r.Err? ==> c.docs == old(c.docs)
    ensures response.SendFailure? ==>
      r == Err(SendFailedText(url))
    ensures response.Response? && !IsSuccess(response.status) ==>
      r == Err("Error fetching submodel: status " + IntText(response.status))
    ensures Succeeded(response) && response.json.None? ==>
      r == Err(ParseFailedText)
    ensures Succeeded(response) && response.json.Some? && !response.json.value.Obj? ==>
      r == Err("Response body is not a BSON document")
    ensures Succeeded(response) && response.json.Some? && response.json.value.Obj?
            && (key in c.failures.onWrite || !KeepsId(key, response.json.value.fields)) ==>
      r == Err(ReplaceFailedText)
    ensures r.Ok? <==>
      Succeeded(response) && response.json.Some? && response.json.value.Obj?
      && key !in c.failures.onWrite && KeepsId(key, response.json.value.fields)
    ensures r.Ok? ==> var body := response.json.value.fields;
      c.docs == (if key in old(c.docs) then old(c.docs)[key := [Field("_id", Str(key))] + Remove(body, "_id")]
                 else old(c.docs))
    ensures OnlyAt(old(c.docs), c.docs, key)
  {
    if response.SendFailure? {
      r := Err(SendFailedText(url));
      return;
    }
    if !IsSuccess(response.status) {
      r := Err("Error fetching submodel: status " + IntText(response.status));
      return;
    }
    if response.json.None? {
      r := Err(ParseFailedText);
      return;
    }
    var body := response.json.value;
    if !body.Obj? {
      r := Err("Response body is not a BSON document");
      return;
    }
    assert WellFormed(body);
    var replaced := c.ReplaceOne(key, body.fields, false);
    if replaced.Err? {
      r := Err(ReplaceFailedText);
      return;
    }
    r := Ok(());
  }
}
