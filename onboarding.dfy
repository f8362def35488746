/** Onboarding of an edge device (backend/src/functions/onboarding.rs):
    fetch the shell, store it, fetch each of its submodels, store them and
    build the idShort -> UID dictionary, download the thumbnail, and mark the
    ManagedDevice submodel ONBOARDED locally and remotely. The parallel
    per-submodel fetches are modelled as a sequential fold. */
module Onboarding {
  import opened Json
  import opened Http
  import opened MongoStore
  import opened AasInterfaces
  import Base64Url

  // -----------------------------------------------------------------------
  // URLs
  // -----------------------------------------------------------------------

  function ShellUrl(server: string, aasUid: string): string
  {
    server + "/shells/" + Base64Url.Segment(aasUid)
  }

  function ThumbnailUrl(server: string, aasUid: string): string
  {
    ShellUrl(server, aasUid) + "/asset-information/thumbnail"
  }

  /** The submodel's metadata (where its idShort is read from). */
  function MetadataUrl(server: string, aasUid: string, submodelUid: string): string
  {
    server + "shells/" + Base64Url.Segment(aasUid) + "/submodels/" + Base64Url.Segment(submodelUid)
  }

  // -----------------------------------------------------------------------
  // Submodel references of a shell
  // -----------------------------------------------------------------------

  /** The id an entry of `submodels` contributes: the string `value` of the
      first element of its `keys` array. Its `type` is not looked at. */
  function EntryId(entry: Value): (r: Option<string>)
    ensures r.Some? ==> entry.Obj?
  {
    if !entry.Obj? then None
    else
      match Lookup(entry.fields, "keys")
      case Some(Arr(keys)) =>
        if |keys| > 0 && keys[0].Obj? then GetStr(keys[0].fields, "value") else None
      case _ => None
  }

  /** The ids of the entries that have one, in entry order. */
  function EntryIds(entries: seq<Value>): seq<string>
  {
    if entries == [] then []
    else
      var init := EntryIds(entries[..|entries| - 1]);
      var last := EntryId(entries[|entries| - 1]);
      if last.Some? then init + [last.value] else init
  }

  /** The submodel ids of a shell document; none when `submodels` is missing
      or is not an array. */
  function ShellSubmodelIds(shell: seq<Field>): seq<string>
  {
    match Lookup(shell, "submodels")
    case Some(Arr(entries)) => EntryIds(entries)
    case _ => []
  }

  /** `extract_submodels_id`: walks the entries, pushing each id found. */
  method ExtractSubmodelsId(data: seq<Field>) returns (r: Result<seq<string>>)
    ensures r == Ok(ShellSubmodelIds(data))
  {
    var filtered: seq<string> := [];
    var submodels := Lookup(data, "submodels");
    if !(submodels.Some? && submodels.value.Arr?) {
      return Ok(filtered);
    }
    var entries := submodels.value.items;
    var i := 0;
    while i < |entries|
      invariant 0 <= i <= |entries|
      invariant filtered == EntryIds(entries[..i])
    {
      EntryIdsStep(entries, i);
      var id := ReadEntryId(entries[i]);
      if id.Some? {
        filtered := filtered + [id.value];
      }
      i := i + 1;
    }
    assert entries[..i] == entries;
    r := Ok(filtered);
  }

  /** The body of the loop of `extract_submodels_id`: the nested checks that
      find the id of one entry. */
  method ReadEntryId(entry: Value) returns (id: Option<string>)
    ensures id == EntryId(entry)
  {
    id := None;
    if entry.Obj? {
      var keys := Lookup(entry.fields, "keys");
      if keys.Some? && keys.value.Arr? {
        if |keys.value.items| > 0 && keys.value.items[0].Obj? {
          id := GetStr(keys.value.items[0].fields, "value");
        }
      }
    }
  }

  lemma EntryIdsStep(entries: seq<Value>, i: nat)
    requires i < |entries|
    ensures EntryIds(entries[..i + 1])
            == EntryIds(entries[..i]) + (if EntryId(entries[i]).Some? then [EntryId(entries[i]).value] else [])
  {
    assert entries[..i + 1][..i] == entries[..i];
  }

  /** The ids keep the order of the entries: the ids of a concatenation are
      the concatenation of the ids. */
  lemma {:induction false} EntryIdsAppend(a: seq<Value>, b: seq<Value>)
    ensures EntryIds(a + b) == EntryIds(a) + EntryIds(b)
    decreases |b|
  {
    if b != [] {
      var init := b[..|b| - 1];
      assert (a + b)[..|a + b| - 1] == a + init;
      EntryIdsAppend(a, init);
    } else {
      assert a + b == a;
    }
  }

  /** There are never more ids than entries. */
  lemma {:induction false} EntryIdsLength(entries: seq<Value>)
    ensures |EntryIds(entries)| <= |entries|
  {
    if entries != [] {
      EntryIdsLength(entries[..|entries| - 1]);
    }
  }

  /** Every extracted id comes from an entry that carries it... */
  lemma {:induction false} EntryIdsSound(entries: seq<Value>, id: string) returns (i: nat)
    requires id in EntryIds(entries)
    ensures i < |entries| && EntryId(entries[i]) == Some(id)
  {
    var init := entries[..|entries| - 1];
    if id in EntryIds(init) {
      i := EntryIdsSound(init, id);
    } else {
      i := |entries| - 1;
    }
  }

  /** ...and every entry that carries an id has it extracted. */
  lemma {:induction false} EntryIdsComplete(entries: seq<Value>, i: nat)
    requires i < |entries| && EntryId(entries[i]).Some?
    ensures EntryId(entries[i]).value in EntryIds(entries)
  {
    var n := |entries| - 1;
    if i == n {
      EntryIdsStep(entries, n);
      assert entries[..n + 1] == entries;
    } else {
      var init := entries[..n];
      assert init[i] == entries[i];
      EntryIdsComplete(init, i);
      EntryIdsGrow(entries);
    }
  }

  lemma EntryIdsGrow(entries: seq<Value>)
    requires entries != []
    ensures forall id :: id in EntryIds(entries[..|entries| - 1]) ==> id in EntryIds(entries)
  {
  }

  /** An entry's `type` field does not matter. */
  lemma TypeIgnored(fs: seq<Field>, t: Value)
    ensures EntryId(Obj(Insert(fs, "type", t))) == EntryId(Obj(fs))
  {
    LookupInsert(fs, "type", t, "keys");
  }

  /** Only the first element of `keys` matters. */
  lemma LaterKeysIgnored(fs: seq<Field>, first: Value, more: seq<Value>)
    ensures EntryId(Obj(Insert(fs, "keys", Arr([first] + more)))) == EntryId(Obj(Insert(fs, "keys", Arr([first]))))
  {
    LookupInsert(fs, "keys", Arr([first] + more), "keys");
    LookupInsert(fs, "keys", Arr([first]), "keys");
  }

  /** A reference to the submodel `id`: its `keys` array holds one key
      whose `value` is the id (the `type` fields are left out, as
      `TypeIgnored` shows they do not matter). */
  function Reference(id: string): Value
  {
    Obj([Field("keys", Arr([Obj([Field("value", Str(id))])]))])
  }

  lemma ReferenceId(id: string)
    ensures EntryId(Reference(id)) == Some(id)
  {
    assert GetStr([Field("value", Str(id))], "value") == Some(id);
  }

  lemma EmptyKeysSkipped()
    ensures EntryId(Obj([Field("keys", Arr([]))])) == None
  {
  }

  /** Three entries of which only the first carries an id. */
  lemma IdsOfThree(entries: seq<Value>, id: string)
    requires |entries| == 3 && EntryId(entries[0]) == Some(id)
    requires EntryId(entries[1]) == None && EntryId(entries[2]) == None
    ensures EntryIds(entries) == [id]
  {
    assert entries[..0] == [];
    EntryIdsStep(entries, 0);
    EntryIdsStep(entries, 1);
    EntryIdsStep(entries, 2);
    assert entries[..3] == entries;
  }

  /** Entries that are not documents, and documents with an empty `keys`
      array, are skipped. */
  lemma ExtractSkips(id: string, other: Value)
    requires !other.Obj?
    ensures ShellSubmodelIds([Field("submodels", Arr([Reference(id), other, Obj([Field("keys", Arr([]))])]))])
            == [id]
  {
    var entries := [Reference(id), other, Obj([Field("keys", Arr([]))])];
    ReferenceId(id);
    EmptyKeysSkipped();
    IdsOfThree(entries, id);
  }

  // -----------------------------------------------------------------------
  // One submodel
  // -----------------------------------------------------------------------

  /** Why fetching one submodel failed. */
  datatype FetchError =
    | ValueSendFailed(valueUrl: string)
    | MetadataSendFailed(metadataUrl: string)
    | StatusFailed(url: string, status: int, text: string)
    | NotJson
    | NoIdShort
    | NotDocument
    | WriteFailed

  /** The message the source formats for each failure. */
  function FetchErrorText(e: FetchError): string
  {
    match e
    case ValueSendFailed(url) => "Failed to send request to fetch submodel value from URL: " + url
    case MetadataSendFailed(url) => "Failed to send request to fetch submodel id short from URL: " + url
    case StatusFailed(url, status, text) =>
      "Failed to fetch URL " + url + ". Status code: " + IntText(status) + ". Response body: " + text
    case NotJson => "Failed to parse response body as JSON"
    case NoIdShort => "Failed to extract idShort from response body"
    case NotDocument => "Conversion to Document failed."
    case WriteFailed => "Failed to replace submodel in the database"
  }

  /** The outcome of fetching one submodel: on success, the idShort read
      from the metadata and the `$value` body that was stored. */
  datatype Fetch = Fetched(idShort: string, body: seq<Field>) | FetchFailed(reason: FetchError)

  /** The outcome of fetching one submodel: the `$value` GET is sent first,
      then the metadata GET; both must succeed, the metadata must carry a
      string idShort, the value must be an object, and the store must accept
      the write (`failures` are the store's write errors). */
  function FetchOutcome(server: string, aas: string, aasUid: string, uid: string,
                        respond: Request -> Response, failures: map<string, string>): Fetch
  {
    var valueUrl := PatchValueUrl(server, aasUid, uid);
    var metadataUrl := MetadataUrl(server, aasUid, uid);
    ResponsesOutcome(aas, valueUrl, metadataUrl, respond(GetRequest(valueUrl)), respond(GetRequest(metadataUrl)), failures)
  }

  /** The outcome of one fetch given the answers to its two GETs. */
  function ResponsesOutcome(aas: string, valueUrl: string, metadataUrl: string,
                            value: Response, metadata: Response, failures: map<string, string>): Fetch
  {
    if value.SendFailure? then FetchFailed(ValueSendFailed(valueUrl))
    else if metadata.SendFailure? then FetchFailed(MetadataSendFailed(metadataUrl))
    else if IsSuccess(metadata.status) && IsSuccess(value.status) then
      if metadata.json.None? || value.json.None? then FetchFailed(NotJson)
      else
        match Get(metadata.json.value, "idShort")
        case Some(Str(idShort)) =>
          if !value.json.value.Obj? then FetchFailed(NotDocument)
          else if SubmodelKey(aas, idShort) in failures || !KeepsId(SubmodelKey(aas, idShort), value.json.value.fields) then
            FetchFailed(WriteFailed)
          else Fetched(idShort, value.json.value.fields)
        case _ => FetchFailed(NoIdShort)
    else if !IsSuccess(metadata.status) then
      FetchFailed(StatusFailed(metadataUrl, metadata.status, metadata.text))
    else
      FetchFailed(StatusFailed(valueUrl, value.status, value.text))
  }

  /** A fetch succeeds exactly when both GETs succeed, the metadata holds a
      string idShort, the value is an object, and the store accepts it under
      "{aasIdShort}:{idShort}"; the stored body is the `$value` body. */
  lemma FetchSucceedsIff(aas: string, valueUrl: string, metadataUrl: string,
                         value: Response, metadata: Response, failures: map<string, string>)
    ensures var o := ResponsesOutcome(aas, valueUrl, metadataUrl, value, metadata, failures);
      o.Fetched? <==>
        Succeeded(value) && Succeeded(metadata) && value.json.Some? && metadata.json.Some?
        && Get(metadata.json.value, "idShort").Some? && Get(metadata.json.value, "idShort").value.Str?
        && value.json.value.Obj?
        && SubmodelKey(aas, Get(metadata.json.value, "idShort").value.s) !in failures
        && KeepsId(SubmodelKey(aas, Get(metadata.json.value, "idShort").value.s), value.json.value.fields)
    ensures var o := ResponsesOutcome(aas, valueUrl, metadataUrl, value, metadata, failures);
      o.Fetched? ==> o == Fetched(Get(metadata.json.value, "idShort").value.s, value.json.value.fields)
  {
    if Succeeded(value) && Succeeded(metadata) && value.json.Some? && metadata.json.Some? {
      assert !value.SendFailure? && !metadata.SendFailure?;
    }
  }

  /** `fetch_single_submodel`: on success the `$value` body is stored (with
      upsert) and then the dictionary gets idShort -> UID; on any failure
      neither happens. */
  method FetchSingleSubmodel(server: string, aas: string, aasUid: string, uid: string,
                             c: Collection, dictionary: seq<Field>, respond: Request -> Response)
    returns (r: Result<()>, dictionaryOut: seq<Field>, sent: seq<Request>)
    requires c.Valid() && WellFormedResponses(respond)
    modifies c
    ensures c.Valid() && c.failures == old(c.failures)
    ensures respond(GetRequest(PatchValueUrl(server, aasUid, uid))).SendFailure? ==>
      sent == [GetRequest(PatchValueUrl(server, aasUid, uid))]
    ensures !respond(GetRequest(PatchValueUrl(server, aasUid, uid))).SendFailure? ==>
      sent == [GetRequest(PatchValueUrl(server, aasUid, uid)), GetRequest(MetadataUrl(server, aasUid, uid))]
    ensures var o := FetchOutcome(server, aas, aasUid, uid, respond, c.failures.onWrite);
      (r.Ok? <==> o.Fetched?)
      && (r.Err? ==> r.error == FetchErrorText(o.reason) && dictionaryOut == dictionary && c.docs == old(c.docs))
    ensures var o := FetchOutcome(server, aas, aasUid, uid, respond, c.failures.onWrite);
      o.Fetched? ==>
        var key := SubmodelKey(aas, o.idShort);
        dictionaryOut == Insert(dictionary, o.idShort, Str(uid))
        && c.docs == old(c.docs)[key := [Field("_id", Str(key))] + Remove(o.body, "_id")]
  {
    dictionaryOut := dictionary;
    var valueUrl := PatchValueUrl(server, aasUid, uid);
    var metadataUrl := MetadataUrl(server, aasUid, uid);
    var value := respond(GetRequest(valueUrl));
    ghost var o := ResponsesOutcome(aas, valueUrl, metadataUrl, value, respond(GetRequest(metadataUrl)), c.failures.onWrite);
    assert o == FetchOutcome(server, aas, aasUid, uid, respond, c.failures.onWrite);
    sent := [GetRequest(valueUrl)];
    if value.SendFailure? {
      r := Err(FetchErrorText(ValueSendFailed(valueUrl)));
      return;
    }
    var metadata := respond(GetRequest(metadataUrl));
    sent := sent + [GetRequest(metadataUrl)];
    if metadata.SendFailure? {
      r := Err(FetchErrorText(MetadataSendFailed(metadataUrl)));
      return;
    }
    if IsSuccess(metadata.status) && IsSuccess(value.status) {
      if metadata.json.None? || value.json.None? {
        r := Err(FetchErrorText(NotJson));
        return;
      }
      var idShort := Get(metadata.json.value, "idShort");
      if !(idShort.Some? && idShort.value.Str?) {
        r := Err(FetchErrorText(NoIdShort));
        return;
      }
      var body := value.json.value;
      if !body.Obj? {
        r := Err(FetchErrorText(NotDocument));
        return;
      }
      var written := c.ReplaceOne(SubmodelKey(aas, idShort.value.s), body.fields, true);
      if written.Err? {
        r := Err(FetchErrorText(WriteFailed));
        return;
      }
      dictionaryOut := Insert(dictionaryOut, idShort.value.s, Str(uid));
      r := Ok(());
    } else if !IsSuccess(metadata.status) {
      r := Err(FetchErrorText(StatusFailed(metadataUrl, metadata.status, metadata.text)));
    } else {
      r := Err(FetchErrorText(StatusFailed(valueUrl, value.status, value.text)));
    }
  }

  // -----------------------------------------------------------------------
  // All submodels
  // -----------------------------------------------------------------------

  /** The outcome of fetching each of `uids`. */
  function Outcomes(server: string, aas: string, aasUid: string, uids: seq<string>,
                    respond: Request -> Response, failures: map<string, string>): (os: seq<Fetch>)
    ensures |os| == |uids|
    ensures forall i :: 0 <= i < |uids| ==> os[i] == FetchOutcome(server, aas, aasUid, uids[i], respond, failures)
  {
    seq(|uids|, i requires 0 <= i < |uids| => FetchOutcome(server, aas, aasUid, uids[i], respond, failures))
  }

  /** The fetch succeeded and read the idShort `id`. */
  predicate SucceededAs(o: Fetch, id: string)
  {
    o.Fetched? && o.idShort == id
  }

  /** The dictionary after fetching `uids`, with outcomes `os`, in order. */
  function DictionaryOf(uids: seq<string>, os: seq<Fetch>): seq<Field>
    requires |uids| == |os|
  {
    if uids == [] then []
    else
      var n := |uids| - 1;
      var init := DictionaryOf(uids[..n], os[..n]);
      if os[n].Fetched? then Insert(init, os[n].idShort, Str(uids[n])) else init
  }

  /** The submodel store after the fetches with outcomes `os`. */
  function DocsAfter(docs: map<string, seq<Field>>, aas: string, os: seq<Fetch>): map<string, seq<Field>>
  {
    if os == [] then docs
    else
      var n := |os| - 1;
      var init := DocsAfter(docs, aas, os[..n]);
      if os[n].Fetched? then
        var key := SubmodelKey(aas, os[n].idShort);
        init[key := [Field("_id", Str(key))] + Remove(os[n].body, "_id")]
      else init
  }

  /** Every dictionary entry comes from a successful fetch... */
  lemma {:induction false} DictionarySound(uids: seq<string>, os: seq<Fetch>, id: string) returns (i: nat)
    requires |uids| == |os| && id in Keys(DictionaryOf(uids, os))
    ensures i < |os| && SucceededAs(os[i], id)
  {
    var n := |uids| - 1;
    var before := DictionaryOf(uids[..n], os[..n]);
    assert DictionaryOf(uids, os) == if os[n].Fetched? then Insert(before, os[n].idShort, Str(uids[n])) else before;
    if SucceededAs(os[n], id) {
      i := n;
    } else {
      i := DictionarySound(uids[..n], os[..n], id);
    }
  }

  /** ...and every successful fetch has an entry; failed ones get none. */
  lemma {:induction false} DictionaryComplete(uids: seq<string>, os: seq<Fetch>, i: nat, id: string)
    requires |uids| == |os| && i < |os| && SucceededAs(os[i], id)
    ensures id in Keys(DictionaryOf(uids, os))
  {
    var n := |uids| - 1;
    var before := DictionaryOf(uids[..n], os[..n]);
    if i < n {
      assert os[..n][i] == os[i];
      DictionaryComplete(uids[..n], os[..n], i, id);
    }
    if os[n].Fetched? {
      InsertKeys(before, os[n].idShort, Str(uids[n]), id);
    }
  }

  /** An entry maps the idShort to the UID of the last successful fetch that
      read that idShort. */
  lemma {:induction false} DictionaryValue(uids: seq<string>, os: seq<Fetch>, i: nat, id: string)
    requires |uids| == |os| && i < |os| && SucceededAs(os[i], id)
    requires forall j :: i < j < |os| ==> !SucceededAs(os[j], id)
    ensures Lookup(DictionaryOf(uids, os), id) == Some(Str(uids[i]))
  {
    var n := |uids| - 1;
    var before := DictionaryOf(uids[..n], os[..n]);
    assert DictionaryOf(uids, os) == if os[n].Fetched? then Insert(before, os[n].idShort, Str(uids[n])) else before;
    if i == n {
      LookupInsert(before, id, Str(uids[n]), id);
    } else {
      assert os[..n][i] == os[i];
      forall j | i < j < n
        ensures !SucceededAs(os[..n][j], id)
      {
        assert os[..n][j] == os[j];
      }
      DictionaryValue(uids[..n], os[..n], i, id);
      assert !SucceededAs(os[n], id);
      if os[n].Fetched? {
        LookupInsert(before, os[n].idShort, Str(uids[n]), id);
      }
    }
  }

  /** The dictionary is a bson Document of strings. */
  lemma {:induction false} DictionaryWellFormed(uids: seq<string>, os: seq<Fetch>)
    requires |uids| == |os|
    ensures WellFormedFields(DictionaryOf(uids, os))
  {
    if uids != [] {
      var n := |uids| - 1;
      DictionaryWellFormed(uids[..n], os[..n]);
      if os[n].Fetched? {
        InsertWellFormed(DictionaryOf(uids[..n], os[..n]), os[n].idShort, Str(uids[n]));
      }
    }
  }

  lemma DictionaryStep(uids: seq<string>, os: seq<Fetch>, i: nat)
    requires |uids| == |os| && i < |os|
    ensures DictionaryOf(uids[..i + 1], os[..i + 1])
            == if os[i].Fetched? then Insert(DictionaryOf(uids[..i], os[..i]), os[i].idShort, Str(uids[i]))
               else DictionaryOf(uids[..i], os[..i])
  {
    assert uids[..i + 1][..i] == uids[..i];
    assert os[..i + 1][..i] == os[..i];
  }

  lemma DocsAfterStep(docs: map<string, seq<Field>>, aas: string, os: seq<Fetch>, i: nat)
    requires i < |os|
    ensures DocsAfter(docs, aas, os[..i + 1])
            == if os[i].Fetched? then
                 DocsAfter(docs, aas, os[..i])[SubmodelKey(aas, os[i].idShort) :=
                   [Field("_id", Str(SubmodelKey(aas, os[i].idShort)))] + Remove(os[i].body, "_id")]
               else DocsAfter(docs, aas, os[..i])
  {
    assert os[..i + 1][..i] == os[..i];
  }

  /** A successful fetch whose idShort names `key` under the shell `aas`. */
  predicate Targets(o: Fetch, aas: string, key: string)
  {
    o.Fetched? && SubmodelKey(aas, o.idShort) == key
  }

  /** After the fetches, a key holds a document exactly when it held one
      before or some successful fetch targets it. */
  lemma {:induction false} DocsAfterKeys(docs: map<string, seq<Field>>, aas: string, os: seq<Fetch>, key: string)
    ensures key in DocsAfter(docs, aas, os) <==> key in docs || exists i :: 0 <= i < |os| && Targets(os[i], aas, key)
  {
    if os != [] {
      var n := |os| - 1;
      DocsAfterKeys(docs, aas, os[..n], key);
      if exists i :: 0 <= i < n && Targets(os[..n][i], aas, key) {
        var i :| 0 <= i < n && Targets(os[..n][i], aas, key);
        assert os[i] == os[..n][i];
      }
      if exists i :: 0 <= i < |os| && Targets(os[i], aas, key) {
        var i :| 0 <= i < |os| && Targets(os[i], aas, key);
        if i < n {
          assert os[..n][i] == os[i];
        }
      }
    }
  }

  /** A targeted key holds the `$value` body of the last successful fetch
      that targets it: when several UIDs share an idShort, the last wins. */
  lemma {:induction false} DocsAfterLast(docs: map<string, seq<Field>>, aas: string, os: seq<Fetch>, i: nat, key: string)
    requires i < |os| && Targets(os[i], aas, key)
    requires forall j :: i < j < |os| ==> !Targets(os[j], aas, key)
    ensures key in DocsAfter(docs, aas, os)
    ensures DocsAfter(docs, aas, os)[key] == [Field("_id", Str(key))] + Remove(os[i].body, "_id")
  {
    var n := |os| - 1;
    if i < n {
      assert os[..n][i] == os[i];
      forall j | i < j < n
        ensures !Targets(os[..n][j], aas, key)
      {
        assert os[..n][j] == os[j];
      }
      DocsAfterLast(docs, aas, os[..n], i, key);
    }
  }

  /** A key no successful fetch targets keeps its document. */
  lemma {:induction false} DocsAfterUntouched(docs: map<string, seq<Field>>, aas: string, os: seq<Fetch>, key: string)
    requires key in docs
    requires forall j :: 0 <= j < |os| ==> !Targets(os[j], aas, key)
    ensures key in DocsAfter(docs, aas, os) && DocsAfter(docs, aas, os)[key] == docs[key]
  {
    if os != [] {
      var n := |os| - 1;
      forall j | 0 <= j < n
        ensures !Targets(os[..n][j], aas, key)
      {
        assert os[..n][j] == os[j];
      }
      DocsAfterUntouched(docs, aas, os[..n], key);
    }
  }

  /** The submodel store once the fetches with outcomes `os` are stored and
      the dictionary of `uids` is written under its key. */
  function FetchedDocs(docs: map<string, seq<Field>>, aas: string, uids: seq<string>, os: seq<Fetch>)
    : map<string, seq<Field>>
    requires |uids| == |os|
  {
    DocsAfter(docs, aas, os)[DictionaryKey(aas) :=
      [Field("_id", Str(DictionaryKey(aas)))] + Remove(DictionaryOf(uids, os), "_id")]
  }

  /** `fetch_all_submodels`: fetch every submodel (failures are only
      logged), then write the dictionary once, with upsert, under
      "{aasIdShort}:submodels_dictionary". */
  method FetchAllSubmodels(server: string, aas: string, uids: seq<string>, c: Collection, aasUid: string,
                           respond: Request -> Response)
    returns (r: Result<()>, dictionary: seq<Field>)
    requires c.Valid() && WellFormedResponses(respond)
    modifies c
    ensures c.Valid() && c.failures == old(c.failures)
    ensures dictionary == DictionaryOf(uids, Outcomes(server, aas, aasUid, uids, respond, c.failures.onWrite))
    ensures r.Ok? <==> DictionaryKey(aas) !in c.failures.onWrite && KeepsId(DictionaryKey(aas), dictionary)
    ensures r.Err? ==> c.docs == DocsAfter(old(c.docs), aas, Outcomes(server, aas, aasUid, uids, respond, c.failures.onWrite))
    ensures r.Ok? ==> c.docs == FetchedDocs(old(c.docs), aas, uids, Outcomes(server, aas, aasUid, uids, respond, c.failures.onWrite))
  {
    ghost var os := Outcomes(server, aas, aasUid, uids, respond, c.failures.onWrite);
    dictionary := [];
    var i := 0;
    while i < |uids|
      invariant 0 <= i <= |uids|
      invariant c.Valid() && c.failures == old(c.failures)
      invariant dictionary == DictionaryOf(uids[..i], os[..i])
      invariant c.docs == DocsAfter(old(c.docs), aas, os[..i])
    {
      DictionaryStep(uids, os, i);
      DocsAfterStep(old(c.docs), aas, os, i);
      var result, next, _ := FetchSingleSubmodel(server, aas, aasUid, uids[i], c, dictionary, respond);
      dictionary := next;
      i := i + 1;
    }
    assert uids[..i] == uids;
    assert os[..i] == os;
    DictionaryWellFormed(uids, os);
    var written := c.ReplaceOne(DictionaryKey(aas), dictionary, true);
    if written.Err? {
      r := Err("Failed to replace submodels dictionary in the database");
    } else {
      r := Ok(());
    }
  }

  // -----------------------------------------------------------------------
  // ManagedDevice and the whole onboarding
  // -----------------------------------------------------------------------

  /** `onboarding_managed_device`: if the ManagedDevice submodel exists,
      patch it locally and then remotely; every failure is only logged. The
      remote registry receives exactly the document stored locally. */
  method OnboardingManagedDevice(aas: string, server: string, aasUid: string, c: Collection, now: string,
                                 respond: Request -> Response)
    returns (sent: seq<Request>)
    requires c.Valid()
    modifies c
    ensures c.Valid() && c.failures == old(c.failures)
    ensures c.docs == PatchedDocs(old(c.docs), c.failures, SubmodelKey(aas, "ManagedDevice"), StatusPatch("ONBOARDED", now).fields)
    ensures old(Writable(c, SubmodelKey(aas, "ManagedDevice"))) ==>
      AasFindOne(c, SubmodelKey(aas, "ManagedDevice"))
      == Ok(Merged(old(ReadManagedDevice(c, aas)).value, StatusPatch("ONBOARDED", now).fields))
    ensures sent == StatusRequests(c, aas, server, aasUid, "ONBOARDED", now)
    ensures sent != [] ==> sent[0].body == Obj(AasFindOne(c, SubmodelKey(aas, "ManagedDevice")).value)
  {
    sent := [];
    var device := ReadManagedDevice(c, aas);
    if device.Err? {
      return;
    }
    var json := StatusPatch("ONBOARDED", now);
    var local := PatchSubmodelDatabase(c, aas, "ManagedDevice", json);
    if local.Err? {
      return;
    }
    MergeIdempotent(device.value, json.fields);
    var remote;
    remote, sent := PatchSubmodelServer(c, aas, "ManagedDevice", server, aasUid, json, respond);
  }

  /** `edge_device_onboarding`. The shell is fetched and stored (with
      upsert) in the shells collection, its submodels are fetched, and the
      thumbnail is downloaded; `imageWrite` is the outcome of saving the
      image file. A failed shell fetch, a failed shell or dictionary write,
      or a failed thumbnail makes the result an error; the ManagedDevice step
      never does. */
  method EdgeDeviceOnboarding(server: string, aasUid: string, aas: string, shells: Collection, c: Collection,
                              respond: Request -> Response, imageWrite: Option<string>, now: string)
    returns (r: Result<()>, sent: seq<Request>)
    requires shells != c
    requires shells.Valid() && c.Valid() && WellFormedResponses(respond)
    modifies shells, c
    ensures shells.Valid() && c.Valid() && shells.failures == old(shells.failures) && c.failures == old(c.failures)
    ensures |sent| >= 1 && sent[0] == GetRequest(ShellUrl(server, aasUid))
    ensures var shell := respond(GetRequest(ShellUrl(server, aasUid)));
      ShellFailed(shell) ==>
        r == Err(ShellErrorText(shell)) && sent == [GetRequest(ShellUrl(server, aasUid))]
        && shells.docs == old(shells.docs) && c.docs == old(c.docs)
    ensures var shell := respond(GetRequest(ShellUrl(server, aasUid)));
      !ShellFailed(shell) && !(aas !in shells.failures.onWrite && KeepsId(aas, shell.json.value.fields)) ==>
        r.Err? && sent == [GetRequest(ShellUrl(server, aasUid))]
        && shells.docs == old(shells.docs) && c.docs == old(c.docs)
    ensures var shell := respond(GetRequest(ShellUrl(server, aasUid)));
      !ShellFailed(shell) && aas !in shells.failures.onWrite && KeepsId(aas, shell.json.value.fields) ==>
        shells.docs == old(shells.docs)[aas := [Field("_id", Str(aas))] + Remove(shell.json.value.fields, "_id")]
    ensures var shell := respond(GetRequest(ShellUrl(server, aasUid)));
      !ShellFailed(shell) && aas !in shells.failures.onWrite && KeepsId(aas, shell.json.value.fields)
      && !ShellStored(server, aasUid, aas, shells, c, respond) ==>
        var ids := ShellSubmodelIds(shell.json.value.fields);
        r.Err? && sent == [GetRequest(ShellUrl(server, aasUid))]
        && c.docs == DocsAfter(old(c.docs), aas, Outcomes(server, aas, aasUid, ids, respond, c.failures.onWrite))
    ensures r.Ok? ==> ShellStored(server, aasUid, aas, shells, c, respond)
    ensures ShellStored(server, aasUid, aas, shells, c, respond) ==>
      var ids := ShellSubmodelIds(respond(GetRequest(ShellUrl(server, aasUid))).json.value.fields);
      var fetched := FetchedDocs(old(c.docs), aas, ids, Outcomes(server, aas, aasUid, ids, respond, c.failures.onWrite));
      (r.Ok? <==> Succeeded(respond(GetRequest(ThumbnailUrl(server, aasUid)))) && imageWrite.None?)
      && c.docs == (if r.Ok? then PatchedDocs(fetched, c.failures, SubmodelKey(aas, "ManagedDevice"), StatusPatch("ONBOARDED", now).fields)
                    else fetched)
      && (r.Ok? ==> sent == [GetRequest(ShellUrl(server, aasUid))]
                           + ([GetRequest(ThumbnailUrl(server, aasUid))] + StatusRequests(c, aas, server, aasUid, "ONBOARDED", now)))
  {
    var url := ShellUrl(server, aasUid);
    var more;
    r, more := OnboardShell(server, aasUid, aas, shells, c, respond(GetRequest(url)), respond, imageWrite, now);
    sent := [GetRequest(url)] + more;
  }

  /** The shell response is no document: the request failed, the status is
      not a success, or the body is not a JSON object. */
  predicate ShellFailed(shell: Response)
  {
    !(Succeeded(shell) && shell.json.Some? && shell.json.value.Obj?)
  }

  /** The error `edge_device_onboarding` returns for a failed shell
      response. */
  function ShellErrorText(shell: Response): string
  {
    if shell.SendFailure? then shell.reason
    else if !IsSuccess(shell.status) then "Failed to fetch URL. Status code: " + IntText(shell.status)
    else "Failed to read the shell as a document"
  }

  /** `edge_device_onboarding` once the shell GET has been answered with
      `shell`: check it, then store it and go on. */
  method OnboardShell(server: string, aasUid: string, aas: string, shells: Collection, c: Collection, shell: Response,
                      respond: Request -> Response, imageWrite: Option<string>, now: string)
    returns (r: Result<()>, sent: seq<Request>)
    requires shells != c
    requires shells.Valid() && c.Valid() && WellFormedResponses(respond)
    requires shell.Response? && shell.json.Some? ==> WellFormed(shell.json.value)
    modifies shells, c
    ensures shells.Valid() && c.Valid() && shells.failures == old(shells.failures) && c.failures == old(c.failures)
    ensures ShellFailed(shell) ==>
      r == Err(ShellErrorText(shell)) && sent == [] && shells.docs == old(shells.docs) && c.docs == old(c.docs)
    ensures !ShellFailed(shell) && !(aas !in shells.failures.onWrite && KeepsId(aas, shell.json.value.fields)) ==>
      r.Err? && sent == [] && shells.docs == old(shells.docs) && c.docs == old(c.docs)
    ensures !ShellFailed(shell) && aas !in shells.failures.onWrite && KeepsId(aas, shell.json.value.fields) ==>
      shells.docs == old(shells.docs)[aas := [Field("_id", Str(aas))] + Remove(shell.json.value.fields, "_id")]
    ensures !ShellFailed(shell) && aas !in shells.failures.onWrite && KeepsId(aas, shell.json.value.fields)
            && !ShellWritten(server, aasUid, aas, shell.json.value.fields, shells.failures.onWrite, c.failures.onWrite, respond) ==>
      var ids := ShellSubmodelIds(shell.json.value.fields);
      r.Err? && sent == [] && c.docs == DocsAfter(old(c.docs), aas, Outcomes(server, aas, aasUid, ids, respond, c.failures.onWrite))
    ensures r.Ok? ==>
      !ShellFailed(shell)
      && ShellWritten(server, aasUid, aas, shell.json.value.fields, shells.failures.onWrite, c.failures.onWrite, respond)
    ensures !ShellFailed(shell)
            && ShellWritten(server, aasUid, aas, shell.json.value.fields, shells.failures.onWrite, c.failures.onWrite, respond) ==>
      var ids := ShellSubmodelIds(shell.json.value.fields);
      var fetched := FetchedDocs(old(c.docs), aas, ids, Outcomes(server, aas, aasUid, ids, respond, c.failures.onWrite));
      (r.Ok? <==> Succeeded(respond(GetRequest(ThumbnailUrl(server, aasUid)))) && imageWrite.None?)
      && c.docs == (if r.Ok? then PatchedDocs(fetched, c.failures, SubmodelKey(aas, "ManagedDevice"), StatusPatch("ONBOARDED", now).fields)
                    else fetched)
      && (r.Ok? ==> sent == [GetRequest(ThumbnailUrl(server, aasUid))] + StatusRequests(c, aas, server, aasUid, "ONBOARDED", now))
  {
    if shell.SendFailure? {
      assert ShellFailed(shell);
      return Err(shell.reason), [];
    }
    if !IsSuccess(shell.status) {
      assert ShellFailed(shell);
      return Err("Failed to fetch URL. Status code: " + IntText(shell.status)), [];
    }
    if !(shell.json.Some? && shell.json.value.Obj?) {
      assert ShellFailed(shell);
      return Err("Failed to read the shell as a document"), [];
    }
    assert !ShellFailed(shell);
    r, sent := StoreShell(server, aasUid, aas, shells, c, shell.json.value.fields, respond, imageWrite, now);
  }

  /** The steps of `edge_device_onboarding` once the shell document `shell`
      is read: extract its submodel UIDs, store it (with upsert) in the
      shells collection, then the submodels, the thumbnail and the device. */
  method StoreShell(server: string, aasUid: string, aas: string, shells: Collection, c: Collection, shell: seq<Field>,
                    respond: Request -> Response, imageWrite: Option<string>, now: string)
    returns (r: Result<()>, sent: seq<Request>)
    requires shells != c
    requires shells.Valid() && c.Valid() && WellFormedResponses(respond) && WellFormedFields(shell)
    modifies shells, c
    ensures shells.Valid() && c.Valid() && shells.failures == old(shells.failures) && c.failures == old(c.failures)
    ensures !(aas !in shells.failures.onWrite && KeepsId(aas, shell)) ==>
      r.Err? && sent == [] && shells.docs == old(shells.docs) && c.docs == old(c.docs)
    ensures aas !in shells.failures.onWrite && KeepsId(aas, shell) ==>
      shells.docs == old(shells.docs)[aas := [Field("_id", Str(aas))] + Remove(shell, "_id")]
    ensures aas !in shells.failures.onWrite && KeepsId(aas, shell)
            && !ShellWritten(server, aasUid, aas, shell, shells.failures.onWrite, c.failures.onWrite, respond) ==>
      var ids := ShellSubmodelIds(shell);
      r.Err? && sent == [] && c.docs == DocsAfter(old(c.docs), aas, Outcomes(server, aas, aasUid, ids, respond, c.failures.onWrite))
    ensures r.Ok? ==> ShellWritten(server, aasUid, aas, shell, shells.failures.onWrite, c.failures.onWrite, respond)
    ensures ShellWritten(server, aasUid, aas, shell, shells.failures.onWrite, c.failures.onWrite, respond) ==>
      var ids := ShellSubmodelIds(shell);
      var fetched := FetchedDocs(old(c.docs), aas, ids, Outcomes(server, aas, aasUid, ids, respond, c.failures.onWrite));
      (r.Ok? <==> Succeeded(respond(GetRequest(ThumbnailUrl(server, aasUid)))) && imageWrite.None?)
      && c.docs == (if r.Ok? then PatchedDocs(fetched, c.failures, SubmodelKey(aas, "ManagedDevice"), StatusPatch("ONBOARDED", now).fields)
                    else fetched)
      && (r.Ok? ==> sent == [GetRequest(ThumbnailUrl(server, aasUid))] + StatusRequests(c, aas, server, aasUid, "ONBOARDED", now))
  {
    var ids := ExtractSubmodelsId(shell);
    var stored := shells.ReplaceOne(aas, shell, true);
    if stored.Err? {
      return Err(stored.error), [];
    }
    r, sent := SubmodelsAndDevice(server, aasUid, aas, c, ids.value, respond, imageWrite, now);
  }

  /** The steps of `edge_device_onboarding` once the shell is stored: fetch
      the submodels of `ids` and write the dictionary; only if that write
      succeeded, the thumbnail and the ManagedDevice. */
  method SubmodelsAndDevice(server: string, aasUid: string, aas: string, c: Collection, ids: seq<string>,
                            respond: Request -> Response, imageWrite: Option<string>, now: string)
    returns (r: Result<()>, sent: seq<Request>)
    requires c.Valid() && WellFormedResponses(respond)
    modifies c
    ensures c.Valid() && c.failures == old(c.failures)
    ensures var os := Outcomes(server, aas, aasUid, ids, respond, c.failures.onWrite);
      !(DictionaryKey(aas) !in c.failures.onWrite && KeepsId(DictionaryKey(aas), DictionaryOf(ids, os))) ==>
        r.Err? && sent == [] && c.docs == DocsAfter(old(c.docs), aas, os)
    ensures var os := Outcomes(server, aas, aasUid, ids, respond, c.failures.onWrite);
      DictionaryKey(aas) !in c.failures.onWrite && KeepsId(DictionaryKey(aas), DictionaryOf(ids, os)) ==>
        var fetched := FetchedDocs(old(c.docs), aas, ids, os);
        (r.Ok? <==> Succeeded(respond(GetRequest(ThumbnailUrl(server, aasUid)))) && imageWrite.None?)
        && (r.Ok? ==>
              c.docs == PatchedDocs(fetched, c.failures, SubmodelKey(aas, "ManagedDevice"), StatusPatch("ONBOARDED", now).fields)
              && sent == [GetRequest(ThumbnailUrl(server, aasUid))] + StatusRequests(c, aas, server, aasUid, "ONBOARDED", now))
        && (r.Err? ==> c.docs == fetched && sent == [GetRequest(ThumbnailUrl(server, aasUid))])
  {
    var fetched, dictionary := FetchAllSubmodels(server, aas, ids, c, aasUid, respond);
    if fetched.Err? {
      return Err(fetched.error), [];
    }
    r, sent := ThumbnailAndDevice(server, aasUid, aas, c, respond, imageWrite, now);
  }

  /** The steps of `edge_device_onboarding` after the dictionary write: GET
      the thumbnail, save it (`imageWrite` is the error of that file write,
      if any), then mark the device ONBOARDED. Only a failure before the
      device step fails the onboarding. */
  method ThumbnailAndDevice(server: string, aasUid: string, aas: string, c: Collection,
                            respond: Request -> Response, imageWrite: Option<string>, now: string)
    returns (r: Result<()>, sent: seq<Request>)
    requires c.Valid()
    modifies c
    ensures c.Valid() && c.failures == old(c.failures)
    ensures r.Ok? <==> Succeeded(respond(GetRequest(ThumbnailUrl(server, aasUid)))) && imageWrite.None?
    ensures r.Ok? ==>
      c.docs == PatchedDocs(old(c.docs), c.failures, SubmodelKey(aas, "ManagedDevice"), StatusPatch("ONBOARDED", now).fields)
      && sent == [GetRequest(ThumbnailUrl(server, aasUid))] + StatusRequests(c, aas, server, aasUid, "ONBOARDED", now)
    ensures r.Err? ==> c.docs == old(c.docs) && sent == [GetRequest(ThumbnailUrl(server, aasUid))]
    ensures respond(GetRequest(ThumbnailUrl(server, aasUid))).SendFailure? ==>
      r == Err(respond(GetRequest(ThumbnailUrl(server, aasUid))).reason)
    ensures respond(GetRequest(ThumbnailUrl(server, aasUid))).Response?
            && !IsSuccess(respond(GetRequest(ThumbnailUrl(server, aasUid))).status) ==>
      r == Err("Failed to retrieve image")
    ensures Succeeded(respond(GetRequest(ThumbnailUrl(server, aasUid)))) && imageWrite.Some? ==> r == Err(imageWrite.value)
  {
    var thumbnail := respond(GetRequest(ThumbnailUrl(server, aasUid)));
    sent := [GetRequest(ThumbnailUrl(server, aasUid))];
    if thumbnail.SendFailure? {
      r := Err(thumbnail.reason);
      return;
    }
    if !IsSuccess(thumbnail.status) {
      r := Err("Failed to retrieve image");
      return;
    }
    if imageWrite.Some? {
      r := Err(imageWrite.value);
      return;
    }
    var deviceRequests := OnboardingManagedDevice(aas, server, aasUid, c, now, respond);
    sent := sent + deviceRequests;
    r := Ok(());
  }

  /** The shell document was stored and the submodels dictionary written:
      the steps before the thumbnail all succeeded. `shellWrites` and
      `writes` are the write errors of the shells and submodels collections. */
  predicate ShellWritten(server: string, aasUid: string, aas: string, shell: seq<Field>,
                         shellWrites: map<string, string>, writes: map<string, string>, respond: Request -> Response)
  {
    aas !in shellWrites && KeepsId(aas, shell)
    && DictionaryKey(aas) !in writes
    && KeepsId(DictionaryKey(aas),
               DictionaryOf(ShellSubmodelIds(shell), Outcomes(server, aas, aasUid, ShellSubmodelIds(shell), respond, writes)))
  }

  /** The shell was fetched as an object and the steps before the thumbnail
      all succeeded. */
  ghost predicate ShellStored(server: string, aasUid: string, aas: string, shells: Collection, c: Collection,
                              respond: Request -> Response)
    reads shells, c
  {
    var shell := respond(GetRequest(ShellUrl(server, aasUid)));
    !ShellFailed(shell)
    && ShellWritten(server, aasUid, aas, shell.json.value.fields, shells.failures.onWrite, c.failures.onWrite, respond)
  }
}
