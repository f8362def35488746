/** The periodic jobs of the backend (backend/src/functions/scheduler_task.rs).
    Pushing: probe the device, store the probe as SystemInformation, read
    ManagedDevice and act on its BoardingStatus. Polling: refresh listed
    submodels from the registry. The system probe script, the clock and
    RFC 3339 parsing are parameters: a probe outcome, the current time in
    seconds with its RFC 3339 text, and a parser from text to seconds. */
module SchedulerTask {
  import opened Json
  import opened Http
  import opened MongoStore
  import opened AasInterfaces

  // -----------------------------------------------------------------------
  // The status dispatch
  // -----------------------------------------------------------------------

  /** What a tick does about the device's BoardingStatus. */
  datatype Action =
    | Offboard            // write OFFBOARDED locally, then remotely
    | Wait                // offboarded, and the offboarding time has not passed
    | Onboard             // write ONBOARDED locally, then remotely, then push a fresh probe
    | PushSystemInformation
    | Ignore              // any other status ("Invalid boarding status")

  /** The `match` of `server_pushing` on the status, with the two elapsed-time
      guards of OFFBOARDED. */
  function Dispatch(status: string, elapsed: int, offboardingTime: int): (a: Action)
    ensures a == Offboard <==> status == "OFFBOARDING_REQUESTED"
    ensures a == Wait <==> status == "OFFBOARDED" && elapsed < offboardingTime
    ensures a == Onboard <==> status == "OFFBOARDED" && elapsed >= offboardingTime
    ensures a == PushSystemInformation <==> status == "ONBOARDED"
  {
    if status == "OFFBOARDING_REQUESTED" then Offboard
    else if status == "OFFBOARDED" && elapsed < offboardingTime then Wait
    else if status == "OFFBOARDED" && elapsed >= offboardingTime then Onboard
    else if status == "ONBOARDED" then PushSystemInformation
    else Ignore
  }

  /** The statuses the dispatch acts on. */
  predicate KnownStatus(status: string)
  {
    status == "OFFBOARDING_REQUESTED" || status == "OFFBOARDED" || status == "ONBOARDED"
  }

  /** Only OFFBOARDED looks at the time, and its two guards cover every
      elapsed value: an OFFBOARDED device is never ignored. */
  lemma DispatchTime(status: string, e1: int, e2: int, offboardingTime: int)
    ensures status != "OFFBOARDED" ==> Dispatch(status, e1, offboardingTime) == Dispatch(status, e2, offboardingTime)
    ensures status == "OFFBOARDED" ==> Dispatch(status, e1, offboardingTime) in {Wait, Onboard}
    ensures Dispatch(status, e1, offboardingTime) == Ignore <==> !KnownStatus(status)
  {
  }

  /** Once the waiting time has passed, it stays passed: an OFFBOARDED device
      that would be onboarded now would be onboarded at any later time. */
  lemma OnboardMonotone(elapsed: int, later: int, offboardingTime: int)
    requires elapsed <= later && Dispatch("OFFBOARDED", elapsed, offboardingTime) == Onboard
    ensures Dispatch("OFFBOARDED", later, offboardingTime) == Onboard
  {
  }

  /** The status text a ManagedDevice document holds; "UNKNOWN" when it is
      missing or not a string. */
  function StatusOf(device: seq<Field>): (s: string)
    ensures GetStr(device, "BoardingStatus").Some? ==> s == GetStr(device, "BoardingStatus").value
    ensures GetStr(device, "BoardingStatus").None? ==> s == "UNKNOWN"
  {
    match GetStr(device, "BoardingStatus")
    case Some(s) => s
    case None => "UNKNOWN"
  }

  /** The LastUpdate text, with the same default. */
  function LastUpdateOf(device: seq<Field>): (s: string)
    ensures GetStr(device, "LastUpdate").Some? ==> s == GetStr(device, "LastUpdate").value
    ensures GetStr(device, "LastUpdate").None? ==> s == "UNKNOWN"
  {
    match GetStr(device, "LastUpdate")
    case Some(s) => s
    case None => "UNKNOWN"
  }

  /** A missing status is never acted on. */
  lemma MissingStatusIgnored(device: seq<Field>, elapsed: int, offboardingTime: int)
    requires GetStr(device, "BoardingStatus").None?
    ensures Dispatch(StatusOf(device), elapsed, offboardingTime) == Ignore
  {
  }

  // -----------------------------------------------------------------------
  // The handlers
  // -----------------------------------------------------------------------

  /** `update_submodel_database`: the local patch, with its error prefixed.
      It succeeds exactly when the submodel can be read and written and the
      patch is an object. */
  method UpdateSubmodelDatabase(c: Collection, aas: string, submodel: string, json: Value)
    returns (r: Result<()>)
    requires c.Valid() && WellFormed(json)
    modifies c
    ensures c.Valid() && c.failures == old(c.failures)
    ensures r.Ok? <==> old(Writable(c, SubmodelKey(aas, submodel))) && json.Obj?
    ensures c.docs == if json.Obj? then PatchedDocs(old(c.docs), c.failures, SubmodelKey(aas, submodel), json.fields)
                      else old(c.docs)
    ensures r.Ok? ==>
      AasFindOne(c, SubmodelKey(aas, submodel)) == Ok(Merged(old(AasFindOne(c, SubmodelKey(aas, submodel))).value, json.fields))
    ensures Writable(c, SubmodelKey(aas, submodel)) == old(Writable(c, SubmodelKey(aas, submodel)))
  {
    var patched := PatchSubmodelDatabase(c, aas, submodel, json);
    if patched.Err? {
      return Err("Failed to patch submodel to database: " + patched.error);
    }
    return Ok(());
  }

  /** `update_submodel_server`: the remote patch, with its error prefixed. */
  method UpdateSubmodelServer(c: Collection, aas: string, submodel: string, server: string, aasUid: string,
                              json: Value, respond: Request -> Response)
    returns (r: Result<()>, sent: seq<Request>)
    requires c.Valid() && WellFormed(json)
    ensures sent == Requests(RemotePatch(c, aas, submodel, server, aasUid, json))
    ensures r.Ok? <==> sent != [] && Accepted(respond(sent[0]))
  {
    var patched;
    patched, sent := PatchSubmodelServer(c, aas, submodel, server, aasUid, json, respond);
    if patched.Err? {
      return Err("Failed to patch submodel to server: " + patched.error), sent;
    }
    return Ok(()), sent;
  }

  /** The ManagedDevice status write shared by `handle_offboarding` and the
      first two steps of `handle_onboarding`: local first, then remote only
      if the local write succeeded. The registry receives exactly the
      document now stored locally. */
  method WriteStatus(c: Collection, aas: string, server: string, aasUid: string, status: string, now: string,
                     respond: Request -> Response)
    returns (r: Result<()>, sent: seq<Request>)
    requires c.Valid()
    modifies c
    ensures c.Valid() && c.failures == old(c.failures)
    ensures c.docs == PatchedDocs(old(c.docs), c.failures, SubmodelKey(aas, "ManagedDevice"), StatusPatch(status, now).fields)
    ensures Writable(c, SubmodelKey(aas, "ManagedDevice")) == old(Writable(c, SubmodelKey(aas, "ManagedDevice")))
    ensures var key := SubmodelKey(aas, "ManagedDevice");
      old(Writable(c, key)) ==>
        AasFindOne(c, key) == Ok(Merged(old(AasFindOne(c, key)).value, StatusPatch(status, now).fields))
    ensures sent == StatusRequests(c, aas, server, aasUid, status, now)
    ensures sent != [] ==> sent[0].body == Obj(AasFindOne(c, SubmodelKey(aas, "ManagedDevice")).value)
    ensures r.Ok? <==> sent != [] && Accepted(respond(sent[0]))
  {
    var json := StatusPatch(status, now);
    ghost var key := SubmodelKey(aas, "ManagedDevice");
    ghost var before := AasFindOne(c, key);
    var local := UpdateSubmodelDatabase(c, aas, "ManagedDevice", json);
    if local.Err? {
      assert !Writable(c, key);
      return local, [];
    }
    MergeIdempotent(before.value, json.fields);
    assert Writable(c, key) && AasFindOne(c, key) == Ok(Merged(before.value, json.fields));
    r, sent := UpdateSubmodelServer(c, aas, "ManagedDevice", server, aasUid, json, respond);
  }

  /** `handle_offboarding`: mark the device OFFBOARDED at `now`. */
  method HandleOffboarding(c: Collection, aas: string, server: string, aasUid: string, now: string,
                           respond: Request -> Response)
    returns (r: Result<()>, sent: seq<Request>)
    requires c.Valid()
    modifies c
    ensures c.Valid() && c.failures == old(c.failures)
    ensures c.docs == PatchedDocs(old(c.docs), c.failures, SubmodelKey(aas, "ManagedDevice"), StatusPatch("OFFBOARDED", now).fields)
    ensures var key := SubmodelKey(aas, "ManagedDevice");
      old(Writable(c, key)) ==>
        AasFindOne(c, key) == Ok(Merged(old(AasFindOne(c, key)).value, StatusPatch("OFFBOARDED", now).fields))
    ensures sent == StatusRequests(c, aas, server, aasUid, "OFFBOARDED", now)
    ensures sent != [] ==> sent[0].body == Obj(AasFindOne(c, SubmodelKey(aas, "ManagedDevice")).value)
    ensures r.Ok? <==> sent != [] && Accepted(respond(sent[0]))
  {
    r, sent := WriteStatus(c, aas, server, aasUid, "OFFBOARDED", now, respond);
  }

  /** The requests `handle_onboarding` sends: the PATCH of the status write
      and, once the registry accepted it and the second probe ran, the PATCH
      of that probe to the remote SystemInformation. */
  function OnboardingRequests(c: Collection, aas: string, server: string, aasUid: string, now: string,
                              reprobe: Result<Value>, respond: Request -> Response): seq<Request>
    requires c.Valid()
    reads c
  {
    var first := StatusRequests(c, aas, server, aasUid, "ONBOARDED", now);
    if first != [] && Accepted(respond(first[0])) && reprobe.Ok?
    then first + Requests(RemotePatch(c, aas, "SystemInformation", server, aasUid, reprobe.value))
    else first
  }

  /** `handle_onboarding`: mark the device ONBOARDED (local, then remote),
      then run the probe again and push it to the remote SystemInformation.
      Each step runs only if the previous one succeeded; `reprobe` is the
      outcome of that second probe run. */
  method HandleOnboarding(c: Collection, aas: string, server: string, aasUid: string, now: string,
                          reprobe: Result<Value>, respond: Request -> Response)
    returns (r: Result<()>, sent: seq<Request>)
    requires c.Valid() && (reprobe.Ok? ==> WellFormed(reprobe.value))
    modifies c
    ensures c.Valid() && c.failures == old(c.failures)
    ensures c.docs == PatchedDocs(old(c.docs), c.failures, SubmodelKey(aas, "ManagedDevice"), StatusPatch("ONBOARDED", now).fields)
    ensures var key := SubmodelKey(aas, "ManagedDevice");
      old(Writable(c, key)) ==>
        AasFindOne(c, key) == Ok(Merged(old(AasFindOne(c, key)).value, StatusPatch("ONBOARDED", now).fields))
    ensures sent == OnboardingRequests(c, aas, server, aasUid, now, reprobe, respond)
    ensures sent != [] ==> sent[0].body == Obj(AasFindOne(c, SubmodelKey(aas, "ManagedDevice")).value)
    ensures r.Ok? <==> |sent| == 2 && Accepted(respond(sent[1]))
  {
    var status, first := WriteStatus(c, aas, server, aasUid, "ONBOARDED", now, respond);
    sent := first;
    if status.Err? {
      return status, sent;
    }
    if reprobe.Err? {
      return Err(reprobe.error), sent;
    }
    r, sent := PushReprobe(c, aas, server, aasUid, first, reprobe.value, respond);
  }

  /** The last step of `handle_onboarding`, after the status write sent
      `first`: push the second probe to the remote SystemInformation. */
  method PushReprobe(c: Collection, aas: string, server: string, aasUid: string, first: seq<Request>,
                     json: Value, respond: Request -> Response)
    returns (r: Result<()>, sent: seq<Request>)
    requires c.Valid() && WellFormed(json)
    ensures sent == first + Requests(RemotePatch(c, aas, "SystemInformation", server, aasUid, json))
    ensures r.Ok? <==> |sent| == |first| + 1 && Accepted(respond(sent[|first|]))
  {
    var more;
    r, more := UpdateSubmodelServer(c, aas, "SystemInformation", server, aasUid, json, respond);
    sent := first + more;
    assert more != [] ==> sent[|first|] == more[0];
  }

  /** `handle_onboarded_status`: push this tick's probe to the remote
      SystemInformation; nothing is written locally. */
  method HandleOnboardedStatus(c: Collection, aas: string, server: string, aasUid: string, json: Value,
                               respond: Request -> Response)
    returns (r: Result<()>, sent: seq<Request>)
    requires c.Valid() && WellFormed(json)
    ensures sent == Requests(RemotePatch(c, aas, "SystemInformation", server, aasUid, json))
    ensures r.Ok? <==> sent != [] && Accepted(respond(sent[0]))
  {
    r, sent := UpdateSubmodelServer(c, aas, "SystemInformation", server, aasUid, json, respond);
  }

  // -----------------------------------------------------------------------
  // One pushing tick
  // -----------------------------------------------------------------------

  /** The ManagedDevice read succeeded and its LastUpdate parses. */
  predicate Readable(device: Result<seq<Field>>, parse: string -> Option<int>)
  {
    device.Ok? && parse(LastUpdateOf(device.value)).Some?
  }

  /** The action a tick takes for the device read at its start: none when
      the read failed or LastUpdate does not parse, otherwise the dispatch on
      its status and the time elapsed since LastUpdate. */
  function ChosenAction(device: Result<seq<Field>>, now: int, parse: string -> Option<int>,
                        offboardingTime: int): (acted: Option<Action>)
    ensures acted.Some? <==> Readable(device, parse)
  {
    if Readable(device, parse) then
      Some(Dispatch(StatusOf(device.value), now - parse(LastUpdateOf(device.value)).value, offboardingTime))
    else None
  }

  /** The stored documents after the handler of `action`: offboarding and
      onboarding patch ManagedDevice with their status, every other action
      writes nothing locally. */
  function ActionDocs(docs: map<string, seq<Field>>, failures: Faults, aas: string, action: Action, nowText: string)
    : map<string, seq<Field>>
  {
    match action
    case Offboard => PatchedDocs(docs, failures, SubmodelKey(aas, "ManagedDevice"), StatusPatch("OFFBOARDED", nowText).fields)
    case Onboard => PatchedDocs(docs, failures, SubmodelKey(aas, "ManagedDevice"), StatusPatch("ONBOARDED", nowText).fields)
    case _ => docs
  }

  /** The requests the handler of `action` sends, read off the store once
      it has run; waiting and ignoring send nothing. */
  function ActionRequests(c: Collection, aas: string, server: string, aasUid: string, action: Action, json: Value,
                          nowText: string, reprobe: Result<Value>, respond: Request -> Response): seq<Request>
    requires c.Valid()
    reads c
  {
    match action
    case Offboard => StatusRequests(c, aas, server, aasUid, "OFFBOARDED", nowText)
    case Onboard => OnboardingRequests(c, aas, server, aasUid, nowText, reprobe, respond)
    case PushSystemInformation => Requests(RemotePatch(c, aas, "SystemInformation", server, aasUid, json))
    case _ => []
  }

  /** The stored documents after a whole tick: the probe merged into
      SystemInformation (when it is an object), then the action's write. */
  function TickDocs(docs: map<string, seq<Field>>, failures: Faults, aas: string, probe: Result<Value>,
                    acted: Option<Action>, nowText: string): map<string, seq<Field>>
  {
    var stored :=
      if probe.Ok? && probe.value.Obj?
      then PatchedDocs(docs, failures, SubmodelKey(aas, "SystemInformation"), probe.value.fields)
      else docs;
    if acted.Some? then ActionDocs(stored, failures, aas, acted.value, nowText) else stored
  }

  /** A ManagedDevice without a LastUpdate string is never acted on: its
      LastUpdate reads as "UNKNOWN", which is not an RFC 3339 time. */
  lemma MissingLastUpdateIdle(device: seq<Field>, now: int, parse: string -> Option<int>, offboardingTime: int)
    requires GetStr(device, "LastUpdate").None? && parse("UNKNOWN").None?
    ensures ChosenAction(Ok(device), now, parse, offboardingTime) == None
  {
  }

  /** `server_pushing`. `probe` and `reprobe` are the outcomes of the two
      runs of the probe script, `now` the clock in seconds and `nowText` its
      RFC 3339 text, `parse` the RFC 3339 parser, which rejects "UNKNOWN".
      The result is the action dispatched, or None when the tick ended
      before the dispatch. */
  method ServerPushing(c: Collection, aas: string, server: string, aasUid: string, offboardingTime: int,
                       probe: Result<Value>, reprobe: Result<Value>, now: int, nowText: string,
                       parse: string -> Option<int>, respond: Request -> Response)
    returns (acted: Option<Action>, sent: seq<Request>)
    requires c.Valid()
    requires probe.Ok? ==> WellFormed(probe.value)
    requires reprobe.Ok? ==> WellFormed(reprobe.value)
    requires parse("UNKNOWN").None?
    modifies c
    ensures c.Valid() && c.failures == old(c.failures)
    ensures acted.Some? <==>
      probe.Ok? && probe.value.Obj?
      && old(Writable(c, SubmodelKey(aas, "SystemInformation")))
      && Readable(old(ReadManagedDevice(c, aas)), parse)
    ensures acted.Some? ==> acted == ChosenAction(old(ReadManagedDevice(c, aas)), now, parse, offboardingTime)
    ensures old(ReadManagedDevice(c, aas)).Ok? && GetStr(old(ReadManagedDevice(c, aas)).value, "LastUpdate").None? ==>
      acted.None?
    ensures c.docs == TickDocs(old(c.docs), c.failures, aas, probe, acted, nowText)
    ensures sent == if acted.Some? then ActionRequests(c, aas, server, aasUid, acted.value, probe.value, nowText, reprobe, respond)
                    else []
  {
    sent := [];
    acted := None;
    if probe.Err? {
      return;
    }
    var json := probe.value;
    ghost var before := ReadManagedDevice(c, aas);
    var stored := StoreSystemInformation(c, aas, json);
    if stored.Err? {
      return;
    }
    var device := ReadManagedDevice(c, aas);
    assert device == before;
    if device.Ok? && GetStr(device.value, "LastUpdate").None? {
      MissingLastUpdateIdle(device.value, now, parse, offboardingTime);
    }
    acted := ChosenAction(device, now, parse, offboardingTime);
    if acted.Some? {
      sent := RunAction(c, aas, server, aasUid, acted.value, json, nowText, reprobe, respond);
    }
  }

  /** The first step of `server_pushing`: this tick's probe is merged into
      the local SystemInformation; the ManagedDevice document is not
      touched. */
  method StoreSystemInformation(c: Collection, aas: string, json: Value) returns (r: Result<()>)
    requires c.Valid() && WellFormed(json)
    modifies c
    ensures c.Valid() && c.failures == old(c.failures)
    ensures r.Ok? <==> old(Writable(c, SubmodelKey(aas, "SystemInformation"))) && json.Obj?
    ensures c.docs == if json.Obj? then PatchedDocs(old(c.docs), c.failures, SubmodelKey(aas, "SystemInformation"), json.fields)
                      else old(c.docs)
    ensures ReadManagedDevice(c, aas) == old(ReadManagedDevice(c, aas))
  {
    ghost var device := ReadManagedDevice(c, aas);
    r := UpdateSubmodelDatabase(c, aas, "SystemInformation", json);
    SubmodelKeysDiffer(aas, "SystemInformation", "ManagedDevice");
    assert SubmodelKey(aas, "ManagedDevice") in old(c.docs) ==>
      c.docs[SubmodelKey(aas, "ManagedDevice")] == old(c.docs)[SubmodelKey(aas, "ManagedDevice")];
    assert ReadManagedDevice(c, aas) == device;
  }

  /** The arm of the dispatch `match` that runs `action`; the handler's own
      result is only logged. */
  method RunAction(c: Collection, aas: string, server: string, aasUid: string, action: Action, json: Value,
                   nowText: string, reprobe: Result<Value>, respond: Request -> Response)
    returns (sent: seq<Request>)
    requires c.Valid() && WellFormed(json) && (reprobe.Ok? ==> WellFormed(reprobe.value))
    modifies c
    ensures c.Valid() && c.failures == old(c.failures)
    ensures c.docs == ActionDocs(old(c.docs), c.failures, aas, action, nowText)
    ensures sent == ActionRequests(c, aas, server, aasUid, action, json, nowText, reprobe, respond)
  {
    sent := [];
    match action {
      case Offboard =>
        var _, s := HandleOffboarding(c, aas, server, aasUid, nowText, respond);
        sent := s;
      case Wait =>
      case Onboard =>
        var _, s := HandleOnboarding(c, aas, server, aasUid, nowText, reprobe, respond);
        sent := s;
      case PushSystemInformation =>
        var _, s := HandleOnboardedStatus(c, aas, server, aasUid, json, respond);
        sent := s;
      case Ignore =>
    }
  }

  // -----------------------------------------------------------------------
  // Polling
  // -----------------------------------------------------------------------

  /** The key belongs to one of the first `n` polled submodels. */
  predicate Polled(aas: string, ids: seq<string>, n: nat, key: string)
    requires n <= |ids|
  {
    exists j :: 0 <= j < n && key == SubmodelKey(aas, ids[j])
  }

  /** `server_polling`, for any list of idShorts: each is fetched in turn and
      replaces its local document; a failure is only logged, so every id is
      visited. Polling never creates a document and touches no document
      other than the polled ones. */
  method ServerPolling(c: Collection, aas: string, server: string, aasUid: string, ids: seq<string>,
                       respond: Request -> Response)
    returns (results: seq<Result<()>>, sent: seq<Request>)
    requires c.Valid() && WellFormedResponses(respond)
    modifies c
    ensures c.Valid() && c.failures == old(c.failures)
    ensures |results| == |ids| && |sent| <= |ids|
    ensures c.docs.Keys == old(c.docs).Keys
    ensures forall key :: key in old(c.docs) && !Polled(aas, ids, |ids|, key) ==> c.docs[key] == old(c.docs)[key]
  {
    results := [];
    sent := [];
    var i := 0;
    while i < |ids|
      invariant 0 <= i <= |ids|
      invariant c.Valid() && c.failures == old(c.failures)
      invariant |results| == i && |sent| <= i
      invariant c.docs.Keys == old(c.docs).Keys
      invariant forall key :: key in old(c.docs) && !Polled(aas, ids, i, key) ==> c.docs[key] == old(c.docs)[key]
    {
      var r, s := FetchSingleSubmodelFromServer(server, aas, aasUid, ids[i], c, respond);
      results := results + [r];
      sent := sent + s;
      i := i + 1;
    }
  }

  /** The submodels the backend polls. */
  const PolledSubmodels: seq<string> := ["ManagedDevice"]

  /** One polling tick: only ManagedDevice is refreshed. */
  method PollManagedDevice(c: Collection, aas: string, server: string, aasUid: string, respond: Request -> Response)
    returns (sent: seq<Request>)
    requires c.Valid() && WellFormedResponses(respond)
    modifies c
    ensures c.Valid() && c.docs.Keys == old(c.docs).Keys && |sent| <= 1
    ensures forall key :: key in old(c.docs) && key != SubmodelKey(aas, "ManagedDevice") ==> c.docs[key] == old(c.docs)[key]
  {
    var results;
    results, sent := ServerPolling(c, aas, server, aasUid, PolledSubmodels, respond);
  }
}
