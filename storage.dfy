/** The history store of app.js (app.js:141-229 and the save handler at
    app.js:542-607): the in-memory list of saved records, the readiness and
    local-mode flags, and the browser's persisted slot under `STORAGE_KEY`,
    used when the data service is absent or fails to start. */
module Storage {
  import opened Wrappers
  import opened Generation
  import opened Records

  /** The value under `STORAGE_KEY` (`creator_intelligence_history`), as
      `loadFromLocalStorage` can read it: nothing stored (or an empty string),
      text that does not parse, or a parsed list of records. */
  datatype Persisted = Missing | Corrupt | Stored(records: seq<Record>)

  /** What `loadFromLocalStorage` returns for a slot: its records when it holds
      a parsed list, and the empty list when it is missing or does not parse. */
  function Load(slot: Persisted): (records: seq<Record>)
    ensures slot.Stored? ==> records == slot.records
    ensures !slot.Stored? ==> records == []
  {
    match slot
    case Stored(rs) => rs
    case _ => []
  }

  /** How `initDataSdk` meets the data service: `window.dataSdk` is absent, or
      `init` resolved with the given `isOk`, or `init` threw. */
  datatype SdkInit = Absent | Resolved(isOk: bool) | Threw

  /** What `window.dataSdk.create(payload)` does: resolve with `isOk`, resolve
      with an error whose message may be missing, or throw with a message. */
  datatype CreateResult = Created | CreateFailed(errorMessage: Option<string>) | CreateThrew(message: string)

  /** The three guards of the save handler, in the order it checks them. */
  datatype Rejection = NoContent | NotReady | LimitReached

  /** How a click on "Save to History" ends: turned away by a guard, appended
      to the local list, accepted by the data service, or failed with the
      message the error toast shows. */
  datatype SaveOutcome = Rejected(reason: Rejection) | SavedLocal(record: Record) | SavedRemote | Failed(message: string)

  /** The history holds fewer than this many records before a save. */
  const HistoryLimit: nat := 999

  /** The first guard of the save handler that turns the click away, if any. */
  function SaveGuard(content: Option<Content>, ready: bool, count: nat): (r: Option<Rejection>)
    ensures r == None <==> content.Some? && ready && count < HistoryLimit
    ensures r == Some(NoContent) <==> content.None?
    ensures r == Some(NotReady) <==> content.Some? && !ready
    ensures r == Some(LimitReached) <==> content.Some? && ready && count >= HistoryLimit
  {
    if content.None? then Some(NoContent)
    else if !ready then Some(NotReady)
    else if count >= HistoryLimit then Some(LimitReached)
    else None
  }

  /** The outcome of a save in remote mode: only a resolved `isOk` is a
      success; a failed create shows its error message, or "Unknown error"
      when that is missing or empty; a thrown error shows its message. */
  function RemoteOutcome(create: CreateResult): (outcome: SaveOutcome)
    ensures outcome == SavedRemote <==> create == Created
    ensures outcome.Failed? <==> !create.Created?
    ensures create.CreateFailed? && (create.errorMessage == None || create.errorMessage == Some("")) ==>
      outcome == Failed("Failed to save: Unknown error")
    ensures create.CreateFailed? && create.errorMessage.Some? && create.errorMessage.value != "" ==>
      outcome == Failed("Failed to save: " + create.errorMessage.value)
    ensures create.CreateThrew? ==> outcome == Failed("Error saving: " + create.message)
  {
    match create
    case Created => SavedRemote
    case CreateFailed(m) =>
      Failed("Failed to save: " + (if m.Some? && m.value != "" then m.value else "Unknown error"))
    case CreateThrew(m) => Failed("Error saving: " + m)
  }

  class HistoryStore {
    /** `currentRecords`: the list the history screen shows. */
    var currentRecords: seq<Record>
    /** `dataSdkReady`: set once `initDataSdk` has finished. */
    var dataSdkReady: bool
    /** `useLocalStorage`: records go to the persisted slot, not the service. */
    var useLocalStorage: bool
    /** The persisted slot under `STORAGE_KEY`. */
    var slot: Persisted

    /** In local mode the list in memory is the list on disk. */
    ghost predicate InSync()
      reads this
    {
      useLocalStorage ==> currentRecords == Load(slot)
    }

    /** The module-level state when app.js starts (app.js:144-147), over
        whatever an earlier visit left in the slot. */
    constructor (persisted: Persisted)
      ensures currentRecords == [] && !dataSdkReady && !useLocalStorage
      ensures slot == persisted
    {
      currentRecords := [];
      dataSdkReady := false;
      useLocalStorage := false;
      slot := persisted;
    }

    /** `loadFromLocalStorage()`: never fails. */
    method LoadFromLocalStorage() returns (records: seq<Record>)
      ensures records == Load(slot)
      ensures !slot.Stored? ==> records == []
    {
      records := if slot.Stored? then slot.records else [];
    }

    /** `saveToLocalStorage(records)`, with `writeSucceeds` saying whether
        `localStorage.setItem` returns or throws; a failed write leaves the
        slot as it was and returns false. */
    method SaveToLocalStorage(records: seq<Record>, writeSucceeds: bool) returns (ok: bool)
      modifies this`slot
      ensures ok == writeSucceeds
      ensures slot == if ok then Stored(records) else old(slot)
    {
      if writeSucceeds {
        slot := Stored(records);
        ok := true;
      } else {
        ok := false;
      }
    }

    /** `addToLocalStorage(record)`: reload the slot, push the record with a
        fresh local identity, and write the whole list back. The result of the
        write is ignored. */
    method AddToLocalStorage(payload: Payload, millis: nat, randomText: string, writeSucceeds: bool)
      returns (newRecord: Record)
      modifies this`slot
      ensures newRecord == Record(payload, LocalId(millis, randomText))
      ensures slot == if writeSucceeds then Stored(Load(old(slot)) + [newRecord]) else old(slot)
    {
      var records := LoadFromLocalStorage();
      newRecord := Record(payload, LocalId(millis, randomText));
      records := records + [newRecord];
      var written := SaveToLocalStorage(records, writeSucceeds);
    }

    /** `dataHandler.onDataChanged(data)`: the service's list replaces the
        one in memory wholesale; `null` or `undefined` reads as empty. */
    method OnDataChanged(data: Option<seq<Record>>)
      modifies this`currentRecords
      ensures currentRecords == if data.Some? then data.value else []
    {
      currentRecords := if data.Some? then data.value else [];
    }

    /** `initDataSdk()`: every path ends ready; only an `init` that resolves
        with `isOk` selects the data service, and every fallback loads the
        persisted list into memory. */
    method InitDataSdk(sdk: SdkInit)
      modifies this`dataSdkReady, this`useLocalStorage, this`currentRecords
      ensures dataSdkReady
      ensures useLocalStorage <==> sdk != Resolved(true)
      ensures currentRecords == if useLocalStorage then Load(slot) else old(currentRecords)
      ensures slot == old(slot)
      ensures InSync()
    {
      if sdk == Absent {
        useLocalStorage := true;
        dataSdkReady := true;
        currentRecords := LoadFromLocalStorage();
        return;
      }
      match sdk
      case Resolved(isOk) =>
        if isOk {
          dataSdkReady := true;
          useLocalStorage := false;
        } else {
          useLocalStorage := true;
          dataSdkReady := true;
          currentRecords := LoadFromLocalStorage();
        }
      case Threw =>
        useLocalStorage := true;
        dataSdkReady := true;
        currentRecords := LoadFromLocalStorage();
    }

    /** The "Save to History" click handler, with `content` standing for
        `lastGeneratedContent` and `createdAt`, `millis`, `randomText`,
        `writeSucceeds` and `create` for what the clock, the random source,
        `localStorage` and the data service give it. A rejected click changes
        nothing. A local save appends one record, keeps the earlier ones in
        order, and reloads memory from the slot, so memory and slot agree even
        when the write fails. A remote save leaves memory to `OnDataChanged`. */
    method Save(content: Option<Content>, createdAt: string, millis: nat, randomText: string,
                writeSucceeds: bool, create: CreateResult) returns (outcome: SaveOutcome)
      modifies this`currentRecords, this`slot
      ensures SaveGuard(content, dataSdkReady, |old(currentRecords)|).Some? ==>
        && outcome == Rejected(SaveGuard(content, dataSdkReady, |old(currentRecords)|).value)
        && currentRecords == old(currentRecords) && slot == old(slot)
      ensures SaveGuard(content, dataSdkReady, |old(currentRecords)|).None? && useLocalStorage ==>
        var r := Record(BuildPayload(content.value, createdAt), LocalId(millis, randomText));
        && outcome == SavedLocal(r)
        && slot == (if writeSucceeds then Stored(Load(old(slot)) + [r]) else old(slot))
        && currentRecords == Load(slot)
      ensures SaveGuard(content, dataSdkReady, |old(currentRecords)|).None? && !useLocalStorage ==>
        && outcome == RemoteOutcome(create)
        && currentRecords == old(currentRecords) && slot == old(slot)
      ensures old(InSync()) ==> InSync()
      ensures old(InSync()) && outcome.SavedLocal? ==> |currentRecords| <= HistoryLimit
    {
      if content.None? {
        return Rejected(NoContent);
      }
      if !dataSdkReady {
        return Rejected(NotReady);
      }
      if |currentRecords| >= HistoryLimit {
        return Rejected(LimitReached);
      }
      var payload := BuildPayload(content.value, createdAt);
      if useLocalStorage {
        var newRecord := AddToLocalStorage(payload, millis, randomText, writeSucceeds);
        currentRecords := LoadFromLocalStorage();
        outcome := SavedLocal(newRecord);
      } else {
        outcome := RemoteOutcome(create);
      }
    }
  }

  /** A first visit without the data service saves one record; a later visit
      over the same slot, again without the service, shows exactly that
      record with the same fields and identity. */
  method SaveThenReload(content: Content, createdAt: string, millis: nat, randomText: string)
    returns (saved: seq<Record>, reloaded: seq<Record>)
    ensures |saved| == 1
    ensures saved[0].fields == BuildPayload(content, createdAt)
    ensures 0 < |content.topic| <= TopicCap ==> saved[0].fields.topic == content.topic
    ensures IsLocalIdShape(saved[0].backendId)
    ensures LocalIdMillis(saved[0].backendId) == Some(millis)
    ensures reloaded == saved
  {
    var store := new HistoryStore(Missing);
    store.InitDataSdk(Absent);
    var outcome := store.Save(Some(content), createdAt, millis, randomText, true, Created);
    saved := store.currentRecords;
    LocalIdMillisRoundTrip(millis, randomText);
    LocalIdShape(millis, randomText);
    var nextVisit := new HistoryStore(store.slot);
    nextVisit.InitDataSdk(Absent);
    reloaded := nextVisit.currentRecords;
  }
}
