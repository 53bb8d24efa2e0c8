/**
 * The backup panel of components/DataManager.tsx: the check an imported backup must pass, the
 * shape of what it hands to the page, the status it reports, the clear-all action, the counts it
 * shows and the record it exports. A parsed JSON value is a `Json` datatype.
 */
module DataManager {
  import opened Wrappers
  import opened Text
  import opened Records

  /** A value `JSON.parse` can return. */
  datatype Json =
    | JNull
    | JBool(b: bool)
    | JNumber(n: real)
    | JString(s: string)
    | JArray(items: seq<Json>)
    | JObject(members: map<string, Json>)

  /** JavaScript truthiness of a JSON value: every array and every object is truthy, even an empty one. */
  predicate TruthyJson(v: Json) {
    match v
    case JNull => false
    case JBool(b) => b
    case JNumber(n) => n != 0.0
    case JString(s) => s != ""
    case JArray(_) => true
    case JObject(_) => true
  }

  /** A property read `v.key`: an object's own member, `undefined` for everything else. */
  function Member(v: Json, key: string): (r: Option<Json>)
    ensures r.Some? <==> v.JObject? && key in v.members
  {
    if v.JObject? && key in v.members then Some(v.members[key]) else None
  }

  /** Truthiness of a property read, where `undefined` is falsy. */
  predicate Truthy(v: Option<Json>) {
    v.Some? && TruthyJson(v.value)
  }

  /** The three members a backup must have. */
  const ImportKeys: seq<string> := ["notes", "favorites", "recentSearches"]

  /** The import check: `importedData.notes && importedData.favorites && importedData.recentSearches`. */
  predicate Accepts(v: Json) {
    Truthy(Member(v, "notes")) && Truthy(Member(v, "favorites")) && Truthy(Member(v, "recentSearches"))
  }

  /** A backup is accepted exactly when it is an object whose three members are all present and truthy. */
  lemma AcceptsIff(v: Json)
    ensures Accepts(v) <==>
              v.JObject? && forall k :: k in ImportKeys ==> k in v.members && TruthyJson(v.members[k])
  {
    if v.JObject? && forall k :: k in ImportKeys ==> k in v.members && TruthyJson(v.members[k]) {
      assert ImportKeys[0] == "notes" && ImportKeys[1] == "favorites" && ImportKeys[2] == "recentSearches";
    }
  }

  /** Example of `AcceptsIff`: a backup whose three members are empty collections is accepted. */
  lemma EmptyCollectionsAccepted()
    ensures Accepts(JObject(map["notes" := JObject(map[]), "favorites" := JArray([]), "recentSearches" := JArray([])]))
  {
  }

  /** A backup with one falsy member (null, false, 0 or the empty string) is rejected. */
  lemma FalsyMemberRejected(v: Json, key: string)
    requires key in ImportKeys && v.JObject? && key in v.members
    requires v.members[key] == JNull || v.members[key] == JBool(false) || v.members[key] == JNumber(0.0) || v.members[key] == JString("")
    ensures !Accepts(v)
  {
  }

  /** What `handleImport` hands to `onImportData`: the notes as they are and the two lists, or empty lists. */
  datatype ImportRecord = ImportRecord(notes: Json, favorites: seq<Json>, recentSearches: seq<Json>)

  /** `Array.isArray(x) ? x : []`. */
  function ArrayOr(v: Option<Json>): (r: seq<Json>)
    ensures v.Some? && v.value.JArray? ==> r == v.value.items
    ensures !(v.Some? && v.value.JArray?) ==> r == []
  {
    if v.Some? && v.value.JArray? then v.value.items else []
  }

  /** The record an accepted backup produces. */
  function Payload(v: Json): (r: ImportRecord)
    requires Accepts(v)
    ensures r.notes == v.members["notes"]
    ensures v.members["favorites"].JArray? ==> r.favorites == v.members["favorites"].items
    ensures !v.members["favorites"].JArray? ==> r.favorites == []
    ensures v.members["recentSearches"].JArray? ==> r.recentSearches == v.members["recentSearches"].items
    ensures !v.members["recentSearches"].JArray? ==> r.recentSearches == []
  {
    ImportRecord(Member(v, "notes").value, ArrayOr(Member(v, "favorites")), ArrayOr(Member(v, "recentSearches")))
  }

  /**
   * `Object.keys(v).length`: an object's members, an array's indices, a string's UTF-16 code unit
   * indices, else none.
   */
  function KeyCount(v: Json): nat {
    match v
    case JObject(m) => |m|
    case JArray(items) => |items|
    case JString(s) => JsLength(s)
    case _ => 0
  }

  /** `v?.length || 0` for a truthy member: an array's length, a string's in UTF-16 code units, else 0. */
  function ReportedLength(v: Json): nat {
    match v
    case JArray(items) => |items|
    case JString(s) => JsLength(s)
    case _ => 0
  }

  /** The success message with its three counts. */
  function ImportMessage(notes: nat, favorites: nat, searches: nat): string {
    "Successfully imported " + NatToString(notes) + " notes, " + NatToString(favorites) + " favorites, and "
    + NatToString(searches) + " recent searches."
  }

  /** The message for an accepted backup: its notes' key count, then the lengths of its two lists. */
  function SuccessMessage(v: Json): string
    requires Accepts(v)
  {
    ImportMessage(KeyCount(v.members["notes"]), ReportedLength(v.members["favorites"]),
                  ReportedLength(v.members["recentSearches"]))
  }

  /** The message of a rejected or unreadable file. */
  const ImportFailureMessage: string := "Failed to import data. Please check the file format."
  /** The message after clearing. */
  const ClearedMessage: string := "All data has been cleared."

  /** The three storage keys `clearAllData` removes. */
  const NotesKey: string := "emergency-reference-notes"
  const FavoritesKey: string := "emergency-reference-favorites"
  const SearchesKey: string := "emergency-reference-recent-searches"

  datatype ImportStatus = Idle | Success | Error

  /** What the file input delivers: no file, a text `JSON.parse` rejects, or a parsed value. */
  datatype FileRead = NoFile | Unparsable | Parsed(value: Json)

  // ---------------------------------------------------------------------------
  // Counts and export

  /** `getDataStats()`. */
  datatype DataStats = DataStats(notesCount: nat, favoritesCount: nat, searchesCount: nat)

  /** The counts shown on the panel: non-blank notes, favourites, recent searches. */
  function GetDataStats(notes: map<int, string>, favorites: seq<int>, recentSearches: seq<string>): (r: DataStats)
    ensures r.notesCount <= |notes|
    ensures r.notesCount == |set id | id in notes && HasNote(notes, id)|
    ensures r.favoritesCount == |favorites| && r.searchesCount == |recentSearches|
  {
    assert NotedIds(notes) == set id | id in notes && HasNote(notes, id);
    DataStats(NoteCount(notes), |favorites|, |recentSearches|)
  }

  /** Blank notes are not counted. */
  lemma BlankNotesNotCounted(notes: map<int, string>)
    requires forall id :: id in notes ==> Trim(notes[id]) == ""
    ensures NoteCount(notes) == 0
  {
    forall id
      ensures id !in NotedIds(notes)
    {
      assert !HasNote(notes, id);
    }
    assert NotedIds(notes) == {};
  }

  /** With no note blank, every note is counted. */
  lemma FilledNotesAllCounted(notes: map<int, string>)
    requires forall id :: id in notes ==> Trim(notes[id]) != ""
    ensures NoteCount(notes) == |notes|
  {
    forall id | id in notes
      ensures id in NotedIds(notes)
    {
      assert HasNote(notes, id);
    }
    assert NotedIds(notes) == notes.Keys;
  }

  /** `exportNotes`' record without its date: the notes and how many are not blank. */
  datatype NotesExport = NotesExport(notes: map<int, string>, exportDate: string, totalNotes: nat)

  function ExportNotes(notes: map<int, string>, exportDate: string): (r: NotesExport)
    ensures r.notes == notes
    ensures r.totalNotes == GetDataStats(notes, [], []).notesCount
  {
    NotesExport(notes, exportDate, NoteCount(notes))
  }

  /** `exportData`'s record; the date is an input. */
  datatype ExportData = ExportData(notes: map<int, string>, favorites: seq<int>, recentSearches: seq<string>,
                                   exportDate: string, version: string)

  /** The backup format version. */
  const ExportVersion: string := "1.0"

  /** The exported record: the favourites set as an array in its order, the rest as it is, version "1.0". */
  function ExportOf(notes: map<int, string>, favorites: seq<int>, recentSearches: seq<string>, exportDate: string): (r: ExportData)
    requires NoDuplicates(favorites)
    ensures NoDuplicates(r.favorites) && (forall x :: x in r.favorites <==> x in favorites)
    ensures |r.favorites| == GetDataStats(notes, favorites, recentSearches).favoritesCount
    ensures |r.recentSearches| == GetDataStats(notes, favorites, recentSearches).searchesCount
    ensures r.notes == notes && r.version == ExportVersion
    ensures r.favorites == favorites && r.recentSearches == recentSearches && r.exportDate == exportDate
  {
    ExportData(notes, favorites, recentSearches, exportDate, ExportVersion)
  }

  /** The notes record as JSON: each id's decimal rendering maps to its note. */
  function NotesJson(notes: map<int, string>): Json {
    assert forall a: int, b: int :: IntToString(a) == IntToString(b) ==> a == b by {
      forall a: int, b: int | IntToString(a) == IntToString(b)
        ensures a == b
      {
        IntToStringInjective(a, b);
      }
    }
    JObject(map id | id in notes :: IntToString(id) := JString(notes[id]))
  }

  /** The exported record as the JSON value reading the backup file back gives. */
  function ExportJson(e: ExportData): Json {
    JObject(map[
      "notes" := NotesJson(e.notes),
      "favorites" := JArray(seq(|e.favorites|, i requires 0 <= i < |e.favorites| => JNumber(e.favorites[i] as real))),
      "recentSearches" := JArray(seq(|e.recentSearches|, i requires 0 <= i < |e.recentSearches| => JString(e.recentSearches[i]))),
      "exportDate" := JString(e.exportDate),
      "version" := JString(e.version)])
  }

  /** Rendering different ids differently keeps the number of notes. */
  lemma {:induction false} RenderedIdsCard(ids: set<int>)
    ensures |set id | id in ids :: IntToString(id)| == |ids|
    decreases |ids|
  {
    if ids != {} {
      if forall y :: y !in ids {
        assert false;
      }
      var x :| x in ids;
      var rest := ids - {x};
      RenderedIdsCard(rest);
      var image := set id | id in ids :: IntToString(id);
      var restImage := set id | id in rest :: IntToString(id);
      assert image == restImage + {IntToString(x)};
      forall y | y in rest
        ensures IntToString(y) != IntToString(x)
      {
        if IntToString(y) == IntToString(x) {
          IntToStringInjective(x, y);
        }
      }
      assert IntToString(x) !in restImage;
    }
  }

  /** The notes record has one key per note. */
  lemma NotesJsonKeyCount(notes: map<int, string>)
    ensures KeyCount(NotesJson(notes)) == |notes|
  {
    var m := NotesJson(notes).members;
    assert m.Keys == set id | id in notes.Keys :: IntToString(id);
    RenderedIdsCard(notes.Keys);
  }

  /**
   * An exported backup is accepted when it is read back: its lists come back element for element
   * and the message reports its note, favourite and search counts.
   */
  lemma ExportReimported(e: ExportData)
    ensures Accepts(ExportJson(e))
    ensures |Payload(ExportJson(e)).favorites| == |e.favorites|
    ensures forall i :: 0 <= i < |e.favorites| ==> Payload(ExportJson(e)).favorites[i] == JNumber(e.favorites[i] as real)
    ensures |Payload(ExportJson(e)).recentSearches| == |e.recentSearches|
    ensures forall i :: 0 <= i < |e.recentSearches| ==> Payload(ExportJson(e)).recentSearches[i] == JString(e.recentSearches[i])
    ensures SuccessMessage(ExportJson(e)) == ImportMessage(|e.notes|, |e.favorites|, |e.recentSearches|)
  {
    NotesJsonKeyCount(e.notes);
  }

  /**
   * The backup the panel exports reads back as the panel's own data: the favourites and the recent
   * searches come back element for element, and the message reports the counts the panel shows.
   */
  lemma PanelExportReimported(notes: map<int, string>, favorites: seq<int>, recentSearches: seq<string>, exportDate: string)
    requires NoDuplicates(favorites)
    ensures Accepts(ExportJson(ExportOf(notes, favorites, recentSearches, exportDate)))
    ensures |Payload(ExportJson(ExportOf(notes, favorites, recentSearches, exportDate))).favorites| == |favorites|
    ensures forall i :: 0 <= i < |favorites| ==>
              Payload(ExportJson(ExportOf(notes, favorites, recentSearches, exportDate))).favorites[i] == JNumber(favorites[i] as real)
    ensures Payload(ExportJson(ExportOf(notes, favorites, recentSearches, exportDate))).recentSearches
            == seq(|recentSearches|, i requires 0 <= i < |recentSearches| => JString(recentSearches[i]))
    ensures SuccessMessage(ExportJson(ExportOf(notes, favorites, recentSearches, exportDate)))
            == ImportMessage(|notes|, GetDataStats(notes, favorites, recentSearches).favoritesCount,
                             GetDataStats(notes, favorites, recentSearches).searchesCount)
  {
    ExportReimported(ExportOf(notes, favorites, recentSearches, exportDate));
  }

  // ---------------------------------------------------------------------------
  // The panel's state

  class DataManagerPanel {
    var importStatus: ImportStatus
    var importMessage: string
    /** The records handed to `onImportData`, oldest first. */
    var sent: seq<ImportRecord>
    /** The browser's key-value storage. */
    var storage: map<string, string>

    constructor (stored: map<string, string>)
      ensures importStatus == Idle && importMessage == "" && sent == [] && storage == stored
    {
      importStatus, importMessage, sent, storage := Idle, "", [], stored;
    }

    /**
     * `handleImport`: with no file nothing happens; an accepted backup is handed on and reported
     * as a success; an unreadable or rejected one is reported as an error and nothing is handed on.
     */
    method HandleImport(file: FileRead)
      modifies this`importStatus, this`importMessage, this`sent
      ensures file.NoFile? ==> importStatus == old(importStatus) && importMessage == old(importMessage) && sent == old(sent)
      ensures file.Parsed? && Accepts(file.value) ==>
                && sent == old(sent) + [Payload(file.value)]
                && importStatus == Success && importMessage == SuccessMessage(file.value)
      ensures file.Unparsable? || (file.Parsed? && !Accepts(file.value)) ==>
                sent == old(sent) && importStatus == Error && importMessage == ImportFailureMessage
    {
      if file.NoFile? {
        return;
      }
      if file.Parsed? && Accepts(file.value) {
        var importedData := file.value;
        sent := sent + [ImportRecord(Member(importedData, "notes").value,
                                     ArrayOr(Member(importedData, "favorites")),
                                     ArrayOr(Member(importedData, "recentSearches")))];
        importStatus := Success;
        importMessage := ImportMessage(KeyCount(Member(importedData, "notes").value),
                                       ReportedLength(Member(importedData, "favorites").value),
                                       ReportedLength(Member(importedData, "recentSearches").value));
      } else {
        importStatus := Error;
        importMessage := ImportFailureMessage;
      }
    }

    /**
     * `clearAllData`: only when confirmed, the three keys leave the storage, empty data is handed on
     * and the clearing is reported; otherwise nothing changes.
     */
    method ClearAllData(confirmed: bool)
      modifies this
      ensures !confirmed ==> importStatus == old(importStatus) && importMessage == old(importMessage)
                             && sent == old(sent) && storage == old(storage)
      ensures confirmed ==>
                && storage == old(storage) - {NotesKey, FavoritesKey, SearchesKey}
                && sent == old(sent) + [ImportRecord(JObject(map[]), [], [])]
                && importStatus == Success && importMessage == ClearedMessage
    {
      if confirmed {
        storage := storage - {NotesKey};
        storage := storage - {FavoritesKey};
        storage := storage - {SearchesKey};
        sent := sent + [ImportRecord(JObject(map[]), [], [])];
        importStatus := Success;
        importMessage := ClearedMessage;
      }
    }
  }

  /** The data clearing hands on is empty by every count the panel shows. */
  lemma ClearedDataCountsZero()
    ensures KeyCount(JObject(map[])) == 0
    ensures GetDataStats(map[], [], []) == DataStats(0, 0, 0)
  {
    assert NotedIds(map[]) == {};
  }
}
