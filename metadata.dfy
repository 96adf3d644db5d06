/**
 * The document-metadata store: a list of per-document records kept in one JSON file, merged
 * against the object store's listing, updated by id, and filtered by status.
 */
module Metadata {
  import opened Wrappers
  import opened JsonValue
  import opened Strings

  const MinioConnectionError: string :=
    "Failed to connect to MinIO or list documents. Please check MinIO connection settings and ensure the service is running."

  /** `str(e)` of the `TypeError` raised by indexing a string with a string. */
  const StringIndexError: string := "string indices must be integers, not 'str'"

  /** `str(e)` of the `TypeError` raised by using a list or dict as a dict key. */
  function UnhashableMessage(v: Value): string {
    "unhashable type: '" + (if v.List? then "list" else "dict") + "'"
  }

  /** One document's record, as stored in the metadata file. */
  type Record = Object

  /** One object of the bucket listing: its name, its size in bytes and `str` of its modification time. */
  datatype ListedObject = ListedObject(filename: string, size: int, lastModified: string)

  /**
   * What the listing call gave: the bucket's objects, the `{"error": message}` dict it returns when
   * listing fails, or `None`.
   */
  datatype Listing = Objects(objects: seq<ListedObject>) | ErrorDict(message: string) | NoListing

  predicate HasFilename(r: Record, f: string) {
    "filename" in r && r["filename"] == Str(f)
  }

  /**
   * `{item["filename"]: item for item in records}`, each entry given by the position of its record:
   * a record without "filename" raises `KeyError`, one whose filename is a list or dict raises
   * `TypeError`, and the last record with a given filename wins. Keys that are not strings are left
   * out, as no listed name can equal them.
   */
  function Index(records: seq<Record>): Outcome<map<string, nat>> {
    if records == [] then Returned(map[])
    else
      var n := |records| - 1;
      match Index(records[..n])
      case Raised(msg) => Raised(msg)
      case Returned(m) =>
        if "filename" !in records[n] then Raised(KeyErrorMessage("filename"))
        else
          match records[n]["filename"]
          case List(_) => Raised(UnhashableMessage(records[n]["filename"]))
          case Dict(_) => Raised(UnhashableMessage(records[n]["filename"]))
          case Str(f) => Returned(m[f := n])
          case _ => Returned(m)
  }

  /** Every record has a hashable filename. */
  predicate Indexable(records: seq<Record>) {
    forall i :: 0 <= i < |records| ==>
      "filename" in records[i] && !records[i]["filename"].List? && !records[i]["filename"].Dict?
  }

  /**
   * The index is built exactly when every record has a hashable filename; it then points each name
   * at the last record that carries it; otherwise the error is a `KeyError` or an unhashable-type
   * `TypeError`.
   */
  lemma {:induction false} IndexShape(records: seq<Record>)
    ensures Index(records).Returned? <==> Indexable(records)
    ensures Index(records).Returned? ==> Points(records, Index(records).value) && InRange(records, Index(records).value)
    ensures Index(records).Returned? ==> forall i, f :: 0 <= i < |records| && HasFilename(records[i], f) ==>
      f in Index(records).value && i <= Index(records).value[f]
    ensures Index(records).Raised? ==>
      Index(records).message in {KeyErrorMessage("filename"), UnhashableMessage(List([])), UnhashableMessage(Dict(map[]))}
  {
    if records != [] {
      var n := |records| - 1;
      var prefix := records[..n];
      IndexShape(prefix);
      assert forall i :: 0 <= i < n ==> prefix[i] == records[i];
      if Index(prefix).Returned? && "filename" in records[n] && records[n]["filename"].Str? {
        var m := Index(prefix).value;
        var g := records[n]["filename"].s;
        assert Index(records) == Returned(m[g := n]);
        forall i, f | 0 <= i < |records| && HasFilename(records[i], f)
          ensures f in m[g := n] && i <= m[g := n][f]
        {
          if i < n {
            assert HasFilename(prefix[i], f);
          }
        }
      } else if Index(prefix).Returned? && "filename" in records[n] && !records[n]["filename"].List? &&
                !records[n]["filename"].Dict? {
        var m := Index(prefix).value;
        assert Index(records) == Returned(m);
        forall i, f | 0 <= i < |records| && HasFilename(records[i], f)
          ensures f in m && i <= m[f]
        {
          if i < n {
            assert HasFilename(prefix[i], f);
          }
        }
      }
    }
  }

  /** Among stored records with the same filename, the index points at the last. */
  lemma {:induction false} IndexPointsAtLast(records: seq<Record>, s: nat, f: string)
    requires Index(records).Returned? && s < |records| && HasFilename(records[s], f)
    requires forall t :: s < t < |records| ==> !HasFilename(records[t], f)
    ensures f in Index(records).value && Index(records).value[f] == s
  {
    IndexShape(records);
  }

  /** `s.rfind(c) + 1`: the length of the part of `s` up to and including its last `c`. */
  function RFindEnd(s: string, c: char): (i: nat)
    ensures i <= |s|
    ensures i > 0 ==> s[i - 1] == c
    ensures forall j :: i <= j < |s| ==> s[j] != c
  {
    if s == [] then 0 else if s[|s| - 1] == c then |s| else RFindEnd(s[..|s| - 1], c)
  }

  /** `s.rstrip(c)`. */
  function RStripChar(s: string, c: char): (r: string)
    ensures |r| <= |s| && r == s[..|r|]
    ensures r == [] || r[|r| - 1] != c
    ensures forall j :: |r| <= j < |s| ==> s[j] == c
  {
    if s != [] && s[|s| - 1] == c then RStripChar(s[..|s| - 1], c) else s
  }

  /**
   * `os.path.dirname(p)` for POSIX paths: everything before the last '/', with trailing slashes
   * removed unless it consists of slashes only.
   */
  function DirName(p: string): string {
    var head := p[..RFindEnd(p, '/')];
    if RStripChar(head, '/') != [] then RStripChar(head, '/') else head
  }

  /**
   * The directory of a name is a prefix of it; it is empty exactly when the name has no '/', and
   * otherwise it holds a '/' or is followed by one.
   */
  lemma {:induction false} DirNameShape(p: string)
    ensures var d := DirName(p);
      |d| <= |p| && d == p[..|d|] &&
      ('/' !in p ==> d == []) &&
      ('/' in p ==> d != [] && ('/' in d || (|d| < |p| && p[|d|] == '/')))
  {
  }

  /** The country a top-level folder name, lowercased, stands for. */
  function CountryOfFolder(folder: string): (c: string)
    ensures c in {"Tunisia", "France", "Europe", "Unknown"}
  {
    if folder == "tunisia" then "Tunisia"
    else if folder == "france" then "France"
    else if folder == "europe" then "Europe"
    else "Unknown"
  }

  /** The country of a newly listed object, taken from the first folder of its directory. */
  function InferCountry(fname: string): string {
    var d := DirName(fname);
    if d == [] then "Unknown" else CountryOfFolder(Lower(Split(d, '/')[0]))
  }

  /**
   * The directory detour changes nothing: a name with a '/' gets the country of its first
   * '/'-segment, lowercased; a root-level name gets "Unknown".
   */
  lemma {:induction false} InferCountryFirstSegment(fname: string)
    ensures InferCountry(fname) ==
      if '/' in fname then CountryOfFolder(Lower(Split(fname, '/')[0])) else "Unknown"
  {
    var d := DirName(fname);
    DirNameShape(fname);
    if '/' in fname {
      SplitFirstPiecePrefix(fname, d, '/');
    }
  }

  /** An existing record after a listing refresh: only its size and modification time change. */
  function Refreshed(entry: Record, f: ListedObject): (r: Record)
    ensures r.Keys == entry.Keys + {"size", "last_modified_minio"}
    ensures r["size"] == Int(f.size) && r["last_modified_minio"] == Str(f.lastModified)
    ensures forall k :: k in entry && k != "size" && k != "last_modified_minio" ==> r[k] == entry[k]
  {
    entry["size" := Int(f.size)]["last_modified_minio" := Str(f.lastModified)]
  }

  /** The record made for a newly listed object. */
  function NewRecord(f: ListedObject, id: string, now: string): Record {
    map[
      "id" := Str(id),
      "filename" := Str(f.filename),
      "country" := Str(InferCountry(f.filename)),
      "doc_type" := Str("Regulation"),
      "visibility" := Str("visible"),
      "status" := Str("pending"),
      "size" := Int(f.size),
      "last_modified_minio" := Str(f.lastModified),
      "added_at" := Str(now)
    ]
  }

  /** The position of the last object named `f` in `fs`, or -1. */
  function LastPos(fs: seq<ListedObject>, f: string): (p: int)
    ensures -1 <= p < |fs|
    ensures p >= 0 ==> fs[p].filename == f
    ensures forall j :: p < j < |fs| ==> fs[j].filename != f
  {
    if fs == [] then -1
    else if fs[|fs| - 1].filename == f then |fs| - 1
    else LastPos(fs[..|fs| - 1], f)
  }

  /** How many of the first `i` objects are not in the index, that is, how many new records precede position `i`. */
  function NewBefore(fs: seq<ListedObject>, known: map<string, nat>, i: nat): nat
    requires i <= |fs|
  {
    if i == 0 then 0
    else NewBefore(fs, known, i - 1) + (if fs[i - 1].filename in known then 0 else 1)
  }

  /** `known` points every name at a stored record that carries it. */
  predicate InRange(records: seq<Record>, known: map<string, nat>) {
    forall f :: f in known ==> known[f] < |records|
  }

  predicate Points(records: seq<Record>, known: map<string, nat>) {
    forall f :: f in known ==> known[f] < |records| && HasFilename(records[known[f]], f)
  }

  /**
   * The record a successful sync saves at position `i`: the object there keeps its stored record,
   * refreshed from the last listed object of that name, or gets a new record whose id and
   * timestamp are the `k`-th drawn, `k` counting the new records before it.
   */
  function SyncedAt(records: seq<Record>, known: map<string, nat>, fs: seq<ListedObject>,
                    newId: nat -> string, clock: nat -> string, i: nat): (r: Record)
    requires InRange(records, known) && i < |fs|
    ensures Points(records, known) ==> HasFilename(r, fs[i].filename)
    ensures "size" in r && "last_modified_minio" in r
  {
    var f := fs[i].filename;
    if f in known then Refreshed(records[known[f]], fs[LastPos(fs, f)])
    else NewRecord(fs[i], newId(NewBefore(fs, known, i)), clock(NewBefore(fs, known, i)))
  }

  function Merged(records: seq<Record>, known: map<string, nat>, fs: seq<ListedObject>,
                  newId: nat -> string, clock: nat -> string): (r: seq<Record>)
    requires InRange(records, known)
    ensures |r| == |fs|
    ensures forall i :: 0 <= i < |fs| ==> r[i] == SyncedAt(records, known, fs, newId, clock, i)
  {
    seq(|fs|, i requires 0 <= i < |fs| => SyncedAt(records, known, fs, newId, clock, i))
  }

  /**
   * What `sync_with_minio` returns for the stored `records` and the `listing`: without a listing it
   * raises the connection error; building the filename index may raise; an error dict as listing
   * raises when its first key is indexed; otherwise one record per listed object, in listing order,
   * carrying that object's name, and nothing else.
   */
  function Sync(records: seq<Record>, listing: Listing, newId: nat -> string, clock: nat -> string)
    : (r: Outcome<seq<Record>>)
    ensures listing.NoListing? ==> r == Raised(MinioConnectionError)
    ensures r.Returned? <==> listing.Objects? && Index(records).Returned?
    ensures r.Returned? ==> |r.value| == |listing.objects|
    ensures r.Returned? ==> forall i :: 0 <= i < |r.value| ==> HasFilename(r.value[i], listing.objects[i].filename)
  {
    IndexShape(records);
    if listing.NoListing? then Raised(MinioConnectionError)
    else
      match Index(records)
      case Raised(msg) => Raised(msg)
      case Returned(known) =>
        if listing.ErrorDict? then Raised(StringIndexError)
        else Returned(Merged(records, known, listing.objects, newId, clock))
  }

  /** The record a successful sync saves at position `i`. */
  lemma {:induction false} SyncValue(records: seq<Record>, fs: seq<ListedObject>, newId: nat -> string,
                  clock: nat -> string, i: nat)
    requires Sync(records, Objects(fs), newId, clock).Returned? && i < |fs|
    ensures Points(records, Index(records).value) && InRange(records, Index(records).value)
    ensures Sync(records, Objects(fs), newId, clock).value[i] ==
      SyncedAt(records, Index(records).value, fs, newId, clock, i)
  {
    IndexShape(records);
  }

  /**
   * A listed name that is already stored keeps its stored record (the last with that name) and every
   * field of it except `size` and `last_modified_minio`, which come from the last listed object of
   * that name.
   */
  lemma {:induction false} SyncKeepsStoredRecord(records: seq<Record>, fs: seq<ListedObject>, newId: nat -> string,
                              clock: nat -> string, i: nat, s: nat)
    requires Sync(records, Objects(fs), newId, clock).Returned?
    requires i < |fs| && s < |records| && HasFilename(records[s], fs[i].filename)
    requires forall t :: s < t < |records| ==> !HasFilename(records[t], fs[i].filename)
    ensures var saved := Sync(records, Objects(fs), newId, clock).value[i];
      var last := fs[LastPos(fs, fs[i].filename)];
      saved.Keys == records[s].Keys + {"size", "last_modified_minio"} &&
      saved["size"] == Int(last.size) && saved["last_modified_minio"] == Str(last.lastModified) &&
      forall k :: k in records[s] && k != "size" && k != "last_modified_minio" ==> saved[k] == records[s][k]
  {
    SyncValue(records, fs, newId, clock, i);
    IndexPointsAtLast(records, s, fs[i].filename);
    var known := Index(records).value;
    var f := fs[i].filename;
    var saved := SyncedAt(records, known, fs, newId, clock, i);
    assert saved == Refreshed(records[s], fs[LastPos(fs, f)]);
  }

  /** With a listing that names each object once, a stored record is refreshed from its own object. */
  lemma {:induction false} SyncDistinctNames(records: seq<Record>, fs: seq<ListedObject>, newId: nat -> string,
                          clock: nat -> string, i: nat)
    requires Sync(records, Objects(fs), newId, clock).Returned?
    requires forall a, b :: 0 <= a < b < |fs| ==> fs[a].filename != fs[b].filename
    requires i < |fs|
    ensures var saved := Sync(records, Objects(fs), newId, clock).value[i];
      "size" in saved && "last_modified_minio" in saved &&
      saved["size"] == Int(fs[i].size) && saved["last_modified_minio"] == Str(fs[i].lastModified)
  {
    SyncValue(records, fs, newId, clock, i);
    var known := Index(records).value;
    var f := fs[i].filename;
    var saved := SyncedAt(records, known, fs, newId, clock, i);
    if f in known {
      LastPosDistinct(fs, i);
      assert saved == Refreshed(records[known[f]], fs[i]);
    } else {
      var k := NewBefore(fs, known, i);
      assert saved == NewRecord(fs[i], newId(k), clock(k));
      NewRecordFields(fs[i], newId(k), clock(k));
    }
  }

  /** In a listing that names each object once, the last object with a name is the only one. */
  lemma {:induction false} LastPosDistinct(fs: seq<ListedObject>, i: nat)
    requires forall a, b :: 0 <= a < b < |fs| ==> fs[a].filename != fs[b].filename
    requires i < |fs|
    ensures LastPos(fs, fs[i].filename) == i
  {
  }

  /**
   * A listed name that is not stored gets a new record: status "pending", type "Regulation",
   * visibility "visible", the country inferred from its folder, size and time from the listing.
   */
  lemma {:induction false} SyncNewRecord(records: seq<Record>, fs: seq<ListedObject>, newId: nat -> string,
                      clock: nat -> string, i: nat)
    requires Sync(records, Objects(fs), newId, clock).Returned?
    requires i < |fs| && forall s :: 0 <= s < |records| ==> !HasFilename(records[s], fs[i].filename)
    ensures var saved := Sync(records, Objects(fs), newId, clock).value[i];
      saved.Keys == {"id", "filename", "country", "doc_type", "visibility", "status", "size",
                     "last_modified_minio", "added_at"} &&
      saved["status"] == Str("pending") && saved["doc_type"] == Str("Regulation") &&
      saved["visibility"] == Str("visible") && saved["country"] == Str(InferCountry(fs[i].filename)) &&
      saved["size"] == Int(fs[i].size) && saved["last_modified_minio"] == Str(fs[i].lastModified)
  {
    SyncValue(records, fs, newId, clock, i);
    var known := Index(records).value;
    var f := fs[i].filename;
    assert f !in known;
    var k := NewBefore(fs, known, i);
    assert SyncedAt(records, known, fs, newId, clock, i) == NewRecord(fs[i], newId(k), clock(k));
    NewRecordFields(fs[i], newId(k), clock(k));
  }

  lemma {:induction false} NewRecordFields(f: ListedObject, id: string, now: string)
    ensures var r := NewRecord(f, id, now);
      r.Keys == {"id", "filename", "country", "doc_type", "visibility", "status", "size",
                 "last_modified_minio", "added_at"} &&
      r["id"] == Str(id) && r["filename"] == Str(f.filename) && r["added_at"] == Str(now) &&
      r["status"] == Str("pending") && r["doc_type"] == Str("Regulation") &&
      r["visibility"] == Str("visible") && r["country"] == Str(InferCountry(f.filename)) &&
      r["size"] == Int(f.size) && r["last_modified_minio"] == Str(f.lastModified)
  {
  }

  /** Hard sync: a stored record whose name is not listed is not saved. */
  lemma {:induction false} SyncDropsUnlisted(records: seq<Record>, fs: seq<ListedObject>, newId: nat -> string,
                          clock: nat -> string, f: string)
    requires Sync(records, Objects(fs), newId, clock).Returned?
    requires forall i :: 0 <= i < |fs| ==> fs[i].filename != f
    ensures forall r :: r in Sync(records, Objects(fs), newId, clock).value ==> !HasFilename(r, f)
  {
    var saved := Sync(records, Objects(fs), newId, clock).value;
    forall r | r in saved ensures !HasFilename(r, f) {
      var i :| 0 <= i < |saved| && saved[i] == r;
      assert HasFilename(saved[i], fs[i].filename);
    }
  }

  lemma {:induction false} RefreshedTwice(entry: Record, a: ListedObject, b: ListedObject)
    ensures Refreshed(Refreshed(entry, a), b) == Refreshed(entry, b)
  {
  }

  /**
   * An element of `updated_data` before it is written: the stored entry of a name (the same dict
   * the index holds), or the new record made for a listed object with the id and timestamp drawn
   * for it.
   */
  datatype Slot = Shared(name: string) | Fresh(listed: ListedObject, id: string, now: string)

  /** What `json.dump` writes for the slots: each shared entry in the state it has at the end. */
  function Resolve(slots: seq<Slot>, entries: map<string, Record>): (r: seq<Record>)
    requires forall j :: 0 <= j < |slots| && slots[j].Shared? ==> slots[j].name in entries
    ensures |r| == |slots|
  {
    seq(|slots|, j requires 0 <= j < |slots| =>
      match slots[j]
      case Shared(name) => entries[name]
      case Fresh(listed, id, now) => NewRecord(listed, id, now))
  }

  /** The `(i+1)`-th prefix's last position of `f` extends the `i`-th. */
  lemma {:induction false} LastPosStep(fs: seq<ListedObject>, i: nat, f: string)
    requires i < |fs|
    ensures LastPos(fs[..i + 1], f) == if fs[i].filename == f then i else LastPos(fs[..i], f)
  {
    assert fs[..i + 1][..i] == fs[..i];
  }

  /** The index entry for `f` once the first `i` objects are merged: refreshed by the last of them named `f`, if any. */
  function EntryAfter(records: seq<Record>, known: map<string, nat>, fs: seq<ListedObject>, i: nat, f: string): Record
    requires InRange(records, known) && i <= |fs| && f in known
  {
    var p := LastPos(fs[..i], f);
    if p >= 0 then Refreshed(records[known[f]], fs[p]) else records[known[f]]
  }

  lemma {:induction false} EntryAfterStep(records: seq<Record>, known: map<string, nat>, fs: seq<ListedObject>, i: nat, f: string)
    requires InRange(records, known) && i < |fs| && f in known
    ensures EntryAfter(records, known, fs, i + 1, f) ==
      if fs[i].filename == f then Refreshed(EntryAfter(records, known, fs, i, f), fs[i])
      else EntryAfter(records, known, fs, i, f)
  {
    LastPosStep(fs, i, f);
    var p := LastPos(fs[..i], f);
    if fs[i].filename == f && p >= 0 {
      RefreshedTwice(records[known[f]], fs[p], fs[i]);
    }
  }

  /** Refreshing the entry of the `i`-th object's name keeps every entry at its `EntryAfter` state. */
  lemma {:induction false} EntriesStep(records: seq<Record>, known: map<string, nat>, fs: seq<ListedObject>, i: nat,
                    entries: map<string, Record>)
    requires InRange(records, known) && i < |fs|
    requires entries.Keys == known.Keys
    requires forall f :: f in known ==> entries[f] == EntryAfter(records, known, fs, i, f)
    ensures var f := fs[i].filename;
      var next := if f in entries then entries[f := Refreshed(entries[f], fs[i])] else entries;
      next.Keys == known.Keys && forall g :: g in known ==> next[g] == EntryAfter(records, known, fs, i + 1, g)
  {
    forall g | g in known {
      EntryAfterStep(records, known, fs, i, g);
    }
  }

  /** The slot the loop appends for the object at position `j`. */
  function SlotAt(known: map<string, nat>, fs: seq<ListedObject>, newId: nat -> string,
                  clock: nat -> string, j: nat): Slot
    requires j < |fs|
  {
    if fs[j].filename in known then Shared(fs[j].filename)
    else Fresh(fs[j], newId(NewBefore(fs, known, j)), clock(NewBefore(fs, known, j)))
  }

  /** The slots appended for the first `n` objects. */
  function SlotsUpTo(known: map<string, nat>, fs: seq<ListedObject>, newId: nat -> string,
                     clock: nat -> string, n: nat): (slots: seq<Slot>)
    requires n <= |fs|
    ensures |slots| == n
  {
    if n == 0 then [] else SlotsUpTo(known, fs, newId, clock, n - 1) + [SlotAt(known, fs, newId, clock, n - 1)]
  }

  lemma {:induction false} SlotsUpToAt(known: map<string, nat>, fs: seq<ListedObject>, newId: nat -> string,
                                       clock: nat -> string, n: nat, j: nat)
    requires j < n <= |fs|
    ensures SlotsUpTo(known, fs, newId, clock, n)[j] == SlotAt(known, fs, newId, clock, j)
  {
    if j < n - 1 {
      SlotsUpToAt(known, fs, newId, clock, n - 1, j);
    }
  }

  /**
   * The loop state after merging the first `i` objects: every index entry has had the refreshes of
   * those objects, the slots are theirs, and `created` new records have been made.
   */
  ghost predicate MergedUpTo(records: seq<Record>, known: map<string, nat>, fs: seq<ListedObject>,
                             newId: nat -> string, clock: nat -> string, i: nat,
                             entries: map<string, Record>, slots: seq<Slot>, created: nat)
    requires InRange(records, known) && i <= |fs|
  {
    entries.Keys == known.Keys && created == NewBefore(fs, known, i) &&
    (forall f :: f in known ==> entries[f] == EntryAfter(records, known, fs, i, f)) &&
    slots == SlotsUpTo(known, fs, newId, clock, i)
  }

  /** One turn of the merge loop keeps `MergedUpTo`. */
  lemma {:induction false} MergeStep(records: seq<Record>, known: map<string, nat>, fs: seq<ListedObject>,
                  newId: nat -> string, clock: nat -> string, i: nat,
                  entries: map<string, Record>, slots: seq<Slot>, created: nat)
    requires InRange(records, known) && i < |fs|
    requires MergedUpTo(records, known, fs, newId, clock, i, entries, slots, created)
    ensures var f := fs[i];
      if f.filename in known then
        MergedUpTo(records, known, fs, newId, clock, i + 1,
                   entries[f.filename := Refreshed(entries[f.filename], f)], slots + [Shared(f.filename)], created)
      else
        MergedUpTo(records, known, fs, newId, clock, i + 1,
                   entries, slots + [Fresh(f, newId(created), clock(created))], created + 1)
  {
    EntriesStep(records, known, fs, i, entries);
  }

  /** Writing out the slots once every object is merged gives the merged records. */
  lemma {:induction false} ResolveMerged(records: seq<Record>, known: map<string, nat>, fs: seq<ListedObject>,
                      newId: nat -> string, clock: nat -> string, slots: seq<Slot>,
                      entries: map<string, Record>, created: nat)
    requires InRange(records, known)
    requires MergedUpTo(records, known, fs, newId, clock, |fs|, entries, slots, created)
    ensures forall j :: 0 <= j < |slots| && slots[j].Shared? ==> slots[j].name in entries
    ensures Resolve(slots, entries) == Merged(records, known, fs, newId, clock)
  {
    assert fs[..|fs|] == fs;
    forall j | 0 <= j < |fs|
      ensures slots[j] == SlotAt(known, fs, newId, clock, j)
      ensures slots[j].Shared? ==> slots[j].name in entries
    {
      SlotsUpToAt(known, fs, newId, clock, |fs|, j);
    }
    var r := Resolve(slots, entries);
    forall j | 0 <= j < |fs| ensures r[j] == SyncedAt(records, known, fs, newId, clock, j) {
      var f := fs[j].filename;
      if f in known {
        assert r[j] == entries[f];
      } else {
        var k := NewBefore(fs, known, j);
        assert r[j] == NewRecord(fs[j], newId(k), clock(k));
      }
    }
  }

  /** `update_document`'s record: `updates` merged into it, then `last_updated` stamped. */
  function Updated(item: Record, updates: Object, now: string): (r: Record)
    ensures r.Keys == item.Keys + updates.Keys + {"last_updated"}
    ensures r["last_updated"] == Str(now)
    ensures forall k :: k in updates && k != "last_updated" ==> r[k] == updates[k]
    ensures forall k :: k in item && k !in updates && k != "last_updated" ==> r[k] == item[k]
  {
    (item + updates)["last_updated" := Str(now)]
  }

  /**
   * The position `update_document` changes: the first record whose id equals `docId`, or `None` when
   * no record matches; a record without "id" met before a match raises `KeyError`.
   */
  function FindDoc(records: seq<Record>, docId: Value): (r: Outcome<Option<nat>>)
    ensures r.Returned? && r.value.Some? ==>
      var i := r.value.value;
      i < |records| && "id" in records[i] && records[i]["id"] == docId &&
      forall j :: 0 <= j < i ==> "id" in records[j] && records[j]["id"] != docId
    ensures r.Returned? && r.value.None? ==>
      forall j :: 0 <= j < |records| ==> "id" in records[j] && records[j]["id"] != docId
    ensures r.Raised? ==> r.message == KeyErrorMessage("id") && exists j :: 0 <= j < |records| && "id" !in records[j]
  {
    if records == [] then Returned(None)
    else if "id" !in records[0] then Raised(KeyErrorMessage("id"))
    else if records[0]["id"] == docId then Returned(Some(0))
    else
      match FindDoc(records[1..], docId)
      case Raised(msg) => Raised(msg)
      case Returned(None) => Returned(None)
      case Returned(Some(i)) => Returned(Some(i + 1))
  }

  /** A record passing `d["status"] == "pending"`. */
  predicate IsPending(d: Record)
    requires "status" in d
  {
    d["status"] == Str("pending")
  }

  /** `xs` is `ys` with some elements removed, order kept. */
  predicate Subsequence<T(==)>(xs: seq<T>, ys: seq<T>) {
    if xs == [] then true
    else if ys == [] then false
    else if xs[0] == ys[0] then Subsequence(xs[1..], ys[1..])
    else Subsequence(xs, ys[1..])
  }

  /**
   * `[d for d in records if d["status"] == "pending"]`: every record is read, so one without
   * "status" raises `KeyError`; otherwise exactly the pending records, in stored order.
   */
  function Pending(records: seq<Record>): (r: Outcome<seq<Record>>)
    ensures r.Returned? <==> forall i :: 0 <= i < |records| ==> "status" in records[i]
    ensures r.Raised? ==> r.message == KeyErrorMessage("status")
    ensures r.Returned? ==> forall d :: d in r.value ==> d in records && "status" in d && IsPending(d)
    ensures r.Returned? ==> forall d :: d in records && IsPending(d) ==> d in r.value
    ensures r.Returned? ==> Subsequence(r.value, records)
    ensures r.Returned? ==> forall d :: multiset(r.value)[d] ==
                                        (if "status" in d && IsPending(d) then multiset(records)[d] else 0)
  {
    if records == [] then Returned([])
    else if "status" !in records[0] then Raised(KeyErrorMessage("status"))
    else
      match Pending(records[1..])
      case Raised(msg) => Raised(msg)
      case Returned(rest) =>
        if IsPending(records[0]) then
          assert ([records[0]] + rest)[1..] == rest;
          assert records == [records[0]] + records[1..];
          Returned([records[0]] + rest)
        else
          SubsequenceSkip(rest, records);
          assert records == [records[0]] + records[1..];
          Returned(rest)
  }

  /** Dropping the head of the longer sequence keeps a subsequence. */
  lemma {:induction false} SubsequenceSkip<T>(xs: seq<T>, ys: seq<T>)
    requires ys != [] && Subsequence(xs, ys[1..])
    ensures Subsequence(xs, ys)
    decreases |ys|, 1
  {
    if xs != [] && xs[0] == ys[0] {
      SubsequenceTail(xs, ys[1..]);
    }
  }

  /** Dropping the head of the shorter sequence keeps a subsequence. */
  lemma {:induction false} SubsequenceTail<T>(xs: seq<T>, ys: seq<T>)
    requires xs != [] && Subsequence(xs, ys)
    ensures Subsequence(xs[1..], ys)
    decreases |ys|, 2
  {
    if xs[0] != ys[0] {
      SubsequenceTail(xs, ys[1..]);
    }
    SubsequenceSkip(xs[1..], ys);
  }

  /**
   * The merge loop of `sync_with_minio`: a stored entry is refreshed in place and shared between the
   * index and the output list, so a name listed twice shows its last refresh at both positions; a
   * new name gets a new record.
   */
  method MergeListing(records: seq<Record>, known: map<string, nat>, fs: seq<ListedObject>,
                      newId: nat -> string, clock: nat -> string) returns (saved: seq<Record>)
    requires InRange(records, known)
    ensures saved == Merged(records, known, fs, newId, clock)
  {
    var entries: map<string, Record> := map f | f in known :: records[known[f]];
    var slots: seq<Slot> := [];
    var created := 0;
    for i := 0 to |fs|
      invariant MergedUpTo(records, known, fs, newId, clock, i, entries, slots, created)
    {
      var f := fs[i];
      MergeStep(records, known, fs, newId, clock, i, entries, slots, created);
      if f.filename in known {
        entries := entries[f.filename := Refreshed(entries[f.filename], f)];
        slots := slots + [Shared(f.filename)];
      } else {
        slots := slots + [Fresh(f, newId(created), clock(created))];
        created := created + 1;
      }
    }
    ResolveMerged(records, known, fs, newId, clock, slots, entries, created);
    saved := Resolve(slots, entries);
  }

  class MetadataManager {
    /** The metadata file's records, or `None` when the file cannot be read or parsed. */
    var file: Option<seq<Record>>

    /**
     * `__init__` and `_ensure_db`: a metadata file that does not exist yet is created holding `[]`;
     * an existing one is left as it is, readable (`stored`) or not.
     */
    constructor(onDisk: bool, stored: Option<seq<Record>>)
      ensures !onDisk ==> file == Some([])
      ensures onDisk ==> file == stored
    {
      if onDisk {
        file := stored;
      } else {
        file := Some([]);
      }
    }

    /** `load_metadata`: the stored records, or `[]` when reading fails. */
    function LoadMetadata(): (records: seq<Record>)
      reads this
      ensures file.None? ==> records == []
      ensures file.Some? ==> records == file.value
    {
      if file.Some? then file.value else []
    }

    /**
     * `sync_with_minio`: merges the listing into the stored records and saves exactly what it
     * returns; when it raises, the file is not rewritten. New records draw their ids from `newId`
     * and their timestamps from `clock`, in listing order.
     */
    method SyncWithMinio(listing: Listing, newId: nat -> string, clock: nat -> string)
      returns (r: Outcome<seq<Record>>)
      modifies this
      ensures r == Sync(old(LoadMetadata()), listing, newId, clock)
      ensures r.Returned? ==> file == Some(r.value)
      ensures r.Raised? ==> file == old(file)
    {
      var records := LoadMetadata();
      if listing.NoListing? {
        return Raised(MinioConnectionError);
      }
      IndexShape(records);
      var index := Index(records);
      if index.Raised? {
        return Raised(index.message);
      }
      var known := index.value;
      if listing.ErrorDict? {
        return Raised(StringIndexError);
      }
      var saved := MergeListing(records, known, listing.objects, newId, clock);
      file := Some(saved);
      r := Returned(saved);
    }

    /**
     * `update_document`: the first record with id `docId` has `updates` merged in and `last_updated`
     * stamped, the file is saved and the answer is `True`; for an unknown id the answer is `False`
     * and the file is not written; a record without "id" before the match raises.
     */
    method UpdateDocument(docId: Value, updates: Object, now: string) returns (r: Outcome<bool>)
      modifies this
      ensures (r, file) == UpdateOutcome(old(file), docId, updates, now)
      ensures var records := old(LoadMetadata());
        match FindDoc(records, docId)
        case Raised(msg) => r == Raised(msg) && file == old(file)
        case Returned(None) => r == Returned(false) && file == old(file)
        case Returned(Some(i)) =>
          r == Returned(true) && file == Some(records[i := Updated(records[i], updates, now)])
    {
      var data := LoadMetadata();
      for i := 0 to |data|
        invariant data == old(LoadMetadata()) && file == old(file)
      invariant forall j :: 0 <= j < i ==> "id" in data[j] && data[j]["id"] != docId
      {
        FindDocAfter(data, docId, i);
        if "id" !in data[i] {
          return Raised(KeyErrorMessage("id"));
        }
        if data[i]["id"] == docId {
          file := Some(data[i := Updated(data[i], updates, now)]);
          return Returned(true);
        }
      }
      FindDocAfter(data, docId, |data|);
      return Returned(false);
    }

    /** `get_pending_documents`: `Pending` of the stored records. */
    function GetPendingDocuments(): Outcome<seq<Record>>
      reads this
    {
      Pending(LoadMetadata())
    }
  }

  /**
   * `update_document` on a file state: the answer and the file afterwards. The file is rewritten
   * only when a record matched; a missing or unreadable file reads as no records and stays as it is.
   */
  function UpdateOutcome(file: Option<seq<Record>>, docId: Value, updates: Object, now: string)
    : (Outcome<bool>, Option<seq<Record>>)
  {
    var records := if file.Some? then file.value else [];
    match FindDoc(records, docId)
    case Raised(msg) => (Raised(msg), file)
    case Returned(None) => (Returned(false), file)
    case Returned(Some(i)) => (Returned(true), Some(records[i := Updated(records[i], updates, now)]))
  }

  /** Every record carries an "id". */
  predicate AllHaveIds(records: seq<Record>) {
    forall i :: 0 <= i < |records| ==> "id" in records[i]
  }

  /**
   * When every record carries an "id", an update never raises, and every record still carries one
   * afterwards, with the same value unless `updates` sets it.
   */
  lemma {:induction false} UpdateKeepsIds(file: Option<seq<Record>>, docId: Value, updates: Object, now: string)
    requires file.Some? ==> AllHaveIds(file.value)
    ensures var (answer, after) := UpdateOutcome(file, docId, updates, now);
      answer.Returned? && after.Some? == file.Some? &&
      (after.Some? ==> |after.value| == |file.value| && AllHaveIds(after.value)) &&
      ("id" !in updates && after.Some? ==> forall i :: 0 <= i < |after.value| ==> after.value[i]["id"] == file.value[i]["id"])
  {
  }

  /** Once the first `i` records are known to carry a different id, `FindDoc` is decided at position `i`. */
  lemma {:induction false} FindDocAfter(records: seq<Record>, docId: Value, i: nat)
    requires i <= |records|
    requires forall j :: 0 <= j < i ==> "id" in records[j] && records[j]["id"] != docId
    ensures i == |records| ==> FindDoc(records, docId) == Returned(None)
    ensures i < |records| && "id" !in records[i] ==> FindDoc(records, docId) == Raised(KeyErrorMessage("id"))
    ensures i < |records| && "id" in records[i] && records[i]["id"] == docId ==>
      FindDoc(records, docId) == Returned(Some(i))
  {
    if i > 0 {
      FindDocAfter(records[1..], docId, i - 1);
    }
  }
}
