/**
 * The PDF ingestion helper: it remembers which objects were processed (persisted as a JSON map),
 * lists the new ones, and downloads an object to a temporary file, loads its pages and tags each
 * page with where it came from.
 */
module PdfLoader {
  import opened Wrappers
  import opened JsonValue
  import opened Strings
  import opened DocumentChunker

  /** `f"temp_{object_name.replace('/', '_')}"`. */
  function TempPath(name: string): (path: string)
    ensures |path| == |name| + 5
  {
    "temp_" + seq(|name|, i requires 0 <= i < |name| => if name[i] == '/' then '_' else name[i])
  }

  /** The listed names not yet processed, in listing order. */
  function NewFiles(listing: seq<string>, processed: map<string, Value>): seq<string> {
    if listing == [] then []
    else (if listing[0] in processed then [] else [listing[0]]) + NewFiles(listing[1..], processed)
  }

  /**
   * A loaded page's metadata after enrichment: `source_path` is the object name, `country` its
   * first '/'-segment when it has more than one, `filename` its last segment.
   */
  function Enriched(meta: Object, name: string): Object {
    var parts := Split(name, '/');
    var withSource := meta["source_path" := Str(name)];
    var withCountry := if |parts| > 1 then withSource["country" := Str(parts[0])] else withSource;
    withCountry["filename" := Str(Last(parts))]
  }

  /** Every loaded page with its metadata enriched. */
  function EnrichedAll(docs: seq<Document>, name: string): (out: seq<Document>)
    ensures |out| == |docs|
  {
    seq(|docs|, i requires 0 <= i < |docs| => Document(docs[i].pageContent, Enriched(docs[i].metadata, name)))
  }

  /**
   * What `download_and_load(name)` returns: the exception the download lets through, None when
   * the download reports failure, the exception the PDF loader raises, or the enriched pages.
   */
  function Loaded(name: string, download: (string, string) -> Outcome<bool>,
                  load: string -> Outcome<seq<Document>>): Outcome<Option<seq<Document>>> {
    match download(name, TempPath(name))
    case Raised(m) => Raised(m)
    case Returned(ok) =>
      if !ok then Returned(None)
      else match load(TempPath(name))
        case Raised(m) => Raised(m)
        case Returned(docs) => Returned(Some(EnrichedAll(docs, name)))
  }

  class IngestionPipeline {
    /** The processed-files map. */
    var processed: map<string, Value>
    /** The contents of the processed-files store on disk; None while it does not exist. */
    ghost var stored: Option<map<string, Value>>
    /** The temporary files present in the working directory. */
    ghost var tempFiles: set<string>

    /** `__init__` and `_load_processed_files`: a missing store loads as the empty map. */
    constructor(store: Option<map<string, Value>>)
      ensures processed == (if store.Some? then store.value else map[])
      ensures stored == store && tempFiles == {}
    {
      processed := if store.Some? then store.value else map[];
      stored := store;
      tempFiles := {};
    }

    /** `get_new_files()`, given the bucket's listing of PDF files. */
    method GetNewFiles(listing: seq<string>) returns (pending: seq<string>)
      ensures pending == NewFiles(listing, processed)
    {
      pending := [];
      for i := 0 to |listing|
        invariant pending + NewFiles(listing[i..], processed) == NewFiles(listing, processed)
      {
        assert listing[i..][1..] == listing[i + 1..];
        if listing[i] !in processed {
          pending := pending + [listing[i]];
        }
      }
    }

    /**
     * `download_and_load(name)`: `download` fetches the object into the temporary file and says
     * whether it succeeded, or raises (`download_file` catches only `S3Error`); `load` reads the
     * pages of that file. The temporary file is removed after loading, whether or not loading
     * raised; a download that raises or fails leaves no file to remove.
     */
    method DownloadAndLoad(name: string, download: (string, string) -> Outcome<bool>,
                           load: string -> Outcome<seq<Document>>)
      returns (r: Outcome<Option<seq<Document>>>)
      modifies this`tempFiles
      ensures r == Loaded(name, download, load)
      ensures download(name, TempPath(name)) != Returned(true) ==> tempFiles == old(tempFiles)
      ensures download(name, TempPath(name)) == Returned(true) ==> tempFiles == old(tempFiles) - {TempPath(name)}
    {
      var localPath := TempPath(name);
      var fetched := download(name, localPath);
      if fetched.Raised? {
        return Raised(fetched.message);
      }
      if !fetched.value {
        return Returned(None);
      }
      tempFiles := tempFiles + {localPath};
      var loaded := load(localPath);
      if loaded.Raised? {
        tempFiles := tempFiles - {localPath};
        return Raised(loaded.message);
      }
      var docs := loaded.value;
      for i := 0 to |docs|
        invariant |docs| == |loaded.value|
        invariant docs[..i] == EnrichedAll(loaded.value[..i], name)
        invariant docs[i..] == loaded.value[i..]
      {
        assert docs[i] == loaded.value[i];
        docs := docs[i := Document(docs[i].pageContent, Enriched(docs[i].metadata, name))];
        assert docs[..i + 1] == EnrichedAll(loaded.value[..i + 1], name);
      }
      assert docs == docs[..|docs|];
      assert loaded.value == loaded.value[..|docs|];
      tempFiles := tempFiles - {localPath};
      r := Returned(Some(docs));
    }

    /** `mark_as_processed(name)`: the name maps to True, and the store on disk is rewritten. */
    method MarkAsProcessed(name: string)
      modifies this`processed, this`stored
      ensures processed == old(processed)[name := Bool(true)]
      ensures stored == Some(processed)
    {
      processed := processed[name := Bool(true)];
      stored := Some(processed);
    }
  }

  // ----- properties -----

  /** A name is new exactly when it is listed and not processed; so a marked name is never new again. */
  lemma {:induction false} NewFilesMembers(listing: seq<string>, processed: map<string, Value>, x: string)
    ensures x in NewFiles(listing, processed) <==> x in listing && x !in processed
  {
    if listing != [] {
      NewFilesMembers(listing[1..], processed, x);
      assert x in listing <==> x == listing[0] || x in listing[1..];
    }
  }

  /** The new files keep the listing's order: the new files of a concatenation are concatenated. */
  lemma {:induction false} NewFilesAppend(a: seq<string>, b: seq<string>, processed: map<string, Value>)
    ensures NewFiles(a + b, processed) == NewFiles(a, processed) + NewFiles(b, processed)
  {
    if a == [] {
      assert a + b == b;
    } else {
      assert (a + b)[1..] == a[1..] + b;
      NewFilesAppend(a[1..], b, processed);
    }
  }

  /** The temporary path is a flat name: "temp_", then the object name with every '/' turned into '_'. */
  lemma {:induction false} TempPathShape(name: string)
    ensures StartsWith(TempPath(name), "temp_") && '/' !in TempPath(name)
    ensures forall i :: 0 <= i < |name| && name[i] != '/' ==> TempPath(name)[i + 5] == name[i]
    ensures '/' !in name ==> TempPath(name) == "temp_" + name
  {
    var path := TempPath(name);
    assert forall i :: 0 <= i < |name| ==> path[i + 5] == (if name[i] == '/' then '_' else name[i]);
  }

  /**
   * Enrichment sets `source_path` to the object name and `filename` to its last '/'-segment (which
   * holds no '/'); `country` becomes the first segment exactly when the name holds a '/', and is
   * otherwise left as it was; every other key is unchanged.
   */
  lemma {:induction false} EnrichedFields(meta: Object, name: string)
    ensures Enriched(meta, name)["source_path"] == Str(name)
    ensures Enriched(meta, name)["filename"] == Str(Last(Split(name, '/'))) && '/' !in Last(Split(name, '/'))
    ensures '/' in name ==>
      Get(Enriched(meta, name), "country", Null) == Str(Split(name, '/')[0]) && '/' !in Split(name, '/')[0]
    ensures '/' !in name ==>
      Enriched(meta, name)["filename"] == Str(name) && Get(Enriched(meta, name), "country", Null) == Get(meta, "country", Null)
    ensures forall k :: k in meta && k !in {"source_path", "country", "filename"} ==>
      k in Enriched(meta, name) && Enriched(meta, name)[k] == meta[k]
  {
    var parts := Split(name, '/');
    SplitPiecesLackSeparator(name, '/');
    assert Last(parts) in parts && parts[0] in parts;
    if '/' in name {
      SplitWithSeparator(name, '/');
    } else {
      SplitWithoutSeparator(name, '/');
    }
  }
}
