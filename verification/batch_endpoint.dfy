/** `batch_analyze_cvs`: up to ten files, each analysed on its own, one entry
    per file whose name has a known extension. Unlike the single-file endpoint
    it neither consults nor fills the cache. */
module BatchEndpoint {
  import opened Wrappers
  import opened Analysis
  import opened Extraction
  import opened AnalysisCache
  import AiRouting

  const MaxFiles := 10
  const TooManyFiles := "Tối đa 10 CV mỗi lần"

  /** The entry for one file: nothing for an unknown extension, otherwise the
      analysis or whatever was raised on the way to it, unwrapped. */
  function EntryFor(b: Backend, file: Upload, model: string, jd: string): (e: Option<BatchItem>)
    ensures e.None? <==> FormatOf(file.filename).None?
    ensures e.Some? ==>
      var computed := Fresh(b, file, FormatOf(file.filename).value, model, jd);
      && e.value.filename == file.filename
      && (computed.Success? ==> e.value.outcome == Analysed(computed.value))
      && (computed.Failure? ==> e.value.outcome == Errored(computed.error))
  {
    match FormatOf(file.filename)
    case None => None
    case Some(f) =>
      match Fresh(b, file, f, model, jd)
      case Success(a) => Some(BatchItem(file.filename, Analysed(a)))
      case Failure(e) => Some(BatchItem(file.filename, Errored(e)))
  }

  /** `EntryFor` with the request's backend, model and job description fixed. */
  function FileEntry(b: Backend, model: string, jd: string): Upload -> Option<BatchItem> {
    file => EntryFor(b, file, model, jd)
  }

  /** The entries of a file list, in its order: the reference the endpoint's
      loop is checked against. */
  function Entries(entry: Upload -> Option<BatchItem>, files: seq<Upload>): (r: seq<BatchItem>)
    ensures |r| <= |files|
  {
    if files == [] then []
    else
      var rest := Entries(entry, files[1..]);
      match entry(files[0])
      case None => rest
      case Some(e) => [e] + rest
  }

  lemma {:induction false} EntriesAppend(entry: Upload -> Option<BatchItem>, files: seq<Upload>, file: Upload)
    ensures Entries(entry, files + [file]) == Entries(entry, files) + Entries(entry, [file])
  {
    if files == [] {
      assert files + [file] == [file];
    } else {
      assert (files + [file])[1..] == files[1..] + [file];
      EntriesAppend(entry, files[1..], file);
    }
  }

  /** One more file adds its entry, if any, at the end. */
  lemma EntriesStep(entry: Upload -> Option<BatchItem>, files: seq<Upload>, i: nat)
    requires i < |files|
    ensures Entries(entry, files[..i + 1]) ==
      Entries(entry, files[..i]) + (if entry(files[i]).Some? then [entry(files[i]).value] else [])
  {
    EntriesAppend(entry, files[..i], files[i]);
    assert files[..i + 1] == files[..i] + [files[i]];
    assert [files[i]][1..] == [];
  }

  /** The files that produce an entry, in order. */
  function Kept(entry: Upload -> Option<BatchItem>, files: seq<Upload>): (r: seq<Upload>)
    ensures |r| <= |files|
    ensures forall i :: 0 <= i < |r| ==> r[i] in files && entry(r[i]).Some?
    ensures forall f :: f in files && entry(f).Some? ==> f in r
  {
    if files == [] then []
    else if entry(files[0]).Some? then [files[0]] + Kept(entry, files[1..])
    else Kept(entry, files[1..])
  }

  /** Exactly one entry per kept file, in the same order. */
  lemma {:induction false} OneEntryPerKeptFile(entry: Upload -> Option<BatchItem>, files: seq<Upload>)
    ensures |Entries(entry, files)| == |Kept(entry, files)|
    ensures forall i :: 0 <= i < |Kept(entry, files)| ==>
      Some(Entries(entry, files)[i]) == entry(Kept(entry, files)[i])
  {
    if files != [] {
      OneEntryPerKeptFile(entry, files[1..]);
    }
  }

  /** In a batch the kept files are those with a known extension, and each
      entry carries its file's name. */
  lemma BatchKeepsKnownFormats(b: Backend, files: seq<Upload>, model: string, jd: string)
    ensures var kept := Kept(FileEntry(b, model, jd), files);
            && (forall i :: 0 <= i < |kept| ==> FormatOf(kept[i].filename).Some?)
            && (forall f :: f in files && FormatOf(f.filename).Some? ==> f in kept)
            && |Entries(FileEntry(b, model, jd), files)| == |kept|
            && (forall i :: 0 <= i < |kept| ==>
                  Entries(FileEntry(b, model, jd), files)[i].filename == kept[i].filename)
  {
    var entry := FileEntry(b, model, jd);
    var kept := Kept(entry, files);
    OneEntryPerKeptFile(entry, files);
    forall i | 0 <= i < |kept|
      ensures FormatOf(kept[i].filename).Some?
      ensures Entries(entry, files)[i].filename == kept[i].filename
    {
      assert entry(kept[i]) == EntryFor(b, kept[i], model, jd);
    }
    forall f | f in files && FormatOf(f.filename).Some?
      ensures f in kept
    {
      assert entry(f) == EntryFor(b, f, model, jd);
    }
  }

  /** Entries all of whose non-skipped outcomes are errors. */
  lemma {:induction false} AllErrored(entry: Upload -> Option<BatchItem>, files: seq<Upload>)
    requires forall f :: entry(f).Some? ==> entry(f).value.outcome.Errored?
    ensures forall i :: 0 <= i < |Entries(entry, files)| ==> Entries(entry, files)[i].outcome.Errored?
  {
    if files != [] {
      AllErrored(entry, files[1..]);
    }
  }

  /** With a model id no provider serves, every entry of a batch is an error. */
  lemma UnsupportedModelFailsEveryFile(b: Backend, files: seq<Upload>, model: string, jd: string)
    requires AiRouting.Route(model).Failure?
    ensures forall i :: 0 <= i < |Entries(FileEntry(b, model, jd), files)| ==>
      Entries(FileEntry(b, model, jd), files)[i].outcome.Errored?
  {
    var entry := FileEntry(b, model, jd);
    forall f | entry(f).Some?
      ensures entry(f).value.outcome.Errored?
    {
      assert entry(f) == EntryFor(b, f, model, jd);
    }
    AllErrored(entry, files);
  }

  datatype BatchResponse = BatchResponse(results: seq<BatchItem>, total: int)

  /** The endpoint: more than ten files is a 400 before any file is read;
      otherwise every file is visited in order and `total` counts the entries. */
  method BatchAnalyse(b: Backend, files: seq<Upload>, model: string, jd: string)
    returns (r: Result<BatchResponse, Failure>)
    ensures r.Failure? <==> |files| > MaxFiles
    ensures r.Failure? ==> r.error == HttpError(400, Detail(TooManyFiles))
    ensures r.Success? ==>
      && r.value.results == Entries(FileEntry(b, model, jd), files)
      && r.value.total == |r.value.results| <= |files|
  {
    if |files| > MaxFiles {
      return Failure(HttpError(400, Detail(TooManyFiles)));
    }
    var entryOf := FileEntry(b, model, jd);
    var results: seq<BatchItem> := [];
    var i := 0;
    while i < |files|
      invariant 0 <= i <= |files|
      invariant results == Entries(entryOf, files[..i])
    {
      EntriesStep(entryOf, files, i);
      var entry := entryOf(files[i]);
      if entry.Some? {
        results := results + [entry.value];
      }
      i := i + 1;
    }
    assert files[..i] == files;
    return Success(BatchResponse(results, |results|));
  }
}
