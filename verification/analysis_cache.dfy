/** `analyze_cv` and `clear_cache`: the single-file endpoint with its in-memory
    result cache. The cache is a value threaded through the calls; MD5 is
    abstracted away, so the key is the bytes it would hash. */
module AnalysisCache {
  import opened Wrappers
  import opened Text
  import opened Analysis
  import opened Extraction
  import AiRouting

  /** Everything an analysis depends on besides the request: prompt templates,
      API keys, the provider services and the text extractors. */
  datatype Backend = Backend(templates: AiRouting.Templates, keys: AiRouting.ApiKeys,
                             services: AiRouting.Services, extractors: Extractors)

  /** `analyze_cv_with_ai` under a given backend. */
  function Ai(b: Backend, cv: string, model: string, jd: string): Result<AnalysisResult, Failure> {
    AiRouting.AnalyseWithAi(b.templates, cv, model, jd, b.keys, b.services)
  }

  datatype Cache = Cache(entries: map<seq<byte>, AnalysisResult>)

  const Empty := Cache(map[])

  /** The bytes hashed into the key: file content, then the model id in UTF-8.
      The job description is not part of it. */
  function CacheKey(content: seq<byte>, model: string): (k: seq<byte>)
    ensures |content| + |model| <= |k|
    ensures k[..|content|] == content
    ensures k[|content|..] == Utf8(model)
  {
    content + Utf8(model)
  }

  /** For one file, the key separates the models: two requests with the same
      content share a key exactly when they name the same model id, since UTF-8
      gives different ids different bytes. */
  lemma CacheKeySeparatesModels(content: seq<byte>, m1: string, m2: string)
    ensures CacheKey(content, m1) == CacheKey(content, m2) <==> m1 == m2
  {
    if CacheKey(content, m1) == CacheKey(content, m2) {
      var k := CacheKey(content, m1);
      assert Utf8(m1) == k[|content|..] == Utf8(m2);
      Utf8Injective(m1, m2);
    }
  }

  /** Among files of one size the key identifies the request: content and
      model id are both read back from it. */
  lemma CacheKeyIdentifiesRequest(c1: seq<byte>, m1: string, c2: seq<byte>, m2: string)
    requires |c1| == |c2|
    ensures CacheKey(c1, m1) == CacheKey(c2, m2) <==> c1 == c2 && m1 == m2
  {
    if CacheKey(c1, m1) == CacheKey(c2, m2) {
      var k := CacheKey(c1, m1);
      assert c1 == k[..|c1|] == c2;
      CacheKeySeparatesModels(c1, m1, m2);
    }
  }

  /** Plain concatenation is ambiguous: moving an ASCII byte from the end of the
      content to the front of the model id gives a different request with the
      same key. */
  lemma KeysCollide(content: seq<byte>, b: byte, model: string)
    requires b < 0x80
    ensures CacheKey(content + [b], model) == CacheKey(content, [b as int as char] + model)
  {
    var c := b as int as char;
    Utf8OfAsciiHead(c, model);
    assert c as int as byte == b;
    assert (content + [b]) + Utf8(model) == content + ([b] + Utf8(model));
  }

  /** A response together with the cache it leaves behind. */
  datatype Served = Served(cache: Cache, response: Result<AnalysisResult, Failure>)

  const UnsupportedFile := "Chỉ hỗ trợ file PDF, DOCX, TXT"

  /** What a cache miss does: extract the text, then analyse it. */
  function Fresh(b: Backend, file: Upload, f: Format, model: string, jd: string): Result<AnalysisResult, Failure> {
    var text :- Extract(b.extractors, f, file.content);
    Ai(b, text, model, jd)
  }

  /** `analyze_cv`: refuse an unsupported name with a 400; answer a hit from the
      cache; on a miss analyse and store. Anything raised after the name check,
      the AI's own 500 included, becomes a 500 "Lỗi xử lý file". */
  function AnalyseCv(b: Backend, cache: Cache, file: Upload, model: string, jd: string): (s: Served)
    ensures !Supported(file.filename) ==>
      s == Served(cache, Failure(HttpError(400, Detail(UnsupportedFile))))
    ensures Supported(file.filename) && CacheKey(file.content, model) in cache.entries ==>
      s == Served(cache, Success(cache.entries[CacheKey(file.content, model)]))
    ensures Supported(file.filename) && CacheKey(file.content, model) !in cache.entries ==>
      var computed := Fresh(b, file, FormatOf(file.filename).value, model, jd);
      && (computed.Success? ==>
            s == Served(Cache(cache.entries[CacheKey(file.content, model) := computed.value]), computed))
      && (computed.Failure? ==>
            s == Served(cache, Failure(HttpError(500, ProcessingFailed(computed.error)))))
  {
    SupportedHasFormat(file.filename);
    match FormatOf(file.filename)
    case None => Served(cache, Failure(HttpError(400, Detail(UnsupportedFile))))
    case Some(f) =>
      var key := CacheKey(file.content, model);
      if key in cache.entries then Served(cache, Success(cache.entries[key]))
      else
        match Fresh(b, file, f, model, jd)
        case Success(a) => Served(Cache(cache.entries[key := a]), Success(a))
        case Failure(e) => Served(cache, Failure(HttpError(500, ProcessingFailed(e))))
  }

  /** The cache only grows, and an entry once stored never changes. */
  lemma EntriesPersist(b: Backend, cache: Cache, file: Upload, model: string, jd: string)
    ensures var s := AnalyseCv(b, cache, file, model, jd);
            forall k :: k in cache.entries ==> k in s.cache.entries && s.cache.entries[k] == cache.entries[k]
  {
  }

  /** A successful call leaves its answer cached under the request's key, and
      the cache only ever holds what some call answered. */
  lemma SuccessIsCached(b: Backend, cache: Cache, file: Upload, model: string, jd: string)
    ensures var s := AnalyseCv(b, cache, file, model, jd);
            s.response.Success? ==>
              && CacheKey(file.content, model) in s.cache.entries
              && s.cache.entries[CacheKey(file.content, model)] == s.response.value
              && s.cache.entries.Keys <= cache.entries.Keys + {CacheKey(file.content, model)}
  {
  }

  /** A hit consults neither the extractors nor the AI: two backends give the
      same answer, whatever the job description. */
  lemma HitIgnoresBackend(b1: Backend, b2: Backend, cache: Cache, file: Upload,
                          model: string, jd1: string, jd2: string)
    requires Supported(file.filename) && CacheKey(file.content, model) in cache.entries
    ensures AnalyseCv(b1, cache, file, model, jd1) == AnalyseCv(b2, cache, file, model, jd2)
  {
  }

  /** The job description is not part of the key: after a successful analysis,
      the same file and model with another job description get the stored
      answer back, which was computed against the first one. */
  lemma StaleJobDescription(b: Backend, cache: Cache, file: Upload, model: string,
                            jd1: string, jd2: string)
    requires AnalyseCv(b, cache, file, model, jd1).response.Success?
    ensures var first := AnalyseCv(b, cache, file, model, jd1);
            AnalyseCv(b, first.cache, file, model, jd2) == first
  {
  }

  /** A failure leaves the cache as it was, so the next call tries again. */
  lemma FailureNotCached(b: Backend, cache: Cache, file: Upload, model: string, jd: string)
    ensures var s := AnalyseCv(b, cache, file, model, jd);
            s.response.Failure? ==> s.cache == cache
  {
  }

  const ClearedPrefix := "Đã xóa "
  const ClearedSuffix := " items từ cache"

  /** `clear_cache`: empties the cache and reports how many entries it held. */
  function ClearCache(cache: Cache): (r: (Cache, string))
    ensures r.0 == Empty
    ensures StartsWith(r.1, ClearedPrefix)
    ensures NumberBefore(r.1[|ClearedPrefix|..], ClearedSuffix) == Some(|cache.entries|)
  {
    var count := |cache.entries|;
    var message := ClearedPrefix + IntToString(count) + ClearedSuffix;
    StartsWithAppend(ClearedPrefix, IntToString(count) + ClearedSuffix);
    assert message == ClearedPrefix + (IntToString(count) + ClearedSuffix);
    assert message[|ClearedPrefix|..] == IntToString(count) + ClearedSuffix;
    NumberBeforeSuffix(count, ClearedSuffix);
    (Empty, message)
  }

  /** After a clear every request is a miss again. */
  lemma ClearedCacheMisses(b: Backend, cache: Cache, file: Upload, model: string, jd: string)
    requires Supported(file.filename)
    ensures AnalyseCv(b, ClearCache(cache).0, file, model, jd).response
         == Fresh(b, file, FormatOf(file.filename).value, model, jd)
              .MapFailure(ProcessingFailure)
  {
  }

  function ProcessingFailure(e: Failure): Failure {
    HttpError(500, ProcessingFailed(e))
  }
}
