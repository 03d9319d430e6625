/** Resolution of the identity provider's metadata and of its signing
    certificate. The metadata comes from a URL (through a cache, with a fallback
    to the local file when the fetch fails or returns malformed XML) or from a
    local file. The network, the file system, the URL validator and the XML
    parser are inputs: a `World` says what each would answer, and a `Document`
    says what parsing a fetched or read document yields. Under Laravel's error
    handler a parser warning is raised as an exception, so a document that does
    not parse cleanly is an error wherever it is parsed outside a `catch`. */
module Metadata {
  import opened Results
  import opened Strings

  /** A metadata document: its text, whether `DOMDocument::loadXML` accepts it
      without a diagnostic, and the values of its `ds:X509Certificate` elements
      in document order. */
  datatype Document = Document(raw: string, wellFormed: bool, certificates: seq<string>)

  /** The `metadata_url` and `metadata_file` entries of the selected identity
      provider. */
  datatype IdpSources = IdpSources(metadataUrl: Option<string>, metadataFile: Option<string>)

  /** The `metadata` configuration block. */
  datatype MetadataConfig = MetadataConfig(
    cacheEnabled: bool,
    cacheDuration: Option<int>,
    fallbackToLocal: Option<bool>)

  datatype CacheEntry = CacheEntry(document: Document, expiresAt: int)

  /** The metadata cache, keyed by source URL. */
  type Cache = map<string, CacheEntry>

  /** What the environment answers: which strings pass URL validation, what each
      URL serves (absent: the fetch fails), and which files exist (`None`: the
      file exists but cannot be read). */
  datatype World = World(
    validUrls: set<string>,
    remote: map<string, Document>,
    files: map<string, Option<Document>>)

  datatype FetchFailure = Unreachable | NotXml

  datatype MetadataError =
    | FileNotFound(path: string)
    | FileUnreadable(path: string)
    | NoFallback(url: string, cause: FetchFailure)
    | EmptyResponse(url: string)
    | MalformedMetadata

  /** Errors that are not exceptions: `loadXML` refuses an empty string with a
      `ValueError`, which no `catch (\Exception)` handles. */
  predicate Uncatchable(e: MetadataError) {
    e.EmptyResponse?
  }

  /** A resolved document (or the error) together with the cache afterwards. */
  datatype Resolution = Resolution(result: Result<Document, MetadataError>, cache: Cache)

  datatype CertificateResolution = CertificateResolution(result: Result<string, MetadataError>, cache: Cache)

  const DefaultCacheDuration := 3600
  const AutoSource := "auto"

  function CacheDuration(c: MetadataConfig): int {
    c.cacheDuration.GetOr(DefaultCacheDuration)
  }

  /** The cache holds an unexpired entry for `url`. */
  predicate CacheHit(cache: Cache, url: string, now: int) {
    url in cache && now < cache[url].expiresAt
  }

  /** Every cached document was well-formed when it was stored. */
  ghost predicate CacheSound(cache: Cache) {
    forall u :: u in cache ==> cache[u].document.wellFormed
  }

  /** `metadata_file ?? ''`: the local copy used as the fallback. */
  function FallbackFile(idp: IdpSources): string {
    idp.metadataFile.GetOr("")
  }

  /** The document is what the configured local file holds. */
  ghost predicate LocalCopy(world: World, idp: IdpSources, doc: Document) {
    FallbackFile(idp) in world.files && world.files[FallbackFile(idp)] == Some(doc)
  }

  /** `loadMetadataFromFile`. */
  function LoadMetadataFromFile(world: World, path: string): (r: Result<Document, MetadataError>)
    ensures r.Ok? <==> path in world.files && world.files[path].Some?
    ensures r.Ok? ==> r.value == world.files[path].value
    ensures path !in world.files ==> r == Err(FileNotFound(path))
  {
    if path !in world.files then Err(FileNotFound(path))
    else match world.files[path]
      case None => Err(FileUnreadable(path))
      case Some(doc) => Ok(doc)
  }

  /** The `catch` of `fetchMetadataFromUrl`: the local file when the fallback is
      on (by default it is) and a file is configured, an error otherwise. */
  function Fallback(c: MetadataConfig, idp: IdpSources, world: World, url: string, cause: FetchFailure)
    : (r: Result<Document, MetadataError>)
    ensures c.fallbackToLocal.GetOr(true) && !Blank(FallbackFile(idp)) ==>
      r == LoadMetadataFromFile(world, FallbackFile(idp))
    ensures !(c.fallbackToLocal.GetOr(true) && !Blank(FallbackFile(idp))) ==> r == Err(NoFallback(url, cause))
  {
    if c.fallbackToLocal.GetOr(true) && !Blank(FallbackFile(idp)) then
      LoadMetadataFromFile(world, FallbackFile(idp))
    else Err(NoFallback(url, cause))
  }

  /** `fetchMetadataFromUrl`. An empty body is refused by `loadXML` with an
      error its `catch` does not handle, so it skips the fallback. */
  function FetchMetadataFromUrl(c: MetadataConfig, idp: IdpSources, world: World, cache: Cache, now: int, url: string)
    : (res: Resolution)
    // A cache hit is served as is.
    ensures c.cacheEnabled && CacheHit(cache, url, now) ==> res == Resolution(Ok(cache[url].document), cache)
    // The cache changes only to store a successfully fetched, well-formed document.
    ensures res.cache != cache ==>
      && c.cacheEnabled
      && !CacheHit(cache, url, now)
      && url in world.remote
      && world.remote[url].raw != ""
      && world.remote[url].wellFormed
      && res.result == Ok(world.remote[url])
      && res.cache == cache[url := CacheEntry(world.remote[url], now + CacheDuration(c))]
    // A failed fetch or a malformed document leads to the fallback, cache untouched.
    ensures !(c.cacheEnabled && CacheHit(cache, url, now)) && url !in world.remote ==>
      res == Resolution(Fallback(c, idp, world, url, Unreachable), cache)
    ensures (!(c.cacheEnabled && CacheHit(cache, url, now)) && url in world.remote &&
             world.remote[url].raw != "" && !world.remote[url].wellFormed) ==>
      res == Resolution(Fallback(c, idp, world, url, NotXml), cache)
    // An empty body escapes the fallback, cache untouched.
    ensures !(c.cacheEnabled && CacheHit(cache, url, now)) && url in world.remote && world.remote[url].raw == "" ==>
      res == Resolution(Err(EmptyResponse(url)), cache)
    // A well-formed document is returned, and stored for the cache duration
    // when caching is on.
    ensures (!(c.cacheEnabled && CacheHit(cache, url, now)) && url in world.remote &&
             world.remote[url].raw != "" && world.remote[url].wellFormed) ==>
      && res.result == Ok(world.remote[url])
      && res.cache == (if c.cacheEnabled then cache[url := CacheEntry(world.remote[url], now + CacheDuration(c))] else cache)
    // Only well-formed documents enter the cache, and what comes back is
    // well-formed unless it is the local copy.
    ensures CacheSound(cache) ==> CacheSound(res.cache)
    ensures CacheSound(cache) && res.result.Ok? ==>
      res.result.value.wellFormed || LocalCopy(world, idp, res.result.value)
  {
    if c.cacheEnabled && CacheHit(cache, url, now) then
      Resolution(Ok(cache[url].document), cache)
    else if url !in world.remote then
      Resolution(Fallback(c, idp, world, url, Unreachable), cache)
    else
      var doc := world.remote[url];
      if doc.raw == "" then
        Resolution(Err(EmptyResponse(url)), cache)
      else if !doc.wellFormed then
        Resolution(Fallback(c, idp, world, url, NotXml), cache)
      else
        var cache' := if c.cacheEnabled then cache[url := CacheEntry(doc, now + CacheDuration(c))] else cache;
        Resolution(Ok(doc), cache')
  }

  /** A cache hit does not depend on the network at all. */
  lemma CacheHitSkipsFetch(c: MetadataConfig, idp: IdpSources, w1: World, w2: World, cache: Cache, now: int, url: string)
    requires c.cacheEnabled && CacheHit(cache, url, now)
    ensures FetchMetadataFromUrl(c, idp, w1, cache, now, url) == FetchMetadataFromUrl(c, idp, w2, cache, now, url)
  {
  }

  /** `getMetadataXml`: "auto" picks the URL when one is configured and the file
      otherwise; a valid URL is fetched; anything else is read as a file path. */
  function GetMetadataXml(c: MetadataConfig, idp: IdpSources, world: World, cache: Cache, now: int, source: string)
    : (res: Resolution)
    ensures source == AutoSource && idp.metadataUrl.Some? ==>
      res == FetchMetadataFromUrl(c, idp, world, cache, now, idp.metadataUrl.value)
    ensures source == AutoSource && idp.metadataUrl.None? ==>
      res == Resolution(LoadMetadataFromFile(world, FallbackFile(idp)), cache)
    ensures source != AutoSource && source in world.validUrls ==>
      res == FetchMetadataFromUrl(c, idp, world, cache, now, source)
    ensures source != AutoSource && source !in world.validUrls ==>
      res == Resolution(LoadMetadataFromFile(world, source), cache)
    // Only a fetch touches the cache, and it stays sound.
    ensures res.cache != cache ==> source in world.validUrls || (source == AutoSource && idp.metadataUrl.Some?)
    ensures CacheSound(cache) ==> CacheSound(res.cache)
  {
    if source == AutoSource then
      match idp.metadataUrl
      case Some(url) => FetchMetadataFromUrl(c, idp, world, cache, now, url)
      case None => Resolution(LoadMetadataFromFile(world, FallbackFile(idp)), cache)
    else if source in world.validUrls then
      FetchMetadataFromUrl(c, idp, world, cache, now, source)
    else
      Resolution(LoadMetadataFromFile(world, source), cache)
  }

  /** The source `buildSamlConfig` passes on: `metadata_url ?? metadata_file ?? 'auto'`. */
  function MetadataSource(idp: IdpSources): string {
    match idp.metadataUrl
    case Some(url) => url
    case None => idp.metadataFile.GetOr(AutoSource)
  }

  /** The metadata the identity provider's configuration resolves to. */
  function ResolveMetadata(c: MetadataConfig, idp: IdpSources, world: World, cache: Cache, now: int)
    : (res: Resolution)
    // A configured URL that validates is fetched (with cache and fallback).
    ensures idp.metadataUrl.Some? && (idp.metadataUrl.value == AutoSource || idp.metadataUrl.value in world.validUrls) ==>
      res == FetchMetadataFromUrl(c, idp, world, cache, now, idp.metadataUrl.value)
    // A configured URL that does not validate is read as a file path.
    ensures idp.metadataUrl.Some? && idp.metadataUrl.value != AutoSource && idp.metadataUrl.value !in world.validUrls ==>
      res == Resolution(LoadMetadataFromFile(world, idp.metadataUrl.value), cache)
    // Without a URL the file is read (a file entry that validates as a URL is
    // fetched instead); with neither, the empty path is read.
    ensures idp.metadataUrl.None? && (idp.metadataFile.None? || FallbackFile(idp) == AutoSource || FallbackFile(idp) !in world.validUrls) ==>
      res == Resolution(LoadMetadataFromFile(world, FallbackFile(idp)), cache)
    ensures idp.metadataUrl.None? && idp.metadataFile.Some? && FallbackFile(idp) != AutoSource && FallbackFile(idp) in world.validUrls ==>
      res == FetchMetadataFromUrl(c, idp, world, cache, now, FallbackFile(idp))
    // The cache stays sound, and a local file is the only way to get a
    // malformed document.
    ensures CacheSound(cache) ==> CacheSound(res.cache)
    ensures CacheSound(cache) && res.result.Ok? && !res.result.value.wellFormed ==>
      exists path :: path in world.files && world.files[path] == Some(res.result.value)
  {
    GetMetadataXml(c, idp, world, cache, now, MetadataSource(idp))
  }

  /** The value of the first `ds:X509Certificate` of a parsed document, or ""
      when it has none. */
  function FirstCertificate(doc: Document): (cert: string)
    ensures cert != "" ==> |doc.certificates| > 0 && cert == doc.certificates[0]
    ensures |doc.certificates| > 0 ==> cert == doc.certificates[0]
    ensures |doc.certificates| == 0 ==> cert == ""
  {
    if |doc.certificates| > 0 then doc.certificates[0] else ""
  }

  /** `extractCertificateFromMetadata`: errors of the metadata lookup propagate;
      an empty document yields ""; a document that does not parse cleanly
      raises; otherwise the first certificate, or "". */
  function ExtractCertificate(c: MetadataConfig, idp: IdpSources, world: World, cache: Cache, now: int, source: string)
    : (r: CertificateResolution)
    ensures r.cache == GetMetadataXml(c, idp, world, cache, now, source).cache
    ensures GetMetadataXml(c, idp, world, cache, now, source).result.Err? ==>
      r.result == Err(GetMetadataXml(c, idp, world, cache, now, source).result.error)
    ensures GetMetadataXml(c, idp, world, cache, now, source).result.Ok? ==>
      var doc := GetMetadataXml(c, idp, world, cache, now, source).result.value;
      && (Blank(doc.raw) ==> r.result == Ok(""))
      && (!Blank(doc.raw) && !doc.wellFormed ==> r.result == Err(MalformedMetadata))
      && (!Blank(doc.raw) && doc.wellFormed ==> r.result == Ok(FirstCertificate(doc)))
  {
    var res := GetMetadataXml(c, idp, world, cache, now, source);
    match res.result
    case Err(e) => CertificateResolution(Err(e), res.cache)
    case Ok(doc) =>
      if Blank(doc.raw) then CertificateResolution(Ok(""), res.cache)
      else if !doc.wellFormed then CertificateResolution(Err(MalformedMetadata), res.cache)
      else CertificateResolution(Ok(FirstCertificate(doc)), res.cache)
  }

  /** The identity provider certificate `buildSamlConfig` installs. */
  function ResolveSigningCertificate(c: MetadataConfig, idp: IdpSources, world: World, cache: Cache, now: int)
    : (r: CertificateResolution)
    // It fails when resolution fails, with that error, or when the resolved
    // document is non-empty and does not parse cleanly.
    ensures r.result.Err? <==>
      || ResolveMetadata(c, idp, world, cache, now).result.Err?
      || (var doc := ResolveMetadata(c, idp, world, cache, now).result.value; !Blank(doc.raw) && !doc.wellFormed)
    ensures ResolveMetadata(c, idp, world, cache, now).result.Err? ==>
      r.result.error == ResolveMetadata(c, idp, world, cache, now).result.error
    ensures r.result.Err? && ResolveMetadata(c, idp, world, cache, now).result.Ok? ==> r.result.error == MalformedMetadata
    ensures r.cache == ResolveMetadata(c, idp, world, cache, now).cache
    ensures r.result.Ok? && r.result.value != "" ==>
      var doc := ResolveMetadata(c, idp, world, cache, now).result.value;
      doc.wellFormed && |doc.certificates| > 0 && r.result.value == doc.certificates[0]
    // Conversely, a non-empty well-formed document with a certificate yields
    // its first one, and empty metadata yields "".
    ensures ResolveMetadata(c, idp, world, cache, now).result.Ok? ==>
      var doc := ResolveMetadata(c, idp, world, cache, now).result.value;
      && (Blank(doc.raw) ==> r.result == Ok(""))
      && (!Blank(doc.raw) && doc.wellFormed && |doc.certificates| > 0 ==> r.result == Ok(doc.certificates[0]))
  {
    ExtractCertificate(c, idp, world, cache, now, MetadataSource(idp))
  }

  /** Remote metadata that is not XML falls back to the local file; if that file
      is missing too, the certificate cannot be resolved. */
  lemma MalformedRemoteFallsBack(c: MetadataConfig, idp: IdpSources, world: World, cache: Cache, now: int)
    requires idp.metadataUrl.Some? && idp.metadataUrl.value in world.validUrls
    requires !(c.cacheEnabled && CacheHit(cache, idp.metadataUrl.value, now))
    requires idp.metadataUrl.value in world.remote
    requires world.remote[idp.metadataUrl.value].raw != "" && !world.remote[idp.metadataUrl.value].wellFormed
    requires c.fallbackToLocal.GetOr(true) && !Blank(FallbackFile(idp))
    ensures ResolveMetadata(c, idp, world, cache, now) ==
      Resolution(LoadMetadataFromFile(world, FallbackFile(idp)), cache)
    ensures FallbackFile(idp) !in world.files ==>
      ResolveSigningCertificate(c, idp, world, cache, now).result == Err(FileNotFound(FallbackFile(idp)))
  {
  }

  /** An empty body from the metadata URL is not a malformed document: it
      escapes the fallback, whatever the local file holds, and resolution fails
      with an error no exception handler catches. */
  lemma EmptyRemoteEscapes(c: MetadataConfig, idp: IdpSources, world: World, cache: Cache, now: int)
    requires idp.metadataUrl.Some? && idp.metadataUrl.value in world.validUrls
    requires !(c.cacheEnabled && CacheHit(cache, idp.metadataUrl.value, now))
    requires idp.metadataUrl.value in world.remote && world.remote[idp.metadataUrl.value].raw == ""
    ensures ResolveSigningCertificate(c, idp, world, cache, now) ==
      CertificateResolution(Err(EmptyResponse(idp.metadataUrl.value)), cache)
    ensures Uncatchable(ResolveSigningCertificate(c, idp, world, cache, now).result.error)
  {
  }

  /** A local metadata file that does not parse cleanly makes certificate
      resolution fail rather than yield no certificate. */
  lemma MalformedFileRaises(c: MetadataConfig, idp: IdpSources, world: World, cache: Cache, now: int)
    requires idp.metadataUrl.None? && idp.metadataFile.Some?
    requires idp.metadataFile.value != AutoSource && idp.metadataFile.value !in world.validUrls
    requires idp.metadataFile.value in world.files && world.files[idp.metadataFile.value].Some?
    requires !Blank(world.files[idp.metadataFile.value].value.raw) && !world.files[idp.metadataFile.value].value.wellFormed
    ensures ResolveSigningCertificate(c, idp, world, cache, now) == CertificateResolution(Err(MalformedMetadata), cache)
  {
  }
}
