/** `process_image_with_cloudinary`: have the transformation service fetch
    the original and derive the variants, download each variant it
    returned, and always delete the temporary upload afterwards. Every call
    to the service or the CDN is an oracle; the run records them in order. */
module ImageProcessor {
  import opened Wrappers
  import opened Text
  import opened JsonValues
  import opened Exceptions
  import opened Entities
  import opened Failures
  import opened Cloudinary

  /** One outside call, in the order it is made. */
  datatype Effect =
    | Transform(request: UploadRequest)
    | Download(url: string)
    | Destroy(publicId: string)

  /** One `(bytes, ImageVariantResult)` pair of the returned list. */
  datatype VariantOutput = VariantOutput(data: Bytes, meta: ImageVariantResult)

  /** The calls made and what the call returned or raised. */
  datatype Run = Run(effects: seq<Effect>, result: Result<seq<VariantOutput>, Exn>)

  /** The temporary public id: `temp/leaf-flow/{product_id}/{image_id}`. */
  function PublicId(productId: string, imageId: int): (id: string)
    ensures DirName(id) == "temp/leaf-flow/" + productId
    ensures BaseName(id) == IntToString(imageId)
  {
    SplitAtLastSlash("temp/leaf-flow/" + productId, IntToString(imageId));
    "temp/leaf-flow/" + productId + "/" + IntToString(imageId)
  }

  /** Different images never share a temporary id, whatever the product id
      contains: the image id is the text after the last '/', the product id
      everything between the fixed prefix and it. */
  lemma PublicIdInjective(p1: string, i1: int, p2: string, i2: int)
    ensures PublicId(p1, i1) == PublicId(p2, i2) ==> p1 == p2 && i1 == i2
  {
    if PublicId(p1, i1) == PublicId(p2, i2) {
      var pre := "temp/leaf-flow/";
      IntToStringInjective(i1, i2);
      assert p1 == (pre + p1)[|pre|..];
      assert p2 == (pre + p2)[|pre|..];
    }
  }

  /** The key of a variant under a base path: `{base_path}/{variant}.webp`. */
  function VariantKey(basePath: string, variant: string): string {
    basePath + "/" + variant + ".webp"
  }

  /** Where a variant of an original is stored: under the original's
      directory (`base_path`), named after the variant. */
  function StorageKey(originalKey: string, variant: string): (key: string)
    ensures '/' !in variant ==>
      DirName(key) == DirName(originalKey) && BaseName(key) == variant + ".webp"
  {
    var key := VariantKey(DirName(originalKey), variant);
    if '/' !in variant then
      SplitAtLastSlash(DirName(originalKey), variant + ".webp");
      assert key == DirName(originalKey) + "/" + (variant + ".webp");
      key
    else key
  }

  /** A variant lands in the original's directory under its own file name. */
  lemma StorageKeyBesideOriginal(originalKey: string, variant: string)
    requires '/' !in variant
    ensures DirName(StorageKey(originalKey, variant)) == DirName(originalKey)
    ensures BaseName(StorageKey(originalKey, variant)) == variant + ".webp"
  {
  }

  /** Distinct variants of one original get distinct keys. */
  lemma StorageKeysDistinct(originalKey: string, v1: string, v2: string)
    requires '/' !in v1 && '/' !in v2
    ensures StorageKey(originalKey, v1) == StorageKey(originalKey, v2) ==> v1 == v2
  {
    StorageKeyBesideOriginal(originalKey, v1);
    StorageKeyBesideOriginal(originalKey, v2);
    if StorageKey(originalKey, v1) == StorageKey(originalKey, v2) {
      var f1 := v1 + ".webp";
      assert v1 == f1[..|f1| - 5];
      assert v2 == (v2 + ".webp")[..|v2 + ".webp"| - 5];
    }
  }

  /** The base path `public/products/pu-erh/123` that the source's comment
      gives for the original `public/products/pu-erh/123/original.jpg`,
      and the thumbnail key derived from it,
      `public/products/pu-erh/123/thumb.webp`. */
  lemma StorageKeyExample()
    ensures StorageKey("public/products/pu-erh/123/original.jpg", "thumb") == "public/products/pu-erh/123/thumb.webp"
  {
    SplitAtLastSlash("public/products/pu-erh/123", "original.jpg");
    assert "public/products/pu-erh/123" + "/" + "original.jpg" == "public/products/pu-erh/123/original.jpg";
  }

  /** Python's `int(v)` on a decoded JSON value: integers as they are,
      booleans as 0 and 1, decimal text parsed, anything else rejected. */
  function PyInt(j: Json): (r: Result<int, Exn>)
    ensures j.JInt? ==> r == Success(j.n)
    ensures j.JBool? ==> r == Success(if j.b then 1 else 0)
    ensures j.JStr? ==> (r.Success? <==> ParseInt(j.s).Some?)
    ensures j.JStr? && r.Success? ==> r.value == ParseInt(j.s).value
    ensures r.Failure? ==> r.error.Raised? && r.error.cls == (if j.JStr? then ValueError else TypeError)
  {
    match j
    case JInt(n) => Success(n)
    case JBool(b) => Success(if b then 1 else 0)
    case JStr(s) =>
      if ParseInt(s).Some? then Success(ParseInt(s).value)
      else Failure(Raised(ValueError, "invalid literal for int() with base 10"))
    case _ => Failure(Raised(TypeError, "int() argument must be a string, a bytes-like object or a real number"))
  }

  /** A number reported as decimal text reads back as that number. */
  lemma PyIntReadsDecimalText(n: int)
    ensures PyInt(JStr(IntToString(n))) == Success(n)
  {
    IntToStringRoundTrip(n);
  }

  /** The variants among the first `n` that the parsed answer mentions, in
      configuration order. */
  function PresentNames(info: map<string, EagerInfo>, n: nat): (names: seq<string>)
    requires n <= |VariantNames|
    ensures |names| <= n
    ensures forall j | 0 <= j < |names| :: names[j] in info && '/' !in names[j]
    ensures forall name | name in names :: name in VariantNames[..n]
  {
    if n == 0 then []
    else
      var rest := PresentNames(info, n - 1);
      var name := VariantNames[n - 1];
      assert VariantNames[..n] == VariantNames[..n - 1] + [name];
      if name in info then rest + [name] else rest
  }

  /** When the answer mentions exactly the first `m` variants, the loop meets
      exactly those, in order. */
  lemma {:induction false} PresentNamesOfParsed(info: map<string, EagerInfo>, m: nat, n: nat)
    requires m <= |VariantNames| && n <= |VariantNames|
    requires info.Keys == set i | 0 <= i < m :: VariantNames[i]
    ensures PresentNames(info, n) == VariantNames[..Min(n, m)]
  {
    VariantNamesEnumerateConfig();
    if n > 0 {
      PresentNamesOfParsed(info, m, n - 1);
      var name := VariantNames[n - 1];
      if n - 1 < m {
        assert name in info;
        assert VariantNames[..n] == VariantNames[..n - 1] + [name];
      } else {
        assert name !in info;
      }
    }
  }

  /** The metadata of one downloaded variant. */
  function VariantMeta(basePath: string, name: string, data: Bytes, width: int, height: int): ImageVariantResult {
    ImageVariantResult(name, VariantKey(basePath, name), "webp", width, height, |data|)
  }

  /** What ends an iteration early, checked in the loop's order: the
      download's error, else `int(width)`'s, else `int(height)`'s. */
  function FirstFailure(data: Result<Bytes, Exn>, width: Result<int, Exn>, height: Result<int, Exn>): Option<Exn> {
    if data.Failure? then Some(data.error)
    else if width.Failure? then Some(width.error)
    else if height.Failure? then Some(height.error)
    else None
  }

  /** The first `n` iterations of the download loop: each variant the answer
      mentions is downloaded from `str(url)` and described; a variant it
      does not mention is skipped; the first download or `int()` that fails
      ends the loop. */
  function DownloadPrefix(info: map<string, EagerInfo>, basePath: string,
                          download: string -> Result<Bytes, Exn>, n: nat): (r: Run)
    requires n <= |VariantNames|
    ensures forall k | 0 <= k < |r.effects| :: r.effects[k].Download?
    ensures |r.effects| <= |PresentNames(info, n)|
    ensures r.result.Success? ==>
      && |r.result.value| == |PresentNames(info, n)| == |r.effects|
      && forall i | 0 <= i < |r.result.value| ::
        && PresentNames(info, n)[i] in info
        && r.effects[i] == Download(PyStr(info[PresentNames(info, n)[i]].url))
        && download(r.effects[i].url) == Success(r.result.value[i].data)
        && PyInt(info[PresentNames(info, n)[i]].width) == Success(r.result.value[i].meta.width)
        && PyInt(info[PresentNames(info, n)[i]].height) == Success(r.result.value[i].meta.height)
        && r.result.value[i].meta == VariantMeta(basePath, PresentNames(info, n)[i], r.result.value[i].data,
                                                 r.result.value[i].meta.width, r.result.value[i].meta.height)
    decreases n
  {
    if n == 0 then Run([], Success([]))
    else
      var prev := DownloadPrefix(info, basePath, download, n - 1);
      var name := VariantNames[n - 1];
      if prev.result.Failure? then prev
      else if name !in info then
        assert PresentNames(info, n) == PresentNames(info, n - 1);
        prev
      else
        assert PresentNames(info, n) == PresentNames(info, n - 1) + [name];
        var url := PyStr(info[name].url);
        var effects := prev.effects + [Download(url)];
        var data := download(url);
        if data.Failure? then Run(effects, Failure(data.error))
        else
          var width := PyInt(info[name].width);
          var height := PyInt(info[name].height);
          if width.Failure? then Run(effects, Failure(width.error))
          else if height.Failure? then Run(effects, Failure(height.error))
          else
            var out := VariantOutput(data.value, VariantMeta(basePath, name, data.value, width.value, height.value));
            Run(effects, Success(prev.result.value + [out]))
  }

  /** A failed run of the loop over `names` was ended by its last
      download: the error is that download's own, or else that of `int()` on
      the width or height of the variant it fetched. */
  predicate EndedByLastDownload(r: Run, names: seq<string>, info: map<string, EagerInfo>,
                                download: string -> Result<Bytes, Exn>)
  {
    && r.result.Failure?
    && 0 < |r.effects| <= |names|
    && var name := names[|r.effects| - 1];
    && name in info
    && r.effects[|r.effects| - 1] == Download(PyStr(info[name].url))
    && FirstFailure(download(PyStr(info[name].url)), PyInt(info[name].width), PyInt(info[name].height))
       == Some(r.result.error)
  }

  /** Which download ended a run depends only on the names it had met. */
  lemma EndedByLastDownloadExtends(r: Run, before: seq<string>, names: seq<string>,
                                   info: map<string, EagerInfo>, download: string -> Result<Bytes, Exn>)
    requires EndedByLastDownload(r, before, info, download)
    requires |before| <= |names| && names[..|before|] == before
    ensures EndedByLastDownload(r, names, info, download)
  {
    assert names[|r.effects| - 1] == before[|r.effects| - 1];
  }

  /** An iteration that fails after every earlier one succeeded ends the
      run with its own download. */
  lemma DownloadStepFailure(info: map<string, EagerInfo>, basePath: string,
                            download: string -> Result<Bytes, Exn>, n: nat)
    requires 0 < n <= |VariantNames|
    requires DownloadPrefix(info, basePath, download, n - 1).result.Success?
    requires DownloadPrefix(info, basePath, download, n).result.Failure?
    ensures EndedByLastDownload(DownloadPrefix(info, basePath, download, n), PresentNames(info, n), info, download)
  {
    var prev := DownloadPrefix(info, basePath, download, n - 1);
    var name := VariantNames[n - 1];
    assert name in info;
    var url := PyStr(info[name].url);
    var effects := prev.effects + [Download(url)];
    assert PresentNames(info, n) == PresentNames(info, n - 1) + [name];
    assert PresentNames(info, n)[|effects| - 1] == name;
    var data := download(url);
    var width := PyInt(info[name].width);
    var height := PyInt(info[name].height);
    var r := DownloadPrefix(info, basePath, download, n);
    if data.Failure? {
      assert r == Run(effects, Failure(data.error));
    } else if width.Failure? {
      assert r == Run(effects, Failure(width.error));
    } else if height.Failure? {
      assert r == Run(effects, Failure(height.error));
    } else {
      assert false;
    }
  }

  /** Every failure of the download loop is ended by its last download. */
  lemma {:induction false} DownloadFailureIsLastAttempt(info: map<string, EagerInfo>, basePath: string,
                                                        download: string -> Result<Bytes, Exn>, n: nat)
    requires n <= |VariantNames|
    requires DownloadPrefix(info, basePath, download, n).result.Failure?
    ensures EndedByLastDownload(DownloadPrefix(info, basePath, download, n), PresentNames(info, n), info, download)
  {
    if n == 0 {
      assert false;
    }
    var prev := DownloadPrefix(info, basePath, download, n - 1);
    if prev.result.Failure? {
      var before := PresentNames(info, n - 1);
      var names := PresentNames(info, n);
      assert names[..|before|] == before;
      assert DownloadPrefix(info, basePath, download, n) == prev;
      DownloadFailureIsLastAttempt(info, basePath, download, n - 1);
      EndedByLastDownloadExtends(prev, before, names, info, download);
    } else {
      DownloadStepFailure(info, basePath, download, n);
    }
  }

  /** `delete_from_cloudinary`: whatever the deletion raises is logged and
      dropped if it is an `Exception`; only what is not escapes. */
  function DeleteFromCloudinary(raised: Option<Exn>): (escapes: Option<Exn>)
    ensures escapes.Some? ==> escapes == raised
    ensures escapes.Some? <==> raised.Some? && ExnClass(raised.value) == BaseException
  {
    if raised.Some? && !IsSubclass(ExnClass(raised.value), Exception) then raised else None
  }

  /** The answer carries a non-empty `eager` list. */
  predicate EagerUsable(answer: map<string, Json>) {
    Truthy(Get(answer, "eager")) && Get(answer, "eager").JArr?
  }

  const EagerFailedMessage: string := "Cloudinary eager transformations failed"

  /** The `try` body, after the upload request has been made. */
  function ProcessBody(originalKey: string, uploaded: Result<map<string, Json>, Exn>,
                       download: string -> Result<Bytes, Exn>): (r: Run)
    ensures |r.effects| <= |VariantNames|
    ensures forall k | 0 <= k < |r.effects| :: r.effects[k].Download?
    ensures uploaded.Failure? ==> r == Run([], Failure(uploaded.error))
    ensures uploaded.Success? && !EagerUsable(uploaded.value) ==>
      r == Run([], Failure(Raised(ValueError, EagerFailedMessage)))
    ensures uploaded.Success? && EagerUsable(uploaded.value) &&
            ParseEagerResults(Get(uploaded.value, "eager").items).Failure? ==>
      r == Run([], Failure(ParseEagerResults(Get(uploaded.value, "eager").items).error))
  {
    if uploaded.Failure? then Run([], Failure(uploaded.error))
    else
      var eager := Get(uploaded.value, "eager");
      if !Truthy(eager) || !eager.JArr? then Run([], Failure(Raised(ValueError, EagerFailedMessage)))
      else
        var parsed := ParseEagerResults(eager.items);
        if parsed.Failure? then Run([], Failure(parsed.error))
        else DownloadPrefix(parsed.value, DirName(originalKey), download, |VariantNames|)
  }

  /** `process_image_with_cloudinary` with the service (`upload`), the CDN
      (`download`) and the deletion (`destroy`, what it raises if anything)
      as oracles. */
  function ProcessImage(originalUrl: string, originalKey: string, productId: string, imageId: int,
                        upload: UploadRequest -> Result<map<string, Json>, Exn>,
                        download: string -> Result<Bytes, Exn>,
                        destroy: string -> Option<Exn>): (r: Run)
    ensures |r.effects| >= 2
    ensures r.effects[0] == Transform(FetchAndTransformRequest(originalUrl, PublicId(productId, imageId)))
    ensures r.effects[|r.effects| - 1] == Destroy(PublicId(productId, imageId))
    ensures forall k | 0 < k < |r.effects| - 1 :: r.effects[k].Download?
    ensures |r.effects| <= 2 + |VariantNames|
  {
    var publicId := PublicId(productId, imageId);
    var request := FetchAndTransformRequest(originalUrl, publicId);
    var body := ProcessBody(originalKey, upload(request), download);
    var escapes := DeleteFromCloudinary(destroy(publicId));
    VariantNamesEnumerateConfig();
    Run([Transform(request)] + body.effects + [Destroy(publicId)],
        if escapes.Some? then Failure(escapes.value) else body.result)
  }

  /** What the service answered for this image's request. */
  function Uploaded(originalUrl: string, productId: string, imageId: int,
                    upload: UploadRequest -> Result<map<string, Json>, Exn>): Result<map<string, Json>, Exn> {
    upload(FetchAndTransformRequest(originalUrl, PublicId(productId, imageId)))
  }

  /** A successful run means the service answered with a non-empty `eager`
      list whose examined items all parsed; the result then has one entry
      per examined item, the `i`-th for the `i`-th variant, stored beside the
      original as WebP, its size that of the downloaded bytes. */
  lemma ProcessImageSuccess(originalUrl: string, originalKey: string, productId: string, imageId: int,
                            upload: UploadRequest -> Result<map<string, Json>, Exn>,
                            download: string -> Result<Bytes, Exn>,
                            destroy: string -> Option<Exn>)
    requires ProcessImage(originalUrl, originalKey, productId, imageId, upload, download, destroy).result.Success?
    ensures Uploaded(originalUrl, productId, imageId, upload).Success?
    ensures Get(Uploaded(originalUrl, productId, imageId, upload).value, "eager").JArr?
    ensures |Get(Uploaded(originalUrl, productId, imageId, upload).value, "eager").items| > 0
    ensures ParseEagerResults(Get(Uploaded(originalUrl, productId, imageId, upload).value, "eager").items).Success?
    ensures |ProcessImage(originalUrl, originalKey, productId, imageId, upload, download, destroy).result.value| ==
            ExaminedCount(Get(Uploaded(originalUrl, productId, imageId, upload).value, "eager").items)
    ensures forall i | 0 <= i < |ProcessImage(originalUrl, originalKey, productId, imageId, upload, download, destroy).result.value| ::
      var out := ProcessImage(originalUrl, originalKey, productId, imageId, upload, download, destroy).result.value[i];
      && out.meta.variant == VariantNames[i]
      && out.meta.storageKey == StorageKey(originalKey, VariantNames[i])
      && out.meta.format == "webp"
      && out.meta.byteSize == |out.data|
  {
    var uploaded := Uploaded(originalUrl, productId, imageId, upload);
    BodySuccess(originalKey, uploaded, download);
  }

  /** The same facts about the `try` body on its own. */
  lemma BodySuccess(originalKey: string, uploaded: Result<map<string, Json>, Exn>,
                    download: string -> Result<Bytes, Exn>)
    requires ProcessBody(originalKey, uploaded, download).result.Success?
    ensures uploaded.Success? && Get(uploaded.value, "eager").JArr?
    ensures |Get(uploaded.value, "eager").items| > 0
    ensures ParseEagerResults(Get(uploaded.value, "eager").items).Success?
    ensures |ProcessBody(originalKey, uploaded, download).result.value| ==
            ExaminedCount(Get(uploaded.value, "eager").items)
    ensures forall i | 0 <= i < |ProcessBody(originalKey, uploaded, download).result.value| ::
      var out := ProcessBody(originalKey, uploaded, download).result.value[i];
      && out.meta.variant == VariantNames[i]
      && out.meta.storageKey == StorageKey(originalKey, VariantNames[i])
      && out.meta.format == "webp"
      && out.meta.byteSize == |out.data|
  {
    var eager := Get(uploaded.value, "eager");
    var m := ExaminedCount(eager.items);
    var parsed := ParseEagerResults(eager.items);
    PresentNamesOfParsed(parsed.value, m, |VariantNames|);
    assert PresentNames(parsed.value, |VariantNames|) == VariantNames[..m];
  }

  /** An answer without a usable `eager` list fails the run with the fixed
      `ValueError`, after the request and the deletion and nothing else,
      unless the deletion itself raised something that is not an
      `Exception`. */
  lemma EagerMissingFails(originalUrl: string, originalKey: string, productId: string, imageId: int,
                          upload: UploadRequest -> Result<map<string, Json>, Exn>,
                          download: string -> Result<Bytes, Exn>,
                          destroy: string -> Option<Exn>)
    requires Uploaded(originalUrl, productId, imageId, upload).Success?
    requires var eager := Get(Uploaded(originalUrl, productId, imageId, upload).value, "eager");
             !Truthy(eager) || !eager.JArr?
    requires DeleteFromCloudinary(destroy(PublicId(productId, imageId))).None?
    ensures ProcessImage(originalUrl, originalKey, productId, imageId, upload, download, destroy) ==
      Run([Transform(FetchAndTransformRequest(originalUrl, PublicId(productId, imageId))),
           Destroy(PublicId(productId, imageId))],
          Failure(Raised(ValueError, EagerFailedMessage)))
  {
  }

  /** A failed upload is re-raised as it is, and nothing is downloaded. */
  lemma UploadFailurePropagates(originalUrl: string, originalKey: string, productId: string, imageId: int,
                                upload: UploadRequest -> Result<map<string, Json>, Exn>,
                                download: string -> Result<Bytes, Exn>,
                                destroy: string -> Option<Exn>)
    requires Uploaded(originalUrl, productId, imageId, upload).Failure?
    requires DeleteFromCloudinary(destroy(PublicId(productId, imageId))).None?
    ensures ProcessImage(originalUrl, originalKey, productId, imageId, upload, download, destroy) ==
      Run([Transform(FetchAndTransformRequest(originalUrl, PublicId(productId, imageId))),
           Destroy(PublicId(productId, imageId))],
          Failure(Uploaded(originalUrl, productId, imageId, upload).error))
  {
  }

  /** An `eager` item that fails to parse fails the run with the parser's
      error, and nothing is downloaded. */
  lemma ParseFailurePropagates(originalUrl: string, originalKey: string, productId: string, imageId: int,
                               upload: UploadRequest -> Result<map<string, Json>, Exn>,
                               download: string -> Result<Bytes, Exn>,
                               destroy: string -> Option<Exn>)
    requires Uploaded(originalUrl, productId, imageId, upload).Success?
    requires EagerUsable(Uploaded(originalUrl, productId, imageId, upload).value)
    requires ParseEagerResults(Get(Uploaded(originalUrl, productId, imageId, upload).value, "eager").items).Failure?
    requires DeleteFromCloudinary(destroy(PublicId(productId, imageId))).None?
    ensures ProcessImage(originalUrl, originalKey, productId, imageId, upload, download, destroy) ==
      Run([Transform(FetchAndTransformRequest(originalUrl, PublicId(productId, imageId))),
           Destroy(PublicId(productId, imageId))],
          Failure(ParseEagerResults(Get(Uploaded(originalUrl, productId, imageId, upload).value, "eager").items).error))
  {
  }

  /** A failed download or `int()` fails the run with that error: the run
      downloads up to and including the variant that failed, and the error
      is the first one that variant's download, width or height raised. */
  lemma DownloadFailurePropagates(originalUrl: string, originalKey: string, productId: string, imageId: int,
                                  upload: UploadRequest -> Result<map<string, Json>, Exn>,
                                  download: string -> Result<Bytes, Exn>,
                                  destroy: string -> Option<Exn>)
    requires Uploaded(originalUrl, productId, imageId, upload).Success?
    requires EagerUsable(Uploaded(originalUrl, productId, imageId, upload).value)
    requires var parsed := ParseEagerResults(Get(Uploaded(originalUrl, productId, imageId, upload).value, "eager").items);
      && parsed.Success?
      && DownloadPrefix(parsed.value, DirName(originalKey), download, |VariantNames|).result.Failure?
    requires DeleteFromCloudinary(destroy(PublicId(productId, imageId))).None?
    ensures var parsed := ParseEagerResults(Get(Uploaded(originalUrl, productId, imageId, upload).value, "eager").items);
      var loop := DownloadPrefix(parsed.value, DirName(originalKey), download, |VariantNames|);
      && ProcessImage(originalUrl, originalKey, productId, imageId, upload, download, destroy) ==
         Run([Transform(FetchAndTransformRequest(originalUrl, PublicId(productId, imageId)))] + loop.effects +
             [Destroy(PublicId(productId, imageId))],
             loop.result)
      && EndedByLastDownload(loop, PresentNames(parsed.value, |VariantNames|), parsed.value, download)
  {
    var parsed := ParseEagerResults(Get(Uploaded(originalUrl, productId, imageId, upload).value, "eager").items);
    DownloadFailureIsLastAttempt(parsed.value, DirName(originalKey), download, |VariantNames|);
  }

  /** A deletion that fails with an ordinary exception has no effect on the
      run: it behaves exactly as one that succeeds. */
  lemma DeletionFailureIsHarmless(originalUrl: string, originalKey: string, productId: string, imageId: int,
                                  upload: UploadRequest -> Result<map<string, Json>, Exn>,
                                  download: string -> Result<Bytes, Exn>,
                                  destroy1: string -> Option<Exn>, destroy2: string -> Option<Exn>)
    requires destroy1(PublicId(productId, imageId)).None?
    requires destroy2(PublicId(productId, imageId)).Some?
    requires ExnClass(destroy2(PublicId(productId, imageId)).value) != BaseException
    ensures ProcessImage(originalUrl, originalKey, productId, imageId, upload, download, destroy2) ==
            ProcessImage(originalUrl, originalKey, productId, imageId, upload, download, destroy1)
  {
  }
}
