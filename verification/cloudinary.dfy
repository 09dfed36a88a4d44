/** The image-transformation service client: the three variant
    configurations, the upload request that asks for them, and the parsing
    of the service's `eager` answer back into one entry per variant. The
    service itself is an oracle from request to answer. */
module Cloudinary {
  import opened Wrappers
  import opened JsonValues
  import opened Exceptions
  import opened Failures

  type Bytes = seq<bv8>

  /** One variant's target box and quality. */
  datatype VariantConfig = VariantConfig(width: int, height: int, quality: int)

  /** The variant names in the configuration's iteration order. */
  const VariantNames: seq<string> := ["thumb", "md", "lg"]

  /** `VARIANTS_CONFIG`. */
  const VariantsConfig: map<string, VariantConfig> := map[
    "thumb" := VariantConfig(150, 150, 80),
    "md" := VariantConfig(600, 600, 85),
    "lg" := VariantConfig(1200, 1200, 90)]

  /** The names list is exactly the configuration's keys, without repeats. */
  lemma VariantNamesEnumerateConfig()
    ensures |VariantNames| == 3
    ensures forall n :: n in VariantsConfig <==> n in VariantNames
    ensures forall i, j | 0 <= i < j < |VariantNames| :: VariantNames[i] != VariantNames[j]
  {
  }

  /** One eager transformation as sent to the service. */
  datatype Transformation = Transformation(width: int, height: int, crop: string, quality: int, format: string)

  function TransformationFor(c: VariantConfig): Transformation {
    Transformation(c.width, c.height, "fit", c.quality, "webp")
  }

  /** `_build_eager_transformations`: one "fit into the box, encode as WebP"
      transformation per variant, in the variants' order. */
  function EagerTransformations(): (ts: seq<Transformation>)
    ensures |ts| == |VariantNames|
    ensures forall i | 0 <= i < |ts| ::
      ts[i] == TransformationFor(VariantsConfig[VariantNames[i]])
  {
    [TransformationFor(VariantsConfig["thumb"]),
     TransformationFor(VariantsConfig["md"]),
     TransformationFor(VariantsConfig["lg"])]
  }

  /** The variants grow strictly in size and quality in the order they are
      requested, so each eager result is larger than the one before it. */
  lemma TransformationsGrow(i: int, j: int)
    requires 0 <= i < j < |EagerTransformations()|
    ensures EagerTransformations()[i].width < EagerTransformations()[j].width
    ensures EagerTransformations()[i].height < EagerTransformations()[j].height
    ensures EagerTransformations()[i].quality < EagerTransformations()[j].quality
    ensures EagerTransformations()[i].format == "webp" && EagerTransformations()[i].crop == "fit"
  {
  }

  /** The arguments of `cloudinary.uploader.upload`. */
  datatype UploadRequest = UploadRequest(
    file: string,
    publicId: string,
    eager: seq<Transformation>,
    eagerAsync: bool,
    resourceType: string,
    overwrite: bool)

  /** The request `fetch_and_transform` makes: the service fetches the
      original itself and derives every variant before answering. */
  function FetchAndTransformRequest(imageUrl: string, publicId: string): (q: UploadRequest)
    ensures q.file == imageUrl && q.publicId == publicId
    ensures q.eager == EagerTransformations()
    ensures !q.eagerAsync && q.overwrite && q.resourceType == "image"
  {
    UploadRequest(imageUrl, publicId, EagerTransformations(), false, "image", true)
  }

  /** What `parse_eager_results` keeps of one eager item. The values are
      carried as received; they are converted only when used. */
  datatype EagerInfo = EagerInfo(url: Json, width: Json, height: Json)

  /** `item["secure_url"]`, `item["width"]`, `item["height"]` in that order:
      a non-dict item cannot be subscripted by a string, a missing key
      raises `KeyError`. */
  function ParseEagerItem(item: Json): (r: Result<EagerInfo, Exn>)
    ensures r.Success? <==> item.JObj? && "secure_url" in item.fields && "width" in item.fields && "height" in item.fields
    ensures r.Success? ==>
      r.value == EagerInfo(item.fields["secure_url"], item.fields["width"], item.fields["height"])
    ensures r.Failure? ==> r.error.Raised? && r.error.cls == (if item.JObj? then KeyError else TypeError)
  {
    if !item.JObj? then Failure(Raised(TypeError, "object is not subscriptable"))
    else if "secure_url" !in item.fields then Failure(Raised(KeyError, "'secure_url'"))
    else if "width" !in item.fields then Failure(Raised(KeyError, "'width'"))
    else if "height" !in item.fields then Failure(Raised(KeyError, "'height'"))
    else Success(EagerInfo(item.fields["secure_url"], item.fields["width"], item.fields["height"]))
  }

  function Min(a: int, b: int): int {
    if a <= b then a else b
  }

  /** How many eager items are examined: one per variant at most. */
  function ExaminedCount(eager: seq<Json>): (n: nat)
    ensures n <= |eager| && n <= |VariantNames|
    ensures n == |eager| || n == |VariantNames|
  {
    Min(|eager|, |VariantNames|)
  }

  /** The first `n` iterations of the loop of `parse_eager_results`: item
      `i` becomes the entry of the `i`-th variant, and the first item that
      cannot be read ends the loop with its exception. */
  function ParsePrefix(eager: seq<Json>, n: nat): (r: Result<map<string, EagerInfo>, Exn>)
    requires n <= |eager| && n <= |VariantNames|
    ensures r.Success? <==> forall i | 0 <= i < n :: ParseEagerItem(eager[i]).Success?
    ensures r.Success? ==> r.value.Keys == set i | 0 <= i < n :: VariantNames[i]
    ensures r.Success? ==> forall i | 0 <= i < n ::
      VariantNames[i] in r.value && r.value[VariantNames[i]] == ParseEagerItem(eager[i]).value
    ensures r.Failure? ==> exists k | 0 <= k < n ::
      && ParseEagerItem(eager[k]).Failure?
      && r.error == ParseEagerItem(eager[k]).error
      && (forall i | 0 <= i < k :: ParseEagerItem(eager[i]).Success?)
    decreases n
  {
    if n == 0 then Success(map[])
    else
      var prev := ParsePrefix(eager, n - 1);
      if prev.Failure? then prev
      else
        var item := ParseEagerItem(eager[n - 1]);
        if item.Failure? then Failure(item.error)
        else
          VariantNamesEnumerateConfig();
          Success(prev.value[VariantNames[n - 1] := item.value])
  }

  /** `parse_eager_results`: the first `min(len(eager), 3)` items, paired
      positionally with the variant names; later items are ignored. */
  function ParseEagerResults(eager: seq<Json>): (r: Result<map<string, EagerInfo>, Exn>)
    ensures r.Success? <==> forall i | 0 <= i < ExaminedCount(eager) :: ParseEagerItem(eager[i]).Success?
    ensures r.Success? ==> r.value.Keys == set i | 0 <= i < ExaminedCount(eager) :: VariantNames[i]
    ensures r.Failure? ==> exists k | 0 <= k < ExaminedCount(eager) ::
      && (forall i | 0 <= i < k :: ParseEagerItem(eager[i]).Success?)
      && ParseEagerItem(eager[k]).Failure? && r.error == ParseEagerItem(eager[k]).error
  {
    ParsePrefix(eager, ExaminedCount(eager))
  }

  /** The loop's outcome depends on the first `n` items only: it is pinned
      down by its contract, since the failing item it reports is the first
      one that cannot be read. */
  lemma ParsePrefixLocal(a: seq<Json>, b: seq<Json>, n: nat)
    requires n <= |a| && n <= |b| && n <= |VariantNames|
    requires a[..n] == b[..n]
    ensures ParsePrefix(a, n) == ParsePrefix(b, n)
  {
    forall i | 0 <= i < n
      ensures a[i] == b[i]
    {
      assert a[..n][i] == b[..n][i];
    }
    if ParsePrefix(a, n).Success? {
      SameItemsSameSuccess(a, b, n);
    } else {
      SameItemsSameFailure(a, b, n);
    }
  }

  lemma SameItemsSameSuccess(a: seq<Json>, b: seq<Json>, n: nat)
    requires n <= |a| && n <= |b| && n <= |VariantNames|
    requires forall i | 0 <= i < n :: a[i] == b[i]
    requires ParsePrefix(a, n).Success?
    ensures ParsePrefix(a, n) == ParsePrefix(b, n)
  {
    var ra := ParsePrefix(a, n).value;
    var rb := ParsePrefix(b, n).value;
    assert ra.Keys == rb.Keys;
    forall k | k in ra
      ensures ra[k] == rb[k]
    {
      var i :| 0 <= i < n && VariantNames[i] == k;
    }
    assert ra == rb;
  }

  lemma SameItemsSameFailure(a: seq<Json>, b: seq<Json>, n: nat)
    requires n <= |a| && n <= |b| && n <= |VariantNames|
    requires forall i | 0 <= i < n :: a[i] == b[i]
    requires ParsePrefix(a, n).Failure?
    ensures ParsePrefix(a, n) == ParsePrefix(b, n)
  {
    var ra := ParsePrefix(a, n);
    var rb := ParsePrefix(b, n);
    var ka :| 0 <= ka < n && ParseEagerItem(a[ka]).Failure? && ra.error == ParseEagerItem(a[ka]).error
      && (forall i | 0 <= i < ka :: ParseEagerItem(a[i]).Success?);
    var kb :| 0 <= kb < n && ParseEagerItem(b[kb]).Failure? && rb.error == ParseEagerItem(b[kb]).error
      && (forall i | 0 <= i < kb :: ParseEagerItem(b[i]).Success?);
    assert ka == kb;
  }

  /** Items past the first `n` are never looked at: appending anything
      changes nothing. */
  lemma ParseIgnoresExtraItems(eager: seq<Json>, extra: seq<Json>, n: nat)
    requires n <= |eager| && n <= |VariantNames|
    ensures ParsePrefix(eager + extra, n) == ParsePrefix(eager, n)
  {
    assert (eager + extra)[..n] == eager[..n];
    ParsePrefixLocal(eager + extra, eager, n);
  }

  /** With at least three items, the answer is decided by the first three. */
  lemma ParseEagerResultsFirstThree(eager: seq<Json>)
    requires |eager| >= |VariantNames|
    ensures ParseEagerResults(eager) == ParseEagerResults(eager[..3])
  {
    ParseIgnoresExtraItems(eager[..3], eager[3..], 3);
    assert eager[..3] + eager[3..] == eager;
  }

  /** Each well-formed item's entry is exactly what it says, under the name
      given by its position. */
  lemma ParseEagerResultsPositional(eager: seq<Json>, i: int)
    requires 0 <= i < ExaminedCount(eager)
    requires ParseEagerResults(eager).Success?
    ensures VariantNames[i] in ParseEagerResults(eager).value
    ensures ParseEagerResults(eager).value[VariantNames[i]] ==
      EagerInfo(eager[i].fields["secure_url"], eager[i].fields["width"], eager[i].fields["height"])
  {
  }
}
