/** `images.create_variants`: validate the event, derive the variants
    through the transformation service, upload every variant to object
    storage, then register every variant with the catalogue API. Object
    storage and the catalogue API are oracles that answer with what they
    raised, if anything. */
module ImageTasks {
  import opened Wrappers
  import opened JsonValues
  import opened Exceptions
  import opened Entities
  import opened Failures
  import opened Cloudinary
  import opened ImageProcessor
  import opened CeleryRetries

  /** One outside call of the task, in order. */
  datatype TaskEffect =
    | Cloud(effect: Effect)
    | S3Upload(key: string, data: Bytes, contentType: string)
    | SaveVariant(imageId: int, meta: ImageVariantResult)

  /** The task's return value `{"image_id": ..., "variants_created": [...]}`. */
  datatype Report = Report(imageId: int, variantsCreated: seq<string>)

  datatype TaskRun = TaskRun(effects: seq<TaskEffect>, result: Result<Report, Exn>)

  const ContentType: string := "image/webp"
  const NoVariantsMessage: string := "No variants created"

  function Clouds(effects: seq<Effect>): (ts: seq<TaskEffect>)
    ensures |ts| == |effects| && forall i | 0 <= i < |ts| :: ts[i] == Cloud(effects[i])
  {
    seq(|effects|, i requires 0 <= i < |effects| => Cloud(effects[i]))
  }

  function UploadOf(v: VariantOutput): TaskEffect {
    S3Upload(v.meta.storageKey, v.data, ContentType)
  }

  /** The uploads of `vs`, one per variant, in order. */
  function Uploads(vs: seq<VariantOutput>): (ts: seq<TaskEffect>)
    ensures |ts| == |vs| && forall i | 0 <= i < |ts| :: ts[i] == UploadOf(vs[i])
  {
    seq(|vs|, i requires 0 <= i < |vs| => UploadOf(vs[i]))
  }

  /** The registrations of `vs`, one per variant, in order. */
  function Saves(imageId: int, vs: seq<VariantOutput>): (ts: seq<TaskEffect>)
    ensures |ts| == |vs| && forall i | 0 <= i < |ts| :: ts[i] == SaveVariant(imageId, vs[i].meta)
  {
    seq(|vs|, i requires 0 <= i < |vs| => SaveVariant(imageId, vs[i].meta))
  }

  function Names(vs: seq<VariantOutput>): (names: seq<string>)
    ensures |names| == |vs| && forall i | 0 <= i < |names| :: names[i] == vs[i].meta.variant
  {
    seq(|vs|, i requires 0 <= i < |vs| => vs[i].meta.variant)
  }

  /** The first `n` uploads all went through. */
  predicate UploadsOk(vs: seq<VariantOutput>, s3: (string, Bytes, string) -> Option<Exn>, n: nat)
    requires n <= |vs|
  {
    forall i | 0 <= i < n :: s3(vs[i].meta.storageKey, vs[i].data, ContentType).None?
  }

  /** The first `n` registrations all went through. */
  predicate SavesOk(imageId: int, vs: seq<VariantOutput>, save: (int, ImageVariantResult) -> Option<Exn>, n: nat)
    requires n <= |vs|
  {
    forall i | 0 <= i < n :: save(imageId, vs[i].meta).None?
  }

  /** What the transformation step produced for a validated event. */
  function Processed(e: ImageUploadedEntity,
                     upload: UploadRequest -> Result<map<string, Json>, Exn>,
                     download: string -> Result<Bytes, Exn>,
                     destroy: string -> Option<Exn>): Run {
    ProcessImage(e.originalUrl, e.originalKey, e.productId, e.imageId, upload, download, destroy)
  }

  /** Step 3 of `create_variants`: one upload per variant, in order, the
      first failure ending the loop with that failure. */
  method UploadVariants(vs: seq<VariantOutput>, s3: (string, Bytes, string) -> Option<Exn>)
    returns (effects: seq<TaskEffect>, failure: Option<Exn>)
    ensures failure.None? <==> UploadsOk(vs, s3, |vs|)
    ensures failure.None? ==> effects == Uploads(vs)
    ensures forall k | 0 <= k < |vs| ::
      UploadsOk(vs, s3, k) && s3(vs[k].meta.storageKey, vs[k].data, ContentType).Some? ==>
      effects == Uploads(vs[..k + 1]) && failure == s3(vs[k].meta.storageKey, vs[k].data, ContentType)
  {
    effects := [];
    var i := 0;
    while i < |vs|
      invariant 0 <= i <= |vs|
      invariant UploadsOk(vs, s3, i)
      invariant effects == Uploads(vs[..i])
    {
      var failed := s3(vs[i].meta.storageKey, vs[i].data, ContentType);
      assert Uploads(vs[..i + 1]) == Uploads(vs[..i]) + [UploadOf(vs[i])];
      effects := effects + [UploadOf(vs[i])];
      if failed.Some? {
        return effects, failed;
      }
      i := i + 1;
    }
    assert vs[..|vs|] == vs;
    return effects, None;
  }

  /** Step 4 of `create_variants`: one registration per variant, in order,
      the first failure ending the loop with that failure. */
  method SaveVariants(imageId: int, vs: seq<VariantOutput>, save: (int, ImageVariantResult) -> Option<Exn>)
    returns (effects: seq<TaskEffect>, failure: Option<Exn>)
    ensures failure.None? <==> SavesOk(imageId, vs, save, |vs|)
    ensures failure.None? ==> effects == Saves(imageId, vs)
    ensures forall k | 0 <= k < |vs| ::
      SavesOk(imageId, vs, save, k) && save(imageId, vs[k].meta).Some? ==>
      effects == Saves(imageId, vs[..k + 1]) && failure == save(imageId, vs[k].meta)
  {
    effects := [];
    var j := 0;
    while j < |vs|
      invariant 0 <= j <= |vs|
      invariant SavesOk(imageId, vs, save, j)
      invariant effects == Saves(imageId, vs[..j])
    {
      var failed := save(imageId, vs[j].meta);
      assert Saves(imageId, vs[..j + 1]) == Saves(imageId, vs[..j]) + [SaveVariant(imageId, vs[j].meta)];
      effects := effects + [SaveVariant(imageId, vs[j].meta)];
      if failed.Some? {
        return effects, failed;
      }
      j := j + 1;
    }
    assert vs[..|vs|] == vs;
    return effects, None;
  }

  /** Steps 3 and 4 of `create_variants` for a non-empty list: the uploads
      run in order and the first failure stops everything; the
      registrations run only after every upload went through, in the same
      order, and the first failure stops them; otherwise the report lists
      the variants created. */
  method StoreVariants(imageId: int, vs: seq<VariantOutput>,
                       s3: (string, Bytes, string) -> Option<Exn>,
                       save: (int, ImageVariantResult) -> Option<Exn>)
    returns (effects: seq<TaskEffect>, result: Result<Report, Exn>)
    ensures forall k | 0 <= k < |vs| ::
      UploadsOk(vs, s3, k) && s3(vs[k].meta.storageKey, vs[k].data, ContentType).Some? ==>
      effects == Uploads(vs[..k + 1]) && result == Failure(s3(vs[k].meta.storageKey, vs[k].data, ContentType).value)
    ensures forall k | 0 <= k < |vs| ::
      UploadsOk(vs, s3, |vs|) && SavesOk(imageId, vs, save, k) && save(imageId, vs[k].meta).Some? ==>
      effects == Uploads(vs) + Saves(imageId, vs[..k + 1]) && result == Failure(save(imageId, vs[k].meta).value)
    ensures result.Success? <==> UploadsOk(vs, s3, |vs|) && SavesOk(imageId, vs, save, |vs|)
    ensures result.Success? ==>
      effects == Uploads(vs) + Saves(imageId, vs) && result == Success(Report(imageId, Names(vs)))
  {
    var uploads, uploadFailure := UploadVariants(vs, s3);
    if uploadFailure.Some? {
      return uploads, Failure(uploadFailure.value);
    }
    var saves, saveFailure := SaveVariants(imageId, vs, save);
    effects := uploads + saves;
    if saveFailure.Some? {
      return effects, Failure(saveFailure.value);
    }
    return effects, Success(Report(imageId, Names(vs)));
  }

  /** `StoreVariants` run after the calls `before` were made. */
  method StoreAfter(before: seq<TaskEffect>, imageId: int, vs: seq<VariantOutput>,
                    s3: (string, Bytes, string) -> Option<Exn>,
                    save: (int, ImageVariantResult) -> Option<Exn>)
    returns (run: TaskRun)
    ensures |run.effects| >= |before| && run.effects[..|before|] == before
    ensures forall k | 0 <= k < |vs| ::
      UploadsOk(vs, s3, k) && s3(vs[k].meta.storageKey, vs[k].data, ContentType).Some? ==>
      run == TaskRun(before + Uploads(vs[..k + 1]), Failure(s3(vs[k].meta.storageKey, vs[k].data, ContentType).value))
    ensures forall k | 0 <= k < |vs| ::
      UploadsOk(vs, s3, |vs|) && SavesOk(imageId, vs, save, k) && save(imageId, vs[k].meta).Some? ==>
      run == TaskRun(before + Uploads(vs) + Saves(imageId, vs[..k + 1]), Failure(save(imageId, vs[k].meta).value))
    ensures run.result.Success? <==> UploadsOk(vs, s3, |vs|) && SavesOk(imageId, vs, save, |vs|)
    ensures run.result.Success? ==>
      run == TaskRun(before + Uploads(vs) + Saves(imageId, vs), Success(Report(imageId, Names(vs))))
  {
    var stored, result := StoreVariants(imageId, vs, s3, save);
    run := TaskRun(before + stored, result);
    assert run.effects[..|before|] == before;
  }

  /** Steps 2 to 4 of `create_variants`, given what the transformation
      step `p` did: its failure is re-raised, an empty list raises "No
      variants created", and a non-empty list is stored. The calls of the
      transformation step always come first. */
  method AfterProcessing(imageId: int, p: Run,
                         s3: (string, Bytes, string) -> Option<Exn>,
                         save: (int, ImageVariantResult) -> Option<Exn>)
    returns (run: TaskRun)
    ensures p.result.Failure? ==> run == TaskRun(Clouds(p.effects), Failure(p.result.error))
    ensures p.result.Success? && |p.result.value| == 0 ==>
      run == TaskRun(Clouds(p.effects), Failure(Raised(ValueError, NoVariantsMessage)))
    ensures |run.effects| >= |p.effects| && run.effects[..|p.effects|] == Clouds(p.effects)
    ensures p.result.Success? ==>
      var vs := p.result.value;
      && (forall k | 0 <= k < |vs| ::
            UploadsOk(vs, s3, k) && s3(vs[k].meta.storageKey, vs[k].data, ContentType).Some? ==>
            run == TaskRun(Clouds(p.effects) + Uploads(vs[..k + 1]),
                           Failure(s3(vs[k].meta.storageKey, vs[k].data, ContentType).value)))
      && (forall k | 0 <= k < |vs| ::
            UploadsOk(vs, s3, |vs|) && SavesOk(imageId, vs, save, k) && save(imageId, vs[k].meta).Some? ==>
            run == TaskRun(Clouds(p.effects) + Uploads(vs) + Saves(imageId, vs[..k + 1]),
                           Failure(save(imageId, vs[k].meta).value)))
    ensures run.result.Success? ==>
      var vs := p.result.value;
      && p.result.Success?
      && |vs| > 0 && UploadsOk(vs, s3, |vs|) && SavesOk(imageId, vs, save, |vs|)
      && run == TaskRun(Clouds(p.effects) + Uploads(vs) + Saves(imageId, vs), Success(Report(imageId, Names(vs))))
  {
    if p.result.Failure? {
      return TaskRun(Clouds(p.effects), Failure(p.result.error));
    }
    var vs := p.result.value;
    if |vs| == 0 {
      return TaskRun(Clouds(p.effects), Failure(Raised(ValueError, NoVariantsMessage)));
    }
    run := StoreAfter(Clouds(p.effects), imageId, vs, s3, save);
  }

  /** `create_variants` for one attempt. An invalid event does nothing; a
      failed transformation step stops before any upload, and so does an
      empty list of variants; otherwise the variants are stored, every
      upload before any registration, and the first failure is raised. */
  method CreateVariants(payload: map<string, Json>,
                        upload: UploadRequest -> Result<map<string, Json>, Exn>,
                        download: string -> Result<Bytes, Exn>,
                        destroy: string -> Option<Exn>,
                        s3: (string, Bytes, string) -> Option<Exn>,
                        save: (int, ImageVariantResult) -> Option<Exn>)
    returns (run: TaskRun)
    ensures ValidateImageUploaded(payload).Failure? ==>
      run == TaskRun([], Failure(Invalid(ValidateImageUploaded(payload).error)))
    ensures ValidateImageUploaded(payload).Success? ==>
      var p := Processed(ValidateImageUploaded(payload).value, upload, download, destroy);
      && (p.result.Failure? ==> run == TaskRun(Clouds(p.effects), Failure(p.result.error)))
      && (p.result.Success? && |p.result.value| == 0 ==>
            run == TaskRun(Clouds(p.effects), Failure(Raised(ValueError, NoVariantsMessage))))
      && |run.effects| >= |p.effects| && run.effects[..|p.effects|] == Clouds(p.effects)
    ensures ValidateImageUploaded(payload).Success? ==>
      var e := ValidateImageUploaded(payload).value;
      var p := Processed(e, upload, download, destroy);
      p.result.Success? ==>
      var vs := p.result.value;
      && (forall k | 0 <= k < |vs| ::
            UploadsOk(vs, s3, k) && s3(vs[k].meta.storageKey, vs[k].data, ContentType).Some? ==>
            run == TaskRun(Clouds(p.effects) + Uploads(vs[..k + 1]),
                           Failure(s3(vs[k].meta.storageKey, vs[k].data, ContentType).value)))
      && (forall k | 0 <= k < |vs| ::
            UploadsOk(vs, s3, |vs|) && SavesOk(e.imageId, vs, save, k) && save(e.imageId, vs[k].meta).Some? ==>
            run == TaskRun(Clouds(p.effects) + Uploads(vs) + Saves(e.imageId, vs[..k + 1]),
                           Failure(save(e.imageId, vs[k].meta).value)))
    ensures run.result.Success? ==>
      var e := ValidateImageUploaded(payload).value;
      var vs := Processed(e, upload, download, destroy).result.value;
      && ValidateImageUploaded(payload).Success?
      && Processed(e, upload, download, destroy).result.Success?
      && |vs| > 0 && UploadsOk(vs, s3, |vs|) && SavesOk(e.imageId, vs, save, |vs|)
      && run == TaskRun(Clouds(Processed(e, upload, download, destroy).effects) + Uploads(vs) + Saves(e.imageId, vs),
                        Success(Report(e.imageId, Names(vs))))
  {
    var validated := ValidateImageUploaded(payload);
    if validated.Failure? {
      return TaskRun([], Failure(Invalid(validated.error)));
    }
    var e := validated.value;
    run := AfterProcessing(e.imageId, Processed(e, upload, download, destroy), s3, save);
  }

  /** The transformation step never succeeds with an empty list, so the
      "No variants created" error cannot arise; a report names a non-empty
      prefix of `thumb, md, lg`, in that order. */
  lemma ProcessedVariantsArePrefix(e: ImageUploadedEntity,
                                   upload: UploadRequest -> Result<map<string, Json>, Exn>,
                                   download: string -> Result<Bytes, Exn>,
                                   destroy: string -> Option<Exn>)
    requires Processed(e, upload, download, destroy).result.Success?
    ensures 0 < |Processed(e, upload, download, destroy).result.value| <= |VariantNames|
    ensures Names(Processed(e, upload, download, destroy).result.value) ==
            VariantNames[..|Processed(e, upload, download, destroy).result.value|]
  {
    ProcessImageSuccess(e.originalUrl, e.originalKey, e.productId, e.imageId, upload, download, destroy);
    NamesFollowVariants(Processed(e, upload, download, destroy).result.value);
  }

  /** Outputs whose `i`-th entry is the `i`-th variant are named by a prefix
      of the variants. */
  lemma NamesFollowVariants(vs: seq<VariantOutput>)
    requires |vs| <= |VariantNames|
    requires forall i | 0 <= i < |vs| :: vs[i].meta.variant == VariantNames[i]
    ensures Names(vs) == VariantNames[..|vs|]
  {
  }

  const MaxRetries: nat := 3
  const BackoffMax: int := 300

  /** `autoretry_for=(Exception,)` with exponential back-off capped at 300
      seconds and at most 3 retries. */
  function ImageVerdict(raised: Option<Exn>, retries: nat): (v: Verdict)
    ensures raised.None? <==> v.Done?
    ensures v.Retry? <==> raised.Some? && ExnClass(raised.value) != BaseException && retries < MaxRetries
    ensures v.Retry? ==> v == Retry(BackoffDelay(retries, BackoffMax), raised.value)
    ensures v.Fail? ==> v.exc == raised.value
  {
    if raised.None? then Done
    else if IsSubclass(ExnClass(raised.value), Exception)
    then CeleryRetry(retries, MaxRetries, raised.value, BackoffDelay(retries, BackoffMax))
    else Fail(raised.value)
  }

  /** With three retries the back-off bound is 1, 2 and then 4 seconds: the
      300-second cap is never reached. */
  lemma BackoffNeverCapped(retries: nat)
    requires retries < MaxRetries
    ensures BackoffDelay(retries, BackoffMax).upTo == Pow2(retries) <= 4
  {
    BackoffMonotone(retries, 2, BackoffMax);
    assert Pow2(2) == 4;
  }

  /** The whole life of the task: at most four attempts. */
  method RunImageTask(attempt: nat -> Option<Exn>) returns (attempts: nat, final: Verdict)
    ensures 1 <= attempts <= MaxRetries + 1
    ensures final == ImageVerdict(attempt(attempts - 1), attempts - 1) && !final.Retry?
    ensures forall k: nat | k < attempts - 1 :: attempt(k).Some?
  {
    attempts, final := Drive(ImageVerdict, MaxRetries, attempt);
  }
}
