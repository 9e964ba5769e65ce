/**
 * The process-wide embedding model (`model`, `_model_loaded`) and how it is
 * acquired: the fine-tuned model from the storage bucket, or else the public
 * pre-trained one; and the similarity computation that lazily triggers it.
 * The storage bucket, the download of one blob, the construction of a
 * `SentenceTransformer` and the embedding with cosine similarity are abstract
 * inputs.
 */
module ModelStore {
  import opened Wrappers
  import opened Text

  /** Folder of the fine-tuned model in the bucket (also the listing prefix). */
  const MODEL_STORAGE_PATH: string := "models/finsmart-ai-finetuned-model"
  /** Local directory the model files are downloaded into. */
  const LOCAL_MODEL_PATH: string := "/tmp/finsmart-model"
  /** Public model used when the fine-tuned one cannot be loaded. */
  const FALLBACK_MODEL_NAME: string := "sentence-transformers/all-MiniLM-L6-v2"

  /** A loaded `SentenceTransformer`, identified by where it was built from. */
  datatype Model = Primary(directory: string) | Fallback(name: string)

  /**
   * What the outside world does when asked. `listing` is the result of
   * listing the bucket under the model prefix (`None` when the bucket cannot be
   * reached); `fetch(name)` says whether downloading that blob to its local
   * path succeeds; `primaryBuilds` and `fallbackBuilds` say whether building a
   * model from the local directory and from the public name succeed.
   */
  datatype Storage = Storage(
    listing: Option<seq<string>>,
    fetch: string -> bool,
    primaryBuilds: bool,
    fallbackBuilds: bool)

  /** Encoding both texts with a model and taking their cosine similarity; `None` when that raises. */
  type Embedder = (Model, string, string) -> Option<real>

  /** The fallback model could not be built either; the source re-raises that error. */
  datatype LoadError = FallbackLoadFailed

  /** `not blobs or all(blob.name.endswith('/') for blob in blobs)`: the model counts as not found. */
  predicate NoModelFiles(blobs: seq<string>) {
    blobs == [] || forall k :: 0 <= k < |blobs| ==> EndsWithSlash(blobs[k])
  }

  /** The blobs the download loop does not skip, in listing order. */
  function Files(blobs: seq<string>): seq<string> {
    if blobs == [] then []
    else
      var init, last := Files(blobs[..|blobs| - 1]), blobs[|blobs| - 1];
      if EndsWithSlash(last) then init else init + [last]
  }

  /** The files are no more than the listing; each is listed and none is a directory entry. */
  lemma {:induction false} FilesFacts(blobs: seq<string>)
    ensures |Files(blobs)| <= |blobs|
    ensures forall k :: 0 <= k < |Files(blobs)| ==> !EndsWithSlash(Files(blobs)[k]) && Files(blobs)[k] in blobs
  {
    if blobs != [] {
      var init := blobs[..|blobs| - 1];
      FilesFacts(init);
      forall k | 0 <= k < |Files(init)| ensures Files(init)[k] in blobs {
        assert Files(init)[k] in init;
      }
    }
  }

  /** Filtering a concatenation filters each part: the files are an order-preserving subsequence. */
  lemma {:induction false} FilesAppend(a: seq<string>, b: seq<string>)
    ensures Files(a + b) == Files(a) + Files(b)
    decreases |b|
  {
    if b == [] {
      assert a + b == a;
    } else {
      var b' := b[..|b| - 1];
      assert (a + b)[..|a + b| - 1] == a + b';
      FilesAppend(a, b');
    }
  }

  /** Every non-directory blob is among the files, and nothing else. */
  lemma {:induction false} FilesMembership(blobs: seq<string>, name: string)
    ensures name in Files(blobs) <==> name in blobs && !EndsWithSlash(name)
  {
    if blobs != [] {
      var init := blobs[..|blobs| - 1];
      assert blobs == init + [blobs[|blobs| - 1]];
      FilesMembership(init, name);
    }
  }

  /** The listing raises "not found" exactly when no file would be downloaded. */
  lemma {:induction false} NoModelFilesIff(blobs: seq<string>)
    ensures NoModelFiles(blobs) <==> Files(blobs) == []
  {
    if blobs != [] {
      if forall k :: 0 <= k < |blobs| ==> EndsWithSlash(blobs[k]) {
        if Files(blobs) != [] {
          FilesMembership(blobs, Files(blobs)[0]);
        }
      } else {
        var j :| 0 <= j < |blobs| && !EndsWithSlash(blobs[j]);
        FilesMembership(blobs, blobs[j]);
      }
    }
  }

  /** The path of a blob below the model folder: `name.replace(MODEL_STORAGE_PATH + "/", "")`. */
  function RelativePath(name: string): string {
    RemoveAll(name, MODEL_STORAGE_PATH + "/")
  }

  /** `os.path.join(LOCAL_MODEL_PATH, relative_path)`. */
  function LocalPath(name: string): string {
    JoinPath(LOCAL_MODEL_PATH, RelativePath(name))
  }

  /**
   * The upload script names each file `MODEL_STORAGE_PATH + "/" + rel`; the
   * download gives back `rel`, and puts it under the local directory, as long
   * as `rel` does not itself contain the folder prefix (and is not absolute).
   */
  lemma UploadedNameRoundTrip(rel: string)
    requires !Contains(rel, MODEL_STORAGE_PATH + "/")
    ensures RelativePath(MODEL_STORAGE_PATH + "/" + rel) == rel
    ensures (rel == [] || rel[0] != '/') ==> LocalPath(MODEL_STORAGE_PATH + "/" + rel) == LOCAL_MODEL_PATH + "/" + rel
  {
    var prefix := MODEL_STORAGE_PATH + "/";
    assert MODEL_STORAGE_PATH + "/" + rel == prefix + rel;
    RemoveAllLeadingOccurrence(prefix, rel);
    RemoveAllWithoutOccurrence(rel, prefix);
  }

  /**
   * The listing prefix has no trailing slash, so a blob of a sibling folder
   * (say `models/finsmart-ai-finetuned-model-v2/config.json`) is listed too;
   * its name keeps no occurrence of the folder prefix to drop and it is
   * downloaded under its full name.
   */
  lemma SiblingFolderKeepsFullName(name: string)
    requires !Contains(name, MODEL_STORAGE_PATH + "/")
    ensures RelativePath(name) == name
  {
    RemoveAllWithoutOccurrence(name, MODEL_STORAGE_PATH + "/");
  }

  /** Every file of the listing downloads. */
  predicate AllFetched(files: seq<string>, fetch: string -> bool) {
    forall k :: 0 <= k < |files| ==> fetch(files[k])
  }

  /** A non-directory blob at index `i` is the file right after those of `blobs[..i]`. */
  lemma NextFile(blobs: seq<string>, i: int)
    requires 0 <= i < |blobs| && !EndsWithSlash(blobs[i])
    ensures |Files(blobs[..i])| < |Files(blobs)|
    ensures Files(blobs[..i]) == Files(blobs)[..|Files(blobs[..i])|]
    ensures Files(blobs)[|Files(blobs[..i])|] == blobs[i]
  {
    assert blobs[..i + 1][..i] == blobs[..i];
    FilesAppend(blobs[..i + 1], blobs[i + 1..]);
    assert blobs[..i + 1] + blobs[i + 1..] == blobs;
    assert Files(blobs[..i + 1]) == Files(blobs[..i]) + [blobs[i]];
  }

  /**
   * The download loop: skip directory entries, download the rest in listing
   * order to their local paths, and stop at the first download that raises.
   * `downloaded` is `downloaded_files`; `written` the local paths written.
   */
  method DownloadBlobs(blobs: seq<string>, fetch: string -> bool)
    returns (downloaded: seq<string>, written: seq<string>, ok: bool)
    ensures |written| == |downloaded|
    ensures forall k :: 0 <= k < |written| ==> written[k] == LocalPath(downloaded[k])
    ensures ok <==> AllFetched(Files(blobs), fetch)
    ensures ok ==> downloaded == Files(blobs)
    ensures !ok ==> (|downloaded| < |Files(blobs)| && downloaded == Files(blobs)[..|downloaded|]
                     && !fetch(Files(blobs)[|downloaded|]))
    ensures forall k :: 0 <= k < |downloaded| ==> fetch(downloaded[k])
  {
    downloaded, written, ok := [], [], true;
    var i := 0;
    while i < |blobs|
      invariant 0 <= i <= |blobs|
      invariant downloaded == Files(blobs[..i])
      invariant |written| == |downloaded|
      invariant forall k :: 0 <= k < |written| ==> written[k] == LocalPath(downloaded[k])
      invariant forall k :: 0 <= k < |downloaded| ==> fetch(downloaded[k])
    {
      var name := blobs[i];
      assert blobs[..i + 1][..i] == blobs[..i];
      if EndsWithSlash(name) {
        i := i + 1;
        continue;
      }
      var localFilePath := LocalPath(name);
      if !fetch(name) {
        ok := false;
        NextFile(blobs, i);
        return;
      }
      downloaded := downloaded + [name];
      written := written + [localFilePath];
      i := i + 1;
    }
    assert blobs[..i] == blobs;
  }

  /** The `try` block of the loader succeeds: bucket listed, model files found and downloaded, model built. */
  predicate PrimaryLoads(storage: Storage) {
    && storage.listing.Some?
    && !NoModelFiles(storage.listing.value)
    && AllFetched(Files(storage.listing.value), storage.fetch)
    && storage.primaryBuilds
  }

  /** What a load that is not served from the cache yields. */
  function Acquire(storage: Storage): Result<Model, LoadError> {
    if PrimaryLoads(storage) then Success(Primary(LOCAL_MODEL_PATH))
    else if storage.fallbackBuilds then Success(Fallback(FALLBACK_MODEL_NAME))
    else Failure(FallbackLoadFailed)
  }

  /**
   * Each way the primary path can fail (an unreachable bucket, an empty or
   * all-directory listing, one download that raises, a model that does not
   * build) yields the fallback model exactly when it builds, and the fatal
   * error otherwise.
   */
  lemma FailuresFallBack(storage: Storage)
    requires || storage.listing.None?
             || NoModelFiles(storage.listing.value)
             || (exists name :: name in storage.listing.value && !EndsWithSlash(name) && !storage.fetch(name))
             || !storage.primaryBuilds
    ensures Acquire(storage).Success? <==> storage.fallbackBuilds
    ensures Acquire(storage).Success? ==> Acquire(storage).value == Fallback(FALLBACK_MODEL_NAME)
    ensures Acquire(storage).Failure? ==> Acquire(storage).error == FallbackLoadFailed
  {
    if storage.listing.Some? && !NoModelFiles(storage.listing.value) && storage.primaryBuilds {
      var blobs := storage.listing.value;
      var name :| name in blobs && !EndsWithSlash(name) && !storage.fetch(name);
      FilesMembership(blobs, name);
      var k :| 0 <= k < |Files(blobs)| && Files(blobs)[k] == name;
      assert !AllFetched(Files(blobs), storage.fetch);
    }
  }

  /**
   * The fine-tuned model is built from the local directory whenever the bucket
   * lists at least one non-directory blob, every such blob downloads and the
   * model builds, whatever the fallback would do.
   */
  lemma PrimaryWhenAllSucceed(storage: Storage)
    requires storage.listing.Some?
    requires exists name :: name in storage.listing.value && !EndsWithSlash(name)
    requires forall name :: name in storage.listing.value && !EndsWithSlash(name) ==> storage.fetch(name)
    requires storage.primaryBuilds
    ensures Acquire(storage) == Success(Primary(LOCAL_MODEL_PATH))
  {
    var blobs := storage.listing.value;
    var name :| name in blobs && !EndsWithSlash(name);
    FilesMembership(blobs, name);
    NoModelFilesIff(blobs);
    forall k | 0 <= k < |Files(blobs)| ensures storage.fetch(Files(blobs)[k]) {
      FilesMembership(blobs, Files(blobs)[k]);
    }
  }

  /**
   * The fine-tuned model is used only if the listing held at least one
   * non-directory blob and every such blob was downloaded; an unreachable
   * bucket, an empty or all-directory listing, or a failed download falls back.
   */
  lemma PrimaryNeedsEveryFile(storage: Storage)
    ensures Acquire(storage).Success? && Acquire(storage).value.Primary? ==>
      storage.listing.Some? && |Files(storage.listing.value)| > 0
      && forall name :: name in storage.listing.value && !EndsWithSlash(name) ==> storage.fetch(name)
  {
    if Acquire(storage).Success? && Acquire(storage).value.Primary? {
      var blobs := storage.listing.value;
      NoModelFilesIff(blobs);
      forall name | name in blobs && !EndsWithSlash(name) ensures storage.fetch(name) {
        FilesMembership(blobs, name);
        var k :| 0 <= k < |Files(blobs)| && Files(blobs)[k] == name;
      }
    }
  }

  /** The `try` block of the loader: list, check, download, build. */
  method TryPrimary(storage: Storage) returns (r: Option<Model>)
    ensures r.Some? <==> PrimaryLoads(storage)
    ensures r.Some? ==> r.value == Primary(LOCAL_MODEL_PATH)
  {
    if storage.listing.None? {
      return None;
    }
    var blobs := storage.listing.value;
    if NoModelFiles(blobs) {
      return None;
    }
    var downloaded, written, ok := DownloadBlobs(blobs, storage.fetch);
    if !ok || !storage.primaryBuilds {
      return None;
    }
    return Some(Primary(LOCAL_MODEL_PATH));
  }

  /** The model held after a call of the loader on a handle that holds `m`. */
  function AfterLoad(m: Option<Model>, storage: Storage): Option<Model> {
    if m.Some? then m
    else match Acquire(storage)
      case Success(loaded) => Some(loaded)
      case Failure(_) => None
  }

  /** A loaded model is never replaced, whatever the bucket does later; a failed load changes nothing. */
  lemma LoaderIdempotent(m: Option<Model>, s1: Storage, s2: Storage)
    ensures AfterLoad(m, s1).Some? ==> AfterLoad(AfterLoad(m, s1), s2) == AfterLoad(m, s1)
    ensures m.Some? ==> AfterLoad(m, s1) == m
    ensures Acquire(s1).Failure? ==> AfterLoad(m, s1) == m
  {
  }

  /** The cosine similarity of two texts under `m`, with a failure read as 0.0. */
  function Cosine(embed: Embedder, m: Model, a: string, b: string): real {
    embed(m, a, b).GetOr(0.0)
  }

  /** A similarity and the model held afterwards. */
  datatype Step = Step(similarity: real, model: Option<Model>)

  /** `calculate_similarity` run on a handle that holds `m`. */
  function SimilarityStep(m: Option<Model>, key: string, student: string, storage: Storage, embed: Embedder): Step {
    if key == [] || student == [] then Step(0.0, m)
    else if m.Some? then Step(Cosine(embed, m.value, key, student), m)
    else match Acquire(storage)
      case Success(loaded) => Step(Cosine(embed, loaded, key, student), Some(loaded))
      case Failure(_) => Step(0.0, m)
  }

  /**
   * The guard of `calculate_similarity`: an empty text gives 0.0 and leaves
   * the handle alone; a held model is used and kept; a load happens only when
   * no model is held; every failure (of the load or of the embedding) gives 0.0.
   */
  lemma SimilarityGuard(m: Option<Model>, key: string, student: string, storage: Storage, embed: Embedder)
    ensures key == [] || student == [] ==> SimilarityStep(m, key, student, storage, embed) == Step(0.0, m)
    ensures m.Some? ==> SimilarityStep(m, key, student, storage, embed).model == m
    ensures SimilarityStep(m, key, student, storage, embed).model == (if key == [] || student == [] then m else AfterLoad(m, storage))
    ensures key != [] && student != [] && AfterLoad(m, storage).None? ==> SimilarityStep(m, key, student, storage, embed).similarity == 0.0
    ensures key != [] && student != [] && AfterLoad(m, storage).Some? ==>
      SimilarityStep(m, key, student, storage, embed).similarity
        == (match embed(AfterLoad(m, storage).value, key, student) case Some(v) => v case None => 0.0)
  {
  }

  /** The two globals of the service: the loaded model, if any, and the loaded flag. */
  class ModelHandle {
    var model: Option<Model>
    var modelLoaded: bool

    /** Both globals are always assigned together. */
    ghost predicate Valid()
      reads this
    {
      modelLoaded <==> model.Some?
    }

    /** The state at process start: `_model_loaded = False`, `model = None`. */
    constructor ()
      ensures Valid() && model == None && !modelLoaded
    {
      model := None;
      modelLoaded := false;
    }

    /** `load_model_from_firebase_storage`. */
    method Load(storage: Storage) returns (r: Result<Model, LoadError>)
      requires Valid()
      modifies this
      ensures Valid()
      ensures old(model).Some? ==> r == Success(old(model).value) && model == old(model)
      ensures old(model).None? ==> r == Acquire(storage)
      ensures model == AfterLoad(old(model), storage)
      ensures r.Success? ==> model == Some(r.value) && modelLoaded
      ensures r.Failure? ==> model == old(model) && modelLoaded == old(modelLoaded)
    {
      if modelLoaded && model.Some? {
        return Success(model.value);
      }
      var primary := TryPrimary(storage);
      if primary.Some? {
        model := primary;
        modelLoaded := true;
        return Success(primary.value);
      }
      if storage.fallbackBuilds {
        model := Some(Fallback(FALLBACK_MODEL_NAME));
        modelLoaded := true;
        return Success(Fallback(FALLBACK_MODEL_NAME));
      }
      return Failure(FallbackLoadFailed);
    }

    /** `calculate_similarity`. */
    method Similarity(key: string, student: string, storage: Storage, embed: Embedder) returns (s: real)
      requires Valid()
      modifies this
      ensures Valid()
      ensures Step(s, model) == SimilarityStep(old(model), key, student, storage, embed)
    {
      if key == [] || student == [] {
        return 0.0;
      }
      if model.None? {
        var loaded := Load(storage);
        if loaded.Failure? {
          return 0.0;
        }
      }
      s := Cosine(embed, model.value, key, student);
    }
  }
}
