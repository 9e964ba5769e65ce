# FinSmart-AI essay scoring core, modelled in Dafny

This project models the scoring engine of the FinSmart-AI grading service
(`functions/main.py`). The service grades free-text exam answers. It compares
each student answer with a key answer by the cosine similarity of sentence
embeddings, and maps that similarity to a grade through a fixed calibration
curve. The model has four parts:

- **Calibration** (`calculate_final_score`). The five-branch curve over exact
  rationals. Then the clamp at 1.0, the scaling by `max_score`, and Python's
  `round` (round half to even).
- **Model store** (`load_model_from_firebase_storage`, `calculate_similarity`).
  The two globals `model` and `_model_loaded` become the class
  `ModelHandle`. The loader serves a held model from the cache. Otherwise it
  lists the bucket, skips directory entries, downloads the model files in
  listing order, and builds the fine-tuned model. Any failure on that path
  falls back to the public `all-MiniLM-L6-v2` model. When the fallback fails
  too, the loader re-raises that error (line 123), and the similarity
  computation turns it into 0.0 (lines 165-170). The similarity computation
  returns 0.0 for an empty text or for any failure, and loads a model only
  when none is held.
- **Text**. The Python string operations the code depends on:
  `str.endswith`, `str.replace(p, "")`, two-argument `os.path.join`, and
  `str.strip` with Python's whitespace set.
- **Exam** (`score_exam`). The method and body checks decide the status code
  (204, 405, 400, 500 or 200). Then a loop scores every answer in order and
  keeps the running totals.

Every imperative operation is a method proved against a specification
function: `DownloadBlobs` against `Files`, `Load` against `Acquire`/`AfterLoad`,
`Similarity` against `SimilarityStep`, and `ScoreAnswers`/`ScoreExam` against
`ScoreAll`/`Respond`. The lemmas state the properties of those functions.

The storage bucket, one blob download, the construction of a
`SentenceTransformer` and the embedding with cosine similarity are inputs.
`Storage` holds the listing (or `None` when the bucket cannot be reached),
whether each blob downloads, and whether each of the two models builds.
`World` gives one `Storage` per answer of a batch. An answer attempts at most
one load, so every load attempt meets its own bucket and builders, as the
source's repeated calls do (lines 66, 89, 99 and 117 run again on each
attempt). `Embedder` maps a model and two texts to a similarity, or to `None`
when encoding fails.

What the code does, in the places where its own comments and docstrings
say something else:

- **The curve is not continuous.** The comments at lines 200, 203 and 206 say
  the 1.33 slope maps 0.70–0.85 to 0.70–0.90, 0.55–0.70 to 0.50–0.70 and
  0.40–0.55 to 0.30–0.50. But 0.15 × 1.33 = 0.1995, so below 0.85, 0.70 and
  0.55 the lower branch only tends to 0.8995, 0.6995 and 0.4995. At each of
  those breakpoints the curve then jumps up by 0.0005. It is continuous only
  at 0.40. The model proves monotonicity and the exact jumps
  (`Calibration.Breakpoints`), not continuity.
- **There is no lower clamp.** The docstring promises a final score in
  "0 - max_score" (lines 175 and 193). Only the upper end is clamped, so a
  negative similarity gives a negative percentage and can give a negative
  score (`Calibration.NegativeSimilarityScoresBelowZero`).
- **Rounding.** Rounding is Python's `round`, which rounds half to even.
- **Blank answers.** The loop skips the similarity only for a blank
  *student* answer (line 304). A blank key answer still reaches
  `calculate_similarity`, whose guard at line 144 returns 0.0, so the score is
  0 there as well (`Exam.ScoreAnswerFacts`).
- **No load guard.** The loader takes no lock. It reads and assigns the two
  globals `model` and `_model_loaded` directly.
- **A failed load is retried.** A load that fails completely leaves `model`
  as `None`. The next answer with two non-blank texts therefore calls the
  loader again, and that attempt may succeed (`Exam.RetryAfterFailedLoad`).

The listing prefix has no trailing slash. Blobs of a sibling folder, such as
`models/finsmart-ai-finetuned-model-v2/…`, are listed too. They are downloaded
under their full name (`ModelStore.SiblingFolderKeepsFullName`).

## Model

| member | source | states |
|---|---|---|
| `Calibration.Percentage` | functions/main.py:195-209 | the five-branch curve before the clamp; its order, bands and breakpoints are stated by `Calibration.PercentageMonotone`, `Calibration.PercentageBands` and `Calibration.Breakpoints` |
| `Calibration.Scale` | functions/main.py:211 | `round(fraction * max_score)`; it keeps the order of two fractions for a non-negative maximum (`Calibration.ScaleMonotone`) |
| `Calibration.FinalScore` | functions/main.py:173-211 | `calculate_final_score`, the clamped percentage scaled and rounded; its bounds, order and worked values are stated by `Calibration.FinalScoreBounds`, `Calibration.FinalScoreMonotone` and `Calibration.Examples` |
| `Calibration.RoundHalfEven` | functions/main.py:211 | the result is an integer within 0.5 of the argument, and on a tie it is the even neighbour |
| `Calibration.RoundTies` | functions/main.py:211 | 4.5 rounds to 4, 5.5 to 6, and both 0.5 and -0.5 round to 0 |
| `Calibration.RoundMonotone` | functions/main.py:211 | rounding never reverses the order of two numbers |
| `Calibration.RoundInteger` | functions/main.py:211 | an integer rounds to itself |
| `Calibration.Min` | functions/main.py:211 | `min` returns one of its arguments, and that argument is at most the other |
| `Calibration.Clamped` | functions/main.py:211 | the clamped percentage is at most 1.0; it is either 1.0 or the raw percentage, and never above the raw percentage |
| `Calibration.ScaleMonotone` | functions/main.py:211 | for a non-negative maximum, scaling then rounding keeps the order of two fractions |
| `Calibration.PercentageMonotone` | functions/main.py:195-209 | the raw percentage never decreases as similarity grows |
| `Calibration.ClampedMonotone` | functions/main.py:195-211 | the clamped percentage never decreases as similarity grows |
| `Calibration.PercentageBands` | functions/main.py:181-209 | each similarity band maps into its documented percentage band: ≥0.85 to at least 90% (at most 100.05% up to similarity 1.0); 0.70–0.85 to 70–89.95%; 0.55–0.70 to 50–69.95%; 0.40–0.55 to 30–49.95%; 0–0.40 to 0–30%; below 0 to a negative value |
| `Calibration.Breakpoints` | functions/main.py:195-209 | the percentage is exactly 0.90, 0.70, 0.50 and 0.30 at 0.85, 0.70, 0.55 and 0.40; just below the first three breakpoints it is 0.0005 lower than there; it is continuous at 0.40; it is 1.0005 at similarity 1.0 |
| `Calibration.FinalScoreBounds` | functions/main.py:195-211 | for `max_score >= 0`, the score is at most `max_score`, and it is at least 0 when the similarity is non-negative |
| `Calibration.FinalScoreMonotone` | functions/main.py:195-211 | for a fixed `max_score >= 0`, a higher similarity never gives a lower score |
| `Calibration.ZeroSimilarityScoresZero` | functions/main.py:209-211 | a similarity of 0.0 scores 0 for every maximum |
| `Calibration.NegativeSimilarityScoresBelowZero` | functions/main.py:207-211 | with no lower clamp, similarity -1.0 with maximum 10 scores -8 |
| `Calibration.Examples` | functions/main.py:195-211 | (0.85, 20) gives 18; (1.0, 20) gives 20, because 1.0005 is clamped; (0.70, 10) gives 7; (0.0, 50) gives 0; (0.475, 100) gives 40 |
| `Text.EndsWithSlash` | functions/main.py:68-78 | `blob.name.endswith('/')`, the mark of a directory entry in the listing: a non-empty name whose last character is "/" |
| `Text.IsSpace` | functions/main.py:300-301 | the characters `str.strip()` removes: Python's `str.isspace` set, i.e. code points 0x09-0x0D, 0x1C-0x20, 0x85, 0xA0, 0x1680, 0x2000-0x200A, 0x2028, 0x2029, 0x202F, 0x205F and 0x3000 |
| `Text.RemoveAll` | functions/main.py:82 | `str.replace(p, "")` never lengthens the string |
| `Text.RemoveAllWithoutOccurrence` | functions/main.py:82 | a string without an occurrence of the pattern is returned unchanged |
| `Text.RemoveAllLeadingOccurrence` | functions/main.py:82 | an occurrence at the start is dropped and the scan continues after it |
| `Text.JoinPath` | functions/main.py:83 | an absolute relative path replaces the base; otherwise the result is the base, then one "/" unless the base is empty or ends with one, then the relative path |
| `Text.TrimStart` | functions/main.py:300-301 | `lstrip`, characterised by `Text.TrimStartFacts` |
| `Text.TrimEnd` | functions/main.py:300-301 | `rstrip`, characterised by `Text.TrimEndFacts` |
| `Text.Strip` | functions/main.py:300-301 | `strip`, characterised by `Text.StripFacts` and `Text.StripEmptyIff` |
| `Text.TrimStartFacts` | functions/main.py:300-301 | `lstrip` keeps a suffix; everything it drops is whitespace; what is left does not start with whitespace |
| `Text.TrimEndFacts` | functions/main.py:300-301 | `rstrip` keeps a prefix; everything it drops is whitespace; what is left does not end with whitespace |
| `Text.StripFacts` | functions/main.py:300-301 | `strip` gives a slice of the input that neither starts nor ends with whitespace, and every character outside the slice is whitespace |
| `Text.StripEmptyIff` | functions/main.py:300-304 | the stripped answer is empty exactly when every character is whitespace |
| `ModelStore.NoModelFiles` | functions/main.py:68 | `not blobs or all(blob.name.endswith('/') ...)`: the listing is empty or holds only directory entries; equivalent to an empty `Files` (`ModelStore.NoModelFilesIff`) |
| `ModelStore.Files` | functions/main.py:76-79 | the blobs the loop does not skip, in listing order; characterised by `ModelStore.FilesFacts`, `ModelStore.FilesMembership` and `ModelStore.FilesAppend` |
| `ModelStore.FilesFacts` | functions/main.py:76-79 | the kept blobs are no more than the listing; each is in the listing and none ends in "/" |
| `ModelStore.FilesAppend` | functions/main.py:76-79 | filtering a concatenation filters each part, so the kept blobs keep listing order |
| `ModelStore.FilesMembership` | functions/main.py:76-79 | a name is kept exactly when it is listed and does not end in "/" |
| `ModelStore.NoModelFilesIff` | functions/main.py:68-79 | the "model not found" check fires exactly when the loop would download nothing |
| `ModelStore.RelativePath` | functions/main.py:82 | `blob.name.replace(MODEL_STORAGE_PATH + "/", "")`; inverted on uploaded names by `ModelStore.UploadedNameRoundTrip` |
| `ModelStore.LocalPath` | functions/main.py:83 | `os.path.join(LOCAL_MODEL_PATH, relative_path)`; see `Text.JoinPath` and `ModelStore.UploadedNameRoundTrip` |
| `ModelStore.UploadedNameRoundTrip` | functions/main.py:82-83 | a name `MODEL_STORAGE_PATH + "/" + rel`, as the upload script writes it, gives back `rel` when `rel` does not contain the prefix; the file lands at `LOCAL_MODEL_PATH + "/" + rel` when `rel` is not absolute |
| `ModelStore.SiblingFolderKeepsFullName` | functions/main.py:66-82 | a listed name that does not contain the folder prefix keeps its full name as its relative path |
| `ModelStore.DownloadBlobs` | functions/main.py:74-91 | the loop succeeds exactly when every non-directory blob downloads. On success it has downloaded exactly the filtered listing, in order. On failure it stops at the first failing file, after the files before it. Each written path is the local path of the matching blob |
| `ModelStore.PrimaryLoads` | functions/main.py:63-100 | the `try` block completes: bucket listed, a model file found, every file downloaded, model built; matched by `ModelStore.TryPrimary` |
| `ModelStore.Acquire` | functions/main.py:52-123 | an uncached load: the primary model, else the fallback, else the fatal error; its outcomes are stated by `ModelStore.FailuresFallBack`, `ModelStore.PrimaryWhenAllSucceed` and `ModelStore.PrimaryNeedsEveryFile` |
| `ModelStore.AfterLoad` | functions/main.py:40-123 | the model held after a call of the loader; stated by `ModelStore.LoaderIdempotent` and matched by `ModelStore.ModelHandle.Load` |
| `ModelStore.Cosine` | functions/main.py:153-170 | encoding both texts and taking `cos_sim` under a model; a failure of either is read as 0.0 |
| `ModelStore.SimilarityStep` | functions/main.py:131-170 | `calculate_similarity` on a handle; stated by `ModelStore.SimilarityGuard` and matched by `ModelStore.ModelHandle.Similarity` |
| `ModelStore.TryPrimary` | functions/main.py:63-100 | the primary path yields the model built from `LOCAL_MODEL_PATH` exactly when the bucket is listed, some model file is found, every file downloads and the model builds |
| `ModelStore.FailuresFallBack` | functions/main.py:52-123 | an unreachable bucket, an empty or all-directory listing, one failing download or a model that does not build each gives the fallback exactly when it builds, and the fatal error otherwise |
| `ModelStore.PrimaryWhenAllSucceed` | functions/main.py:63-103 | a listing with a non-directory blob, every such blob downloading and a model that builds give the model built from `LOCAL_MODEL_PATH`, whatever the fallback would do |
| `ModelStore.PrimaryNeedsEveryFile` | functions/main.py:66-100 | the primary model is used only if the listing held a file to download and every listed non-directory blob was downloaded |
| `ModelStore.LoaderIdempotent` | functions/main.py:47-48 | a held model is returned and kept whatever the store does; a second load after a successful one changes nothing; a failed acquisition leaves the handle as it was |
| `ModelStore.SimilarityGuard` | functions/main.py:143-170 | an empty text gives 0.0 and leaves the handle alone; a held model is kept; a load happens only when none is held; a failed load or a failed embedding gives 0.0; otherwise the result is the embedding's similarity |
| `ModelStore.ModelHandle.constructor` | functions/main.py:36-37 | the process starts with no model and the loaded flag false |
| `ModelStore.ModelHandle.Load` | functions/main.py:40-123 | a held model is returned without touching the store. Otherwise the result is the primary model, else the fallback, else an error. Success sets both globals. Failure leaves both unchanged. The invariant loaded ⇔ model held is kept |
| `ModelStore.ModelHandle.Similarity` | functions/main.py:131-170 | the similarity and the new handle state are those of `SimilarityStep`, and the invariant is kept |
| `Exam.QuestionIdOf` | functions/main.py:299 | `answer.get("question_id", "")`: the id, or "" when absent |
| `Exam.KeyOf` | functions/main.py:300 | `answer.get("key_answer", "").strip()`: the stripped key answer, or "" when absent |
| `Exam.StudentOf` | functions/main.py:301 | `answer.get("student_answer", "").strip()`: the stripped student answer, or "" when absent |
| `Exam.MaxScoreOf` | functions/main.py:302 | `answer.get("max_score", 100)`: the maximum, or 100 when absent |
| `Exam.ScoreAnswer` | functions/main.py:298-316 | one iteration of the loop; stated by `Exam.ScoreAnswerFacts` and matched by `Exam.ScoreOne` |
| `Exam.ScoreAll` | functions/main.py:294-319 | the loop over all answers, each against its own world; stated by `Exam.ScoreAllSnoc`, `Exam.ScoreAllOrder`, `Exam.ScoreAllTotals` and matched by `Exam.ScoreAnswers` |
| `Exam.Respond` | functions/main.py:232-338 | `score_exam`; stated by `Exam.DispatchStatus` and `Exam.SuccessfulResponse`, matched by `Exam.ScoreExam` |
| `Exam.ScoreAnswerFacts` | functions/main.py:298-316 | one answer yields its id (default "") and maximum (default 100). A whitespace-only or missing student answer, or a blank key answer, gives 0.0 and 0 and leaves the model alone. Otherwise the score is the calibrated similarity, at most the maximum when that is non-negative. A held model is kept |
| `Exam.ScoreAllSnoc` | functions/main.py:311-319 | one more answer appends its result and adds its score and maximum to the running totals |
| `Exam.ScoreAllLength` | functions/main.py:294-315 | the loop appends exactly one result per answer |
| `Exam.ScoreAllPrefix` | functions/main.py:294-315 | scoring the first j answers gives the first j results: later answers never change earlier results |
| `Exam.ScoreAllLast` | functions/main.py:298-315 | the result of the last answer is that answer scored, against its own world, on the model the earlier answers left |
| `Exam.ScoreAllAt` | functions/main.py:298-315 | the k-th result is the k-th answer scored, against the k-th world, on the model the first k answers left |
| `Exam.ScoreAllOrder` | functions/main.py:298-316 | there is one result per answer, in input order; the k-th is the k-th answer scored, against the k-th world, on the model left by the first k answers |
| `Exam.ScoreAllTotals` | functions/main.py:318-319 | `total_score` is the sum of the results' scores and `total_max_score` the sum of their maxima |
| `Exam.ResultsFollowAnswers` | functions/main.py:298-316 | the k-th result carries the k-th answer's id and maximum; a blank student answer gives 0.0 and 0; otherwise the score is the calibrated similarity |
| `Exam.ScoreAllKeepsModel` | functions/main.py:147-151 | a model held at the start of the batch is still held at the end: no reload and no downgrade |
| `Exam.RetryAfterFailedLoad` | functions/main.py:144-151 | after the first answer's load fails the handle is still empty, and the second answer with non-blank texts loads again against its own world |
| `Exam.SumMaxOf` | functions/main.py:302-319 | the sum of the answers' `max_score` fields, each defaulting to 100 |
| `Exam.TotalMaxIsSumOfMaxima` | functions/main.py:302-319 | `total_max_score` is the sum of every answer's `max_score` (default 100), whatever the texts and the model do |
| `Exam.TotalWithinMaximum` | functions/main.py:318-319 | when no maximum is negative, the total score is at most the total maximum |
| `Exam.DispatchStatus` | functions/main.py:267-338 | over the request shapes the model admits: 204 exactly for OPTIONS; 405 exactly for other methods that are not POST; 400 exactly for POST with a missing body or no "answers" key; 500 exactly when "answers" cannot be iterated; 200 exactly for a list of answers; only a 200 carries scores, and no other status changes the model |
| `Exam.SuccessfulResponse` | functions/main.py:292-326 | a 200 response has one result per answer, each carrying its answer's id and maximum in request order; the totals equal the sums over the results, and `total_max_score` is the sum of the answers' maxima (default 100); the total stays within the maximum total when no maximum is negative |
| `Exam.ScoreOne` | functions/main.py:298-316 | one loop iteration yields the result and the model state of `ScoreAnswer` |
| `Exam.ScoreAnswers` | functions/main.py:294-319 | the loop's `results`, totals and final model are those of `ScoreAll` on the initial model |
| `Exam.ScoreExam` | functions/main.py:232-338 | the response and the new model state are those of `Respond` on the initial state, and the handle invariant is kept |

## Left out

- HTTP framing, CORS headers, JSON text and `create_response` (lines 214-225) are left out as transport. A response is its status code and the content of its body.
- The 500 body's error text and its `DEBUG` traceback field (line 337) are left out. A Python exception message has no counterpart here.
- Logging through `print` and `traceback` is left out as I/O.
- The 500 path of lines 275-282 is left out because nothing in the model can raise there.
- `firebase_admin` initialisation, the bucket, `list_blobs` and `download_to_filename` are foreign calls. They are abstracted as `Storage`. A failure to initialise or to list the bucket is the `None` listing.
- `os.makedirs` at line 72 is assumed to succeed. The `makedirs` at line 86 is folded into the per-blob `fetch`.
- The contents of the downloaded files are not modelled. Whether the fine-tuned model builds from them is the boolean `primaryBuilds`.
- `SentenceTransformer`, `encode` and `util.cos_sim` are an opaque ML library. They are the `Embedder` parameter. The model leaves its range free instead of assuming the library's [-1, 1].
- IEEE-754 float behaviour is left out. Similarities and percentages are exact rationals. Python's floats, for example `0.2 * 0.75 * 30`, can land just off a .5 tie and round differently from the exact value.
- `round(similarity_score, 4)` (line 313) is float formatting and is left out. `similarityScore` holds the unrounded similarity, which is also the value that the code passes to `calculate_final_score`.
- JSON shapes beyond the modelled ones are left out. The model covers a top-level body that is a JSON object or is missing, an "answers" value that is a list of objects or non-iterable, and string or absent text fields with an integer or absent `max_score`. A top-level body that is not an object is not modelled: a falsy one (`[]`, `0`, `""`, `null`) and a list or string without "answers" give 400, while a number or boolean makes `"answers" in request_json` raise, which line 328 turns into a 500. Other shapes of the answers raise (a 500) or iterate differently in Python.
- A 500 raised inside the loop (lines 298-319, caught at lines 328-338) is left out. The source raises one for an answer that is not an object, a `null` or non-string text field, or a non-numeric `max_score`. Answers scored before it may already have loaded the model, so that 500 can change the model state.
- The float conversion of `max_score` at line 211 is left out. `max_score` is an unbounded integer here, while Python loses precision above 2^53 and raises `OverflowError` beyond about 1.8e308.
- Concurrency is left out because the code has none. Each process instance has one handle.
- `scripts/upload_model_to_storage_firebase.py` is upload plumbing. It is used only for the blob names it writes (line 99), in `ModelStore.UploadedNameRoundTrip`.
