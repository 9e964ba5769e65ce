/**
 * The `score_exam` endpoint: the method and body checks that decide the
 * status code, and the loop that scores every answer in order and keeps the
 * running totals. HTTP framing, CORS headers and JSON text are not modelled;
 * a response is its status code and what its JSON body carries.
 */
module Exam {
  import opened Wrappers
  import opened Text
  import opened Calibration
  import opened ModelStore

  /** `max_score` of an answer that does not give one. */
  const DEFAULT_MAX_SCORE: int := 100

  /** One element of the `answers` array; every field may be missing. */
  datatype Answer = Answer(
    questionId: Option<string>,
    keyAnswer: Option<string>,
    studentAnswer: Option<string>,
    maxScore: Option<int>)

  /** One element of the `results` array. */
  datatype ScoringResult = ScoringResult(
    questionId: string,
    similarityScore: real,
    finalScore: int,
    maxScore: int)

  /** The value under the request's "answers" key: a list of answers, or a value a `for` loop cannot iterate. */
  datatype AnswersValue = AnswerList(items: seq<Answer>) | NotIterable

  /** The parsed JSON object of the request; only its "answers" key is read (`None` when absent). */
  datatype Payload = Payload(answers: Option<AnswersValue>)

  /** The HTTP method and the parsed body (`None` when the body is missing or not JSON). */
  datatype Request = Request(httpMethod: string, json: Option<Payload>)

  datatype Body =
    | NoContent
    | ErrorMessage(message: string)
    | InternalError
    | Scores(results: seq<ScoringResult>, totalScore: int, totalMaxScore: int)

  datatype Response = Response(status: int, body: Body)

  function QuestionIdOf(a: Answer): string { a.questionId.GetOr("") }
  function KeyOf(a: Answer): string { Strip(a.keyAnswer.GetOr("")) }
  function StudentOf(a: Answer): string { Strip(a.studentAnswer.GetOr("")) }
  function MaxScoreOf(a: Answer): int { a.maxScore.GetOr(DEFAULT_MAX_SCORE) }

  /** A result and the model held afterwards. */
  datatype Scored = Scored(result: ScoringResult, model: Option<Model>)

  /** One iteration of the loop, on a handle that holds `m`. */
  function ScoreAnswer(m: Option<Model>, a: Answer, storage: Storage, embed: Embedder): Scored {
    if StudentOf(a) == [] then
      Scored(ScoringResult(QuestionIdOf(a), 0.0, 0, MaxScoreOf(a)), m)
    else
      var step := SimilarityStep(m, KeyOf(a), StudentOf(a), storage, embed);
      Scored(ScoringResult(QuestionIdOf(a), step.similarity, FinalScore(step.similarity, MaxScoreOf(a)), MaxScoreOf(a)), step.model)
  }

  /**
   * What one answer yields: its id and maximum (with the defaults), 0.0 and 0
   * without touching the model when the stripped student answer is empty,
   * and otherwise the calibrated score of its similarity.
   */
  lemma ScoreAnswerFacts(m: Option<Model>, a: Answer, storage: Storage, embed: Embedder)
    ensures ScoreAnswer(m, a, storage, embed).result.questionId == QuestionIdOf(a)
    ensures ScoreAnswer(m, a, storage, embed).result.maxScore == MaxScoreOf(a)
    ensures (forall k :: 0 <= k < |a.studentAnswer.GetOr("")| ==> IsSpace(a.studentAnswer.GetOr("")[k])) ==>
      ScoreAnswer(m, a, storage, embed) == Scored(ScoringResult(QuestionIdOf(a), 0.0, 0, MaxScoreOf(a)), m)
    ensures ScoreAnswer(m, a, storage, embed).result.finalScore
      == FinalScore(ScoreAnswer(m, a, storage, embed).result.similarityScore, MaxScoreOf(a))
    ensures MaxScoreOf(a) >= 0 ==> ScoreAnswer(m, a, storage, embed).result.finalScore <= MaxScoreOf(a)
    ensures ScoreAnswer(m, a, storage, embed).result.similarityScore >= 0.0 && MaxScoreOf(a) >= 0 ==>
      ScoreAnswer(m, a, storage, embed).result.finalScore >= 0
    ensures m.Some? ==> ScoreAnswer(m, a, storage, embed).model == m
    ensures KeyOf(a) == [] ==> ScoreAnswer(m, a, storage, embed) == Scored(ScoringResult(QuestionIdOf(a), 0.0, 0, MaxScoreOf(a)), m)
  {
    StripEmptyIff(a.studentAnswer.GetOr(""));
    var r := ScoreAnswer(m, a, storage, embed).result;
    ZeroSimilarityScoresZero(MaxScoreOf(a));
    if MaxScoreOf(a) >= 0 {
      FinalScoreBounds(r.similarityScore, MaxScoreOf(a));
    }
    if StudentOf(a) != [] {
      SimilarityGuard(m, KeyOf(a), StudentOf(a), storage, embed);
    }
  }

  /**
   * What the bucket and the model builders do, per answer: `world(k)` is the
   * outcome of every call the k-th answer (from 0) makes into them. An answer
   * tries at most one load, so a load retried on a later answer of the same
   * batch meets a world of its own, and may succeed where an earlier one failed.
   */
  type World = nat -> Storage

  /** The loop's variables: `results`, `total_score`, `total_max_score`, and the model held. */
  datatype BatchState = BatchState(
    results: seq<ScoringResult>,
    totalScore: int,
    totalMaxScore: int,
    model: Option<Model>)

  /** The loop run over `answers` in order, starting on a handle that holds `m`. */
  function ScoreAll(m: Option<Model>, answers: seq<Answer>, world: World, embed: Embedder): BatchState
    decreases |answers|
  {
    if answers == [] then BatchState([], 0, 0, m)
    else
      var before := ScoreAll(m, answers[..|answers| - 1], world, embed);
      var scored := ScoreAnswer(before.model, answers[|answers| - 1], world(|answers| - 1), embed);
      BatchState(before.results + [scored.result],
                 before.totalScore + scored.result.finalScore,
                 before.totalMaxScore + scored.result.maxScore,
                 scored.model)
  }

  function SumFinalScores(results: seq<ScoringResult>): int {
    if results == [] then 0 else SumFinalScores(results[..|results| - 1]) + results[|results| - 1].finalScore
  }

  function SumMaxScores(results: seq<ScoringResult>): int {
    if results == [] then 0 else SumMaxScores(results[..|results| - 1]) + results[|results| - 1].maxScore
  }

  /** One more answer appends its result to the batch and adds its scores to the totals. */
  lemma ScoreAllSnoc(m: Option<Model>, answers: seq<Answer>, a: Answer, world: World, embed: Embedder)
    ensures var before := ScoreAll(m, answers, world, embed);
      var scored := ScoreAnswer(before.model, a, world(|answers|), embed);
      ScoreAll(m, answers + [a], world, embed)
        == BatchState(before.results + [scored.result],
                      before.totalScore + scored.result.finalScore,
                      before.totalMaxScore + scored.result.maxScore,
                      scored.model)
  {
    assert (answers + [a])[..|answers|] == answers;
  }

  /** Taking one more element of a sequence appends that element. */
  lemma TakeOneMore<T>(s: seq<T>, k: nat)
    requires k < |s|
    ensures s[..k + 1] == s[..k] + [s[k]]
  {
    assert (s[..k] + [s[k]])[k] == s[k];
  }

  /** There is one result per answer. */
  lemma {:induction false} ScoreAllLength(m: Option<Model>, answers: seq<Answer>, world: World, embed: Embedder)
    ensures |ScoreAll(m, answers, world, embed).results| == |answers|
    decreases |answers|
  {
    if answers != [] {
      ScoreAllLength(m, answers[..|answers| - 1], world, embed);
    }
  }

  /** Scoring a prefix of the answers gives the matching prefix of the results. */
  lemma {:induction false} ScoreAllPrefix(m: Option<Model>, answers: seq<Answer>, world: World, embed: Embedder, j: nat)
    requires j <= |answers|
    ensures j <= |ScoreAll(m, answers, world, embed).results|
    ensures ScoreAll(m, answers[..j], world, embed).results == ScoreAll(m, answers, world, embed).results[..j]
    decreases |answers|
  {
    ScoreAllLength(m, answers, world, embed);
    if j == |answers| {
      assert answers[..j] == answers;
    } else {
      var init := answers[..|answers| - 1];
      ScoreAllPrefix(m, init, world, embed, j);
      ScoreAllLength(m, init, world, embed);
      assert init[..j] == answers[..j];
      var before := ScoreAll(m, init, world, embed).results;
      assert ScoreAll(m, answers, world, embed).results[..|init|] == before;
      assert before[..j] == ScoreAll(m, answers, world, embed).results[..|init|][..j];
    }
  }

  /** The result of the answer appended last is that answer scored on the model the others left. */
  lemma ScoreAllLast(m: Option<Model>, init: seq<Answer>, a: Answer, world: World, embed: Embedder)
    ensures |init| < |ScoreAll(m, init + [a], world, embed).results|
    ensures ScoreAll(m, init + [a], world, embed).results[|init|]
      == ScoreAnswer(ScoreAll(m, init, world, embed).model, a, world(|init|), embed).result
  {
    ScoreAllLength(m, init, world, embed);
    ScoreAllSnoc(m, init, a, world, embed);
  }

  /** The k-th result is the k-th answer scored, against the k-th world, on the model the first k left. */
  lemma ScoreAllAt(m: Option<Model>, answers: seq<Answer>, world: World, embed: Embedder, k: nat)
    requires k < |answers|
    ensures k < |ScoreAll(m, answers, world, embed).results|
    ensures ScoreAll(m, answers, world, embed).results[k]
      == ScoreAnswer(ScoreAll(m, answers[..k], world, embed).model, answers[k], world(k), embed).result
  {
    ScoreAllPrefix(m, answers, world, embed, k + 1);
    TakeOneMore(answers, k);
    ScoreAllLast(m, answers[..k], answers[k], world, embed);
  }

  /**
   * The batch: one result per answer, in the same order, the k-th being that
   * answer scored, against the k-th world, on the model left by the first k.
   */
  lemma ScoreAllOrder(m: Option<Model>, answers: seq<Answer>, world: World, embed: Embedder)
    ensures |ScoreAll(m, answers, world, embed).results| == |answers|
    ensures forall k :: 0 <= k < |answers| ==>
      ScoreAll(m, answers, world, embed).results[k]
        == ScoreAnswer(ScoreAll(m, answers[..k], world, embed).model, answers[k], world(k), embed).result
  {
    ScoreAllLength(m, answers, world, embed);
    forall k | 0 <= k < |answers|
      ensures ScoreAll(m, answers, world, embed).results[k]
        == ScoreAnswer(ScoreAll(m, answers[..k], world, embed).model, answers[k], world(k), embed).result
    {
      ScoreAllAt(m, answers, world, embed, k);
    }
  }

  /** The totals are the sums of the results' scores and maxima. */
  lemma {:induction false} ScoreAllTotals(m: Option<Model>, answers: seq<Answer>, world: World, embed: Embedder)
    ensures ScoreAll(m, answers, world, embed).totalScore == SumFinalScores(ScoreAll(m, answers, world, embed).results)
    ensures ScoreAll(m, answers, world, embed).totalMaxScore == SumMaxScores(ScoreAll(m, answers, world, embed).results)
    decreases |answers|
  {
    if answers != [] {
      var init, last := answers[..|answers| - 1], answers[|answers| - 1];
      assert answers == init + [last];
      ScoreAllTotals(m, init, world, embed);
      ScoreAllSnoc(m, init, last, world, embed);
      var r := ScoreAll(m, answers, world, embed).results;
      assert r[..|r| - 1] == ScoreAll(m, init, world, embed).results;
    }
  }

  /**
   * Positional correspondence: the k-th result carries the k-th answer's id
   * and maximum; an answer whose student text is blank scores 0.0 and 0.
   */
  lemma ResultsFollowAnswers(m: Option<Model>, answers: seq<Answer>, world: World, embed: Embedder)
    ensures |ScoreAll(m, answers, world, embed).results| == |answers|
    ensures forall k :: 0 <= k < |answers| ==>
      var r := ScoreAll(m, answers, world, embed).results[k];
      && r.questionId == QuestionIdOf(answers[k])
      && r.maxScore == MaxScoreOf(answers[k])
      && (StudentOf(answers[k]) == [] ==> r.similarityScore == 0.0 && r.finalScore == 0)
      && (StudentOf(answers[k]) != [] ==> r.finalScore == FinalScore(r.similarityScore, MaxScoreOf(answers[k])))
  {
    ScoreAllOrder(m, answers, world, embed);
    forall k | 0 <= k < |answers| {
      ScoreAnswerFacts(ScoreAll(m, answers[..k], world, embed).model, answers[k], world(k), embed);
    }
  }

  /** A held model stays held through the batch (no reload, no downgrade to the fallback). */
  lemma {:induction false} ScoreAllKeepsModel(m: Option<Model>, answers: seq<Answer>, world: World, embed: Embedder)
    requires m.Some?
    ensures ScoreAll(m, answers, world, embed).model == m
    decreases |answers|
  {
    if answers != [] {
      ScoreAllKeepsModel(m, answers[..|answers| - 1], world, embed);
      ScoreAnswerFacts(m, answers[|answers| - 1], world(|answers| - 1), embed);
    }
  }

  /** With non-negative maxima the exam total never exceeds the maximum total. */
  lemma {:induction false} TotalWithinMaximum(m: Option<Model>, answers: seq<Answer>, world: World, embed: Embedder)
    requires forall k :: 0 <= k < |answers| ==> MaxScoreOf(answers[k]) >= 0
    ensures ScoreAll(m, answers, world, embed).totalScore <= ScoreAll(m, answers, world, embed).totalMaxScore
    decreases |answers|
  {
    if answers != [] {
      var init := answers[..|answers| - 1];
      TotalWithinMaximum(m, init, world, embed);
      ScoreAnswerFacts(ScoreAll(m, init, world, embed).model, answers[|answers| - 1], world(|init|), embed);
    }
  }

  /**
   * A load that fails on one answer leaves the handle empty, so the next
   * answer with two non-blank texts tries again, against its own world; a
   * model held after that stays held.
   */
  lemma RetryAfterFailedLoad(a0: Answer, a1: Answer, world: World, embed: Embedder)
    requires KeyOf(a0) != [] && StudentOf(a0) != [] && KeyOf(a1) != [] && StudentOf(a1) != []
    requires Acquire(world(0)).Failure?
    ensures ScoreAll(None, [a0], world, embed).model == None
    ensures ScoreAll(None, [a0, a1], world, embed).model == AfterLoad(None, world(1))
  {
    ScoreAllSnoc(None, [], a0, world, embed);
    ScoreAllSnoc(None, [a0], a1, world, embed);
    assert [a0] + [a1] == [a0, a1];
    SimilarityGuard(None, KeyOf(a0), StudentOf(a0), world(0), embed);
    SimilarityGuard(None, KeyOf(a1), StudentOf(a1), world(1), embed);
  }

  /** The sum of the answers' `max_score` fields, each defaulting to 100. */
  function SumMaxOf(answers: seq<Answer>): int {
    if answers == [] then 0 else SumMaxOf(answers[..|answers| - 1]) + MaxScoreOf(answers[|answers| - 1])
  }

  /** `total_max_score` is the sum of the answers' maxima, whatever their texts and the model do. */
  lemma {:induction false} TotalMaxIsSumOfMaxima(m: Option<Model>, answers: seq<Answer>, world: World, embed: Embedder)
    ensures ScoreAll(m, answers, world, embed).totalMaxScore == SumMaxOf(answers)
    decreases |answers|
  {
    if answers != [] {
      var init := answers[..|answers| - 1];
      TotalMaxIsSumOfMaxima(m, init, world, embed);
      ScoreAnswerFacts(ScoreAll(m, init, world, embed).model, answers[|answers| - 1], world(|init|), embed);
    }
  }

  /** A handler's response and the model held afterwards. */
  datatype Handled = Handled(response: Response, model: Option<Model>)

  /** `score_exam` on a handle that holds `m`. */
  function Respond(m: Option<Model>, req: Request, world: World, embed: Embedder): Handled {
    if req.httpMethod == "OPTIONS" then Handled(Response(204, NoContent), m)
    else if req.httpMethod != "POST" then Handled(Response(405, ErrorMessage("Method not allowed")), m)
    else if req.json.None? || req.json.value.answers.None? then
      Handled(Response(400, ErrorMessage("answers array is required")), m)
    else match req.json.value.answers.value
      case NotIterable => Handled(Response(500, InternalError), m)
      case AnswerList(items) =>
        var batch := ScoreAll(m, items, world, embed);
        Handled(Response(200, Scores(batch.results, batch.totalScore, batch.totalMaxScore)), batch.model)
  }

  /**
   * The status code: 204 for OPTIONS, 405 for any other method but POST, 400
   * when the body or its "answers" key is missing, 500 when "answers" cannot
   * be iterated, 200 otherwise; only a 200 scores anything or touches the model.
   */
  lemma DispatchStatus(m: Option<Model>, req: Request, world: World, embed: Embedder)
    ensures Respond(m, req, world, embed).response.status == 204 <==> req.httpMethod == "OPTIONS"
    ensures Respond(m, req, world, embed).response.status == 405 <==> req.httpMethod != "OPTIONS" && req.httpMethod != "POST"
    ensures Respond(m, req, world, embed).response.status == 400 <==>
      req.httpMethod == "POST" && (req.json.None? || req.json.value.answers.None?)
    ensures Respond(m, req, world, embed).response.status == 500 <==>
      req.httpMethod == "POST" && req.json.Some? && req.json.value.answers == Some(NotIterable)
    ensures Respond(m, req, world, embed).response.status == 200 <==>
      req.httpMethod == "POST" && req.json.Some? && req.json.value.answers.Some? && req.json.value.answers.value.AnswerList?
    ensures Respond(m, req, world, embed).response.status != 200 ==> Respond(m, req, world, embed).model == m
    ensures Respond(m, req, world, embed).response.status != 200 <==> !Respond(m, req, world, embed).response.body.Scores?
  {
  }

  /**
   * A successful response lists one result per answer in request order, with
   * the totals equal to the sums over the results, and the total within the
   * maximum when no maximum is negative.
   */
  lemma SuccessfulResponse(m: Option<Model>, req: Request, world: World, embed: Embedder)
    requires req.httpMethod == "POST" && req.json.Some? && req.json.value.answers.Some?
    requires req.json.value.answers.value.AnswerList?
    ensures var items := req.json.value.answers.value.items;
      var body := Respond(m, req, world, embed).response.body;
      && body.Scores?
      && |body.results| == |items|
      && (forall k :: 0 <= k < |items| ==>
            body.results[k].questionId == QuestionIdOf(items[k]) && body.results[k].maxScore == MaxScoreOf(items[k]))
      && body.totalScore == SumFinalScores(body.results)
      && body.totalMaxScore == SumMaxScores(body.results)
      && body.totalMaxScore == SumMaxOf(items)
      && ((forall k :: 0 <= k < |items| ==> MaxScoreOf(items[k]) >= 0) ==> body.totalScore <= body.totalMaxScore)
  {
    var items := req.json.value.answers.value.items;
    var batch := ScoreAll(m, items, world, embed);
    assert Respond(m, req, world, embed).response.body == Scores(batch.results, batch.totalScore, batch.totalMaxScore);
    ResultsFollowAnswers(m, items, world, embed);
    ScoreAllTotals(m, items, world, embed);
    TotalMaxIsSumOfMaxima(m, items, world, embed);
    if forall k :: 0 <= k < |items| ==> MaxScoreOf(items[k]) >= 0 {
      TotalWithinMaximum(m, items, world, embed);
    }
  }

  /** One iteration of the loop of `score_exam`. */
  method ScoreOne(handle: ModelHandle, answer: Answer, storage: Storage, embed: Embedder) returns (result: ScoringResult)
    requires handle.Valid()
    modifies handle
    ensures handle.Valid()
    ensures Scored(result, handle.model) == ScoreAnswer(old(handle.model), answer, storage, embed)
  {
    var questionId := answer.questionId.GetOr("");
    var keyAnswer := Strip(answer.keyAnswer.GetOr(""));
    var studentAnswer := Strip(answer.studentAnswer.GetOr(""));
    var maxScore := answer.maxScore.GetOr(DEFAULT_MAX_SCORE);
    var similarityScore: real;
    var finalScore: int;
    if studentAnswer == [] {
      similarityScore, finalScore := 0.0, 0;
    } else {
      similarityScore := handle.Similarity(keyAnswer, studentAnswer, storage, embed);
      finalScore := FinalScore(similarityScore, maxScore);
    }
    result := ScoringResult(questionId, similarityScore, finalScore, maxScore);
  }

  /** The loop of `score_exam`: every answer in order, with the running totals. */
  method ScoreAnswers(handle: ModelHandle, answers: seq<Answer>, world: World, embed: Embedder)
    returns (results: seq<ScoringResult>, totalScore: int, totalMaxScore: int)
    requires handle.Valid()
    modifies handle
    ensures handle.Valid()
    ensures BatchState(results, totalScore, totalMaxScore, handle.model) == ScoreAll(old(handle.model), answers, world, embed)
  {
    ghost var m0 := handle.model;
    results, totalScore, totalMaxScore := [], 0, 0;
    for i := 0 to |answers|
      invariant handle.Valid()
      invariant BatchState(results, totalScore, totalMaxScore, handle.model) == ScoreAll(m0, answers[..i], world, embed)
    {
      ghost var before := ScoreAll(m0, answers[..i], world, embed);
      TakeOneMore(answers, i);
      ScoreAllSnoc(m0, answers[..i], answers[i], world, embed);
      var result := ScoreOne(handle, answers[i], world(i), embed);
      ghost var scored := ScoreAnswer(before.model, answers[i], world(i), embed);
      assert result == scored.result && handle.model == scored.model;
      results := results + [result];
      totalScore := totalScore + result.finalScore;
      totalMaxScore := totalMaxScore + result.maxScore;
    }
    assert answers[..|answers|] == answers;
  }

  /** The `score_exam` handler, over the handle that holds the service's model. */
  method ScoreExam(handle: ModelHandle, req: Request, world: World, embed: Embedder) returns (resp: Response)
    requires handle.Valid()
    modifies handle
    ensures handle.Valid()
    ensures Handled(resp, handle.model) == Respond(old(handle.model), req, world, embed)
  {
    if req.httpMethod == "OPTIONS" {
      return Response(204, NoContent);
    }
    if req.httpMethod != "POST" {
      return Response(405, ErrorMessage("Method not allowed"));
    }
    if req.json.None? || req.json.value.answers.None? {
      return Response(400, ErrorMessage("answers array is required"));
    }
    if req.json.value.answers.value.NotIterable? {
      return Response(500, InternalError);
    }
    var results, totalScore, totalMaxScore := ScoreAnswers(handle, req.json.value.answers.value.items, world, embed);
    return Response(200, Scores(results, totalScore, totalMaxScore));
  }
}
