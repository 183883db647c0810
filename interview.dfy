/** The interview page: a three-round session that loads a question, takes an answer,
    has it evaluated, shows the review and finally the summary. Each asynchronous handler
    of the page is split into the step that runs before its `await` (which returns the
    request it posts) and the step that runs when the reply arrives (which takes that
    reply as a parameter). */
module Interview {
  import opened Protocol
  import Text
  import GenerateQuestionApi
  import EvaluateAnswerApi

  const TotalQuestions: nat := 3
  const MinAnswerLength: nat := 10

  const ShortAnswerMessage := "Please write a more complete answer."
  const NetworkErrorMessage := "Network error. Please try again."
  const LoadFailedMessage := "Failed to generate question"
  const EvaluateFailedMessage := "Failed to evaluate answer"

  datatype Phase = Loading | Answering | Evaluating | Reviewed | Summary

  /** What a `fetch` gives the page: a response, or a rejection (a network failure, or a
      body that `res.json()` cannot parse), which lands in the handler's `catch`. */
  datatype Reply = Delivered(response: Response) | NetworkFailure

  /** `res.ok`: a delivered response whose status is in the range 200 to 299, so none of
      the routes' 400 and 500 replies. */
  function Succeeded(reply: Reply): (ok: bool)
    ensures ok <==> reply.Delivered? && 200 <= reply.response.status < 300
  {
    reply.Delivered? && IsOk(reply.response.status)
  }

  /** The message a failed reply leaves in `error`: the network message from the `catch`,
      else the body's `error` when it is truthy, else the handler's own fallback. */
  function ReplyError(reply: Reply, fallback: string): (message: string)
    requires fallback != ""
    ensures message != ""
  {
    match reply
    case NetworkFailure => NetworkErrorMessage
    case Delivered(response) =>
      if response.body.error.Some? && response.body.error.value != "" then response.body.error.value
      else fallback
  }

  /** `JSON.stringify` writes an `undefined` array entry as `null`: every entry becomes a
      string or `null`, and reading `null` back as "no id" recovers the list. */
  function IdsAsJson(ids: seq<Option<string>>): (items: seq<Value>)
    ensures |items| == |ids|
    ensures forall i :: 0 <= i < |items| ==> items[i].Str? || items[i].Null?
    ensures IdsFromJson(items) == ids
  {
    seq(|ids|, i requires 0 <= i < |ids| => if ids[i].Some? then Str(ids[i].value) else Null)
  }

  /** Reads a list of ids back: a string is an id, anything else stands for none. */
  function IdsFromJson(items: seq<Value>): seq<Option<string>> {
    seq(|items|, i requires 0 <= i < |items| => if items[i].Str? then Some(items[i].s) else None)
  }

  /** The object literals the page posts: `{ role, difficulty, excludeIds }` to the
      question route and `{ questionId, answer, difficulty }` to the evaluation route. */
  datatype Payload =
    | QuestionPayload(role: string, difficulty: string, excludeIds: seq<Option<string>>)
    | AnswerPayload(questionId: Option<string>, answer: string, difficulty: string)

  /** The request body a route parses from `JSON.stringify(payload)`: members in the
      literal's order, with a `questionId` that is `undefined` left out. */
  function Json(p: Payload): (req: Request)
    ensures req.Parsed? && req.json.Obj?
    ensures p.QuestionPayload? ==>
      Property(req.json, "role") == Str(p.role) && Property(req.json, "difficulty") == Str(p.difficulty)
      && Property(req.json, "excludeIds") == Arr(IdsAsJson(p.excludeIds))
    ensures p.AnswerPayload? ==>
      Property(req.json, "role") == Undefined && Property(req.json, "question") == Undefined
      && Property(req.json, "answer") == Str(p.answer) && Property(req.json, "difficulty") == Str(p.difficulty)
      && Property(req.json, "questionId") == (if p.questionId.Some? then Str(p.questionId.value) else Undefined)
  {
    match p
    case QuestionPayload(role, difficulty, excludeIds) =>
      var members := [Member("role", Str(role)), Member("difficulty", Str(difficulty)),
                      Member("excludeIds", Arr(IdsAsJson(excludeIds)))];
      LookupFindsLast(members, "role", 0);
      LookupFindsLast(members, "difficulty", 1);
      Parsed(Obj(members))
    case AnswerPayload(questionId, answer, difficulty) =>
      var rest := [Member("answer", Str(answer)), Member("difficulty", Str(difficulty))];
      var members := if questionId.Some? then [Member("questionId", Str(questionId.value))] + rest else rest;
      var at := |members| - 2;
      LookupFindsLast(members, "answer", at);
      LookupFindsLast(members, "difficulty", at + 1);
      if questionId.Some? then
        LookupFindsLast(members, "questionId", 0);
        Parsed(Obj(members))
      else
        Parsed(Obj(members))
  }

  class Session {
    const role: string
    const difficulty: string
    var phase: Phase
    var currentQ: nat
    /** None stands for `undefined`, which the page stores when a reply lacks the key. */
    var question: Option<string>
    var questionId: Option<string>
    var answer: string
    /** None stands for `null`. */
    var evaluation: Option<Evaluation>
    var scores: seq<int>
    var askedQuestionIds: seq<Option<string>>
    var error: string

    /** The states the page can reach: one score per reviewed round, at most one asked
        question per round, and the round index below the total. */
    ghost predicate Valid()
      reads this
    {
      && currentQ < TotalQuestions
      && |scores| == (if phase.Reviewed? || phase.Summary? then currentQ + 1 else currentQ)
      && (phase.Summary? ==> currentQ + 1 == TotalQuestions)
      && |askedQuestionIds| <= (if phase.Loading? then currentQ else currentQ + 1)
      && (phase.Loading? ==> answer == "" && evaluation.None? && error == "")
      && (phase.Evaluating? ==> error == "" && Text.TrimmedLength(answer) >= MinAnswerLength)
      && (phase.Reviewed? || phase.Summary? ==>
            error == "" && evaluation.Some? && scores[|scores| - 1] == evaluation.value.score)
    }

    /** A round is over (or not yet begun) and its question may be fetched. */
    ghost predicate ReadyToLoad()
      reads this
    {
      currentQ < TotalQuestions && |scores| == currentQ && |askedQuestionIds| <= currentQ
      && !phase.Summary?
    }

    /** The initial values of the page's state. */
    constructor (role: string, difficulty: string)
      ensures Valid()
      ensures this.role == role && this.difficulty == difficulty
      ensures phase == Loading && currentQ == 0 && question == Some("") && questionId == Some("")
      ensures answer == "" && evaluation.None? && scores == [] && askedQuestionIds == [] && error == ""
    {
      this.role := role;
      this.difficulty := difficulty;
      phase := Loading;
      currentQ := 0;
      question := Some("");
      questionId := Some("");
      answer := "";
      evaluation := None;
      scores := [];
      askedQuestionIds := [];
      error := "";
    }

    /** The effect that runs on mount and whenever `currentQ` changes, up to its `await`:
        nothing in the summary; otherwise enter "loading", clear the answer, the
        evaluation and the error, and post the question request. */
    method LoadQuestion() returns (sent: Option<Payload>)
      requires (Valid() && phase.Summary?) || ReadyToLoad()
      modifies this
      ensures Valid()
      ensures old(phase).Summary? ==> sent.None? && unchanged(this)
      ensures !old(phase).Summary? ==>
        && sent == Some(QuestionPayload(role, difficulty, askedQuestionIds))
        && phase == Loading && answer == "" && evaluation.None? && error == ""
      ensures currentQ == old(currentQ) && question == old(question) && questionId == old(questionId)
      ensures scores == old(scores) && askedQuestionIds == old(askedQuestionIds)
    {
      if phase.Summary? {
        return None;
      }
      phase := Loading;
      answer := "";
      evaluation := None;
      error := "";
      sent := Some(QuestionPayload(role, difficulty, askedQuestionIds));
    }

    /** The rest of the load once the reply is in: on success, take the reply's
        `question` and `questionId` and append the id to `askedQuestionIds` without
        looking for a duplicate; on failure, record the error and keep the previous
        question. Either way the page moves to "answering". */
    method CompleteLoad(reply: Reply)
      requires Valid() && phase.Loading?
      modifies this`phase, this`question, this`questionId, this`askedQuestionIds, this`error
      ensures Valid() && phase == Answering
      ensures currentQ == old(currentQ) && answer == old(answer) && evaluation == old(evaluation)
      ensures scores == old(scores)
      ensures Succeeded(reply) ==>
        && question == reply.response.body.question
        && questionId == reply.response.body.questionId
        && askedQuestionIds == old(askedQuestionIds) + [reply.response.body.questionId]
        && error == ""
      ensures !Succeeded(reply) ==>
        && question == old(question) && questionId == old(questionId)
        && askedQuestionIds == old(askedQuestionIds)
        && error == ReplyError(reply, LoadFailedMessage)
    {
      if !Succeeded(reply) {
        error := ReplyError(reply, LoadFailedMessage);
        phase := Answering;
        return;
      }
      var body := reply.response.body;
      question := body.question;
      questionId := body.questionId;
      askedQuestionIds := askedQuestionIds + [body.questionId];
      phase := Answering;
    }

    /** Typing into the answer box, which is enabled only while answering. */
    method EditAnswer(text: string)
      requires Valid() && phase.Answering?
      modifies this`answer
      ensures Valid() && answer == text
      ensures phase == old(phase) && currentQ == old(currentQ) && error == old(error)
      ensures question == old(question) && questionId == old(questionId) && evaluation == old(evaluation)
      ensures scores == old(scores) && askedQuestionIds == old(askedQuestionIds)
    {
      answer := text;
    }

    /** `handleSubmit` up to its `await`: an answer shorter than ten characters once
        trimmed only sets the error; any other answer clears the error, enters
        "evaluating" and posts `{ questionId, answer, difficulty }`. */
    method Submit() returns (sent: Option<Payload>)
      requires Valid() && phase.Answering?
      modifies this`phase, this`error
      ensures Valid()
      ensures currentQ == old(currentQ) && answer == old(answer) && evaluation == old(evaluation)
      ensures question == old(question) && questionId == old(questionId)
      ensures scores == old(scores) && askedQuestionIds == old(askedQuestionIds)
      ensures sent.None? <==> Text.TrimmedLength(answer) < MinAnswerLength
      ensures sent.None? ==> phase == Answering && error == ShortAnswerMessage
      ensures sent.Some? ==>
        phase == Evaluating && error == "" && sent.value == AnswerPayload(questionId, answer, difficulty)
    {
      if Text.TrimmedLength(answer) < MinAnswerLength {
        error := ShortAnswerMessage;
        return None;
      }
      error := "";
      phase := Evaluating;
      sent := Some(AnswerPayload(questionId, answer, difficulty));
    }

    /** The rest of `handleSubmit`: on success, store the evaluation, append its score and
        enter "reviewed"; on failure, record the error and go back to "answering" with the
        answer and the scores as they were. */
    method CompleteSubmit(reply: Reply)
      requires Valid() && phase.Evaluating?
      requires Succeeded(reply) ==> reply.response.body.evaluation.Some?
      modifies this`phase, this`error, this`evaluation, this`scores
      ensures Valid()
      ensures currentQ == old(currentQ) && answer == old(answer)
      ensures question == old(question) && questionId == old(questionId)
      ensures askedQuestionIds == old(askedQuestionIds)
      ensures Succeeded(reply) ==>
        && phase == Reviewed && error == ""
        && evaluation == reply.response.body.evaluation
        && scores == old(scores) + [reply.response.body.evaluation.value.score]
      ensures !Succeeded(reply) ==>
        && phase == Answering
        && evaluation == old(evaluation) && scores == old(scores)
        && error == ReplyError(reply, EvaluateFailedMessage)
    {
      if !Succeeded(reply) {
        error := ReplyError(reply, EvaluateFailedMessage);
        phase := Answering;
        return;
      }
      var e := reply.response.body.evaluation.value;
      evaluation := Some(e);
      scores := scores + [e.score];
      phase := Reviewed;
    }

    /** `handleNext`: after the last round go to the summary, with no further load;
        otherwise advance `currentQ` by one, which re-runs the load effect. */
    method Next() returns (sent: Option<Payload>)
      requires Valid() && phase.Reviewed?
      modifies this
      ensures Valid()
      ensures old(currentQ) + 1 >= TotalQuestions ==>
        && phase == Summary && currentQ == old(currentQ) && sent.None?
        && answer == old(answer) && evaluation == old(evaluation) && error == old(error)
      ensures old(currentQ) + 1 < TotalQuestions ==>
        && currentQ == old(currentQ) + 1 && phase == Loading
        && sent == Some(QuestionPayload(role, difficulty, askedQuestionIds))
        && answer == "" && evaluation.None? && error == ""
      ensures scores == old(scores) && askedQuestionIds == old(askedQuestionIds)
      ensures question == old(question) && questionId == old(questionId)
    {
      if currentQ + 1 >= TotalQuestions {
        phase := Summary;
        return None;
      }
      currentQ := currentQ + 1;
      sent := LoadQuestion();
    }

    /** `progressValue`: the share of rounds done, counting the current one once it is
        reviewed, in percent. */
    function ProgressValue(): (p: real)
      reads this
      requires Valid()
      ensures 0.0 <= p <= 100.0
      ensures p == 100.0 <==> phase.Reviewed? && currentQ + 1 == TotalQuestions
    {
      ((currentQ + (if phase.Reviewed? then 1 else 0)) as real / TotalQuestions as real) * 100.0
    }

    /** `wordCount`, shown beside the answer box. */
    function WordCount(): (n: nat)
      reads this
      ensures n == 0 <==> Text.AllWhitespace(answer)
      ensures n == Text.WordStarts(answer, true)
    {
      Text.WordCountZeroIffBlank(answer);
      Text.WordCount(answer)
    }
  }

  /** The summary is reached with one score per round. */
  lemma SummaryHasEveryScore(s: Session)
    requires s.Valid() && s.phase.Summary?
    ensures |s.scores| == TotalQuestions
  {
  }

  /** One round from the load reply to "next": whatever the load returns, an answer of
      sufficient length that is evaluated successfully adds its score, and the page moves
      on to the next load or, after the last round, to the summary. */
  method PlayRound(s: Session, load: Reply, answer: string, evaluation: Evaluation)
    requires s.Valid() && s.phase.Loading? && Text.TrimmedLength(answer) >= MinAnswerLength
    modifies s
    ensures s.Valid() && s.scores == old(s.scores) + [evaluation.score]
    ensures old(s.currentQ) + 1 < TotalQuestions ==> s.phase.Loading? && s.currentQ == old(s.currentQ) + 1
    ensures old(s.currentQ) + 1 == TotalQuestions ==> s.phase.Summary?
  {
    s.CompleteLoad(load);
    s.EditAnswer(answer);
    var sent := s.Submit();
    s.CompleteSubmit(Delivered(Response(200, Body(None, None, None, Some(evaluation)))));
    sent := s.Next();
  }

  /** Mounting the page: the initial state, then the first run of the load effect, which
      posts the question request with no ids to exclude. */
  method StartSession(role: string, difficulty: string) returns (s: Session)
    ensures fresh(s) && s.Valid() && s.role == role && s.difficulty == difficulty
    ensures s.phase == Loading && s.currentQ == 0 && s.scores == [] && s.askedQuestionIds == []
  {
    s := new Session(role, difficulty);
    var sent := s.LoadQuestion();
  }

  /** A whole session: whatever each load returns, three answers of sufficient length that
      are each evaluated successfully lead to the summary with the three scores in round
      order. */
  method RunSession(role: string, difficulty: string, loads: seq<Reply>, answers: seq<string>,
                    evaluations: seq<Evaluation>) returns (s: Session)
    requires |loads| == |answers| == |evaluations| == TotalQuestions
    requires forall i :: 0 <= i < TotalQuestions ==> Text.TrimmedLength(answers[i]) >= MinAnswerLength
    ensures s.phase == Summary && |s.scores| == TotalQuestions
    ensures forall i :: 0 <= i < TotalQuestions ==> s.scores[i] == evaluations[i].score
  {
    s := StartSession(role, difficulty);
    var round := 0;
    while round < TotalQuestions
      invariant 0 <= round <= TotalQuestions
      invariant s.Valid() && |s.scores| == round
      invariant round < TotalQuestions ==> s.phase == Loading && s.currentQ == round
      invariant round == TotalQuestions ==> s.phase == Summary
      invariant forall i :: 0 <= i < round ==> s.scores[i] == evaluations[i].score
    {
      PlayRound(s, loads[round], answers[round], evaluations[round]);
      round := round + 1;
    }
  }

  /** Submitting an answer of sufficient length and taking the reply: the request carries
      the current question id and answer, and only a successful reply adds a score. */
  method SubmitRound(s: Session, reply: Reply) returns (sent: Option<Payload>)
    requires s.Valid() && s.phase.Answering? && Text.TrimmedLength(s.answer) >= MinAnswerLength
    requires Succeeded(reply) ==> reply.response.body.evaluation.Some?
    modifies s
    ensures s.Valid() && sent == Some(AnswerPayload(old(s.questionId), old(s.answer), s.difficulty))
    ensures s.answer == old(s.answer) && s.questionId == old(s.questionId)
    ensures Succeeded(reply) ==>
      s.phase.Reviewed? && s.scores == old(s.scores) + [reply.response.body.evaluation.value.score]
    ensures !Succeeded(reply) ==>
      s.phase.Answering? && s.scores == old(s.scores) && s.error == ReplyError(reply, EvaluateFailedMessage)
  {
    sent := s.Submit();
    s.CompleteSubmit(reply);
  }

  /** After a failed evaluation the answer is still there, so submitting again posts the
      very same request, and a successful reply to it completes the round. */
  method ResubmitAfterFailure(s: Session, failure: Reply, e: Evaluation)
    returns (first: Option<Payload>, second: Option<Payload>)
    requires s.Valid() && s.phase.Answering? && Text.TrimmedLength(s.answer) >= MinAnswerLength
    requires !Succeeded(failure)
    modifies s
    ensures first.Some? && second == first
    ensures s.phase == Reviewed && s.answer == old(s.answer) && s.scores == old(s.scores) + [e.score]
  {
    first := SubmitRound(s, failure);
    second := SubmitRound(s, Delivered(Response(200, Body(None, None, None, Some(e)))));
  }

  /** The evaluation request the page builds has no `role` and no `question`, so the
      evaluation route turns every one of them down. */
  lemma PageEvaluationRequestRejected(questionId: Option<string>, answer: string, difficulty: string,
                                      evaluate: EvaluateAnswerApi.Evaluator)
    ensures EvaluateAnswerApi.Post(Json(AnswerPayload(questionId, answer, difficulty)), evaluate)
      == Response(400, ErrorBody(EvaluateAnswerApi.RequiredMessage))
  {
  }

  /** The question request the page builds is answered with the generated question but
      never with a `questionId`. */
  lemma PageQuestionRequestGetsNoId(role: string, difficulty: string, asked: seq<Option<string>>,
                                    generate: (Value, Value) -> Outcome<string>)
    requires role != "" && difficulty != ""
    requires generate(Str(role), Str(difficulty)).Returned?
    ensures var r := GenerateQuestionApi.Post(Json(QuestionPayload(role, difficulty, asked)), generate);
      && Succeeded(Delivered(r))
      && r.body.question == Some(generate(Str(role), Str(difficulty)).value)
      && r.body.questionId.None?
  {
  }

  /** Wired to the evaluation route, a submitted answer always comes back with the
      missing-fields error: no round can reach "reviewed". */
  method SubmitToRoute(s: Session, evaluate: EvaluateAnswerApi.Evaluator)
    requires s.Valid() && s.phase.Answering? && Text.TrimmedLength(s.answer) >= MinAnswerLength
    modifies s
    ensures s.phase == Answering && s.error == EvaluateAnswerApi.RequiredMessage
    ensures s.answer == old(s.answer) && s.scores == old(s.scores)
  {
    var payload := AnswerPayload(s.questionId, s.answer, s.difficulty);
    var response := EvaluateAnswerApi.Post(Json(payload), evaluate);
    PageEvaluationRequestRejected(s.questionId, s.answer, s.difficulty, evaluate);
    var sent := SubmitRound(s, Delivered(response));
    assert sent == Some(payload);
  }

  /** Wired to the question route, a successful load stores the question, leaves
      `questionId` undefined and appends `undefined` to `askedQuestionIds`. */
  method LoadFromRoute(s: Session, generate: (Value, Value) -> Outcome<string>)
    requires s.ReadyToLoad() && s.role != "" && s.difficulty != ""
    requires generate(Str(s.role), Str(s.difficulty)).Returned?
    modifies s
    ensures s.phase == Answering && s.error == ""
    ensures s.question == Some(generate(Str(s.role), Str(s.difficulty)).value)
    ensures s.questionId.None? && s.askedQuestionIds == old(s.askedQuestionIds) + [None]
  {
    var sent := s.LoadQuestion();
    PageQuestionRequestGetsNoId(s.role, s.difficulty, s.askedQuestionIds, generate);
    s.CompleteLoad(Delivered(GenerateQuestionApi.Post(Json(sent.value), generate)));
  }
}
