/** The `POST /api/evaluate-answer` route: three required fields, a minimum trimmed
    answer length, then one call to the answer evaluator of the AI helper library, whose
    behaviour is the parameter `evaluate`. */
module EvaluateAnswerApi {
  import opened Protocol
  import Text

  const RequiredMessage := "role, question, and answer are required"
  const TooShortMessage := "Answer is too short to evaluate."
  const FailureMessage := "Failed to evaluate answer. Check your API key."
  const MinAnswerLength := 10

  type Evaluator = (Value, Value, Value) -> Outcome<Evaluation>

  /** The request passes parsing and destructuring but lacks a truthy `role`, `question`
      or `answer`; a destructurable value that is not an object has none of them. */
  function MissingFields(req: Request): (m: bool)
    ensures m ==> req.Parsed? && Destructurable(req.json)
    ensures req.Parsed? && Destructurable(req.json) && !req.json.Obj? ==> m
  {
    req.Parsed? && Destructurable(req.json)
    && (!Truthy(Property(req.json, "role")) || !Truthy(Property(req.json, "question"))
        || !Truthy(Property(req.json, "answer")))
  }

  /** All three fields are present and truthy, and the answer is a string. */
  function HasStringAnswer(req: Request): (h: bool)
    ensures h ==> req.Parsed? && req.json.Obj? && !MissingFields(req)
  {
    req.Parsed? && Destructurable(req.json)
    && Truthy(Property(req.json, "role")) && Truthy(Property(req.json, "question"))
    && Property(req.json, "answer").Str? && Property(req.json, "answer").s != ""
  }

  /** The answer passes the field check but trims to fewer than ten code units; every
      non-empty blank answer is too short. */
  function TooShort(req: Request): (t: bool)
    ensures t ==> HasStringAnswer(req)
    ensures HasStringAnswer(req) && Text.AllWhitespace(Property(req.json, "answer").s) ==> t
  {
    if HasStringAnswer(req) then
      Text.TrimmedLengthZeroIffBlank(Property(req.json, "answer").s);
      Text.TrimmedLength(Property(req.json, "answer").s) < MinAnswerLength
    else false
  }

  /** The request reaches the evaluator: it passes both checks. */
  function Admitted(req: Request): (a: bool)
    ensures a <==> HasStringAnswer(req) && !TooShort(req)
    ensures a ==> !MissingFields(req)
  {
    HasStringAnswer(req) && Text.TrimmedLength(Property(req.json, "answer").s) >= MinAnswerLength
  }

  function Call(req: Request, evaluate: Evaluator): Outcome<Evaluation>
    requires req.Parsed?
  {
    evaluate(Property(req.json, "role"), Property(req.json, "question"), Property(req.json, "answer"))
  }

  function Post(req: Request, evaluate: Evaluator): (r: Response)
    ensures r.status == 400 <==> MissingFields(req) || TooShort(req)
    ensures MissingFields(req) ==> r.body == ErrorBody(RequiredMessage)
    ensures TooShort(req) ==> r.body == ErrorBody(TooShortMessage)
    ensures r.status == 200 <==> Admitted(req) && Call(req, evaluate).Returned?
    ensures r.status == 200 ==> r.body == Body(None, None, None, Some(Call(req, evaluate).value))
    ensures r.status != 200 && r.status != 400 ==> r.status == 500 && r.body == ErrorBody(FailureMessage)
  {
    match req
    case Unparseable => Response(500, ErrorBody(FailureMessage))
    case Parsed(json) =>
      if !Destructurable(json) then Response(500, ErrorBody(FailureMessage))
      else
        var role := Property(json, "role");
        var question := Property(json, "question");
        var answer := Property(json, "answer");
        if !Truthy(role) || !Truthy(question) || !Truthy(answer) then
          Response(400, ErrorBody(RequiredMessage))
        else if !answer.Str? then
          // `answer.trim` is not a function on a non-string value: a TypeError, caught
          Response(500, ErrorBody(FailureMessage))
        else if Text.TrimmedLength(answer.s) < MinAnswerLength then
          Response(400, ErrorBody(TooShortMessage))
        else
          match evaluate(role, question, answer)
          case Returned(evaluation) => Response(200, Body(None, None, None, Some(evaluation)))
          case Threw => Response(500, ErrorBody(FailureMessage))
  }

  /** A rejected request never reaches the evaluator. */
  lemma RejectionSkipsEvaluator(req: Request, e1: Evaluator, e2: Evaluator)
    requires !Admitted(req)
    ensures Post(req, e1) == Post(req, e2)
    ensures Post(req, e1).status == 400 || Post(req, e1).status == 500
  {
  }

  /** The required-field check comes first: an empty answer is reported as missing,
      while a non-empty blank answer is reported as too short. */
  lemma EmptyAndBlankAnswers(role: Value, question: Value, answer: string, evaluate: Evaluator)
    requires Truthy(role) && Truthy(question)
    requires Text.AllWhitespace(answer)
    ensures var req := Parsed(Obj([Member("role", role), Member("question", question), Member("answer", Str(answer))]));
      Post(req, evaluate) == Response(400, ErrorBody(if answer == "" then RequiredMessage else TooShortMessage))
  {
    var json := Obj([Member("role", role), Member("question", question), Member("answer", Str(answer))]);
    LookupFindsLast(json.members, "role", 0);
    LookupFindsLast(json.members, "question", 1);
    LookupFindsLast(json.members, "answer", 2);
    if answer == "" {
      assert MissingFields(Parsed(json));
    } else {
      assert TooShort(Parsed(json));
    }
  }

  /** A body without a `role` key, such as the page's `{questionId, answer, difficulty}`,
      is always answered with the missing-fields error. */
  lemma BodyWithoutRoleRejected(members: seq<Member>, evaluate: Evaluator)
    requires forall i :: 0 <= i < |members| ==> members[i].key != "role"
    ensures Post(Parsed(Obj(members)), evaluate) == Response(400, ErrorBody(RequiredMessage))
  {
  }
}
