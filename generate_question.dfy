/** The `POST /api/generate-question` route: two required fields, then one call to the
    question generator of the AI helper library, whose behaviour is the parameter
    `generate`. */
module GenerateQuestionApi {
  import opened Protocol

  const RequiredMessage := "role and difficulty are required"
  const FailureMessage := "Failed to generate question. Check your API key."

  /** The request passes parsing and destructuring but lacks a truthy `role` or
      `difficulty`; a destructurable value that is not an object has neither. */
  function MissingFields(req: Request): (m: bool)
    ensures m ==> req.Parsed? && Destructurable(req.json)
    ensures req.Parsed? && Destructurable(req.json) && !req.json.Obj? ==> m
  {
    req.Parsed? && Destructurable(req.json)
    && (!Truthy(Property(req.json, "role")) || !Truthy(Property(req.json, "difficulty")))
  }

  /** The request reaches the generator: among parsed, destructurable bodies, exactly
      those that do not miss a field. */
  function Admitted(req: Request): (a: bool)
    ensures a ==> req.Parsed? && req.json.Obj?
    ensures req.Parsed? && Destructurable(req.json) ==> (a <==> !MissingFields(req))
  {
    req.Parsed? && Destructurable(req.json)
    && Truthy(Property(req.json, "role")) && Truthy(Property(req.json, "difficulty"))
  }

  function Post(req: Request, generate: (Value, Value) -> Outcome<string>): (r: Response)
    ensures r.status == 400 <==> MissingFields(req)
    ensures r.status == 400 ==> r.body == ErrorBody(RequiredMessage)
    ensures r.status == 200 <==>
      Admitted(req) && generate(Property(req.json, "role"), Property(req.json, "difficulty")).Returned?
    ensures r.status == 200 ==>
      r.body == Body(None, Some(generate(Property(req.json, "role"), Property(req.json, "difficulty")).value), None, None)
    ensures r.status != 200 && r.status != 400 ==> r.status == 500 && r.body == ErrorBody(FailureMessage)
  {
    match req
    case Unparseable => Response(500, ErrorBody(FailureMessage))
    case Parsed(json) =>
      if !Destructurable(json) then Response(500, ErrorBody(FailureMessage))
      else
        var role := Property(json, "role");
        var difficulty := Property(json, "difficulty");
        if !Truthy(role) || !Truthy(difficulty) then Response(400, ErrorBody(RequiredMessage))
        else
          match generate(role, difficulty)
          case Returned(question) => Response(200, Body(None, Some(question), None, None))
          case Threw => Response(500, ErrorBody(FailureMessage))
  }

  /** A rejected request never reaches the generator: its response is the same whatever
      the generator would have done. */
  lemma RejectionSkipsGenerator(req: Request, g1: (Value, Value) -> Outcome<string>, g2: (Value, Value) -> Outcome<string>)
    requires !Admitted(req)
    ensures Post(req, g1) == Post(req, g2)
    ensures Post(req, g1).status == 400 || Post(req, g1).status == 500
  {
  }

  /** Only `role` and `difficulty` are read: two request bodies that agree on them get
      the same response, so `excludeIds` has no effect and nothing prevents a repeat. */
  lemma OnlyRoleAndDifficultyMatter(a: Value, b: Value, generate: (Value, Value) -> Outcome<string>)
    requires Destructurable(a) && Destructurable(b)
    requires Property(a, "role") == Property(b, "role")
    requires Property(a, "difficulty") == Property(b, "difficulty")
    ensures Post(Parsed(a), generate) == Post(Parsed(b), generate)
  {
  }

  /** No response of this route carries a `questionId`. */
  lemma NeverSendsQuestionId(req: Request, generate: (Value, Value) -> Outcome<string>)
    ensures Post(req, generate).body.questionId.None?
  {
  }
}
