/** The values exchanged between the interview page and the two API routes: the
    JavaScript values a route sees after parsing a JSON request body, the response
    bodies the routes send back, and the outcome of a call into the AI helper library. */
module Protocol {

  datatype Option<+T> = None | Some(value: T)

  /** A JavaScript value as produced by `JSON.parse` or by reading a property that is
      missing (`Undefined`). Numbers are taken as exact reals. NaN cannot come out of JSON
      parsing; an overflowing literal such as `1e400` parses to `Infinity`, which every
      test here treats like any other non-zero number. */
  datatype Value =
    | Undefined
    | Null
    | Bool(b: bool)
    | Num(n: real)
    | Str(s: string)
    | Arr(items: seq<Value>)
    | Obj(members: seq<Member>)

  /** One `"key": value` pair of an object, in the order the text gives them. */
  datatype Member = Member(key: string, value: Value)

  /** JavaScript truthiness, as used by `!role` and `filter(Boolean)`: ToBoolean of
      section 7.1.2 of ECMA-262, under which the falsy JSON values are `undefined`,
      `null`, `false`, `0` and `""`. */
  function Truthy(v: Value): (t: bool)
    ensures !t <==> v in {Undefined, Null, Bool(false), Num(0.0), Str("")}
  {
    match v
    case Undefined => false
    case Null => false
    case Bool(b) => b
    case Num(n) => n != 0.0
    case Str(s) => s != ""
    case Arr(_) => true
    case Obj(_) => true
  }

  /** Object destructuring (`const { role } = v`) throws a TypeError exactly on
      `undefined` and `null`. */
  function Destructurable(v: Value): (d: bool)
    ensures Truthy(v) ==> d
    ensures !d <==> v in {Undefined, Null}
  {
    !v.Undefined? && !v.Null?
  }

  /** The value `JSON.parse` keeps for `key`: the last member with that key, or
      `undefined` when there is none. */
  function Lookup(members: seq<Member>, key: string): (r: Value)
    ensures (forall i :: 0 <= i < |members| ==> members[i].key != key) ==> r == Undefined
  {
    if members == [] then Undefined
    else if members[|members| - 1].key == key then members[|members| - 1].value
    else Lookup(members[..|members| - 1], key)
  }

  /** A member with `key` that no later member overrides is what a lookup finds. */
  lemma {:induction false} LookupFindsLast(members: seq<Member>, key: string, i: nat)
    requires i < |members| && members[i].key == key
    requires forall j :: i < j < |members| ==> members[j].key != key
    ensures Lookup(members, key) == members[i].value
  {
    if i < |members| - 1 {
      LookupFindsLast(members[..|members| - 1], key, i);
    }
  }

  /** `v[key]` for a key that names no built-in property: the object's own member, or
      `undefined` when there is none or `v` is not an object. */
  function Property(v: Value, key: string): (r: Value)
    ensures !v.Obj? ==> r == Undefined
  {
    if v.Obj? then Lookup(v.members, key) else Undefined
  }

  /** What `await request.json()` yields: a parsed value, or a rejection when the body
      is not JSON. */
  datatype Request = Unparseable | Parsed(json: Value)

  /** The structured feedback for one answer. */
  datatype Evaluation = Evaluation(
    score: int,
    verdict: string,
    technicalAccuracy: string,
    clarity: string,
    depth: string,
    strengths: seq<string>,
    improvements: seq<string>,
    idealAnswer: string)

  /** The keys of a JSON response body that the routes write and the page reads; a key
      the sender leaves out is None, which the page reads as `undefined`. */
  datatype Body = Body(
    error: Option<string>,
    question: Option<string>,
    questionId: Option<string>,
    evaluation: Option<Evaluation>)

  function ErrorBody(message: string): (b: Body)
    ensures b.error == Some(message) && b.question.None? && b.questionId.None? && b.evaluation.None?
  {
    Body(Some(message), None, None, None)
  }

  /** `NextResponse.json(body, { status })`; the default status is 200. */
  datatype Response = Response(status: int, body: Body)

  /** `res.ok` of the Fetch standard: a status in the range 200 to 299. */
  predicate IsOk(status: int) {
    200 <= status <= 299
  }

  /** A call into the AI helper library either resolves to a value or throws. */
  datatype Outcome<+T> = Returned(value: T) | Threw
}
