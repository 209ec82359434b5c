/**
 * The request schemas for users: the create body (`name`, `email`) and the
 * `id` route parameter. The email format test and the `Number(...)`
 * coercion belong to the schema library and are passed in as functions.
 */
module UserSchemas {
  import opened Wrappers
  import opened Validator
  import opened JsString

  /** One property of a parsed JSON body: absent, a string, or a value of another JSON type. */
  datatype Input = Missing | Text(s: string) | NonText(typeName: string)

  /** A request body: either not an object at all, or an object with the two properties the schemas read. */
  datatype RequestBody = NonObject(typeName: string) | Fields(name: Input, email: Input)

  /** The output of the create schema. Unknown properties are dropped. */
  datatype UserCreateInput = UserCreateInput(name: string, email: string)

  /** Route parameters; a route `/:id` always supplies `id` as a string. */
  datatype RouteParams = RouteParams(id: string)

  /** A JavaScript number as `Number(...)` can produce it. */
  datatype JsNumber = NaN | Finite(x: real) | Infinite(positive: bool)

  /** The output of the id schema. */
  datatype UserIdParam = UserIdParam(id: int)

  const NameRequiredMessage := "name は必須です"
  const InvalidEmailMessage := "有効なメールアドレスを指定してください"
  const InvalidIdMessage := "id は正の整数で指定してください"

  /** The schema library's own message for an undefined value where another type is expected. */
  const RequiredMessage := "Required"

  /** The schema library's own message for a value of the wrong type, named as the library names types. */
  function ExpectedMessage(expected: string, received: string): string {
    if received == "undefined" then RequiredMessage else "Expected " + expected + ", received " + received
  }

  /** The issue `z.string()` raises for a value that is not a string, or none when it is one. */
  function StringTypeIssue(v: Input): (issue: Option<Issue>)
    ensures issue.None? <==> v.Text?
  {
    match v
    case Missing => Some(Issue(Some(ExpectedMessage("string", "undefined"))))
    case NonText(t) => Some(Issue(Some(ExpectedMessage("string", t))))
    case Text(_) => None
  }

  /** `name: z.string().trim().min(1, ...)` */
  function ParseName(v: Input): (r: Result<string, Issue>)
    ensures r.Success? <==> v.Text? && |Trim(v.s)| >= 1
    ensures r.Success? ==> r.value == Trim(v.s) && |r.value| >= 1 && Trimmed(r.value)
    ensures r.Failure? && v.Text? ==> r.error == Issue(Some("name は必須です"))
  {
    match StringTypeIssue(v)
    case Some(issue) => Failure(issue)
    case None =>
      var t := Trim(v.s);
      if |t| >= 1 then Success(t) else Failure(Issue(Some(NameRequiredMessage)))
  }

  /** `email: z.string().trim().email(...)`: the format is tested on the trimmed string. */
  function ParseEmail(isEmail: string -> bool, v: Input): (r: Result<string, Issue>)
    ensures r.Success? <==> v.Text? && isEmail(Trim(v.s))
    ensures r.Success? ==> r.value == Trim(v.s) && Trimmed(r.value)
    ensures r.Failure? && v.Text? ==> r.error == Issue(Some("有効なメールアドレスを指定してください"))
  {
    match StringTypeIssue(v)
    case Some(issue) => Failure(issue)
    case None =>
      var t := Trim(v.s);
      if isEmail(t) then Success(t) else Failure(Issue(Some(InvalidEmailMessage)))
  }

  function IssuesOf(r: Result<string, Issue>): seq<Issue> {
    if r.Failure? then [r.error] else []
  }

  /**
   * `userCreateSchema.safeParse(body)`: the object schema checks every
   * property in declaration order and collects the issues of all of them.
   */
  function SafeParseCreate(isEmail: string -> bool, body: RequestBody): (r: SafeParseResult<UserCreateInput>)
    ensures r.ParseSuccess? <==> body.Fields? && ParseName(body.name).Success? && ParseEmail(isEmail, body.email).Success?
    ensures r.ParseSuccess? ==> r.data == UserCreateInput(Trim(body.name.s), Trim(body.email.s))
    ensures r.ParseFailure? ==> |r.issues| >= 1
    ensures body.NonObject? ==> r == ParseFailure([Issue(Some(ExpectedMessage("object", body.typeName)))])
    // the first issue belongs to the first property that fails
    ensures r.ParseFailure? && body.Fields? && ParseName(body.name).Failure? ==>
      r.issues[0] == ParseName(body.name).error
    ensures r.ParseFailure? && body.Fields? && ParseName(body.name).Success? ==>
      r.issues == [ParseEmail(isEmail, body.email).error]
  {
    match body
    case NonObject(t) => ParseFailure([Issue(Some(ExpectedMessage("object", t)))])
    case Fields(name, email) =>
      var n := ParseName(name);
      var e := ParseEmail(isEmail, email);
      if n.Success? && e.Success? then ParseSuccess(UserCreateInput(n.value, e.value))
      else ParseFailure(IssuesOf(n) + IssuesOf(e))
  }

  /** `Number.isInteger` on a finite value. */
  predicate IsInteger(x: real) {
    x == x.Floor as real
  }

  /** The issues of `.int(...)` and `.positive(...)`, both checked, on a number that is not NaN. */
  function IdIssues(n: JsNumber): (issues: seq<Issue>)
    requires !n.NaN?
    ensures issues == [] <==> n.Finite? && IsInteger(n.x) && n.x > 0.0
    ensures forall k :: 0 <= k < |issues| ==> issues[k] == Issue(Some("id は正の整数で指定してください"))
    // a value that is neither an integer nor positive gets both issues
    ensures |issues| == 2 <==> !(n.Finite? && IsInteger(n.x)) && !(if n.Finite? then n.x > 0.0 else n.positive)
  {
    var notInteger := !(n.Finite? && IsInteger(n.x));
    var notPositive := !(if n.Finite? then n.x > 0.0 else n.positive);
    (if notInteger then [Issue(Some(InvalidIdMessage))] else [])
      + (if notPositive then [Issue(Some(InvalidIdMessage))] else [])
  }

  /**
   * `userIdParamSchema.safeParse(params)`: `id` is coerced with `Number(...)`
   * (the function `toNumber`), then must be an integer and positive.
   */
  function SafeParseIdParams(toNumber: string -> JsNumber, params: RouteParams): (r: SafeParseResult<UserIdParam>)
    ensures var n := toNumber(params.id);
      r.ParseSuccess? <==> n.Finite? && IsInteger(n.x) && n.x > 0.0
    ensures r.ParseSuccess? ==> r.data.id >= 1 && r.data.id as real == toNumber(params.id).x
    ensures r.ParseFailure? ==> |r.issues| >= 1
    // NaN fails the number type check itself, so the id message is not used for it
    ensures toNumber(params.id).NaN? ==> r == ParseFailure([Issue(Some(ExpectedMessage("number", "nan")))])
    ensures r.ParseFailure? && !toNumber(params.id).NaN? ==>
      forall k :: 0 <= k < |r.issues| ==> r.issues[k] == Issue(Some("id は正の整数で指定してください"))
  {
    var n := toNumber(params.id);
    if n.NaN? then
      ParseFailure([Issue(Some(ExpectedMessage("number", "nan")))])
    else
      var issues := IdIssues(n);
      if issues == [] then ParseSuccess(UserIdParam(n.x.Floor)) else ParseFailure(issues)
  }

  /** A validated name is the trimmed input; an empty or white-space-only name is refused with its message. */
  lemma BlankNameRejected(s: string)
    ensures ParseName(Text(s)).Failure? <==> AllWhiteSpace(s)
    ensures AllWhiteSpace(s) ==> ParseName(Text(s)).error.message == Some(NameRequiredMessage)
  {
    TrimEmptyIffAllWhiteSpace(s);
  }

  /** White space around a name does not change how it parses. */
  lemma NamePaddingIgnored(name: string, pre: string, post: string)
    requires AllWhiteSpace(pre) && AllWhiteSpace(post)
    ensures ParseName(Text(pre + name + post)) == ParseName(Text(name))
  {
    TrimIgnoresPadding(pre, name, post);
  }

  /** White space around an email does not change how it parses: the format test sees the trimmed string. */
  lemma EmailPaddingIgnored(isEmail: string -> bool, email: string, pre: string, post: string)
    requires AllWhiteSpace(pre) && AllWhiteSpace(post)
    ensures ParseEmail(isEmail, Text(pre + email + post)) == ParseEmail(isEmail, Text(email))
  {
    TrimIgnoresPadding(pre, email, post);
  }

  /** Both properties are trimmed before they are checked: white space around either changes nothing. */
  lemma PaddingIgnored(isEmail: string -> bool, name: string, email: string,
                       preName: string, postName: string, preEmail: string, postEmail: string)
    requires AllWhiteSpace(preName) && AllWhiteSpace(postName)
    requires AllWhiteSpace(preEmail) && AllWhiteSpace(postEmail)
    ensures SafeParseCreate(isEmail, Fields(Text(preName + name + postName), Text(preEmail + email + postEmail)))
         == SafeParseCreate(isEmail, Fields(Text(name), Text(email)))
  {
    NamePaddingIgnored(name, preName, postName);
    EmailPaddingIgnored(isEmail, email, preEmail, postEmail);
  }

  /** A body missing `name` or `email` is refused, whatever the other property holds. */
  lemma CreateRequiresBothFields(isEmail: string -> bool, body: RequestBody)
    requires body.Fields? && (!body.name.Text? || !body.email.Text?)
    ensures SafeParseCreate(isEmail, body).ParseFailure?
    ensures !body.name.Text? ==> SafeParseCreate(isEmail, body).issues[0] == StringTypeIssue(body.name).value
  {
  }

  /** Through `parseOrThrow`, a non-numeric id fails with the type message rather than the fallback. */
  lemma NonNumericIdRejected(toNumber: string -> JsNumber, params: RouteParams, fallbackMessage: string)
    requires toNumber(params.id).NaN?
    ensures var r := ParseOrThrow(p => SafeParseIdParams(toNumber, p), params, fallbackMessage);
      r.Failure? && r.error.statusCode == 400 && r.error.message == "Expected number, received nan"
  {
  }
}
