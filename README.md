# User API error and validation core, in Dafny

This project models the request-handling core of a small Express + Prisma
CRUD API over one `user` resource:

- the application error taxonomy (`AppError` and the subclasses
  `ValidationError`, `NotFoundError`, `DuplicateError`,
  `InternalServerError`), each with a fixed machine code and HTTP status
  (module `Errors`);
- `handlePrismaError`, the translation of a store failure into exactly one
  application error (module `PrismaErrorHandler`);
- `parseOrThrow`, which turns a schema outcome into the parsed value or a
  `ValidationError` (module `Validator`);
- the request schemas: the create body (`name` trimmed and non-empty,
  `email` trimmed and in email format) and the `id` route parameter
  (coerced to a number, then an integer and positive) (module
  `UserSchemas`), with the ECMAScript `String.prototype.trim` they rely on
  (module `JsString`);
- the five handlers of `UserController`, each a pipeline "validate, call
  the store, respond or forward the error" (module `UserController`).

A thrown exception is a `Result.Failure`; `handlePrismaError`, declared to
return `never`, returns the error it would throw. `instanceof` checks read
the `cls` field of an error, which records the class that built it. The
store is an oracle: a `Store` value holds the answer each operation gives.
A handler is a method that returns its `Outcome`, which is either a
response (status and body) or the value passed to `next`. It also returns
the list of store calls it made. That list is how "validation happens
before any store call" and "the store receives exactly the validated data"
are stated.

What comes from outside the model is passed in as parameters, in an
`Externals` value: the email format test of the schema library, the
`Number(...)` coercion of the id, the update schema, and the message
constants `MSG_INVALID_REQUEST`, `MSG_INVALID_INPUT` and
`MSG_USER_NOT_FOUND`. The modules that define them are not part of this
model.

Three points about the code that the model reproduces:

- `getUser` and `getUserList` forward store failures to `next` untranslated.
  Only create, update and delete pass them through `handlePrismaError`.
- A non-numeric id is refused by the number type check of the schema
  library, with that library's message (`Expected number, received nan`),
  not with the id message.
- The fallback message of `parseOrThrow` is used only when the first issue
  is missing or has no message.

## Model

| member | source | states |
|---|---|---|
| `Errors.NewAppError` | src/lib/errors.ts:1-12 | code, message and details are stored unchanged; the status is the given one, or 500 when none is given; not an instance of any subclass |
| `Errors.NewValidationError` | src/lib/errors.ts:14-20 | code `VALIDATION_ERROR`, status 400, message and details unchanged, an instance of ValidationError |
| `Errors.NewNotFoundError` | src/lib/errors.ts:22-28 | code `NOT_FOUND`, status 404, message and details unchanged, an instance of NotFoundError |
| `Errors.NewDuplicateError` | src/lib/errors.ts:30-36 | code `DUPLICATE_ERROR`, status 400, message and details unchanged |
| `Errors.NewInternalServerError` | src/lib/errors.ts:38-44 | code `INTERNAL_SERVER_ERROR`, status 500; the message defaults to `サーバーエラーが発生しました` when none is given |
| `Errors.CodeOf` | src/lib/errors.ts:14-44 | the machine code each subclass passes to the base constructor; each of `VALIDATION_ERROR`, `NOT_FOUND`, `DUPLICATE_ERROR` and `INTERNAL_SERVER_ERROR` is the code of exactly one subclass |
| `Errors.StatusOf` | src/lib/errors.ts:14-44 | the status each subclass passes to the base constructor: 400 exactly for Validation and Duplicate, 404 exactly for NotFound, 500 exactly for InternalServer |
| `Errors.CodeIdentifiesClass` | src/lib/errors.ts:14-44 | two subclass errors have the same machine code exactly when they are of the same subclass |
| `Errors.StatusClasses` | src/lib/errors.ts:14-44 | among subclass errors, status 400 means Validation or Duplicate, 404 means NotFound, 500 means InternalServer |
| `PrismaErrorHandler.TargetColumns` | src/lib/prismaErrorHandler.ts:12 | the `meta.target` column list, taken as the empty list when meta or target is missing |
| `PrismaErrorHandler.HandlePrismaError` | src/lib/prismaErrorHandler.ts:4-27 | every store failure yields one subclass error, never a ValidationError; NotFound exactly for code P2025, Duplicate exactly for P2002 (email-taken message when the target list contains `email`, a missing meta or target counting as empty; the generic duplicate message otherwise), Internal for any other known code with the error's message as details, Internal `予期しないエラーが発生しました` with the message as details for a plain Error, and the default Internal error with no details for a non-Error value |
| `PrismaErrorHandler.TranslatedStatus` | src/lib/prismaErrorHandler.ts:4-27 | the translated status is 404 exactly for P2025, 400 exactly for P2002, and 500 for every other failure |
| `Validator.FirstIssueMessage` | src/lib/validator.ts:7 | the first issue's message when there is a first issue with a message, otherwise the fallback message |
| `Validator.ParseOrThrow` | src/lib/validator.ts:4-10 | succeeds exactly when the schema does, returning the schema's output rather than the raw input; otherwise a ValidationError with status 400, the first issue's message or the fallback, and no details |
| `JsString.TrimStart` | src/schemas/user.ts:5-6 | the result is no longer than the input and does not start with white space |
| `JsString.TrimStartIsSuffix` | src/schemas/user.ts:5-6 | what the start trim leaves is a suffix of the input |
| `JsString.TrimStartDropsWhiteSpace` | src/schemas/user.ts:5-6 | everything the start trim drops is white space |
| `JsString.TrimEnd` | src/schemas/user.ts:5-6 | the result is a prefix of the input and does not end with white space |
| `JsString.TrimEndDropsWhiteSpace` | src/schemas/user.ts:5-6 | everything the end trim drops is white space |
| `JsString.Trim` | src/schemas/user.ts:5-6 | `.trim()` is the start trim followed by the end trim; its result is no longer than the input and has white space at neither end |
| `JsString.SplitAroundTrim` | src/schemas/user.ts:5-6 | every string is white space, then its trim, then white space |
| `JsString.TrimStartSkipsWhiteSpace` | src/schemas/user.ts:5-6 | leading white space does not change what the start trim leaves |
| `JsString.TrimEndSkipsWhiteSpace` | src/schemas/user.ts:5-6 | trailing white space does not change what the end trim leaves |
| `JsString.TrimOfPadded` | src/schemas/user.ts:5-6 | white space around a string that has none at its ends trims back to that string |
| `JsString.TrimIdempotent` | src/schemas/user.ts:5-6 | trimming twice is trimming once |
| `JsString.TrimIgnoresPadding` | src/schemas/user.ts:5-6 | white space added around any string does not change its trim |
| `JsString.TrimEmptyIffAllWhiteSpace` | src/schemas/user.ts:5 | the trim is empty exactly when the string is empty or white space only |
| `UserSchemas.StringTypeIssue` | src/schemas/user.ts:5-6 | a string-typed property raises a type issue exactly when the value is absent or not a string |
| `UserSchemas.ParseName` | src/schemas/user.ts:5 | a name is accepted exactly when it is a string whose trim is non-empty; the value is the trimmed input, at least one character long and with white space at neither end; a string that fails gets `name は必須です` |
| `UserSchemas.ParseEmail` | src/schemas/user.ts:6 | an email is accepted exactly when it is a string whose trim passes the format test; the value is the trimmed input, with white space at neither end; a string that fails gets `有効なメールアドレスを指定してください` |
| `UserSchemas.SafeParseCreate` | src/schemas/user.ts:4-7 | succeeds exactly when both properties pass, yielding both trimmed strings; a failure has at least one issue, and the first issue belongs to `name` when `name` fails |
| `UserSchemas.IdIssues` | src/schemas/user.ts:13-14 | `.int` and `.positive` are both checked on a number that is not NaN: no issue exactly when it is a finite positive integer, every issue carries `id は正の整数で指定してください`, and two issues exactly when both checks fail |
| `UserSchemas.SafeParseIdParams` | src/schemas/user.ts:10-15 | succeeds exactly when the coerced number is a finite positive integer, and the id then equals it and is at least 1; NaN fails the type check; every other failure carries only `id は正の整数で指定してください` |
| `UserSchemas.BlankNameRejected` | src/schemas/user.ts:5 | a string name is refused exactly when it is empty or white space only, and then with `name は必須です` |
| `UserSchemas.NamePaddingIgnored` | src/schemas/user.ts:5 | white space around a name does not change how it parses |
| `UserSchemas.EmailPaddingIgnored` | src/schemas/user.ts:6 | white space around an email does not change how it parses, because the format test sees the trimmed string |
| `UserSchemas.PaddingIgnored` | src/schemas/user.ts:5-6 | white space around `name` and, independently, different white space around `email` does not change the create schema's outcome: both are trimmed before they are checked |
| `UserSchemas.CreateRequiresBothFields` | src/schemas/user.ts:4-7 | a body where `name` or `email` is missing or not a string is refused, and a bad `name` gives the first issue |
| `UserSchemas.NonNumericIdRejected` | src/schemas/user.ts:11-13 | an id that coerces to NaN makes `parseOrThrow` fail with status 400 and the number type message |
| `UserController.ValidateId` | src/controllers/userController.ts:23 | `parseOrThrow(userIdParamSchema, req.params, MSG_INVALID_REQUEST)`, as used by get, update and delete: any failure is a ValidationError with its class's code and status |
| `UserController.ValidateCreateBody` | src/controllers/userController.ts:42 | `parseOrThrow(userCreateSchema, req.body, MSG_INVALID_INPUT)`: any failure is a ValidationError with its class's code and status |
| `UserController.ValidateUpdateBody` | src/controllers/userController.ts:64 | `parseOrThrow(userUpdateSchema, req.body, MSG_INVALID_INPUT)`: any failure is a ValidationError with its class's code and status |
| `UserController.AsStoreFailure` | src/lib/prismaErrorHandler.ts:22-23 | a caught store failure is handed to `handlePrismaError` as raised; a caught AppError is an `Error` with its message, so `handlePrismaError` turns it into an InternalServerError carrying that message as details |
| `UserController.TranslateCaught` | src/controllers/userController.ts:48-57 | the catch block forwards a ValidationError unchanged and passes anything else through `handlePrismaError`: a store failure as raised, and any other AppError as a plain Error with its message. So it always forwards an application error, and a ValidationError exactly when it caught one |
| `UserController.GetUserList` | src/controllers/userController.ts:11-18 | one `findMany` call; responds 200 with the store's list, or forwards the store failure unchanged |
| `UserController.GetUser` | src/controllers/userController.ts:21-37 | an invalid id is forwarded as its ValidationError with no store call; otherwise one lookup, responding 200 with the user found, a NotFoundError with `MSG_USER_NOT_FOUND` when none is found, or the store failure forwarded unchanged |
| `UserController.CreateUser` | src/controllers/userController.ts:40-58 | an invalid body is forwarded as its ValidationError with no store call; otherwise the store receives exactly the validated data and the handler responds 201 with the record returned, or forwards the translated failure; every forwarded value is an application error |
| `UserController.UpdateUser` | src/controllers/userController.ts:61-82 | the id is validated before the body and its error wins; the store is called only when both pass, with exactly the validated id and changes; responds 200 with the record returned or forwards the translated failure |
| `UserController.DeleteUser` | src/controllers/userController.ts:85-103 | an invalid id is forwarded with no store call; otherwise one delete, responding 200 with the record returned or forwarding the translated failure |

## Left out

- The application bootstrap (`src/index.ts`) is I/O and is not modelled. That covers the
  routes that query the database directly, the health route and the error
  middleware. That middleware renders every error as a 500 and ignores the
  error's status, and it never mounts `UserController`.
- The connection pool configuration and the table definition (`src/config/database.ts`) are I/O and resource management.
- The store's own behaviour belongs to the ORM and the database: id and timestamp assignment, email uniqueness,
  default ordering, partial update. The store is an oracle whose answers are given, so
  nothing is proved about which answer it gives. Properties like "a second create with the
  same email fails" or "an update to one's own email succeeds" are left out.
- The schema library's email format test and its `Number(...)` coercion are passed in as
  functions, not defined. The library's default messages for a value of the wrong
  type (`Required`, `Expected <type>, received <type>`) follow its version 3 error map.
- `UserController.UpdateUser`: the update schema is not modelled. `src/schemas/user.ts` exports no
  `userUpdateSchema`, although `src/controllers/userController.ts` imports it and uses it to validate
  the update body. `Externals.updateSchema` stands for that missing definition. It is passed in as a
  function, so an empty body or an invalid email being refused on update is not proved.
- The message constants `MSG_INVALID_REQUEST`, `MSG_INVALID_INPUT` and `MSG_USER_NOT_FOUND`
  are not part of this model. They are opaque strings passed in.
- `PrismaErrorHandler.HandlePrismaError`: `meta.target` is taken to be a list of
  column names, as the source's cast says. If a driver supplies a string instead,
  `includes` would do a substring test, and that case is not modelled.
- Asynchrony, `await`, and the `res` and `next` objects are not modelled. Each handler
  returns its single outcome instead. A failure thrown while writing the response is
  not modelled either.
- Strings are sequences of Unicode scalar values, while JavaScript strings are sequences of UTF-16
  code units. A string holding a lone surrogate (such as the JSON text `"\ud800"`) cannot be
  expressed. Every character that `trim` removes lies in the Basic Multilingual Plane, and
  `min(1)` only tests for a non-empty string, so the model agrees with the source on every
  string it can express.
- JavaScript numbers are modelled as NaN, an infinity, or an exact real. Rounding of
  large ids to the nearest double is not modelled.
