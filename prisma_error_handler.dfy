/**
 * Translation of a failure raised by the store into exactly one
 * application error. The source function is declared to return `never`:
 * it always throws, so here it returns the error it throws.
 */
module PrismaErrorHandler {
  import opened Wrappers
  import opened Errors

  /**
   * What a store operation can throw: a known request error with its
   * error code, message and optional `meta.target` column list; any other
   * `Error` with its message; or a thrown value that is not an `Error`.
   */
  datatype StoreFailure =
    | KnownRequestError(code: string, message: string, target: Option<seq<string>>)
    | OtherError(message: string)
    | NonError

  const RecordNotFound := "P2025"
  const UniqueViolation := "P2002"

  const UserNotFoundMessage := "ユーザーが見つかりませんでした"
  const EmailTakenMessage := "このメールアドレスは既に登録されています"
  const DuplicateDataMessage := "重複するデータが存在します"
  const DatabaseFailedMessage := "データベース操作に失敗しました"
  const UnexpectedMessage := "予期しないエラーが発生しました"

  /** `(error.meta?.target as string[]) || []`: a missing meta or target is an empty list. */
  function TargetColumns(error: StoreFailure): (columns: seq<string>)
    requires error.KnownRequestError?
    ensures error.target.None? ==> columns == []
    ensures error.target.Some? ==> columns == error.target.value
  {
    error.target.GetOr([])
  }

  /** `handlePrismaError(error)`: the AppError it throws. */
  function HandlePrismaError(error: StoreFailure): (e: AppError)
    // never a validation error, and always one of the subclasses
    ensures Consistent(e) && e.cls != Base && !e.IsValidationError()
    // which subclass, both directions
    ensures e.IsNotFoundError() <==> error.KnownRequestError? && error.code == "P2025"
    ensures e.cls == Duplicate <==> error.KnownRequestError? && error.code == "P2002"
    ensures e.cls == InternalServer <==> !(error.KnownRequestError? && error.code in {"P2025", "P2002"})
    // which message and details
    ensures e.IsNotFoundError() ==> e.message == "ユーザーが見つかりませんでした" && e.details == None
    ensures e.cls == Duplicate && "email" in TargetColumns(error) ==>
      e.message == "このメールアドレスは既に登録されています" && e.details == None
    ensures e.cls == Duplicate && "email" !in TargetColumns(error) ==>
      e.message == "重複するデータが存在します" && e.details == None
    ensures e.cls == InternalServer && error.KnownRequestError? ==>
      e.message == "データベース操作に失敗しました" && e.details == Some(error.message)
    ensures error.OtherError? ==> e.message == "予期しないエラーが発生しました" && e.details == Some(error.message)
    ensures error.NonError? ==> e == NewInternalServerError(None, None)
  {
    match error
    case KnownRequestError(code, message, _) =>
      if code == RecordNotFound then
        NewNotFoundError(UserNotFoundMessage, None)
      else if code == UniqueViolation then
        if "email" in TargetColumns(error) then NewDuplicateError(EmailTakenMessage, None)
        else NewDuplicateError(DuplicateDataMessage, None)
      else
        NewInternalServerError(Some(DatabaseFailedMessage), Some(message))
    case OtherError(message) =>
      NewInternalServerError(Some(UnexpectedMessage), Some(message))
    case NonError =>
      NewInternalServerError(None, None)
  }

  /**
   * The status of the translated error: 404 exactly for a missing record,
   * 400 exactly for a unique-constraint violation, 500 for everything else.
   */
  lemma TranslatedStatus(error: StoreFailure)
    ensures HandlePrismaError(error).statusCode == 404 <==> error.KnownRequestError? && error.code == RecordNotFound
    ensures HandlePrismaError(error).statusCode == 400 <==> error.KnownRequestError? && error.code == UniqueViolation
    ensures HandlePrismaError(error).statusCode == 500 <==>
      !(error.KnownRequestError? && (error.code == RecordNotFound || error.code == UniqueViolation))
  {
    StatusClasses(HandlePrismaError(error));
  }
}
