/**
 * The application error taxonomy: the base `AppError` and its four
 * subclasses, each with a fixed machine code and HTTP status.
 */
module Errors {
  import opened Wrappers

  /** The class an error was constructed with; `instanceof` tests look at it. */
  datatype ErrorClass = Base | Validation | NotFound | Duplicate | InternalServer

  /** An error's fields are readonly, so an error is a value. */
  datatype AppError = AppError(
    cls: ErrorClass,
    code: string,
    message: string,
    statusCode: int,
    details: Option<string>)
  {
    /** `error instanceof ValidationError` */
    predicate IsValidationError() { cls == Validation }

    /** `error instanceof NotFoundError` */
    predicate IsNotFoundError() { cls == NotFound }
  }

  const ValidationCode := "VALIDATION_ERROR"
  const NotFoundCode := "NOT_FOUND"
  const DuplicateCode := "DUPLICATE_ERROR"
  const InternalServerCode := "INTERNAL_SERVER_ERROR"

  /** The status a base AppError gets when none is given. */
  const DefaultStatus := 500
  /** The message an InternalServerError gets when none is given. */
  const DefaultInternalMessage := "サーバーエラーが発生しました"

  /** The machine code each subclass passes to the base constructor. */
  function CodeOf(cls: ErrorClass): (code: string)
    requires cls != Base
    // each code belongs to exactly one subclass
    ensures code == "VALIDATION_ERROR" <==> cls == Validation
    ensures code == "NOT_FOUND" <==> cls == NotFound
    ensures code == "DUPLICATE_ERROR" <==> cls == Duplicate
    ensures code == "INTERNAL_SERVER_ERROR" <==> cls == InternalServer
  {
    match cls
    case Validation => ValidationCode
    case NotFound => NotFoundCode
    case Duplicate => DuplicateCode
    case InternalServer => InternalServerCode
  }

  /** The HTTP status each subclass passes to the base constructor. */
  function StatusOf(cls: ErrorClass): (status: int)
    requires cls != Base
    ensures status == 400 <==> cls == Validation || cls == Duplicate
    ensures status == 404 <==> cls == NotFound
    ensures status == 500 <==> cls == InternalServer
  {
    match cls
    case Validation => 400
    case NotFound => 404
    case Duplicate => 400
    case InternalServer => 500
  }

  /** An error built by a subclass carries that subclass's code and status. */
  predicate Consistent(e: AppError) {
    e.cls != Base ==> e.code == CodeOf(e.cls) && e.statusCode == StatusOf(e.cls)
  }

  /** `new AppError(code, message, statusCode = 500, details?)` */
  function NewAppError(code: string, message: string, statusCode: Option<int>, details: Option<string>): (e: AppError)
    ensures e.cls == Base && Consistent(e) && !e.IsValidationError() && !e.IsNotFoundError()
    ensures e.code == code && e.message == message && e.details == details
    ensures statusCode.Some? ==> e.statusCode == statusCode.value
    ensures statusCode.None? ==> e.statusCode == 500
  {
    AppError(Base, code, message, statusCode.GetOr(DefaultStatus), details)
  }

  /** `new ValidationError(message, details?)` */
  function NewValidationError(message: string, details: Option<string>): (e: AppError)
    ensures Consistent(e) && e.IsValidationError()
    ensures e.code == "VALIDATION_ERROR" && e.statusCode == 400
    ensures e.message == message && e.details == details
  {
    AppError(Validation, ValidationCode, message, StatusOf(Validation), details)
  }

  /** `new NotFoundError(message, details?)` */
  function NewNotFoundError(message: string, details: Option<string>): (e: AppError)
    ensures Consistent(e) && e.IsNotFoundError()
    ensures e.code == "NOT_FOUND" && e.statusCode == 404
    ensures e.message == message && e.details == details
  {
    AppError(NotFound, NotFoundCode, message, StatusOf(NotFound), details)
  }

  /** `new DuplicateError(message, details?)` */
  function NewDuplicateError(message: string, details: Option<string>): (e: AppError)
    ensures Consistent(e) && e.cls == Duplicate
    ensures e.code == "DUPLICATE_ERROR" && e.statusCode == 400
    ensures e.message == message && e.details == details
  {
    AppError(Duplicate, DuplicateCode, message, StatusOf(Duplicate), details)
  }

  /** `new InternalServerError(message = DefaultInternalMessage, details?)` */
  function NewInternalServerError(message: Option<string>, details: Option<string>): (e: AppError)
    ensures Consistent(e) && e.cls == InternalServer
    ensures e.code == "INTERNAL_SERVER_ERROR" && e.statusCode == 500
    ensures message.Some? ==> e.message == message.value
    ensures message.None? ==> e.message == "サーバーエラーが発生しました"
    ensures e.details == details
  {
    AppError(InternalServer, InternalServerCode, message.GetOr(DefaultInternalMessage), StatusOf(InternalServer), details)
  }

  /**
   * The machine code names the subclass: no two subclasses share a code,
   * although Validation and Duplicate share the status 400.
   */
  lemma CodeIdentifiesClass(e1: AppError, e2: AppError)
    requires Consistent(e1) && Consistent(e2)
    requires e1.cls != Base && e2.cls != Base
    ensures e1.code == e2.code <==> e1.cls == e2.cls
  {
    assert ValidationCode[0] == 'V' && NotFoundCode[0] == 'N' && DuplicateCode[0] == 'D' && InternalServerCode[0] == 'I';
  }

  /** Of the subclasses, only NotFoundError and InternalServerError have a status other than 400. */
  lemma StatusClasses(e: AppError)
    requires Consistent(e) && e.cls != Base
    ensures e.statusCode == 400 <==> e.cls == Validation || e.cls == Duplicate
    ensures e.statusCode == 404 <==> e.cls == NotFound
    ensures e.statusCode == 500 <==> e.cls == InternalServer
  {
  }
}
