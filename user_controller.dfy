/**
 * The user resource handlers. Each handler validates its input, makes at
 * most one store call, and either responds or forwards an error to the
 * error middleware.
 *
 * The store is an oracle: each operation's answer is a field of `Store`.
 * A handler returns its outcome together with the store calls it made, so
 * that the order "validate, then call the store" can be stated.
 */
module UserController {
  import opened Wrappers
  import opened Errors
  import opened PrismaErrorHandler
  import opened Validator
  import opened UserSchemas

  /** A stored user; id and timestamps are assigned by the store. */
  datatype User = User(id: int, name: string, email: string, createdAt: int, updatedAt: int)

  /** The output of the update schema: the properties to change. */
  datatype UserUpdateInput = UserUpdateInput(name: Option<string>, email: Option<string>)

  /** What a handler asked the store to do. */
  datatype StoreCall =
    | FindMany
    | FindUnique(id: int)
    | Create(data: UserCreateInput)
    | Update(id: int, changes: UserUpdateInput)
    | Delete(id: int)

  /** The store's answer to each operation; a missing record is `None` for `findUnique` and a failure otherwise. */
  datatype Store = Store(
    findMany: Result<seq<User>, StoreFailure>,
    findUnique: int -> Result<Option<User>, StoreFailure>,
    create: UserCreateInput -> Result<User, StoreFailure>,
    update: (int, UserUpdateInput) -> Result<User, StoreFailure>,
    delete: int -> Result<User, StoreFailure>)

  /** The message constants the handlers use as fallbacks and for a missing user. */
  datatype Messages = Messages(invalidRequest: string, invalidInput: string, userNotFound: string)

  /**
   * What the handlers take from outside this model: the message constants,
   * the schema library's email test and number coercion, and the update schema.
   */
  datatype Externals = Externals(
    messages: Messages,
    isEmail: string -> bool,
    toNumber: string -> JsNumber,
    updateSchema: RequestBody -> SafeParseResult<UserUpdateInput>)

  /** A value a handler throws: an application error, or a store failure as the store raised it. */
  datatype Thrown = App(error: AppError) | Raw(failure: StoreFailure)

  datatype Body = OneUser(user: User) | UserList(users: seq<User>)

  /** A handler ends by writing a response or by passing a value to `next`. */
  datatype Outcome = Respond(status: int, body: Body) | Next(thrown: Thrown)

  /** The forwarded value is an application error of the given class. */
  predicate ForwardsClass(o: Outcome, cls: ErrorClass) {
    o.Next? && o.thrown.App? && o.thrown.error.cls == cls
  }

  /** `parseOrThrow(userIdParamSchema, req.params, MSG_INVALID_REQUEST)` */
  function ValidateId(ext: Externals, params: RouteParams): (r: Result<UserIdParam, AppError>)
    ensures r.Failure? ==> r.error.IsValidationError() && Consistent(r.error)
  {
    ParseOrThrow(p => SafeParseIdParams(ext.toNumber, p), params, ext.messages.invalidRequest)
  }

  /** `parseOrThrow(userCreateSchema, req.body, MSG_INVALID_INPUT)` */
  function ValidateCreateBody(ext: Externals, body: RequestBody): (r: Result<UserCreateInput, AppError>)
    ensures r.Failure? ==> r.error.IsValidationError() && Consistent(r.error)
  {
    ParseOrThrow(b => SafeParseCreate(ext.isEmail, b), body, ext.messages.invalidInput)
  }

  /** `parseOrThrow(userUpdateSchema, req.body, MSG_INVALID_INPUT)` */
  function ValidateUpdateBody(ext: Externals, body: RequestBody): (r: Result<UserUpdateInput, AppError>)
    ensures r.Failure? ==> r.error.IsValidationError() && Consistent(r.error)
  {
    ParseOrThrow(ext.updateSchema, body, ext.messages.invalidInput)
  }

  /**
   * An Error's `message`: an AppError passes its message to `Error`, so it
   * reaches `handlePrismaError` as a plain `Error` with that message.
   */
  function AsStoreFailure(t: Thrown): (f: StoreFailure)
    ensures t.Raw? ==> f == t.failure
    ensures t.App? ==> f == OtherError(t.error.message)
    // so an AppError reaching handlePrismaError becomes an InternalServerError carrying its message as details
    ensures t.App? ==> HandlePrismaError(f).cls == InternalServer && HandlePrismaError(f).details == Some(t.error.message)
  {
    match t
    case App(e) => OtherError(e.message)
    case Raw(f) => f
  }

  /**
   * The catch block of create, update and delete: a ValidationError passes
   * through unchanged, anything else goes through `handlePrismaError`.
   */
  function TranslateCaught(t: Thrown): (r: Thrown)
    requires t.App? ==> Consistent(t.error)
    ensures r.App? && Consistent(r.error)
    ensures t.App? && t.error.IsValidationError() ==> r == t
    ensures t.Raw? ==> r == App(HandlePrismaError(t.failure))
    // an AppError other than a ValidationError reaches handlePrismaError as a plain Error
    ensures t.App? && !t.error.IsValidationError() ==> r == App(HandlePrismaError(OtherError(t.error.message)))
    ensures r.error.IsValidationError() <==> t.App? && t.error.IsValidationError()
  {
    if t.App? && t.error.IsValidationError() then t
    else App(HandlePrismaError(AsStoreFailure(t)))
  }

  /** GET /api/users */
  method GetUserList(store: Store) returns (o: Outcome, calls: seq<StoreCall>)
    ensures calls == [FindMany]
    ensures store.findMany.Success? ==> o == Respond(200, UserList(store.findMany.value))
    // a store failure is forwarded as raised, without translation
    ensures store.findMany.Failure? ==> o == Next(Raw(store.findMany.error))
  {
    calls := [FindMany];
    var users := store.findMany;
    if users.Success? {
      o := Respond(200, UserList(users.value));
    } else {
      o := Next(Raw(users.error));
    }
  }

  /** GET /api/users/:id */
  method GetUser(ext: Externals, store: Store, params: RouteParams) returns (o: Outcome, calls: seq<StoreCall>)
    // an invalid id is refused before any lookup
    ensures ValidateId(ext, params).Failure? ==>
      calls == [] && o == Next(App(ValidateId(ext, params).error))
    ensures ValidateId(ext, params).Success? ==>
      var id := ValidateId(ext, params).value.id;
      && calls == [FindUnique(id)]
      && match store.findUnique(id)
         case Success(Some(user)) => o == Respond(200, OneUser(user))
         case Success(None) => o == Next(App(NewNotFoundError(ext.messages.userNotFound, None)))
         case Failure(f) => o == Next(Raw(f))
    ensures ForwardsClass(o, Validation) <==> calls == []
  {
    calls := [];
    var thrown: Thrown;
    var id := ValidateId(ext, params);
    if id.Success? {
      calls := calls + [FindUnique(id.value.id)];
      var found := store.findUnique(id.value.id);
      if found.Success? && found.value.Some? {
        return Respond(200, OneUser(found.value.value)), calls;
      }
      thrown := if found.Failure? then Raw(found.error) else App(NewNotFoundError(ext.messages.userNotFound, None));
    } else {
      thrown := App(id.error);
    }
    // ValidationError, NotFoundError and everything else alike go to next unchanged
    o := Next(thrown);
  }

  /** POST /api/users */
  method CreateUser(ext: Externals, store: Store, body: RequestBody) returns (o: Outcome, calls: seq<StoreCall>)
    ensures ValidateCreateBody(ext, body).Failure? ==>
      calls == [] && o == Next(App(ValidateCreateBody(ext, body).error))
    // exactly the validated (trimmed) name and email go to the store
    ensures ValidateCreateBody(ext, body).Success? ==>
      var data := ValidateCreateBody(ext, body).value;
      && calls == [Create(data)]
      && match store.create(data)
         case Success(user) => o == Respond(201, OneUser(user))
         case Failure(f) => o == Next(App(HandlePrismaError(f)))
    ensures o.Next? ==> o.thrown.App? && Consistent(o.thrown.error)
    ensures ForwardsClass(o, Validation) <==> calls == []
  {
    calls := [];
    var thrown: Thrown;
    var data := ValidateCreateBody(ext, body);
    if data.Success? {
      calls := calls + [Create(data.value)];
      var created := store.create(data.value);
      if created.Success? {
        return Respond(201, OneUser(created.value)), calls;
      }
      thrown := Raw(created.error);
      assert TranslateCaught(thrown) == App(HandlePrismaError(created.error));
    } else {
      thrown := App(data.error);
      assert TranslateCaught(thrown) == thrown;
    }
    o := Next(TranslateCaught(thrown));
  }

  /** PATCH /api/users/:id */
  method UpdateUser(ext: Externals, store: Store, params: RouteParams, body: RequestBody)
    returns (o: Outcome, calls: seq<StoreCall>)
    // the id is validated first: its error wins over the body's
    ensures ValidateId(ext, params).Failure? ==>
      calls == [] && o == Next(App(ValidateId(ext, params).error))
    ensures ValidateId(ext, params).Success? && ValidateUpdateBody(ext, body).Failure? ==>
      calls == [] && o == Next(App(ValidateUpdateBody(ext, body).error))
    // exactly the validated changes go to the store
    ensures ValidateId(ext, params).Success? && ValidateUpdateBody(ext, body).Success? ==>
      var id := ValidateId(ext, params).value.id;
      var changes := ValidateUpdateBody(ext, body).value;
      && calls == [Update(id, changes)]
      && match store.update(id, changes)
         case Success(user) => o == Respond(200, OneUser(user))
         case Failure(f) => o == Next(App(HandlePrismaError(f)))
    ensures o.Next? ==> o.thrown.App? && Consistent(o.thrown.error)
    ensures ForwardsClass(o, Validation) <==> calls == []
  {
    calls := [];
    var thrown: Thrown;
    var id := ValidateId(ext, params);
    if id.Success? {
      var changes := ValidateUpdateBody(ext, body);
      if changes.Success? {
        calls := calls + [Update(id.value.id, changes.value)];
        var updated := store.update(id.value.id, changes.value);
        if updated.Success? {
          return Respond(200, OneUser(updated.value)), calls;
        }
        thrown := Raw(updated.error);
      } else {
        thrown := App(changes.error);
      }
    } else {
      thrown := App(id.error);
    }
    o := Next(TranslateCaught(thrown));
  }

  /** DELETE /api/users/:id */
  method DeleteUser(ext: Externals, store: Store, params: RouteParams) returns (o: Outcome, calls: seq<StoreCall>)
    ensures ValidateId(ext, params).Failure? ==>
      calls == [] && o == Next(App(ValidateId(ext, params).error))
    // the response is the deleted record as the store returned it
    ensures ValidateId(ext, params).Success? ==>
      var id := ValidateId(ext, params).value.id;
      && calls == [Delete(id)]
      && match store.delete(id)
         case Success(user) => o == Respond(200, OneUser(user))
         case Failure(f) => o == Next(App(HandlePrismaError(f)))
    ensures o.Next? ==> o.thrown.App? && Consistent(o.thrown.error)
    ensures ForwardsClass(o, Validation) <==> calls == []
  {
    calls := [];
    var thrown: Thrown;
    var id := ValidateId(ext, params);
    if id.Success? {
      calls := calls + [Delete(id.value.id)];
      var deleted := store.delete(id.value.id);
      if deleted.Success? {
        return Respond(200, OneUser(deleted.value)), calls;
      }
      thrown := Raw(deleted.error);
    } else {
      thrown := App(id.error);
    }
    o := Next(TranslateCaught(thrown));
  }
}
