/** Values shared by every route: identifiers, callers, request fields and HTTP outcomes. */
module Common {

  /** A MongoDB ObjectId, abstracted to a natural number; ids are compared by equality only. */
  type Id = nat

  datatype Option<+T> = None | Some(value: T)

  /** An optional request-body field that a Mongoose schema casts when the document is saved
      or updated: left out of the body, given with a value the schema accepts, or given with
      a value its casting or validators reject (a save or update with it throws). */
  datatype Field<+T> = Absent | Given(value: T) | Malformed

  /** The value a field holds after an update with `f`: the given value, else the current one. */
  function Patched<T>(current: T, f: Field<T>): T {
    if f.Given? then f.value else current
  }

  /** The value a new document holds for an optional field. */
  function FieldOption<T>(f: Field<T>): Option<T> {
    if f.Given? then Some(f.value) else None
  }

  /** The roles a user can register with, plus any other role string a user record may hold;
      the route handlers send 403 for roles they do not name. `OtherRole(name)` stands for a
      `name` that is none of `admin`, `property_manager`, `landlord` and `tenant`, which are
      always the four named constructors. */
  datatype Role = Admin | PropertyManager | Landlord | TenantRole | OtherRole(name: string)

  /** The authenticated principal that the auth middleware attaches to a request. */
  datatype Caller = Caller(id: Id, role: Role)

  /** The HTTP answer of a route handler: 200 and 201 with a body, 400, 403, 404, 500. */
  datatype Outcome<+T> = Ok(value: T) | Created(value: T) | BadRequest | Forbidden | NotFound | ServerError
}
