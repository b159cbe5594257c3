/** Shapes shared by every service: optional values, the errors the services raise,
    and the paging arithmetic that the list endpoints repeat. */
module Common {

  datatype Option<+T> = None | Some(value: T)

  /** The two Prisma failures the modelled services can run into. */
  datatype DbError = RecordNotFound | UniqueViolation

  /** What a service operation throws. `AppError` carries an HTTP status code and a
      message, as the class of that name does; `PlainError` is a bare `Error` with a
      message (the dispatch service throws those); `DbFailure` is an error raised by
      the database client. */
  datatype Failure =
    | AppError(statusCode: int, message: string)
    | PlainError(message: string)
    | DbFailure(kind: DbError)

  datatype Result<+T> = Ok(value: T) | Err(error: Failure)

  /** Milliseconds since the epoch; the services read the clock only through `new Date()`,
      which the model takes as a parameter. */
  type Instant = int

  /** `x ?? d` */
  function OrElse<T>(o: Option<T>, d: T): T {
    if o.Some? then o.value else d
  }

  /** A Prisma `update` leaves a column untouched when the given value is `undefined`. */
  function Override<T>(current: T, given: Option<T>): (r: T)
    ensures given.None? ==> r == current
    ensures given.Some? ==> r == given.value
  {
    if given.Some? then given.value else current
  }

  /** Same, for a nullable column. */
  function OverrideOpt<T>(current: Option<T>, given: Option<T>): (r: Option<T>)
    ensures given.None? ==> r == current
    ensures given.Some? ==> r == given
  {
    if given.Some? then given else current
  }

  /** JavaScript truthiness of a number that may be `undefined` or `NaN` (both `None`). */
  predicate TruthyNum(o: Option<int>) {
    o.Some? && o.value != 0
  }

  /** JavaScript truthiness of a string that may be `undefined`. */
  predicate TruthyText(o: Option<string>) {
    o.Some? && o.value != ""
  }

  /** `Number(x) || d` and `x || d` for a number that may be missing, `NaN` or 0. */
  function NumOr(o: Option<int>, d: int): (r: int)
    ensures TruthyNum(o) ==> r == o.value
    ensures !TruthyNum(o) ==> r == d
  {
    if TruthyNum(o) then o.value else d
  }

  /** `skip = (page - 1) * limit` */
  function PageSkip(page: int, limit: int): int {
    (page - 1) * limit
  }

  /** `Math.ceil(total / limit)` for a non-zero limit of either sign; JavaScript yields
      `Infinity` or `NaN` for a zero limit, here `None`. */
  function TotalPages(total: nat, limit: int): (r: Option<int>)
    ensures r.None? <==> limit == 0
    ensures limit > 0 ==> r.Some? && (r.value - 1) * limit < total <= r.value * limit
    ensures limit < 0 ==> r.Some? && r.value * limit <= total < (r.value - 1) * limit
  {
    if limit == 0 then None
    else if limit > 0 then
      var q := (total + limit - 1) / limit;
      CeilingUp(total, limit, q);
      Some(q)
    else
      var q := total / limit;
      CeilingDown(total, limit, q);
      Some(q)
  }

  /** For a positive divisor, rounding `total + limit - 1` down rounds `total` up. */
  lemma CeilingUp(total: nat, limit: int, q: int)
    requires limit > 0 && q == (total + limit - 1) / limit
    ensures (q - 1) * limit < total <= q * limit
  {
    var rem := (total + limit - 1) % limit;
    assert total + limit - 1 == q * limit + rem && 0 <= rem < limit;
    assert (q - 1) * limit == q * limit - limit;
  }

  /** For a negative divisor, the Euclidean quotient is already the ceiling. */
  lemma CeilingDown(total: nat, limit: int, q: int)
    requires limit < 0 && q == total / limit
    ensures q * limit <= total < (q - 1) * limit
  {
    var rem := total % limit;
    assert total == q * limit + rem && 0 <= rem < -limit;
    assert (q - 1) * limit == q * limit - limit;
  }

  /** The `pagination` block of a list response; `totalPages` is `None` where
      JavaScript would produce `Infinity` or `NaN`. */
  datatype Page = Page(page: int, limit: int, skip: int, total: nat, totalPages: Option<int>)

  function Paginate(page: int, limit: int, total: nat): (p: Page)
    ensures p.page == page && p.limit == limit && p.total == total && p.skip == PageSkip(page, limit)
    ensures p.totalPages == TotalPages(total, limit)
  {
    Page(page, limit, PageSkip(page, limit), total, TotalPages(total, limit))
  }

  /** The username a master-data service records for a caller: `'system'` when no user
      id was given (or it was 0), otherwise the username found for that id, if any. */
  function ActorName(userId: Option<int>, usernames: map<int, string>): (r: Option<string>)
    ensures !TruthyNum(userId) ==> r == Some("system")
    ensures TruthyNum(userId) ==> (r.Some? <==> userId.value in usernames)
  {
    if !TruthyNum(userId) then Some("system")
    else if userId.value in usernames then Some(usernames[userId.value])
    else None
  }
}
