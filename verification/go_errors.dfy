/**
 * Go error values as the user service sees them: sentinel errors compared by
 * identity, the Postgres driver's error, the repository's own Postgres error
 * detail, the validator's list of field errors, wrapping errors (made by
 * `fmt.Errorf` with `%w`) and any other error with its text. `Is` and `As`
 * follow `errors.Is` / `errors.As`: the error itself first, then what it
 * wraps, depth first, in order.
 */
module GoErrors {
  import opened Wrappers

  /** The sentinel error variables the core compares against. */
  datatype Sentinel = NoRows | EOF | NotFound | Duplicate | ConstraintViolated

  /** The text of each sentinel (`pgx.ErrNoRows`, `io.EOF`, and the repository's three). */
  function SentinelText(s: Sentinel): string {
    match s
    case NoRows => "no rows in result set"
    case EOF => "EOF"
    case NotFound => "resource not found"
    case Duplicate => "resource already exists"
    case ConstraintViolated => "constraint violation"
  }

  /** `*pgconn.PgError`, reduced to the fields the core reads. */
  datatype PgError = PgError(
    severity: string, message: string, code: string,
    constraintName: string, detail: string, tableName: string)

  /** The repository's own `PGErrorDetail`. */
  datatype PGErrorDetail = PGErrorDetail(
    message: string, code: string, constraint: string, detail: string, table: string)

  /** One entry of `validator.ValidationErrors`. */
  datatype FieldError = FieldError(namespace: string, field: string, tag: string, param: string)

  datatype Error =
    | SentinelError(sentinel: Sentinel)
    | Pg(pg: PgError)
    | Detail(detail: PGErrorDetail)
    | Validation(fieldErrors: seq<FieldError>)
    | Wrapping(text: string, wrapped: seq<Error>)
    | Plain(plainText: string)

  /** `err.Error()`. */
  function ErrorText(e: Error): string {
    match e
    case SentinelError(s) => SentinelText(s)
    case Pg(p) => p.severity + ": " + p.message + " (SQLSTATE " + p.code + ")"
    case Detail(d) => DetailError(d)
    case Validation(fs) => JoinFieldErrors(fs)
    case Wrapping(t, _) => t
    case Plain(t) => t
  }

  /** `PGErrorDetail.Error()`: the Postgres message alone. */
  function DetailError(d: PGErrorDetail): (text: string)
    ensures text == d.message
  {
    d.message
  }

  /** The text of one validator field error. */
  function FieldErrorText(f: FieldError): string {
    "Key: '" + f.namespace + "' Error:Field validation for '" + f.field + "' failed on the '" + f.tag + "' tag"
  }

  /** The field errors' texts, one per line. */
  function JoinFieldErrors(fs: seq<FieldError>): string {
    if fs == [] then ""
    else if |fs| == 1 then FieldErrorText(fs[0])
    else FieldErrorText(fs[0]) + "\n" + JoinFieldErrors(fs[1..])
  }

  /** `fmt.Errorf("%w: %w", a, b)`: wraps both, text "a: b". */
  function Errorf(a: Error, b: Error): (e: Error)
    ensures ErrorText(e) == ErrorText(a) + ": " + ErrorText(b)
    ensures e.Wrapping? && e.wrapped == [a, b]
  {
    Wrapping(ErrorText(a) + ": " + ErrorText(b), [a, b])
  }

  /** `errors.Is(e, target)` for a sentinel target. */
  predicate Is(e: Error, target: Sentinel)
    decreases e, 1
  {
    e == SentinelError(target) || (e.Wrapping? && AnyIs(e.wrapped, target))
  }

  predicate AnyIs(es: seq<Error>, target: Sentinel)
    decreases es, 0
  {
    es != [] && (Is(es[0], target) || AnyIs(es[1..], target))
  }

  /** `errors.As(e, &pgErr)` with `pgErr *pgconn.PgError`: the first Postgres error in the tree. */
  function AsPg(e: Error): Option<PgError>
    decreases e, 1
  {
    if e.Pg? then Some(e.pg)
    else if e.Wrapping? then FirstPg(e.wrapped)
    else None
  }

  function FirstPg(es: seq<Error>): Option<PgError>
    decreases es, 0
  {
    if es == [] then None
    else if AsPg(es[0]).Some? then AsPg(es[0])
    else FirstPg(es[1..])
  }

  /** `errors.As(e, &detail)` with `detail *PGErrorDetail`. */
  function AsDetail(e: Error): Option<PGErrorDetail>
    decreases e, 1
  {
    if e.Detail? then Some(e.detail)
    else if e.Wrapping? then FirstDetail(e.wrapped)
    else None
  }

  function FirstDetail(es: seq<Error>): Option<PGErrorDetail>
    decreases es, 0
  {
    if es == [] then None
    else if AsDetail(es[0]).Some? then AsDetail(es[0])
    else FirstDetail(es[1..])
  }

  /** `errors.As(e, &ve)` with `ve validator.ValidationErrors`. */
  function AsValidation(e: Error): Option<seq<FieldError>>
    decreases e, 1
  {
    if e.Validation? then Some(e.fieldErrors)
    else if e.Wrapping? then FirstValidation(e.wrapped)
    else None
  }

  function FirstValidation(es: seq<Error>): Option<seq<FieldError>>
    decreases es, 0
  {
    if es == [] then None
    else if AsValidation(es[0]).Some? then AsValidation(es[0])
    else FirstValidation(es[1..])
  }
}
