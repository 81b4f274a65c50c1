/**
 * The user service's translation of database errors into repository
 * errors: "no rows" becomes "not found", the Postgres unique and check
 * violations become the duplicate and constraint sentinels wrapping the
 * Postgres detail, any other Postgres error becomes the bare detail, and
 * every other error passes through.
 */
module RepoError {
  import opened Wrappers
  import opened GoErrors

  /** The Postgres SQLSTATE codes the repository classifies. */
  const UniqueViolation: string := "23505"
  const CheckViolation: string := "23514"

  /** The repository's copy of a driver error. */
  function DetailOf(p: PgError): (d: PGErrorDetail)
    ensures d.message == p.message && d.code == p.code && d.constraint == p.constraintName
    ensures d.detail == p.detail && d.table == p.tableName
  {
    PGErrorDetail(p.message, p.code, p.constraintName, p.detail, p.tableName)
  }

  /** `Parse(err)`; `None` is Go's nil. */
  function Parse(err: Option<Error>): (r: Option<Error>)
    ensures err.None? <==> r.None?
    ensures err.Some? && Is(err.value, NoRows) ==> r == Some(SentinelError(NotFound))
    ensures err.Some? && !Is(err.value, NoRows) && AsPg(err.value).None? ==> r == err
  {
    match err
    case None => None
    case Some(e) =>
      if Is(e, NoRows) then Some(SentinelError(NotFound))
      else match AsPg(e)
        case Some(p) =>
          var d := Detail(DetailOf(p));
          if p.code == UniqueViolation then Some(Errorf(SentinelError(Duplicate), d))
          else if p.code == CheckViolation then Some(Errorf(SentinelError(ConstraintViolated), d))
          else Some(d)
        case None => Some(e)
  }

  /**
   * A sentinel wrapped together with a repository detail is that sentinel
   * and no other, exposes the detail to `errors.As`, and holds no Postgres
   * driver error.
   */
  lemma {:induction false} SentinelWithDetail(s: Sentinel, x: PGErrorDetail)
    ensures forall t: Sentinel :: Is(Errorf(SentinelError(s), Detail(x)), t) <==> t == s
    ensures AsDetail(Errorf(SentinelError(s), Detail(x))) == Some(x)
    ensures AsPg(Errorf(SentinelError(s), Detail(x))).None?
  {
    var e := Errorf(SentinelError(s), Detail(x));
    var w := e.wrapped;
    assert w[1..] == [Detail(x)];
    assert w[1..][1..] == [];
    assert FirstPg(w[1..][1..]) == None;
    assert AsPg(Detail(x)) == None;
    assert FirstPg(w[1..]) == None;
    assert AsPg(SentinelError(s)) == None;
    assert FirstPg(w) == None;
    assert AsDetail(w[0]) == None;
    assert FirstDetail(w[1..]) == Some(x);
    assert FirstDetail(w) == Some(x);
    forall t: Sentinel ensures Is(e, t) <==> t == s {
      assert !Is(w[1..][0], t);
      assert !AnyIs(w[1..], t);
      assert Is(w[0], t) <==> t == s;
    }
  }

  /**
   * A unique violation parses to an error that is `ErrDuplicate`, carries the
   * copied Postgres detail, and reads "resource already exists: <message>".
   */
  lemma DuplicateIsClassified(e: Error)
    requires !Is(e, NoRows) && AsPg(e).Some? && AsPg(e).value.code == UniqueViolation
    ensures Parse(Some(e)).Some?
    ensures Is(Parse(Some(e)).value, Duplicate)
    ensures !Is(Parse(Some(e)).value, ConstraintViolated) && !Is(Parse(Some(e)).value, NotFound)
    ensures AsDetail(Parse(Some(e)).value) == Some(DetailOf(AsPg(e).value))
    ensures ErrorText(Parse(Some(e)).value) == SentinelText(Duplicate) + ": " + AsPg(e).value.message
  {
    SentinelWithDetail(Duplicate, DetailOf(AsPg(e).value));
  }

  /** A check violation parses to an error that is `ErrConstraintViolated` and carries the copied detail. */
  lemma CheckViolationIsClassified(e: Error)
    requires !Is(e, NoRows) && AsPg(e).Some? && AsPg(e).value.code == CheckViolation
    ensures Parse(Some(e)).Some?
    ensures Is(Parse(Some(e)).value, ConstraintViolated)
    ensures !Is(Parse(Some(e)).value, Duplicate) && !Is(Parse(Some(e)).value, NotFound)
    ensures AsDetail(Parse(Some(e)).value) == Some(DetailOf(AsPg(e).value))
    ensures ErrorText(Parse(Some(e)).value) == SentinelText(ConstraintViolated) + ": " + AsPg(e).value.message
  {
    SentinelWithDetail(ConstraintViolated, DetailOf(AsPg(e).value));
  }

  /** Any other Postgres code parses to the bare detail, whose text is the Postgres message. */
  lemma OtherPgErrorIsDetail(e: Error)
    requires !Is(e, NoRows) && AsPg(e).Some?
    requires AsPg(e).value.code != UniqueViolation && AsPg(e).value.code != CheckViolation
    ensures Parse(Some(e)) == Some(Detail(DetailOf(AsPg(e).value)))
    ensures ErrorText(Parse(Some(e)).value) == AsPg(e).value.message
    ensures !Is(Parse(Some(e)).value, Duplicate) && !Is(Parse(Some(e)).value, ConstraintViolated)
  {
  }

  /** "No rows" wins over a Postgres error in the same chain. */
  lemma NoRowsBeforePostgres(p: PgError)
    ensures Parse(Some(Errorf(SentinelError(NoRows), Pg(p)))) == Some(SentinelError(NotFound))
  {
    assert Is(Errorf(SentinelError(NoRows), Pg(p)), NoRows) by {
      assert Errorf(SentinelError(NoRows), Pg(p)).wrapped[0] == SentinelError(NoRows);
    }
  }

  /** Parsing is idempotent: a parsed error parses to itself. */
  lemma ParseIdempotent(err: Option<Error>)
    ensures Parse(Parse(err)) == Parse(err)
  {
    match err
    case None =>
    case Some(e) =>
      var r := Parse(err).value;
      if Is(e, NoRows) {
      } else if AsPg(e).Some? {
        var x := DetailOf(AsPg(e).value);
        SentinelWithDetail(Duplicate, x);
        SentinelWithDetail(ConstraintViolated, x);
      }
  }
}
