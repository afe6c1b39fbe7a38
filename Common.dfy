/** What the pages share: the signed-in user as the auth provider reports it,
    the shapes of the hosted database's answers, the "no row" rule, and the
    mount effect that the profile and settings pages both run. */
module Common {

  datatype Option<T> = None | Some(value: T)

  /** The session user; the pages read only its id and its e-mail. */
  datatype User = User(id: string, email: Option<string>)

  /** An error returned (not thrown) by the database client; only its code is inspected. */
  datatype DbError = DbError(code: string)

  /** The code with which a single-row select says that no row matched. */
  const NotFoundCode: string := "PGRST116"

  /** Where an anonymous visitor is sent. */
  const AuthRoute: string := "/auth"

  /** What awaiting a single-row select yields: the `{ data, error }` pair, or an exception. */
  datatype ReadResult<T> = Answer(data: Option<T>, error: Option<DbError>) | Thrown

  /** What awaiting an upsert yields: `{ error }` without or with an error, or an exception. */
  datatype WriteResult = Written | Rejected(error: DbError) | WriteThrown

  /** The pages' test `error && error.code !== 'PGRST116'`: an error that is not "no row". */
  predicate IsReadFailure(error: Option<DbError>) {
    error.Some? && error.value.code != NotFoundCode
  }

  /** The row a read hands over to the page: none when the read threw, failed
      with an error other than "no row", or matched nothing. */
  function Delivered<T>(r: ReadResult<T>): (d: Option<T>)
    ensures d.Some? <==> r.Answer? && !IsReadFailure(r.error) && r.data.Some?
    ensures d.Some? ==> d == r.data
    ensures r.Answer? && r.error == Some(DbError(NotFoundCode)) ==> d == r.data
  {
    match r
    case Thrown => None
    case Answer(data, error) => if IsReadFailure(error) then None else data
  }

  /** What the profile and settings pages do when they mount or the user changes. */
  datatype MountEffect = RedirectTo(route: string) | StartFetch

  /** The pages' mount effect: with no user, go to the sign-in route; otherwise fetch.
      It looks at the user alone, not at the provider's loading flag. */
  function OnMount(user: Option<User>): (e: MountEffect)
    ensures e.RedirectTo? <==> user.None?
    ensures e.RedirectTo? ==> e.route == AuthRoute
  {
    if user.None? then RedirectTo(AuthRoute) else StartFetch
  }
}
