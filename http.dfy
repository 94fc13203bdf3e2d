/** JSON responses of the route handlers and the cookie each of them sets or clears. */
module Http {

  /** The attributes a `Set-Cookie` header carries. */
  datatype Cookie = Cookie(
    name: string,
    value: string,
    httpOnly: bool,
    secure: bool,
    sameSite: string,
    path: string,
    maxAge: nat)

  datatype CookieAction = KeepCookies | SetCookie(cookie: Cookie) | DeleteCookie(name: string)

  /** `NextResponse.json(body, { status })`, with what it does to the cookies. */
  datatype Response<B> = Response(status: nat, body: B, cookies: CookieAction)

  function Json<B>(status: nat, body: B): (r: Response<B>)
    ensures r.status == status && r.body == body && r.cookies == KeepCookies
  {
    Response(status, body, KeepCookies)
  }
}
