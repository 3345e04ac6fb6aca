/**
 * The raw HTTP server of 01_web_server/server-node.js: each request is
 * answered from its url alone by one of three canned plain-text replies.
 * No state is kept, so the reply is a function of the url.
 */
module WebServer {

  /** The status code, the value of the `content-Type` header and the body sent with `res.end`. */
  datatype Reply = Reply(status: int, contentType: string, body: string)

  const PlainText := "plain/text"
  const HomeBody := "Hello There !"
  const RegisterBody := "You are current in register page!"
  const NotFoundBody := "4O4 Page Not Found."

  /** The two urls the server knows, compared with `===`. */
  predicate Known(url: string)
  {
    url == "/" || url == "/register"
  }

  /** The request handler's if / else-if / else on `req.url`. */
  function Route(url: string): (r: Reply)
    ensures r.contentType == PlainText
    ensures r.status == 200 <==> Known(url)
    ensures r.status == 404 <==> !Known(url)
    ensures url == "/" ==> r.body == HomeBody
    ensures url == "/register" ==> r.body == RegisterBody
    ensures !Known(url) ==> r.body == NotFoundBody
  {
    if url == "/" then
      Reply(200, PlainText, HomeBody)
    else if url == "/register" then
      Reply(200, PlainText, RegisterBody)
    else
      Reply(404, PlainText, NotFoundBody)
  }

  /**
   * The three replies are told apart by their bodies, so two urls get the
   * same reply exactly when they are equal or both unknown.
   */
  lemma SameReplyIffSameBranch(u: string, v: string)
    ensures Route(u) == Route(v) <==> u == v || (!Known(u) && !Known(v))
  {
  }

  /**
   * Matching is exact: anything appended to "/register", or to "/" (other
   * than "register" itself), gives the 404 reply; no prefix, trailing slash
   * or query string is stripped.
   */
  lemma ExtendedPathIsNotFound(path: string, suffix: string)
    requires path == "/register" || path == "/"
    requires suffix != []
    requires path == "/" ==> suffix != "register"
    ensures Route(path + suffix) == Reply(404, PlainText, NotFoundBody)
  {
    assert (path + suffix)[|path|..] == suffix;
  }

  /** The two examples: a trailing slash and a query string are not stripped. */
  lemma TrailingSlashAndQueryNotFound()
    ensures Route("/register/").status == 404
    ensures Route("/?a=1").status == 404
  {
  }
}
