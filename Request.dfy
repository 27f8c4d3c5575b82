/**
 * The request `main` sends: a POST carrying the form data exactly when the
 * method slot is `POST`, a body-less GET for every other method string.
 */
module Request {
  import opened Wrappers

  const FormContentType: string := "application/x-www-form-urlencoded"

  datatype Verb = Get | Post

  /** The outbound request: verb, target, the Content-Type header if any, and the body if any. */
  datatype Request = Request(verb: Verb, url: string, contentType: Option<string>, body: Option<string>)

  /**
   * POST with a form-urlencoded Content-Type and body `data` if and only if
   * `methodName == "POST"`; otherwise a GET with no header and no body.
   * Both go to `url` as given.
   */
  function Choose(methodName: string, url: string, data: string): (r: Request)
    ensures r.url == url
    ensures r.verb == Post <==> methodName == "POST"
    ensures r.verb == Post ==> r.contentType == Some(FormContentType) && r.body == Some(data)
    ensures r.verb == Get ==> r.contentType == None && r.body == None
  {
    if methodName == "POST" then Request(Post, url, Some(FormContentType), Some(data))
    else Request(Get, url, None, None)
  }

  /** `HEAD`, `PUT` and the default `GET` all send a body-less GET; the data is dropped. */
  lemma OtherMethodsSendGet(url: string, data: string)
    ensures Choose("HEAD", url, data) == Request(Get, url, None, None)
    ensures Choose("PUT", url, data) == Request(Get, url, None, None)
    ensures Choose("GET", url, data) == Request(Get, url, None, None)
  {
  }
}
