/**
 * The whole of `main`: read the arguments, echo them, check the URL, send one
 * request and render the reply. Printing is modelled as appending one
 * element per `println!` to a sequence of output lines; `Url::parse`, the
 * HTTP client's `send` and `serde_json::from_str` are parameters.
 */
module Cli {
  import opened Wrappers
  import opened Text
  import opened Args
  import opened UrlCheck
  import opened Request
  import opened Render
  import opened Sorting

  const UsageLine: string := "Usage: cargo run -- <URL> [-X POST] [-d data]"
  const ConnectMessage: string :=
    "Error: Unable to connect to the server. Perhaps the network is offline or the server hostname is invalid."

  /**
   * What sending the request gave: no connection, or a response with its
   * status and its body text (`None` when reading the body failed).
   */
  datatype Reply = ConnectFailed | Response(status: StatusCode, body: Option<string>)

  /**
   * What one run of `main` does that can be observed: the lines it prints,
   * the string it hands to the URL parser, and the request it sends.
   */
  datatype Session = Session(out: seq<string>, checkedUrl: Option<string>, sent: Option<Request>)

  /**
   * The echo of the request: the URL, the method, and a data line exactly
   * when there is data.
   */
  function EchoLines(cfg: Config): (r: seq<string>)
    ensures 2 <= |r| <= 3
    ensures r[0] == "Requesting URL: " + cfg.url && r[1] == "Method: " + cfg.methodName
    ensures |r| == 3 <==> cfg.data != ""
    ensures |r| == 3 ==> r[2] == "Data: " + cfg.data
  {
    ["Requesting URL: " + cfg.url, "Method: " + cfg.methodName]
    + (if cfg.data != "" then ["Data: " + cfg.data] else [])
  }

  /** The body of a 2xx reply: as a JSON object with sorted keys, as other JSON, or as raw text. */
  function BodyLines(text: string, json: Option<Json>): seq<string> {
    match json
    case None => [TextAnnouncement + text]
    case Some(Object(fields)) => [JsonAnnouncement] + ObjectLines(SortByKey(fields, KeyOf))
    case Some(NonObject(pretty)) => [JsonAnnouncement, pretty]
  }

  /** What the reply makes `main` print: the connect failure, the failed status, or the body. */
  function ReplyLines(reply: Reply, parseJson: string -> Option<Json>): seq<string> {
    match reply
    case ConnectFailed => [ConnectMessage]
    case Response(status, body) =>
      if !IsSuccess(status) then [StatusLine(status)]
      else
        var text := body.GetOr("");
        BodyLines(text, parseJson(text))
  }

  /** The run of `main` on `args`, as a function of the three outside calls. */
  function Transcript(args: seq<string>, parseUrl: string -> UrlParse, send: Request -> Reply,
                      parseJson: string -> Option<Json>): Session
  {
    match ParseArgs(args)
    case None => Session([UsageLine], None, None)
    case Some(cfg) =>
      var echo := EchoLines(cfg);
      match Check(parseUrl(cfg.url))
      case Reject(message) => Session(echo + [message], Some(cfg.url), None)
      case Accept =>
        var request := Choose(cfg.methodName, cfg.url, cfg.data);
        Session(echo + ReplyLines(send(request), parseJson), Some(cfg.url), Some(request))
  }

  /** The reply handling, step by step: the lines printed for the reply. */
  method Respond(reply: Reply, parseJson: string -> Option<Json>) returns (lines: seq<string>)
    ensures lines == ReplyLines(reply, parseJson)
  {
    if reply.ConnectFailed? {
      return [ConnectMessage];
    }
    if !IsSuccess(reply.status) {
      return [StatusLine(reply.status)];
    }
    var text := reply.body.GetOr("");
    var json := parseJson(text);
    if json.None? {
      lines := [TextAnnouncement + text];
    } else if json.value.Object? {
      var objectLines := RenderObject(json.value.fields);
      lines := [JsonAnnouncement] + objectLines;
    } else {
      lines := [JsonAnnouncement, json.value.pretty];
    }
  }

  /** `main`, step by step, appending each printed line to `out`. */
  method Run(args: seq<string>, parseUrl: string -> UrlParse, send: Request -> Reply,
             parseJson: string -> Option<Json>) returns (session: Session)
    ensures session == Transcript(args, parseUrl, send, parseJson)
  {
    var out: seq<string> := [];
    var cfg := ParseArgsLoop(args);
    if cfg.None? {
      out := out + [UsageLine];
      return Session(out, None, None);
    }
    var c := cfg.value;
    out := out + ["Requesting URL: " + c.url];
    out := out + ["Method: " + c.methodName];
    if c.data != "" {
      out := out + ["Data: " + c.data];
    }
    assert out == EchoLines(c);
    var verdict := Check(parseUrl(c.url));
    if verdict.Reject? {
      out := out + [verdict.message];
      return Session(out, Some(c.url), None);
    }
    var request := Choose(c.methodName, c.url, c.data);
    var reply := send(request);
    var lines := Respond(reply, parseJson);
    out := out + lines;
    session := Session(out, Some(c.url), Some(request));
  }

  /** With fewer than two arguments only the usage line is printed; nothing is parsed or sent. */
  lemma UsageOnly(args: seq<string>, parseUrl: string -> UrlParse, send: Request -> Reply,
                  parseJson: string -> Option<Json>)
    requires |args| < 2
    ensures Transcript(args, parseUrl, send, parseJson) == Session([UsageLine], None, None)
  {
  }

  /**
   * With a URL argument, output begins with the echo of the trimmed
   * `args[1]` and the method, and has a data line exactly when the data is
   * not empty; the string handed to the URL parser is the trimmed `args[1]`.
   */
  lemma EchoComesFirst(args: seq<string>, parseUrl: string -> UrlParse, send: Request -> Reply,
                       parseJson: string -> Option<Json>)
    requires |args| >= 2
    ensures var cfg := ParseArgs(args).value;
      var session := Transcript(args, parseUrl, send, parseJson);
      && session.checkedUrl == Some(Trim(args[1]))
      && |session.out| >= 3
      && session.out[0] == "Requesting URL: " + Trim(args[1])
      && session.out[1] == "Method: " + cfg.methodName
      && (session.out[2] == "Data: " + cfg.data <== cfg.data != "")
      && session.out[..|EchoLines(cfg)|] == EchoLines(cfg)
  {
    var cfg := ParseArgs(args).value;
    var echo := EchoLines(cfg);
    var session := Transcript(args, parseUrl, send, parseJson);
    var rest := session.out[|echo|..];
    assert session.out == echo + rest;
    assert |ReplyLines(send(Choose(cfg.methodName, cfg.url, cfg.data)), parseJson)| >= 1 by {
      match send(Choose(cfg.methodName, cfg.url, cfg.data))
      case ConnectFailed =>
      case Response(status, body) =>
        if IsSuccess(status) {
          var text := body.GetOr("");
          match parseJson(text)
          case None =>
          case Some(v) =>
        }
    }
  }

  /**
   * A URL is rejected exactly when it does not parse or its scheme is not
   * `http`/`https`; then exactly one error line follows the echo and no
   * request is sent.
   */
  lemma RejectedUrlStops(args: seq<string>, parseUrl: string -> UrlParse, send: Request -> Reply,
                         parseJson: string -> Option<Json>)
    requires |args| >= 2
    ensures var cfg := ParseArgs(args).value;
      var parsed := parseUrl(cfg.url);
      var session := Transcript(args, parseUrl, send, parseJson);
      && (session.sent.None? <==> !(parsed.Ok? && AllowedScheme(parsed.value)))
      && (parsed.Err? ==> session.out == EchoLines(cfg) + [ErrorMessage(parsed.error)])
      && (parsed.Ok? && !AllowedScheme(parsed.value) ==> session.out == EchoLines(cfg) + [BaseProtocolMessage])
  {
  }

  /**
   * When the URL passes, the one request sent is a form POST of the data if
   * and only if the method slot is `POST`, and a body-less GET otherwise.
   */
  lemma RequestFollowsMethod(args: seq<string>, parseUrl: string -> UrlParse, send: Request -> Reply,
                             parseJson: string -> Option<Json>)
    requires |args| >= 2
    requires Check(parseUrl(ParseArgs(args).value.url)).Accept?
    ensures var cfg := ParseArgs(args).value;
      var session := Transcript(args, parseUrl, send, parseJson);
      && session.sent.Some?
      && session.sent.value.url == Trim(args[1])
      && (session.sent.value.verb == Post <==> cfg.methodName == "POST")
      && (session.sent.value.verb == Post ==>
            session.sent.value.body == Some(cfg.data) && session.sent.value.contentType == Some(FormContentType))
      && (session.sent.value.verb == Get ==>
            session.sent.value.body == None && session.sent.value.contentType == None)
  {
  }

  /**
   * Once the URL passes, the run prints the echo and then what the reply
   * calls for, and sends the one request chosen from the method slot.
   */
  lemma AcceptedSession(args: seq<string>, parseUrl: string -> UrlParse, send: Request -> Reply,
                        parseJson: string -> Option<Json>)
    requires |args| >= 2
    requires Check(parseUrl(ParseArgs(args).value.url)).Accept?
    ensures var cfg := ParseArgs(args).value;
      var request := Choose(cfg.methodName, cfg.url, cfg.data);
      Transcript(args, parseUrl, send, parseJson)
        == Session(EchoLines(cfg) + ReplyLines(send(request), parseJson), Some(Trim(args[1])), Some(request))
  {
  }

  /** A status outside 2xx ends the output with the one status line; no body line is printed. */
  lemma FailedStatusEndsOutput(args: seq<string>, parseUrl: string -> UrlParse, send: Request -> Reply,
                               parseJson: string -> Option<Json>)
    requires |args| >= 2
    requires var cfg := ParseArgs(args).value;
      && Check(parseUrl(cfg.url)).Accept?
      && send(Choose(cfg.methodName, cfg.url, cfg.data)).Response?
      && !IsSuccess(send(Choose(cfg.methodName, cfg.url, cfg.data)).status)
    ensures var cfg := ParseArgs(args).value;
      var code := send(Choose(cfg.methodName, cfg.url, cfg.data)).status;
      var out := Transcript(args, parseUrl, send, parseJson).out;
      && out == EchoLines(cfg) + [StatusLine(code)]
      && DecimalValue(out[|out| - 1][|StatusPrefix|..|out[|out| - 1]| - 1]) == code
  {
    AcceptedSession(args, parseUrl, send, parseJson);
  }

  /** A successful reply holding a JSON object prints the announcement and the rendered object. */
  lemma ObjectReplyLines(reply: Reply, parseJson: string -> Option<Json>)
    requires reply.Response? && IsSuccess(reply.status)
    requires parseJson(reply.body.GetOr("")).Some? && parseJson(reply.body.GetOr("")).value.Object?
    ensures var fields := parseJson(reply.body.GetOr("")).value.fields;
      && ReplyLines(reply, parseJson) == [JsonAnnouncement] + ObjectLines(SortByKey(fields, KeyOf))
      && |ReplyLines(reply, parseJson)| == |fields| + 3
  {
    var fields := parseJson(reply.body.GetOr("")).value.fields;
    ObjectLinesShape(fields);
  }

  /**
   * A successful reply whose body parses as a JSON object with `n` fields
   * prints the announcement and then `n + 2` lines: `{`, the field lines in
   * ascending key order, `}`.
   */
  lemma JsonObjectOutput(args: seq<string>, parseUrl: string -> UrlParse, send: Request -> Reply,
                         parseJson: string -> Option<Json>)
    requires |args| >= 2
    requires var cfg := ParseArgs(args).value;
      var reply := send(Choose(cfg.methodName, cfg.url, cfg.data));
      && Check(parseUrl(cfg.url)).Accept?
      && reply.Response? && IsSuccess(reply.status)
      && parseJson(reply.body.GetOr("")).Some? && parseJson(reply.body.GetOr("")).value.Object?
    ensures var cfg := ParseArgs(args).value;
      var reply := send(Choose(cfg.methodName, cfg.url, cfg.data));
      var fields := parseJson(reply.body.GetOr("")).value.fields;
      var out := Transcript(args, parseUrl, send, parseJson).out;
      var echo := EchoLines(cfg);
      && out == echo + [JsonAnnouncement] + ObjectLines(SortByKey(fields, KeyOf))
      && |out| == |echo| + 1 + |fields| + 2
      && Sorted(SortByKey(fields, KeyOf), KeyOf)
  {
    var cfg := ParseArgs(args).value;
    var reply := send(Choose(cfg.methodName, cfg.url, cfg.data));
    var fields := parseJson(reply.body.GetOr("")).value.fields;
    AcceptedSession(args, parseUrl, send, parseJson);
    ObjectReplyLines(reply, parseJson);
    ObjectFieldsSorted(fields);
  }

  /** A body that is not JSON is printed verbatim after its announcement. */
  lemma TextBodyOutput(args: seq<string>, parseUrl: string -> UrlParse, send: Request -> Reply,
                       parseJson: string -> Option<Json>)
    requires |args| >= 2
    requires var cfg := ParseArgs(args).value;
      var reply := send(Choose(cfg.methodName, cfg.url, cfg.data));
      && Check(parseUrl(cfg.url)).Accept?
      && reply.Response? && IsSuccess(reply.status)
      && parseJson(reply.body.GetOr("")).None?
    ensures var cfg := ParseArgs(args).value;
      var reply := send(Choose(cfg.methodName, cfg.url, cfg.data));
      Transcript(args, parseUrl, send, parseJson).out
        == EchoLines(cfg) + ["Response body:\n" + reply.body.GetOr("")]
  {
    AcceptedSession(args, parseUrl, send, parseJson);
  }

  /** `curl <url> -X post -d a=1` on an `http` URL sends the data as a form POST. */
  lemma PostExample(parseUrl: string -> UrlParse, send: Request -> Reply, parseJson: string -> Option<Json>)
    requires parseUrl("http://h") == Ok("http")
    ensures Transcript(["curl", "http://h", "-X", "post", "-d", "a=1"], parseUrl, send, parseJson).sent
      == Some(Request(Post, "http://h", Some(FormContentType), Some("a=1")))
  {
    PostWithData();
    LowerKeeps("http");
  }
}
