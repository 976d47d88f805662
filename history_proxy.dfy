/** The history proxy (server/server.mjs): the upstream URL for a city and a
    range, the defaulting of the query parameters, the projection of the
    upstream records onto three fields, the 502 error branch, and the CORS
    preflight answered before any route. The network, `encodeURIComponent`
    and the engine's TypeError text are parameters. */
module HistoryProxy {
  import opened Optional
  import opened Text

  const HistoryBase: string := "https://alerts-history.oref.org.il//Shared/Ajax/GetAlarmsHistory.aspx?lang=en"
  const CityKey: string := "city_0="
  const DefaultCity: string := "Yad Binyamin"
  const DefaultRange: string := "day"
  const FailureText: string := "History fetch failed"

  /** The `mode` an upstream query carries: 2 for a week, 3 for a month, and
      none for a day or for any range the switch does not name. */
  function ModeOf(range: string): (m: Option<int>)
    ensures m == Some(2) <==> range == "week"
    ensures m == Some(3) <==> range == "month"
    ensures m.None? <==> range != "week" && range != "month"
  {
    if range == "week" then Some(2) else if range == "month" then Some(3) else None
  }

  /** `buildHistoryURL(city, range)`, with `encodeURIComponent` as `enc`. */
  function BuildHistoryUrl(city: string, range: string, enc: string -> string): (url: string)
    ensures |HistoryBase| + |CityKey| + |enc(city)| <= |url|
    ensures url[..|HistoryBase|] == HistoryBase
    ensures url[|url| - |CityKey| - |enc(city)|..] == CityKey + enc(city)
  {
    var cityParam := CityKey + enc(city);
    match range
    case "day" => HistoryBase + "&" + cityParam
    case "week" => HistoryBase + "&mode=2&" + cityParam
    case "month" => HistoryBase + "&mode=3&" + cityParam
    case _ => HistoryBase + "&" + cityParam
  }

  /** Reads the mode and the encoded city back out of an upstream URL; the
      reference against which the builder's cases are checked. */
  function ParseHistoryUrl(url: string): (r: Option<(Option<int>, string)>)
    ensures r.Some? ==> |HistoryBase| <= |url| && url[..|HistoryBase|] == HistoryBase
  {
    if |url| < |HistoryBase| || url[..|HistoryBase|] != HistoryBase then None
    else
      var rest := url[|HistoryBase|..];
      if HasPrefix(rest, "&mode=2&" + CityKey) then Some((Some(2), rest[|"&mode=2&" + CityKey|..]))
      else if HasPrefix(rest, "&mode=3&" + CityKey) then Some((Some(3), rest[|"&mode=3&" + CityKey|..]))
      else if HasPrefix(rest, "&" + CityKey) then Some((None, rest[|"&" + CityKey|..]))
      else None
  }

  predicate HasPrefix(s: string, p: string) {
    |p| <= |s| && s[..|p|] == p
  }

  /** Parsing a built URL gives back the range's mode and the encoded city,
      so two URLs are equal only when mode and encoded city are. */
  lemma HistoryUrlRoundTrip(city: string, range: string, enc: string -> string)
    ensures ParseHistoryUrl(BuildHistoryUrl(city, range, enc)) == Some((ModeOf(range), enc(city)))
  {
    var url, c := BuildHistoryUrl(city, range, enc), enc(city);
    var rest := url[|HistoryBase|..];
    var m2, m3, d := "&mode=2&" + CityKey, "&mode=3&" + CityKey, "&" + CityKey;
    if range == "week" {
      assert rest == m2 + c;
      assert rest[..|m2|] == m2 && rest[|m2|..] == c;
    } else if range == "month" {
      assert rest == m3 + c;
      assert !HasPrefix(rest, m2) by { assert rest[6] == '3'; }
      assert rest[..|m3|] == m3 && rest[|m3|..] == c;
    } else {
      assert rest == d + c;
      assert !HasPrefix(rest, m2) && !HasPrefix(rest, m3) by { assert rest[1] == 'c'; }
      assert rest[..|d|] == d && rest[|d|..] == c;
    }
  }

  /** Two ranges give the same URL exactly when they select the same mode:
      a day and every unrecognised range share the mode-less URL. */
  lemma SameUrlIffSameMode(city: string, r1: string, r2: string, enc: string -> string)
    ensures BuildHistoryUrl(city, r1, enc) == BuildHistoryUrl(city, r2, enc) <==> ModeOf(r1) == ModeOf(r2)
  {
    HistoryUrlRoundTrip(city, r1, enc);
    HistoryUrlRoundTrip(city, r2, enc);
  }

  /** `(req.query.city || "Yad Binyamin").trim()`: an absent or empty city
      falls back to the default before trimming, so a blank city is trimmed
      to the empty string rather than replaced. */
  function CityParam(q: Option<string>): (city: string)
    ensures q.None? || q == Some("") ==> city == DefaultCity
    ensures q.Some? && q.value != "" ==> city == Trim(q.value)
  {
    var raw := if q.None? || q.value == "" then DefaultCity else q.value;
    TrimKeepsTrimmed(DefaultCity);
    Trim(raw)
  }

  /** A present city made only of whitespace becomes the empty string, not
      the default. */
  lemma BlankCityIsEmpty(s: string)
    requires s != [] && forall k :: 0 <= k < |s| ==> IsJsWhitespace(s[k])
    ensures CityParam(Some(s)) == ""
  {
    TrimWhitespaceOnly(s);
  }

  /** `(req.query.range || "day").toLowerCase()`. */
  function RangeParam(q: Option<string>): (range: string)
    ensures q.None? || q == Some("") ==> range == DefaultRange
    ensures q.Some? && q.value != "" ==>
      (|range| == |q.value| && forall i :: 0 <= i < |range| ==> range[i] == AsciiLower(q.value[i]))
  {
    var raw := if q.None? || q.value == "" then DefaultRange else q.value;
    ToLower(raw)
  }

  /** Upper-case ranges select the same mode as lower-case ones: "WEEK"
      asks for mode 2 and "Month" for mode 3. */
  lemma RangeIgnoresCase()
    ensures ModeOf(RangeParam(Some("WEEK"))) == Some(2)
    ensures ModeOf(RangeParam(Some("Month"))) == Some(3)
    ensures ModeOf(RangeParam(None)) == None
  {
    var w, m := RangeParam(Some("WEEK")), RangeParam(Some("Month"));
    assert w == "week" by {
      assert |w| == 4 && w[0] == 'w' && w[1] == 'e' && w[2] == 'e' && w[3] == 'k';
    }
    assert m == "month" by {
      assert |m| == 5 && m[0] == 'm' && m[1] == 'o' && m[2] == 'n' && m[3] == 't' && m[4] == 'h';
    }
  }

  /** JSON values as the upstream returns them. */
  datatype Json = JNull | JBool(b: bool) | JNum(n: int) | JStr(s: string) | JArr(items: seq<Json>) | JObj(fields: map<string, Json>)

  /** The request sent upstream: the URL and the two fixed headers. */
  datatype UpstreamRequest = UpstreamRequest(url: string, headers: seq<(string, string)>)

  /** What the upstream fetch settles to: a rejection with its message, or a
      reply with a status, a status text and a body that is either parsed
      JSON or a parse failure with its message. */
  datatype Upstream =
    | Unreachable(message: string)
    | Replied(status: int, statusText: string, body: Result)

  datatype Result = Parsed(value: Json) | Unparsable(message: string)

  datatype Response = Response(status: int, headers: seq<(string, string)>, body: Json)

  const CorsHeaders: seq<(string, string)> := [
    ("Access-Control-Allow-Origin", "*"),
    ("Access-Control-Allow-Methods", "GET,OPTIONS"),
    ("Access-Control-Allow-Headers", "Content-Type")
  ]

  const ProjectedFields: set<string> := {"alertDate", "category", "category_desc"}

  function HistoryRequest(city: string, range: string, enc: string -> string): (req: UpstreamRequest)
    ensures req.url == BuildHistoryUrl(city, range, enc)
    ensures ("X-Requested-With", "XMLHttpRequest") in req.headers
    ensures ("Referer", "https://alerts-history.oref.org.il/") in req.headers
  {
    UpstreamRequest(BuildHistoryUrl(city, range, enc),
      [("X-Requested-With", "XMLHttpRequest"), ("Referer", "https://alerts-history.oref.org.il/")])
  }

  /** `({ alertDate, category, category_desc }) => ({ ... })` on an object:
      the fields of the three that are present, unchanged (an absent one is
      undefined and is not serialised). */
  function ProjectObject(fields: map<string, Json>): (r: map<string, Json>)
    ensures r.Keys == fields.Keys * ProjectedFields
    ensures forall k :: k in r ==> r[k] == fields[k]
  {
    map k | k in fields.Keys * ProjectedFields :: fields[k]
  }

  /** The projection of one array element: `None` where destructuring throws
      (a null element); any other non-object has none of the fields. */
  function ProjectItem(item: Json): (r: Option<Json>)
    ensures r.None? <==> item.JNull?
    ensures item.JObj? ==> r == Some(JObj(ProjectObject(item.fields)))
  {
    match item
    case JNull => None
    case JObj(fields) => Some(JObj(ProjectObject(fields)))
    case _ => Some(JObj(map[]))
  }

  /** `raw.map(...)`: `None` when `raw` is not an array or an element throws. */
  function ProjectAll(raw: seq<Json>): (r: Option<seq<Json>>)
    ensures r.Some? <==> forall i :: 0 <= i < |raw| ==> !raw[i].JNull?
  {
    if raw == [] then Some([])
    else
      match (ProjectAll(raw[..|raw| - 1]), ProjectItem(raw[|raw| - 1]))
      case (Some(init), Some(last)) => Some(init + [last])
      case _ => None
  }

  /** The projected array has the upstream array's length and order, each
      element keeping exactly those of the three fields it had. */
  lemma {:induction false} ProjectionKeepsOrder(raw: seq<Json>)
    requires ProjectAll(raw).Some?
    ensures |ProjectAll(raw).value| == |raw|
    ensures forall i :: 0 <= i < |raw| ==> Some(ProjectAll(raw).value[i]) == ProjectItem(raw[i])
  {
    if raw != [] {
      var init := raw[..|raw| - 1];
      ProjectionKeepsOrder(init);
      forall i | 0 <= i < |init|
        ensures raw[i] == init[i]
      {
      }
    }
  }

  function FailureBody(detail: string): Json {
    JObj(map["error" := JStr(FailureText), "detail" := JStr(detail)])
  }

  /** The `try`/`catch` of the `/api/history` handler once the upstream has
      settled: a rejection, a status outside 200-299, a body that is not JSON,
      and a `map` that throws all become a 502; otherwise the projected
      records are sent. `typeError` is the message the engine gives when
      `raw.map` is missing or a destructuring throws. */
  function Respond(u: Upstream, typeError: string): (r: Response)
    ensures r.headers == CorsHeaders
    ensures r.status == 200 || r.status == 502
    ensures r.status == 502 <==> r.body.JObj? && "error" in r.body.fields
    ensures r.status == 502 ==> exists m :: r.body == FailureBody(m)
    ensures u.Unreachable? ==> r == Response(502, CorsHeaders, FailureBody(u.message))
    ensures (u.Replied? && 200 <= u.status <= 299 && u.body.Unparsable?) ==>
      r == Response(502, CorsHeaders, FailureBody(u.body.message))
    ensures (u.Replied? && 200 <= u.status <= 299 && u.body.Parsed? && !u.body.value.JArr?) ==>
      r == Response(502, CorsHeaders, FailureBody(typeError))
    ensures (&& u.Replied? && 200 <= u.status <= 299 && u.body.Parsed? && u.body.value.JArr?
             && exists i :: 0 <= i < |u.body.value.items| && u.body.value.items[i].JNull?) ==>
      r == Response(502, CorsHeaders, FailureBody(typeError))
  {
    match u
    case Unreachable(message) => Response(502, CorsHeaders, FailureBody(message))
    case Replied(status, statusText, body) =>
      if !(200 <= status <= 299) then
        Response(502, CorsHeaders, FailureBody(IntToString(status) + " " + statusText))
      else
        match body
        case Unparsable(message) => Response(502, CorsHeaders, FailureBody(message))
        case Parsed(raw) =>
          if !raw.JArr? then Response(502, CorsHeaders, FailureBody(typeError))
          else
            match ProjectAll(raw.items)
            case None => Response(502, CorsHeaders, FailureBody(typeError))
            case Some(clean) => Response(200, CorsHeaders, JArr(clean))
  }

  /** The `/api/history` handler: the defaulted parameters, the upstream
      request, and the response to what `fetch` settles to. */
  function History(city: Option<string>, range: Option<string>, enc: string -> string,
                   fetch: UpstreamRequest -> Upstream, typeError: string): Response
  {
    Respond(fetch(HistoryRequest(CityParam(city), RangeParam(range), enc)), typeError)
  }

  /** A reply outside 200-299 is a 502 whose detail is the status code and
      the status text, separated by a space, whatever the body. */
  lemma NonOkIsBadGateway(u: Upstream, typeError: string)
    requires u.Replied? && !(200 <= u.status <= 299)
    ensures Respond(u, typeError) == Response(502, CorsHeaders, FailureBody(IntToString(u.status) + " " + u.statusText))
  {
  }

  /** A successful reply carrying an array of non-null records is answered
      with 200 and the projection of exactly those records, in their order. */
  lemma SuccessProjects(u: Upstream, typeError: string, raw: seq<Json>)
    requires u.Replied? && 200 <= u.status <= 299 && u.body == Parsed(JArr(raw))
    requires forall i :: 0 <= i < |raw| ==> !raw[i].JNull?
    ensures Respond(u, typeError).status == 200
    ensures Respond(u, typeError).body.JArr?
    ensures |Respond(u, typeError).body.items| == |raw|
    ensures forall i :: 0 <= i < |raw| ==> Some(Respond(u, typeError).body.items[i]) == ProjectItem(raw[i])
  {
    ProjectionKeepsOrder(raw);
  }

  /** The request method; the model routes on these two. */
  datatype Verb = Get | Options | OtherVerb(name: string)

  /** The request pipeline: the CORS headers on every response, the OPTIONS
      preflight answered with 200 before any route, and `GET /api/history`
      handed to the handler. Other routes (static files, the health check)
      are `None`. */

  function Dispatch(verb: Verb, path: string, city: Option<string>, range: Option<string>,
                    enc: string -> string, fetch: UpstreamRequest -> Upstream, typeError: string): (r: Option<Response>)
    ensures r.Some? ==> r.value.headers == CorsHeaders && (r.value.status == 200 || r.value.status == 502)
    ensures verb == Options ==> r == Some(Response(200, CorsHeaders, JStr("OK")))
    ensures verb == Get && path == "/api/history" ==> r == Some(History(city, range, enc, fetch, typeError))
  {
    if verb == Options then Some(Response(200, CorsHeaders, JStr("OK")))
    else if verb == Get && path == "/api/history" then Some(History(city, range, enc, fetch, typeError))
    else None
  }

  /** A preflight never reaches the upstream: its answer is the same whatever
      the network would have replied. */
  lemma PreflightIgnoresUpstream(path: string, city: Option<string>, range: Option<string>, enc: string -> string,
                                 f1: UpstreamRequest -> Upstream, f2: UpstreamRequest -> Upstream, typeError: string)
    ensures Dispatch(Options, path, city, range, enc, f1, typeError) == Dispatch(Options, path, city, range, enc, f2, typeError)
  {
  }
}
