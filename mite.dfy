/**
 * The client class `Mite`: composing the HTTP call that `request` makes,
 * classifying the response, the five convenience methods, and the
 * resource methods, which only choose a scheme, a path and a payload.
 *
 * Every method of the client ends in one call `self.request(scheme, url,
 * data, params)`.  Each is modelled by that call's arguments, a `Call`;
 * `Mite.Request` then gives what `request` does with them.  The HTTP
 * transport and the JSON decoder are parameters of `Request`.
 */
module MiteClient {
  import opened Wrappers
  import Decimal
  import StrFormat
  import Errors

  newtype byte = b: int | 0 <= b < 256

  /** A JSON value, as sent in a request body or decoded from a response. */
  datatype Json =
    | JNull
    | JBool(b: bool)
    | JNumber(n: int)
    | JString(s: string)
    | JArray(items: seq<Json>)
    | JObject(fields: map<string, Json>)

  /** Keyword arguments (`**kwargs`): names bound to JSON-serialisable values. */
  type Fields = map<string, Json>

  /** A date, reduced to the three attributes `get_daily` reads. */
  datatype Date = Date(year: int, month: int, day: int)

  const UrlTemplate: string := "https://{}.mite.yo.lk{}"
  const UserAgent: string := "mite Python wrapper: https://github.com/port-zero/mite"

  /** The arguments of one call to `Mite.request`. */
  datatype Call = Call(scheme: string, url: string, data: Option<Json>, params: Option<Fields>)

  /** What `request` hands to the transport `requests.<scheme>`. */
  datatype HttpCall = HttpCall(
    scheme: string, url: string, headers: map<string, string>, json: Option<Json>, params: Option<Fields>)

  /** The transport's reply: the status code and the raw body. */
  datatype Response = Response(status: int, content: seq<byte>)

  /** What `request` produces: a raised exception or a returned value. */
  datatype Outcome =
    | Raised(error: Errors.HttpError)  // the exception `get_exception(status)` raised
    | NoContent                        // `None`
    | Parsed(json: Json)               // the decoded JSON body
    | Raw(content: seq<byte>)          // the body, when it is not JSON

  /** A client: the team and the API key, stored as given. */
  datatype Mite = Mite(team: string, apiKey: string)
  {
    /** The attribute `url`, the same template for every client. */
    const url: string := UrlTemplate

    /** `self.url.format(self.team, path)`. */
    function ResolveUrl(path: string): (u: string)
      ensures u == "https://" + team + ".mite.yo.lk" + path
    {
      UrlShape(team, path);
      StrFormat.Format(url, [team, path])
    }

    /** The headers of every request. */
    function Headers(): map<string, string>
    {
      map["X-MiteApikey" := apiKey, "User-Agent" := UserAgent, "Content-Type" := "application/json"]
    }

    /** The HTTP call `request(c.scheme, c.url, c.data, c.params)` makes. */
    function Outgoing(c: Call): (h: HttpCall)
      ensures h.scheme == c.scheme && h.json == c.data && h.params == c.params
      ensures h.url == "https://" + team + ".mite.yo.lk" + c.url
      ensures h.headers.Keys == {"X-MiteApikey", "User-Agent", "Content-Type"}
      ensures h.headers["X-MiteApikey"] == apiKey
      ensures h.headers["User-Agent"] == UserAgent
      ensures h.headers["Content-Type"] == "application/json"
    {
      HttpCall(c.scheme, ResolveUrl(c.url), Headers(), c.data, c.params)
    }

    /** `request`: make the call, then classify the response. */
    function Request(c: Call, transport: HttpCall -> Response, decode: seq<byte> -> Option<Json>): Outcome
    {
      Classify(transport(Outgoing(c)), decode)
    }
  }

  /** `Mite(team, api_key)`: no validation, no I/O. */
  function NewMite(team: string, apiKey: string): (m: Mite)
    ensures m.team == team && m.apiKey == apiKey && m.url == UrlTemplate
  {
    Mite(team, apiKey)
  }

  lemma UrlTemplateParts()
    ensures UrlTemplate == "https://" + ("{}" + (".mite.yo.lk" + ("{}" + "")))
    ensures StrFormat.NoBrace("https://") && StrFormat.NoBrace(".mite.yo.lk") && StrFormat.NoBrace("")
  {
  }

  lemma UrlShape(team: string, path: string)
    ensures StrFormat.Holes(UrlTemplate) == 2
    ensures StrFormat.Format(UrlTemplate, [team, path]) == "https://" + team + ".mite.yo.lk" + path
  {
    UrlTemplateParts();
    StrFormat.FormatTwo("https://", ".mite.yo.lk", "", team, path);
    Concat4("https://", team, ".mite.yo.lk", path);
  }

  lemma Concat4(a: string, b: string, c: string, d: string)
    ensures a + (b + (c + (d + ""))) == a + b + c + d
  {
    assert d + "" == d;
  }

  /**
   * The response handling of `request`: a status of 300 or more raises the
   * mapped exception; otherwise an empty body gives `None`, a body that
   * decodes gives the JSON value, and any other body is returned as is.
   */
  function Classify(res: Response, decode: seq<byte> -> Option<Json>): Outcome
  {
    if res.status >= 300 then Raised(Errors.GetException(res.status))
    else if |res.content| == 0 then NoContent
    else match decode(res.content)
      case Some(j) => Parsed(j)
      case None => Raw(res.content)
  }

  /** `template.format(id_)` for a template with one field between `pre` and `post`. */
  function FormatId(template: string, pre: string, post: string, id: int): (p: string)
    requires template == pre + ("{}" + post)
    requires StrFormat.NoBrace(pre) && StrFormat.NoBrace(post)
    ensures p == pre + Decimal.IntToString(id) + post
  {
    StrFormat.FormatOne(pre, post, Decimal.IntToString(id));
    StrFormat.Format(template, [Decimal.IntToString(id)])
  }

  // The convenience methods: `request` with a fixed lower-case scheme.

  function Get(url: string, data: Option<Json>, params: Option<Fields>): Call {
    Call("get", url, data, params)
  }

  function Put(url: string, data: Option<Json>, params: Option<Fields>): Call {
    Call("put", url, data, params)
  }

  function Post(url: string, data: Option<Json>, params: Option<Fields>): Call {
    Call("post", url, data, params)
  }

  function Patch(url: string, data: Option<Json>, params: Option<Fields>): Call {
    Call("patch", url, data, params)
  }

  function Delete(url: string, data: Option<Json>, params: Option<Fields>): Call {
    Call("delete", url, data, params)
  }

  // Payloads.

  /**
   * `{key: data}`.  This is what the helper `_wrap_entry` evidently means
   * and what the write methods expect of the `_wrap_dict` they call; the
   * code as written raises instead (modelled in module `MiteAsWritten`).
   */
  function Wrap(key: string, data: Fields): (w: Fields)
    ensures w.Keys == {key} && w[key] == JObject(data)
  {
    map[key := JObject(data)]
  }

  /** The fields nested under `key`, when `body` is an object with that single key. */
  function Unwrap(key: string, body: Json): Option<Fields>
  {
    if body.JObject? && body.fields.Keys == {key} && body.fields[key].JObject? then Some(body.fields[key].fields)
    else None
  }

  lemma UnwrapWrap(key: string, data: Fields)
    ensures Unwrap(key, JObject(Wrap(key, data))) == Some(data)
  {
  }

  /** The body `start_tracker` sends: none for no fields, else the fields nested twice. */
  function TrackerBody(kwargs: Fields): (body: Option<Json>)
    ensures body.None? <==> kwargs == map[]
    ensures body.Some? ==> Unwrap("tracker", body.value) == Some(Wrap("tracking_time_entry", kwargs))
    ensures body.Some? ==> Unwrap("tracking_time_entry", JObject(Unwrap("tracker", body.value).value)) == Some(kwargs)
  {
    if kwargs == map[] then None
    else Some(JObject(Wrap("tracker", Wrap("tracking_time_entry", kwargs))))
  }

  // The resource methods.

  function GetAccount(): Call {
    Get("/account.json", None, None)
  }

  function GetMe(): Call {
    Get("/myself.json", None, None)
  }

  function GetEntries(kwargs: Fields): Call {
    Get("/time_entries.json", None, Some(kwargs))
  }

  /** `get_daily`: today's entries without a date, else the entries of that date. */
  function GetDaily(date: Option<Date>): (c: Call)
    ensures c.scheme == "get" && c.data.None? && c.params.None?
    ensures date.None? ==> c.url == "/daily.json"
    ensures date.Some? ==> c.url == "/daily/" + Decimal.IntToString(date.value.year)
                                   + "/" + Decimal.IntToString(date.value.month)
                                   + "/" + Decimal.IntToString(date.value.day) + ".json"
  {
    if date.None? then Get("/daily.json", None, None)
    else
      var y, m, d := Decimal.IntToString(date.value.year), Decimal.IntToString(date.value.month),
                     Decimal.IntToString(date.value.day);
      DailyTemplate(y, m, d);
      Get(StrFormat.Format("/daily/{}/{}/{}.json", [y, m, d]), None, None)
  }

  lemma DailyTemplate(y: string, m: string, d: string)
    ensures StrFormat.Holes("/daily/{}/{}/{}.json") == 3
    ensures StrFormat.Format("/daily/{}/{}/{}.json", [y, m, d]) == "/daily/" + y + "/" + m + "/" + d + ".json"
  {
    assert "/daily/{}/{}/{}.json" == "/daily/" + ("{}" + ("/" + ("{}" + ("/" + ("{}" + ".json")))));
    assert StrFormat.NoBrace("/daily/") && StrFormat.NoBrace("/") && StrFormat.NoBrace(".json");
    StrFormat.FormatThree("/daily/", "/", "/", ".json", y, m, d);
    assert "/daily/" + (y + ("/" + (m + ("/" + (d + ".json"))))) == "/daily/" + y + "/" + m + "/" + d + ".json";
  }

  function GetEntryById(id: int): (c: Call)
    ensures c == Call("get", "/time_entries/" + Decimal.IntToString(id) + ".json", None, None)
  {
    Get(FormatId("/time_entries/{}.json", "/time_entries/", ".json", id), None, None)
  }

  function CreateEntry(kwargs: Fields): (c: Call)
    ensures c.scheme == "post" && c.url == "/time_entries.json" && c.params.None?
    ensures c.data.Some? && Unwrap("time_entry", c.data.value) == Some(kwargs)
  {
    var data := Wrap("time_entry", kwargs);
    Post("/time_entries.json", Some(JObject(data)), None)
  }

  function EditEntry(id: int, kwargs: Fields): (c: Call)
    ensures c.scheme == "patch" && c.url == "/time_entries/" + Decimal.IntToString(id) + ".json"
    ensures c.params.None? && c.data.Some? && Unwrap("time_entry", c.data.value) == Some(kwargs)
  {
    var data := Wrap("time_entry", kwargs);
    Patch(FormatId("/time_entries/{}.json", "/time_entries/", ".json", id), Some(JObject(data)), None)
  }

  function DeleteEntry(id: int): (c: Call)
    ensures c == Call("delete", "/time_entries/" + Decimal.IntToString(id) + ".json", None, None)
  {
    Delete(FormatId("/time_entries/{}.json", "/time_entries/", ".json", id), None, None)
  }

  function ShowTracker(): Call {
    Get("/tracker.json", None, None)
  }

  function StartTracker(id: int, kwargs: Fields): (c: Call)
    ensures c == Call("patch", "/tracker/" + Decimal.IntToString(id) + ".json", TrackerBody(kwargs), None)
  {
    Patch(FormatId("/tracker/{}.json", "/tracker/", ".json", id), TrackerBody(kwargs), None)
  }

  function StopTracker(id: int): (c: Call)
    ensures c == Call("delete", "/tracker/" + Decimal.IntToString(id) + ".json", None, None)
  {
    Delete(FormatId("/tracker/{}.json", "/tracker/", ".json", id), None, None)
  }

  function ListBookmarks(): Call {
    Get("/time_entries/bookmarks.json", None, None)
  }

  /** `get_bookmark`; the path is spelled `boomarks`, as in the source. */
  function GetBookmark(id: int): (c: Call)
    ensures c == Call("get", "/time_entries/boomarks/" + Decimal.IntToString(id) + ".json", None, None)
  {
    Get(FormatId("/time_entries/boomarks/{}.json", "/time_entries/boomarks/", ".json", id), None, None)
  }

  /** `time_entries_for_bookmark`; the colon before the id is part of the path, as in the source. */
  function TimeEntriesForBookmark(id: int): (c: Call)
    ensures c == Call("get", "/time_entries/bookmarks/:" + Decimal.IntToString(id) + "/follow.json", None, None)
  {
    Get(FormatId("/time_entries/bookmarks/:{}/follow.json", "/time_entries/bookmarks/:", "/follow.json", id),
        None, None)
  }

  function ListCustomers(kwargs: Fields): Call {
    Get("/customers.json", None, Some(kwargs))
  }

  function ListArchivedCustomers(kwargs: Fields): Call {
    Get("/customers/archived.json", None, Some(kwargs))
  }

  function GetCustomer(id: int): (c: Call)
    ensures c == Call("get", "/customers/" + Decimal.IntToString(id) + ".json", None, None)
  {
    Get(FormatId("/customers/{}.json", "/customers/", ".json", id), None, None)
  }

  /**
   * `create_customer`: the argument `name` is written into the wrapped
   * fields.  Python binds a `name` keyword to that parameter, and passing
   * both raises TypeError before the body runs, so `**kwargs` never holds
   * a key `name`.
   */
  function CreateCustomer(name: Json, kwargs: Fields): (c: Call)
    requires "name" !in kwargs
    ensures c.scheme == "post" && c.url == "/customers.json" && c.params.None? && c.data.Some?
    ensures Unwrap("customer", c.data.value) == Some(kwargs["name" := name])
  {
    var data := Wrap("customer", kwargs);
    var customer := data["customer"].fields["name" := name];
    var data := data["customer" := JObject(customer)];
    Post("/customers.json", Some(JObject(data)), None)
  }

  function EditCustomer(id: int, kwargs: Fields): (c: Call)
    ensures c.scheme == "patch" && c.url == "/customers/" + Decimal.IntToString(id) + ".json"
    ensures c.params.None? && c.data.Some? && Unwrap("customer", c.data.value) == Some(kwargs)
  {
    var data := Wrap("customer", kwargs);
    Patch(FormatId("/customers/{}.json", "/customers/", ".json", id), Some(JObject(data)), None)
  }

  function DeleteCustomer(id: int): (c: Call)
    ensures c == Call("delete", "/customers/" + Decimal.IntToString(id) + ".json", None, None)
  {
    Delete(FormatId("/customers/{}.json", "/customers/", ".json", id), None, None)
  }

  // What the methods promise.

  /** Each convenience method passes url, data and params through unchanged, under its own scheme. */
  lemma ConvenienceForwards(m: Mite, url: string, data: Option<Json>, params: Option<Fields>)
    ensures m.Outgoing(Get(url, data, params)) == HttpCall("get", "https://" + m.team + ".mite.yo.lk" + url, m.Headers(), data, params)
    ensures m.Outgoing(Put(url, data, params)) == HttpCall("put", "https://" + m.team + ".mite.yo.lk" + url, m.Headers(), data, params)
    ensures m.Outgoing(Post(url, data, params)) == HttpCall("post", "https://" + m.team + ".mite.yo.lk" + url, m.Headers(), data, params)
    ensures m.Outgoing(Patch(url, data, params)) == HttpCall("patch", "https://" + m.team + ".mite.yo.lk" + url, m.Headers(), data, params)
    ensures m.Outgoing(Delete(url, data, params)) == HttpCall("delete", "https://" + m.team + ".mite.yo.lk" + url, m.Headers(), data, params)
  {
  }

  /** Account, user and time-entry listings: fixed paths, no body, keyword filters as params. */
  lemma AccountAndEntryListings(kwargs: Fields)
    ensures GetAccount() == Call("get", "/account.json", None, None)
    ensures GetMe() == Call("get", "/myself.json", None, None)
    ensures GetEntries(kwargs) == Call("get", "/time_entries.json", None, Some(kwargs))
  {
  }

  /** The tracker state and the bookmark list: fixed paths, no body, no params. */
  lemma TrackerAndBookmarkListings()
    ensures ShowTracker() == Call("get", "/tracker.json", None, None)
    ensures ListBookmarks() == Call("get", "/time_entries/bookmarks.json", None, None)
  {
  }

  /** Customer listings pass their keyword filters as params. */
  lemma CustomerListings(kwargs: Fields)
    ensures ListCustomers(kwargs) == Call("get", "/customers.json", None, Some(kwargs))
    ensures ListArchivedCustomers(kwargs) == Call("get", "/customers/archived.json", None, Some(kwargs))
  {
  }

  /** An identifier path determines the identifier: unpadded decimals lose nothing. */
  lemma {:induction false} IdPathInjective(pre: string, post: string, a: int, b: int)
    requires pre + Decimal.IntToString(a) + post == pre + Decimal.IntToString(b) + post
    ensures a == b
  {
    var p := pre + Decimal.IntToString(a) + post;
    var q := pre + Decimal.IntToString(b) + post;
    assert p[|pre|..|p| - |post|] == Decimal.IntToString(a);
    assert q[|pre|..|q| - |post|] == Decimal.IntToString(b);
    Decimal.IntToStringInjective(a, b);
  }

  /** Distinct entries, customers and trackers are addressed by distinct paths. */
  lemma IdMethodsInjective(a: int, b: int)
    requires a != b
    ensures GetEntryById(a).url != GetEntryById(b).url
    ensures GetCustomer(a).url != GetCustomer(b).url
    ensures StopTracker(a).url != StopTracker(b).url
    ensures GetBookmark(a).url != GetBookmark(b).url
  {
    if GetEntryById(a).url == GetEntryById(b).url {
      IdPathInjective("/time_entries/", ".json", a, b);
    }
    if GetCustomer(a).url == GetCustomer(b).url {
      IdPathInjective("/customers/", ".json", a, b);
    }
    if StopTracker(a).url == StopTracker(b).url {
      IdPathInjective("/tracker/", ".json", a, b);
    }
    if GetBookmark(a).url == GetBookmark(b).url {
      IdPathInjective("/time_entries/boomarks/", ".json", a, b);
    }
  }

  /** The customer object holds the keyword fields unchanged plus `name`. */
  lemma CreateCustomerAddsName(name: Json, kwargs: Fields)
    requires "name" !in kwargs
    ensures var inner := Unwrap("customer", CreateCustomer(name, kwargs).data.value).value;
      && inner.Keys == kwargs.Keys + {"name"}
      && inner["name"] == name
      && (forall k :: k in kwargs ==> inner[k] == kwargs[k])
  {
  }

  /** A status of 300 or more, 3xx included, raises; the exception carries that status. */
  lemma RaisedCarriesStatus(res: Response, decode: seq<byte> -> Option<Json>)
    requires res.status >= 300
    ensures Classify(res, decode).Raised?
    ensures Classify(res, decode).error.statusCode == Some(res.status)
    ensures Classify(res, decode).error.Name() != "" <==> Errors.KnownCode(res.status)
    ensures Classify(res, decode).error == Errors.GetException(res.status)
    ensures forall i :: 0 <= i < |Errors.StandardTable| && Errors.StandardTable[i].0 == res.status ==>
              Classify(res, decode).error.cls != Errors.HttpException
              && Classify(res, decode).error.Name() == Errors.StandardTable[i].1
    ensures !Errors.KnownCode(res.status) ==> Classify(res, decode).error.cls == Errors.HttpException
  {
    Errors.GetExceptionNamedIff(res.status);
    if Errors.KnownCode(res.status) {
      var i :| 0 <= i < |Errors.StandardTable| && Errors.StandardTable[i].0 == res.status;
      Errors.GetExceptionKnown(i);
      forall j | 0 <= j < |Errors.StandardTable| && Errors.StandardTable[j].0 == res.status
        ensures Classify(res, decode).error.Name() == Errors.StandardTable[j].1
      {
        Errors.GetExceptionKnown(j);
      }
    } else {
      Errors.GetExceptionUnknown(res.status);
    }
  }

  /** Below 300 nothing is raised: empty body, decoded JSON, or the raw body when decoding fails. */
  lemma SuccessClassified(res: Response, decode: seq<byte> -> Option<Json>)
    requires res.status < 300
    ensures !Classify(res, decode).Raised?
    ensures Classify(res, decode).NoContent? <==> res.content == []
    ensures forall j :: Classify(res, decode) == Parsed(j) <==> res.content != [] && decode(res.content) == Some(j)
    ensures Classify(res, decode).Raw? <==> res.content != [] && decode(res.content).None?
    ensures Classify(res, decode).Raw? ==> Classify(res, decode).content == res.content
  {
  }

  /** `request` raises exactly when the transport's status is 300 or more. */
  lemma RequestRaisesIff(m: Mite, c: Call, transport: HttpCall -> Response, decode: seq<byte> -> Option<Json>)
    ensures var res := transport(m.Outgoing(c));
      m.Request(c, transport, decode).Raised? <==> res.status >= 300
    ensures var res := transport(m.Outgoing(c));
      m.Request(c, transport, decode).Raised? ==> m.Request(c, transport, decode).error.statusCode == Some(res.status)
  {
    var res := transport(m.Outgoing(c));
    if res.status >= 300 {
      RaisedCarriesStatus(res, decode);
    }
  }
}
