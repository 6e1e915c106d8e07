/** Worked instances of the client's behaviour on concrete inputs. */
module MiteExamples {
  import opened Wrappers
  import Decimal
  import Errors
  import opened MiteClient

  /** A client for team `acme` requests `/account.json` at the team's own host. */
  lemma AccountUrl(apiKey: string)
    ensures NewMite("acme", apiKey).Outgoing(GetAccount()).url == "https://acme.mite.yo.lk/account.json"
    ensures NewMite("acme", apiKey).Outgoing(GetAccount()).json.None?
  {
  }

  /** 404 raises `NotFound`; 422, which mite returns when deleting a customer with projects, falls back. */
  lemma StatusExamples(body: seq<byte>, decode: seq<byte> -> Option<Json>)
    ensures Classify(Response(404, body), decode) == Raised(Errors.HttpError(Errors.NotFound, Some(404)))
    ensures Classify(Response(422, body), decode) == Raised(Errors.HttpError(Errors.HttpException, Some(422)))
    ensures Classify(Response(302, body), decode).Raised?
    ensures Classify(Response(204, []), decode) == NoContent
  {
    Errors.GetExceptionKnown(3);
    Errors.GetExceptionNamedIff(404);
    Errors.GetExceptionUnknown(422);
  }

  /** The `repr` of a 404 error, and the code-less fallback for status 0. */
  lemma ReprExamples()
    ensures Errors.HttpError(Errors.NotFound, Some(404)).Str() == "HTTP 404 Not Found"
    ensures Errors.GetException(0) == Errors.HttpError(Errors.HttpException, None)
    ensures Errors.GetException(0).Str() == "HTTP None "
  {
    assert Decimal.NatToString(404) == "404";
    Errors.GetExceptionUnknown(0);
  }

  /** A time entry's fields are sent under `time_entry`. */
  lemma CreateEntryBody()
    ensures CreateEntry(map["minutes" := JNumber(30), "note" := JString("x")]).data
         == Some(JObject(map["time_entry" := JObject(map["minutes" := JNumber(30), "note" := JString("x")])]))
  {
  }

  /** Date parts are written without padding. */
  lemma DailyUnpadded()
    ensures GetDaily(Some(Date(2024, 1, 5))).url == "/daily/2024/1/5.json"
  {
    assert Decimal.NatToString(2024) == "2024";
    var c := GetDaily(Some(Date(2024, 1, 5)));
    assert c.url == "/daily/" + "2024" + "/" + "1" + "/" + "5" + ".json";
  }
}
