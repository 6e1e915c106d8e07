# mite client: error mapping, request composition and resource paths

A Dafny model of the decision layer of `mite`, a Python client for the mite
time-tracking REST API. Besides the HTTP call itself, the library does two
things, and the model covers both:

* **Error mapping** (`mite/errors.py`). There is a base `HttpException` and
  eleven subclasses. Each subclass fixes a reason phrase (`name`) and a status
  code. Module initialisation scans the module's globals into a registry.
  `get_exception(code)` returns an instance of the first registered class
  with that code. Otherwise it returns a generic `HttpException(status_code=code)`.
  `HttpException.__init__` stores the code only when it is truthy.
* **The client** (`mite/mite.py`). `Mite(team, api_key)` stores its two
  arguments. `request` builds the URL `https://<team>.mite.yo.lk<path>` and
  the three fixed headers, and hands the call to the transport. A status of
  300 or more raises the mapped exception. Otherwise an empty body gives `None`,
  a JSON body gives the decoded value, and any other body is returned raw.
  `get`/`put`/`post`/`patch`/`delete` call `request` with their own scheme.
  The resource methods only pick a scheme, a path (`str.format` with
  unpadded decimal ids) and a payload nested under one key.

Modules:

* `Decimal` (decimal.dfy): Python's `str` of an integer, and its inverse.
* `StrFormat` (strformat.dfy): the `{}` part of `str.format`, with lemmas
  for templates of one, two and three fields.
* `Errors` (errors.dfy): the exception classes as a datatype with their class
  attributes, and instances as values (`HttpError`). `ExceptionObject` is a
  small class whose constructor performs the conditional assignment of
  `__init__`. The module also holds the registry loop `FindExceptions`, the
  first-match `Lookup` / `GetException`, and `repr` with a parser for it.
* `MiteClient` (mite.dfy): the client. Every method ends in a single
  `self.request(scheme, url, data, params)` call. Each method is modelled by
  the arguments of that call, a `Call`. `Mite.Request(call, transport, decode)`
  is what `request` does with them. The transport and the JSON decoder are
  parameters.
* `MiteAsWritten` (mite_as_written.dfy): the write methods as the code
  spells them. Each of them raises (see Findings).
* `MiteExamples` (examples_mite.dfy): concrete instances (404, 422, 204, the
  `acme` URL, an entry body, an unpadded date).

## Model

| member | source | states |
|---|---|---|
| `Decimal.NatToString` | mite/mite.py:130 | `str` of a natural number is a non-empty string of digits, and has no leading zero unless the number is 0 |
| `Decimal.ParseIntToString` | mite/mite.py:137 | the decimal rendering of an id reads back as the same integer (the rendering loses nothing) |
| `Decimal.IntToStringInjective` | mite/mite.py:137 | distinct integers render as distinct strings |
| `StrFormat.FormatLiteral` | mite/mite.py:29 | text without `{` in front of a template is copied to the result unchanged and adds no field |
| `StrFormat.FormatOne` | mite/mite.py:137 | `pre{}post`.format(a) is `pre + a + post` |
| `StrFormat.FormatTwo` | mite/mite.py:29 | a two-field template yields its literal parts with the two arguments in order |
| `StrFormat.FormatThree` | mite/mite.py:130 | a three-field template yields its literal parts with the three arguments in order |
| `Errors.Construct` | mite/errors.py:5-7 | the instance shows the argument as `status_code` when it is truthy (not None, not 0), else the class attribute; the name is the class's |
| `Errors.ExceptionObject.constructor` | mite/errors.py:1-7 | assigning the instance attribute only for a truthy code, then reading it through instance-then-class lookup, gives exactly `Construct` |
| `Errors.FindExceptions` | mite/errors.py:74-85 | the loop appends, in order, exactly the globals that are exception classes with a non-None `status_code`; the result is `Registered(globals)` |
| `Errors.RegisteredMembers` | mite/errors.py:77-85 | a class is in the registry iff it is among the globals and its `status_code` is not None |
| `Errors.RegisteredAppend` | mite/errors.py:78-85 | scanning two runs of globals gives the two registries concatenated |
| `Errors.ExceptionsAreTheSubclasses` | mite/errors.py:19-88 | after initialisation the registry is the eleven subclasses in definition order |
| `Errors.ExceptionsHaveCodes` | mite/errors.py:77-85 | the registry holds exactly the classes that carry a code; the base class is excluded |
| `Errors.ExceptionsMatchTable` | mite/errors.py:19-71 | the i-th registered class has the i-th code and reason phrase of the standard table (RFC 9110 sections 15.5 and 15.6, RFC 4918 section 11.3, RFC 6585 section 4, and 522) |
| `Errors.ExceptionsDistinctCodes` | mite/errors.py:19-71 | no two registered classes share a status code |
| `Errors.Lookup` | mite/errors.py:91-95 | if some registry class has the code, the result is an instance of such a class and carries the code; if none has it, the result is `HttpException(status_code=code)`; the search always returns |
| `Errors.LookupUnique` | mite/errors.py:92-94 | with distinct codes the first match is the unique class with that code |
| `Errors.LookupOrderIndependent` | mite/errors.py:92-94 | with distinct codes, two registries holding the same classes in any order give the same result |
| `Errors.GetExceptionKnown` | mite/errors.py:91-94 | each of the eleven table codes gives its own subclass, with the table's name and that code |
| `Errors.GetExceptionUnknown` | mite/errors.py:91-95 | any other code gives the base class with name ""; its `status_code` is the code, except for 0, where it stays None |
| `Errors.GetExceptionNamedIff` | mite/errors.py:91-95 | the result has a non-empty name, and a class other than the base, exactly when the code is in the table |
| `Errors.ReprRoundTrip` | mite/errors.py:9-16 | `str(e)`, which equals `repr(e)` = "HTTP <code> <name>", reads back as the instance's code (or None) and name |
| `MiteClient.NewMite` | mite/mite.py:12-19 | the constructor keeps team and API key verbatim, accepts any strings, and sets the fixed URL template |
| `MiteClient.Mite.ResolveUrl` | mite/mite.py:19-29 | formatting the template gives exactly `"https://" + team + ".mite.yo.lk" + path` |
| `MiteClient.Mite.Outgoing` | mite/mite.py:29-40 | the transport receives the request's scheme, the resolved URL, exactly the three headers (`X-MiteApikey` = API key, the fixed User-Agent, `Content-Type: application/json`), and data and params unchanged |
| `MiteClient.RequestRaisesIff` | mite/mite.py:21-54 | `request` raises exactly when the transport's status is 300 or more, and the exception then carries that status |
| `MiteClient.RaisedCarriesStatus` | mite/mite.py:42-54 | a status of 300 or more, 3xx included, raises `get_exception(status)`: for a table code, a subclass with the table's name; for any other code, the base class; in both cases carrying the status |
| `MiteClient.SuccessClassified` | mite/mite.py:45-51 | below 300 nothing is raised: an empty body gives `None`, a decodable body its JSON, and any other body itself |
| `MiteClient.ConvenienceForwards` | mite/mite.py:56-99 | each of get/put/post/patch/delete hands url, data and params to the transport unchanged, under its own lower-case scheme |
| `MiteClient.AccountAndEntryListings` | mite/mite.py:101-122 | `/account.json` and `/myself.json` are fetched with no body and no params; `/time_entries.json` takes the keyword filters as params |
| `MiteClient.GetDaily` | mite/mite.py:124-131 | no date gives `/daily.json`; a date gives `/daily/<year>/<month>/<day>.json` in unpadded decimals |
| `MiteClient.GetEntryById` | mite/mite.py:133-137 | GET `/time_entries/<id>.json` with no body |
| `MiteClient.Wrap` | mite/mite.py:139-140 | the intended `{key: data}`: a single key whose value is the fields as an object |
| `MiteClient.UnwrapWrap` | mite/mite.py:139-140 | the wrapped fields can be read back under their key |
| `MiteClient.CreateEntry` | mite/mite.py:142-151 | POST `/time_entries.json` with the fields nested under `time_entry` |
| `MiteClient.EditEntry` | mite/mite.py:153-161 | PATCH `/time_entries/<id>.json` with the fields nested under `time_entry` |
| `MiteClient.DeleteEntry` | mite/mite.py:163-167 | DELETE `/time_entries/<id>.json` with no body |
| `MiteClient.TrackerAndBookmarkListings` | mite/mite.py:169-195 | `/tracker.json` and `/time_entries/bookmarks.json` are fetched with no body and no params |
| `MiteClient.TrackerBody` | mite/mite.py:179-182 | no body exactly when there are no fields; otherwise the fields nested under `tracking_time_entry` inside `tracker` |
| `MiteClient.StartTracker` | mite/mite.py:175-183 | PATCH `/tracker/<id>.json` with that tracker body and no params |
| `MiteClient.StopTracker` | mite/mite.py:185-189 | DELETE `/tracker/<id>.json` with no body |
| `MiteClient.GetBookmark` | mite/mite.py:197-201 | GET `/time_entries/boomarks/<id>.json`, misspelling kept |
| `MiteClient.TimeEntriesForBookmark` | mite/mite.py:203-207 | GET `/time_entries/bookmarks/:<id>/follow.json`, colon kept |
| `MiteClient.CustomerListings` | mite/mite.py:209-220 | `/customers.json` and `/customers/archived.json` take the keyword filters as params |
| `MiteClient.GetCustomer` | mite/mite.py:222-226 | GET `/customers/<id>.json` with no body |
| `MiteClient.CreateCustomer` | mite/mite.py:228-236 | POST `/customers.json`; the body nests the keyword fields plus `name` under `customer`; the keyword fields never hold `name`, since Python binds that keyword to the parameter |
| `MiteClient.CreateCustomerAddsName` | mite/mite.py:234-236 | the customer object's keys are the keyword fields plus `name`; `name` holds the argument and every keyword field keeps its value |
| `MiteClient.EditCustomer` | mite/mite.py:238-245 | PATCH `/customers/<id>.json` with the fields nested under `customer` |
| `MiteClient.DeleteCustomer` | mite/mite.py:247-252 | DELETE `/customers/<id>.json` with no body |
| `MiteClient.IdPathInjective` | mite/mite.py:137 | a path `pre + str(id) + post` determines the id |
| `MiteClient.IdMethodsInjective` | mite/mite.py:133-226 | distinct ids give distinct entry, customer, tracker and bookmark paths |
| `MiteAsWritten.WrapEntryDiscrepancy` | mite/mite.py:139-140 | `_wrap_entry` as written raises for every input; the intended wrapping is invertible |
| `MiteAsWritten.EntryWritesDiscrepancy` | mite/mite.py:142-161 | `create_entry` and `edit_entry` as written raise NameError for every input; the corrected methods send the wrapped fields |
| `MiteAsWritten.SelfWrapDiscrepancy` | mite/mite.py:175-245 | `create_customer` and `edit_customer` as written always raise AttributeError; `start_tracker` works only with no fields, and then agrees with the corrected method |
| `MiteAsWritten.StartTrackerWithNoteRaises` | mite/mite.py:175-183 | with the single field `note`, the code as written raises, while the corrected method sends the doubly nested body |
| `MiteExamples.AccountUrl` | mite/mite.py:19-29 | team `acme` requests `https://acme.mite.yo.lk/account.json` with no body |
| `MiteExamples.StatusExamples` | mite/mite.py:42-54 | 404 raises NotFound(404); 422 (mite/mite.py:249-250) raises the generic error with 422; 302 raises; 204 with an empty body returns None |
| `MiteExamples.ReprExamples` | mite/errors.py:5-13 | NotFound renders as "HTTP 404 Not Found"; `get_exception(0)` keeps a None code and renders as "HTTP None " |
| `MiteExamples.CreateEntryBody` | mite/mite.py:142-151 | fields `minutes: 30, note: "x"` are sent as `{"time_entry": {"minutes": 30, "note": "x"}}` |
| `MiteExamples.DailyUnpadded` | mite/mite.py:124-131 | 5 January 2024 gives `/daily/2024/1/5.json` |

## Left out

- The HTTP transport (`requests.__getattribute__(scheme)` and the call at mite/mite.py:38-40) is a function parameter of `Mite.Request`. A scheme that names no function of `requests` raises AttributeError there. That case is left to the transport, as are connection failures.
- Decoding and encoding JSON, and encoding `params` as a query string, are not modelled. Decoding is a function parameter; bodies and params are JSON values.
- JSON numbers are integers only. Floating-point values are not modelled.
- `str.format` is modelled for `{}` fields only. Escaped braces, indexed or named fields, and the ValueError for a lone brace are not modelled. The templates in the library use none of them.
- Identifiers are modelled as integers rendered with `str`. The code would pass any value through `str`, including a string.
- Dates are reduced to their `year`, `month` and `day` attributes.
- The reflection over `globals()` is modelled by its result. `ModuleGlobals` lists the module's bindings, reduced to whether each is an exception class. The interpreter's own module attributes are listed as the non-class values CPython defines.
- `MiteClient.CreateCustomer`: the TypeError Python raises when `name` is passed both by position and by keyword is not modelled; the function requires that the keyword fields hold no `name`, which Python's argument binding guarantees.
- `Errors.Construct`: the status argument is an optional integer. Python truthiness of other argument types is not modelled.
- Raising is modelled as the `Raised` outcome of `request`, not as control flow. `get_exception` returns the instance's value (`HttpError`). `ExceptionObject` shows the in-place construction of one such object.
- The code does not reject empty credentials, has no separate timeout error, and has no project, service or user methods; the model follows the code.
- `setup.py` holds packaging metadata only.

## Findings

| source | as written | input that shows it | evidently intended | confidence | as-written member | corrected member |
|---|---|---|---|---|---|---|
| mite/mite.py:139-140 | `_wrap_entry` returns `{key: kwargs}`, but `kwargs` is not bound there: NameError | any call, e.g. `_wrap_entry("time_entry", {})` | `{key: data}` | not executed | `MiteAsWritten.WrapEntryDiscrepancy` | `MiteClient.Wrap` |
| mite/mite.py:149 | `create_entry` and `edit_entry` (also line 159) call a global `_wrap_dict` that does not exist: NameError | `create_entry(minutes=30)` | wrap the fields under `time_entry` | not executed | `MiteAsWritten.EntryWritesDiscrepancy` | `MiteClient.CreateEntry` |
| mite/mite.py:181 | `start_tracker`, `create_customer` (line 234) and `edit_customer` (line 244) call `self._wrap_dict`, which `Mite` does not define: AttributeError | `start_tracker(7, note="x")` | nest under `tracker`/`tracking_time_entry`, or under `customer` | not executed | `MiteAsWritten.StartTrackerWithNoteRaises` | `MiteClient.StartTracker` |
