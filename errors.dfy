/**
 * The exception hierarchy of mite's error module: a base `HttpException`
 * and eleven subclasses, each fixing a reason phrase (`name`) and a
 * status code; the registry that module initialisation builds from the
 * module's globals; and `get_exception`, which maps a status code to an
 * exception instance.
 */
module Errors {
  import opened Wrappers
  import Decimal

  /** The twelve exception classes; `HttpException` is the base class. */
  datatype ExceptionClass =
    | HttpException
    | BadRequest | Unauthorized | Forbidden | NotFound | MethodNotAllowed
    | Locked | TooManyRequests
    | InternalServerError | BadGateway | ServiceUnavailable | ConnectionTimeout
  {
    /** The class attribute `name`. */
    function Name(): string {
      match this
      case HttpException => ""
      case BadRequest => "Bad Request"
      case Unauthorized => "Unauthorized"
      case Forbidden => "Forbidden"
      case NotFound => "Not Found"
      case MethodNotAllowed => "Method Not Allowed"
      case Locked => "Locked"
      case TooManyRequests => "Too Many Requests"
      case InternalServerError => "Internal Server Error"
      case BadGateway => "Bad Gateway"
      case ServiceUnavailable => "Service Unavailable"
      case ConnectionTimeout => "Connection Timeout"
    }

    /** The class attribute `status_code`; `None` on the base class. */
    function StatusCode(): Option<int> {
      match this
      case HttpException => None
      case BadRequest => Some(400)
      case Unauthorized => Some(401)
      case Forbidden => Some(403)
      case NotFound => Some(404)
      case MethodNotAllowed => Some(405)
      case Locked => Some(423)
      case TooManyRequests => Some(429)
      case InternalServerError => Some(500)
      case BadGateway => Some(502)
      case ServiceUnavailable => Some(503)
      case ConnectionTimeout => Some(522)
    }
  }

  /**
   * The reason phrases of the status codes mite recognises, written out
   * independently of the classes: RFC 9110 sections 15.5 and 15.6, RFC 4918
   * section 11.3 (423), RFC 6585 section 4 (429), and the non-standard 522.
   */
  const StandardTable: seq<(int, string)> := [
    (400, "Bad Request"), (401, "Unauthorized"), (403, "Forbidden"),
    (404, "Not Found"), (405, "Method Not Allowed"), (423, "Locked"),
    (429, "Too Many Requests"), (500, "Internal Server Error"),
    (502, "Bad Gateway"), (503, "Service Unavailable"), (522, "Connection Timeout")
  ]

  predicate KnownCode(code: int) {
    exists i :: 0 <= i < |StandardTable| && StandardTable[i].0 == code
  }

  /**
   * What an exception instance shows: its class and its `status_code`
   * attribute as read through the instance (the instance's own value when
   * `__init__` stored one, the class attribute otherwise).
   */
  datatype HttpError = HttpError(cls: ExceptionClass, statusCode: Option<int>)
  {
    function Name(): string {
      cls.Name()
    }

    /** `__repr__`: "HTTP <status_code> <name>", where a missing code prints as `None`. */
    function Repr(): string {
      "HTTP " + CodeText(statusCode) + " " + Name()
    }

    /** `__str__` (and `__unicode__`) return the `repr`. */
    function Str(): string {
      Repr()
    }
  }

  /** Python's `str` of an optional integer. */
  function CodeText(code: Option<int>): string {
    match code
    case None => "None"
    case Some(n) => Decimal.IntToString(n)
  }

  /** Python truthiness of the `status_code` argument: `None` and `0` are false. */
  predicate Truthy(arg: Option<int>) {
    arg.Some? && arg.value != 0
  }

  /**
   * The instance `cls(status_code=arg)` creates: `__init__` stores the
   * argument only when it is truthy, so otherwise the class attribute shows.
   */
  function Construct(cls: ExceptionClass, arg: Option<int>): (e: HttpError)
    ensures e.cls == cls && e.Name() == cls.Name()
    ensures Truthy(arg) ==> e.statusCode == arg
    ensures !Truthy(arg) ==> e.statusCode == cls.StatusCode()
  {
    HttpError(cls, if Truthy(arg) then arg else cls.StatusCode())
  }

  /**
   * An exception object.  `ownCode` is the instance attribute `status_code`,
   * absent until `__init__` assigns it; reading `status_code` falls back to
   * the class attribute.
   */
  class ExceptionObject {
    const cls: ExceptionClass
    var ownCode: Option<int>

    function StatusCode(): Option<int>
      reads this
    {
      if ownCode.Some? then ownCode else cls.StatusCode()
    }

    function View(): HttpError
      reads this
    {
      HttpError(cls, StatusCode())
    }

    /** `__init__(self, status_code=None)`. */
    constructor (cls: ExceptionClass, statusCode: Option<int>)
      ensures this.cls == cls
      ensures View() == Construct(cls, statusCode)
    {
      this.cls := cls;
      ownCode := None;
      new;
      if statusCode.Some? && statusCode.value != 0 {
        ownCode := statusCode;
      }
    }
  }

  /** A value bound in the module's globals, as `issubclass(obj, HttpException)` sees it. */
  datatype GlobalValue =
    | ClassValue(cls: ExceptionClass)  // one of the exception classes
    | OtherClass                       // a class that is not an HttpException subclass
    | NotAClass                        // anything else: issubclass raises TypeError

  /** Whether `_find_exceptions` appends this global to the registry. */
  predicate Registers(g: GlobalValue) {
    g.ClassValue? && g.cls.StatusCode().Some?
  }

  /** The registry `_find_exceptions` builds: the registering globals, in order. */
  function Registered(globals: seq<GlobalValue>): seq<ExceptionClass>
  {
    if globals == [] then []
    else
      var last := globals[|globals| - 1];
      Registered(globals[..|globals| - 1]) + (if Registers(last) then [last.cls] else [])
  }

  lemma {:induction false} RegisteredMembers(globals: seq<GlobalValue>)
    ensures forall c :: c in Registered(globals) <==> ClassValue(c) in globals && c.StatusCode().Some?
  {
    if globals != [] {
      var init := globals[..|globals| - 1];
      RegisteredMembers(init);
      assert globals == init + [globals[|globals| - 1]];
    }
  }

  lemma {:induction false} RegisteredAppend(a: seq<GlobalValue>, b: seq<GlobalValue>)
    ensures Registered(a + b) == Registered(a) + Registered(b)
    decreases |b|
  {
    if b == [] {
      assert a + b == a;
    } else {
      var init := b[..|b| - 1];
      assert (a + b)[..|a + b| - 1] == a + init;
      RegisteredAppend(a, init);
    }
  }

  lemma {:induction false} RegisteredNone(globals: seq<GlobalValue>)
    requires forall i :: 0 <= i < |globals| ==> !Registers(globals[i])
    ensures Registered(globals) == []
  {
    if globals != [] {
      RegisteredNone(globals[..|globals| - 1]);
    }
  }

  lemma {:induction false} RegisteredAll(globals: seq<GlobalValue>)
    requires forall i :: 0 <= i < |globals| ==> Registers(globals[i])
    ensures |Registered(globals)| == |globals|
    ensures forall i :: 0 <= i < |globals| ==> ClassValue(Registered(globals)[i]) == globals[i]
  {
    if globals != [] {
      RegisteredAll(globals[..|globals| - 1]);
    }
  }

  /**
   * `_find_exceptions`: walk the module's globals in order and append every
   * `HttpException` subclass whose `status_code` is not `None` to the
   * registry `exceptions`, which starts out empty.
   */
  method FindExceptions(globals: seq<GlobalValue>) returns (exceptions: seq<ExceptionClass>)
    ensures exceptions == Registered(globals)
    ensures forall c :: c in exceptions <==> ClassValue(c) in globals && c.StatusCode().Some?
  {
    exceptions := [];
    for i := 0 to |globals|
      invariant exceptions == Registered(globals[..i])
    {
      assert globals[..i + 1][..i] == globals[..i];
      var obj := globals[i];
      var isHttpException := obj.ClassValue?;
      if !isHttpException || obj.cls.StatusCode().None? {
        continue;
      }
      exceptions := exceptions + [obj.cls];
    }
    assert globals[..|globals|] == globals;
    RegisteredMembers(globals);
  }

  /**
   * The module's globals when `_find_exceptions` runs: the interpreter's
   * module attributes (`__name__`, `__doc__`, `__package__`, `__loader__`,
   * `__spec__`, `__file__`, `__cached__`, `__builtins__`), the twelve
   * classes in definition order, the list `exceptions` and the function
   * `_find_exceptions` itself.
   */
  const ModuleGlobals: seq<GlobalValue> :=
    [NotAClass, NotAClass, NotAClass, NotAClass, NotAClass, NotAClass, NotAClass, NotAClass]
    + [ClassValue(HttpException)]
    + [ClassValue(BadRequest), ClassValue(Unauthorized), ClassValue(Forbidden),
       ClassValue(NotFound), ClassValue(MethodNotAllowed), ClassValue(Locked)]
    + [ClassValue(TooManyRequests), ClassValue(InternalServerError),
       ClassValue(BadGateway), ClassValue(ServiceUnavailable), ClassValue(ConnectionTimeout)]
    + [NotAClass, NotAClass]

  /** The module-level list `exceptions` after initialisation. */
  const Exceptions: seq<ExceptionClass> := Registered(ModuleGlobals)

  /** No two classes of a registry share a status code. */
  predicate DistinctCodes(registry: seq<ExceptionClass>) {
    forall i, j :: 0 <= i < |registry| && 0 <= j < |registry| && registry[i].StatusCode() == registry[j].StatusCode()
      ==> registry[i] == registry[j]
  }

  /**
   * The loop of `get_exception`: the first class in `registry` whose code
   * equals `code` is instantiated without arguments; if none matches, a
   * base `HttpException(status_code=code)`.
   */
  function Lookup(registry: seq<ExceptionClass>, code: int): (e: HttpError)
    ensures (exists c :: c in registry && c.StatusCode() == Some(code)) ==>
              e.cls in registry && e.cls.StatusCode() == Some(code) && e.statusCode == Some(code)
    ensures (forall c :: c in registry ==> c.StatusCode() != Some(code)) ==>
              e == Construct(HttpException, Some(code))
  {
    if registry == [] then Construct(HttpException, Some(code))
    else if registry[0].StatusCode() == Some(code) then Construct(registry[0], None)
    else Lookup(registry[1..], code)
  }

  /** `get_exception(status_code)` over the registry the module builds. */
  function GetException(code: int): HttpError
  {
    Lookup(Exceptions, code)
  }

  /** The registry holds the eleven subclasses, in definition order. */
  lemma ExceptionsAreTheSubclasses()
    ensures Exceptions == [BadRequest, Unauthorized, Forbidden, NotFound, MethodNotAllowed, Locked,
                           TooManyRequests, InternalServerError, BadGateway, ServiceUnavailable, ConnectionTimeout]
  {
    var g0 := [NotAClass, NotAClass, NotAClass, NotAClass, NotAClass, NotAClass, NotAClass, NotAClass];
    var g1 := [ClassValue(HttpException)];
    var g2 := [ClassValue(BadRequest), ClassValue(Unauthorized), ClassValue(Forbidden),
               ClassValue(NotFound), ClassValue(MethodNotAllowed), ClassValue(Locked)];
    var g3 := [ClassValue(TooManyRequests), ClassValue(InternalServerError),
               ClassValue(BadGateway), ClassValue(ServiceUnavailable), ClassValue(ConnectionTimeout)];
    var g4 := [NotAClass, NotAClass];
    RegisteredAppend(g0 + g1 + g2 + g3, g4);
    RegisteredAppend(g0 + g1 + g2, g3);
    RegisteredAppend(g0 + g1, g2);
    RegisteredAppend(g0, g1);
    RegisteredNone(g0);
    RegisteredNone(g1);
    RegisteredAll(g2);
    RegisteredAll(g3);
    RegisteredNone(g4);
  }

  /** The registry holds exactly the classes that carry a status code: the base class is excluded. */
  lemma ExceptionsHaveCodes()
    ensures forall c :: c in Exceptions <==> c.StatusCode().Some?
    ensures HttpException !in Exceptions
  {
    ExceptionsAreTheSubclasses();
  }

  /** Row `i` of the standard table is the code and name of the `i`-th registered class. */
  lemma ExceptionsMatchTable()
    ensures |Exceptions| == |StandardTable|
    ensures forall i :: 0 <= i < |StandardTable| ==>
              Exceptions[i].StatusCode() == Some(StandardTable[i].0) && Exceptions[i].Name() == StandardTable[i].1
  {
    ExceptionsAreTheSubclasses();
  }

  lemma ExceptionsDistinctCodes()
    ensures DistinctCodes(Exceptions)
  {
    ExceptionsAreTheSubclasses();
  }

  /** With distinct codes, the first match is the only match. */
  lemma LookupUnique(registry: seq<ExceptionClass>, code: int, c: ExceptionClass)
    requires DistinctCodes(registry)
    requires c in registry && c.StatusCode() == Some(code)
    ensures Lookup(registry, code) == HttpError(c, Some(code))
  {
    var e := Lookup(registry, code);
    var i :| 0 <= i < |registry| && registry[i] == c;
    var j :| 0 <= j < |registry| && registry[j] == e.cls;
    assert registry[i].StatusCode() == registry[j].StatusCode();
  }

  /**
   * Because codes are distinct, the result of the first-match search does
   * not depend on the order (or repetition) of the registry's classes.
   */
  lemma LookupOrderIndependent(r1: seq<ExceptionClass>, r2: seq<ExceptionClass>, code: int)
    requires DistinctCodes(r1) && DistinctCodes(r2)
    requires forall c :: c in r1 <==> c in r2
    ensures Lookup(r1, code) == Lookup(r2, code)
  {
    if c :| c in r1 && c.StatusCode() == Some(code) {
      LookupUnique(r1, code, c);
      LookupUnique(r2, code, c);
    }
  }

  /** Each recognised code yields its own class, with the table's name and that code. */
  lemma GetExceptionKnown(i: nat)
    requires i < |StandardTable|
    ensures GetException(StandardTable[i].0).cls != HttpException
    ensures GetException(StandardTable[i].0).Name() == StandardTable[i].1
    ensures GetException(StandardTable[i].0).statusCode == Some(StandardTable[i].0)
  {
    ExceptionsMatchTable();
    ExceptionsDistinctCodes();
    ExceptionsHaveCodes();
    LookupUnique(Exceptions, StandardTable[i].0, Exceptions[i]);
  }

  /**
   * Any other code falls back to the base class, with an empty name; the
   * code is kept unless it is 0, which `__init__` does not store.
   */
  lemma GetExceptionUnknown(code: int)
    requires !KnownCode(code)
    ensures GetException(code).cls == HttpException && GetException(code).Name() == ""
    ensures GetException(code).statusCode == if code == 0 then None else Some(code)
  {
    ExceptionsMatchTable();
    forall c | c in Exceptions ensures c.StatusCode() != Some(code) {
      var i :| 0 <= i < |Exceptions| && Exceptions[i] == c;
    }
  }

  /** The mapper names a code exactly when the code is in the table. */
  lemma GetExceptionNamedIff(code: int)
    ensures GetException(code).Name() != "" <==> KnownCode(code)
    ensures GetException(code).cls != HttpException <==> KnownCode(code)
  {
    if KnownCode(code) {
      var i :| 0 <= i < |StandardTable| && StandardTable[i].0 == code;
      GetExceptionKnown(i);
    } else {
      GetExceptionUnknown(code);
    }
  }

  /** The index of the first space in `s`, or `|s|` when there is none. */
  function FirstSpace(s: string): (k: nat)
    ensures k <= |s|
    ensures k < |s| ==> s[k] == ' '
    ensures forall i :: 0 <= i < k ==> s[i] != ' '
  {
    if s == [] || s[0] == ' ' then 0 else 1 + FirstSpace(s[1..])
  }

  /** Reads the code text of a `repr`: `None`, or a decimal integer. */
  function ReadCode(text: string): Option<Option<int>>
  {
    if text == "None" then Some(None)
    else match Decimal.ParseInt(text)
      case None => None
      case Some(n) => Some(Some(n))
  }

  /**
   * Reads a `repr` back: "HTTP ", the code text up to the next space, then
   * the name.
   */
  function ParseRepr(s: string): Option<(Option<int>, string)>
  {
    if |s| < 5 || s[..5] != "HTTP " then None
    else
      var rest := s[5..];
      var k := FirstSpace(rest);
      if k == |rest| then None
      else match ReadCode(rest[..k])
        case None => None
        case Some(code) => Some((code, rest[k + 1..]))
  }

  lemma SplitAtFirstSpace(t: string, rest: string)
    requires forall i :: 0 <= i < |t| ==> t[i] != ' '
    ensures FirstSpace(t + " " + rest) == |t|
    ensures (t + " " + rest)[..|t|] == t && (t + " " + rest)[|t| + 1..] == rest
  {
    var s := t + " " + rest;
    assert s[|t|] == ' ';
  }

  /** The code text of a `repr` has no space, and reads back as the code. */
  lemma CodeTextRoundTrip(code: Option<int>)
    ensures forall i :: 0 <= i < |CodeText(code)| ==> CodeText(code)[i] != ' '
    ensures ReadCode(CodeText(code)) == Some(code)
  {
    if code.Some? {
      Decimal.IntToStringChars(code.value);
      Decimal.ParseIntToString(code.value);
      assert CodeText(code)[0] != 'N';
    }
  }

  lemma ParseReprOf(code: Option<int>, name: string)
    ensures ParseRepr("HTTP " + CodeText(code) + " " + name) == Some((code, name))
  {
    var t := CodeText(code);
    var rest := t + " " + name;
    var s := "HTTP " + t + " " + name;
    assert s == "HTTP " + rest;
    assert s[..5] == "HTTP " && s[5..] == rest;
    CodeTextRoundTrip(code);
    SplitAtFirstSpace(t, name);
  }

  /** `str(e)` (which is `repr(e)`) determines the instance's code and name. */
  lemma ReprRoundTrip(e: HttpError)
    ensures ParseRepr(e.Str()) == Some((e.statusCode, e.Name()))
  {
    ParseReprOf(e.statusCode, e.Name());
  }
}
