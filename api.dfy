/**
 * `SupercellAPI` of async_supercell_api/api.py: the client's settings, the
 * request `make_api_request` sends, and `create_object`, which turns a
 * (status, JSON) pair into a decoded object, a raw value or a raised error.
 */
module Api {
  import opened Wrappers
  import opened JsonData
  import opened Keywords
  import opened Shapes
  import opened Responses
  import opened Decoder
  import opened DecoderLaws
  import opened Errors

  // ----- str.strip -----

  /** `s.lstrip(c)` */
  function LStrip(s: string, c: char): string {
    if s != [] && s[0] == c then LStrip(s[1..], c) else s
  }

  /** `s.rstrip(c)` */
  function RStrip(s: string, c: char): string {
    if s != [] && s[|s| - 1] == c then RStrip(s[..|s| - 1], c) else s
  }

  /** `s.strip(c)` */
  function Strip(s: string, c: char): string {
    RStrip(LStrip(s, c), c)
  }

  /** What lstrip leaves: a suffix of s that does not begin with c, after nothing but c. */
  lemma {:induction false} LStripMeaning(s: string, c: char)
    ensures |LStrip(s, c)| <= |s| && LStrip(s, c) == s[|s| - |LStrip(s, c)|..]
    ensures LStrip(s, c) == [] || LStrip(s, c)[0] != c
    ensures forall i :: 0 <= i < |s| - |LStrip(s, c)| ==> s[i] == c
  {
    if s != [] && s[0] == c {
      LStripMeaning(s[1..], c);
      forall i | 0 < i < |s| - |LStrip(s, c)| ensures s[i] == c {
        assert s[i] == s[1..][i - 1];
      }
    }
  }

  /** What rstrip leaves: a prefix of s that does not end with c, before nothing but c. */
  lemma {:induction false} RStripMeaning(s: string, c: char)
    ensures |RStrip(s, c)| <= |s| && RStrip(s, c) == s[..|RStrip(s, c)|]
    ensures RStrip(s, c) == [] || RStrip(s, c)[|RStrip(s, c)| - 1] != c
    ensures forall i :: |RStrip(s, c)| <= i < |s| ==> s[i] == c
  {
    if s != [] && s[|s| - 1] == c {
      RStripMeaning(s[..|s| - 1], c);
      forall i | |RStrip(s, c)| <= i < |s| - 1 ensures s[i] == c {
        assert s[i] == s[..|s| - 1][i];
      }
    }
  }

  /**
   * What strip leaves: a slice of s with nothing but c around it, neither
   * beginning nor ending with c.
   */
  lemma StripMeaning(s: string, c: char)
    ensures Strip(s, c) == [] || (Strip(s, c)[0] != c && Strip(s, c)[|Strip(s, c)| - 1] != c)
    ensures var a := |s| - |LStrip(s, c)|;
      && 0 <= a <= |s| - |Strip(s, c)|
      && Strip(s, c) == s[a..a + |Strip(s, c)|]
      && (forall i :: 0 <= i < a ==> s[i] == c)
      && (forall i :: a + |Strip(s, c)| <= i < |s| ==> s[i] == c)
  {
    var l := LStrip(s, c);
    var r := Strip(s, c);
    LStripMeaning(s, c);
    RStripMeaning(l, c);
    var a := |s| - |l|;
    assert r == l[..|r|];
    if r != [] {
      assert r[0] == l[0];
    }
    assert r == s[a..a + |r|];
    forall i | a + |r| <= i < |s| ensures s[i] == c {
      assert s[i] == l[i - a];
    }
  }

  /** Stripping twice strips nothing more. */
  lemma StripIdempotent(s: string, c: char)
    ensures Strip(Strip(s, c), c) == Strip(s, c)
  {
    var r := Strip(s, c);
    StripMeaning(s, c);
    if r != [] {
      assert LStrip(r, c) == r;
      assert RStrip(r, c) == r;
    }
  }

  // ----- the client -----

  /** The settings `SupercellAPI.__init__` stores. */
  datatype SupercellApi = SupercellApi(baseUrl: string, version: string, apiKey: string, debug: bool)

  /** `SupercellAPI(base_url, version, api_key, debug)`: slashes around the URL and the version are dropped. */
  function NewApi(baseUrl: string, version: string, apiKey: string, debug: bool := false): (api: SupercellApi)
    ensures api.baseUrl == [] || (api.baseUrl[0] != '/' && api.baseUrl[|api.baseUrl| - 1] != '/')
    ensures api.version == [] || (api.version[0] != '/' && api.version[|api.version| - 1] != '/')
    ensures api.apiKey == apiKey && api.debug == debug
  {
    StripMeaning(baseUrl, '/');
    StripMeaning(version, '/');
    SupercellApi(Strip(baseUrl, '/'), Strip(version, '/'), apiKey, debug)
  }

  /** Slashes added around the settings make no difference. */
  lemma NewApiSlashes(baseUrl: string, version: string, apiKey: string, debug: bool)
    ensures NewApi("/" + baseUrl + "/", "/" + version + "/", apiKey, debug) == NewApi(baseUrl, version, apiKey, debug)
  {
    StripSlashes(baseUrl);
    StripSlashes(version);
  }

  lemma StripSlashes(s: string)
    ensures Strip("/" + s + "/", '/') == Strip(s, '/')
  {
    assert ("/" + s + "/")[1..] == s + "/";
    LStripSnoc(s, '/');
    if LStrip(s, '/') != [] {
      var l := LStrip(s, '/');
      assert (l + "/")[..|l + "/"| - 1] == l;
    }
  }

  /** lstrip of `s + [c]` keeps the appended c unless s was all c. */
  lemma {:induction false} LStripSnoc(s: string, c: char)
    ensures LStrip(s + [c], c) == if LStrip(s, c) == [] then [] else LStrip(s, c) + [c]
  {
    if s == [] {
      assert LStrip([c][1..], c) == [];
    } else if s[0] == c {
      assert (s + [c])[1..] == s[1..] + [c];
      LStripSnoc(s[1..], c);
    }
  }

  // ----- make_api_request -----

  /** What `make_request` is asked to send: the URL, the method, the headers and the debug flag. */
  datatype Request = Request(url: string, verb: string, headers: seq<(string, string)>, debug: bool)

  /** `{n: v for n, v in kwargs.items() if v is not None}` */
  function DropNone(kwargs: seq<(string, Json)>): seq<(string, Json)> {
    if kwargs == [] then []
    else (if kwargs[0].1 == JNull then [] else [kwargs[0]]) + DropNone(kwargs[1..])
  }

  /** The query keywords kept are exactly those not None. */
  lemma {:induction false} DropNoneMeaning(kwargs: seq<(string, Json)>)
    ensures forall i :: 0 <= i < |DropNone(kwargs)| ==> DropNone(kwargs)[i] in kwargs && DropNone(kwargs)[i].1 != JNull
    ensures forall i :: 0 <= i < |kwargs| && kwargs[i].1 != JNull ==> kwargs[i] in DropNone(kwargs)
    ensures DropNone(kwargs) == [] <==> forall i :: 0 <= i < |kwargs| ==> kwargs[i].1 == JNull
  {
    if kwargs != [] {
      DropNoneMeaning(kwargs[1..]);
      var rest := DropNone(kwargs[1..]);
      var head := if kwargs[0].1 == JNull then [] else [kwargs[0]];
      assert DropNone(kwargs) == head + rest;
      forall i | 0 <= i < |DropNone(kwargs)| ensures DropNone(kwargs)[i] in kwargs && DropNone(kwargs)[i].1 != JNull {
        if i >= |head| {
          assert DropNone(kwargs)[i] == rest[i - |head|];
        }
      }
      forall i | 1 <= i < |kwargs| && kwargs[i].1 != JNull ensures kwargs[i] in DropNone(kwargs) {
        assert kwargs[i] == kwargs[1..][i - 1];
      }
      if forall i :: 0 <= i < |kwargs| ==> kwargs[i].1 == JNull {
        forall i | 0 <= i < |kwargs| - 1 ensures kwargs[1..][i].1 == JNull {
          assert kwargs[1..][i] == kwargs[i + 1];
        }
      }
      if forall i :: 0 <= i < |kwargs[1..]| ==> kwargs[1..][i].1 == JNull {
        if kwargs[0].1 == JNull {
          forall i | 0 <= i < |kwargs| ensures kwargs[i].1 == JNull {
            if i > 0 {
              assert kwargs[i] == kwargs[1..][i - 1];
            }
          }
        }
      }
    }
  }

  /** Filtering distributes over concatenation: the kept keywords stay in their order. */
  lemma {:induction false} DropNoneConcat(a: seq<(string, Json)>, b: seq<(string, Json)>)
    ensures DropNone(a + b) == DropNone(a) + DropNone(b)
  {
    if a != [] {
      assert (a + b)[1..] == a[1..] + b;
      DropNoneConcat(a[1..], b);
    } else {
      assert a + b == b;
    }
  }

  /** One keyword is kept exactly when it is not None. */
  lemma DropNoneOne(x: (string, Json))
    ensures DropNone([x]) == if x.1 == JNull then [] else [x]
  {
    assert [x][1..] == [];
  }

  /** `f'{self.base_url}/{self.version}/'` */
  function Prefix(api: SupercellApi): string {
    api.baseUrl + "/" + api.version + "/"
  }

  /**
   * `self.make_api_request(url, **kwargs)`: the request handed to
   * `make_request`. URL quoting and query encoding are the library's
   * `quote` and `urlencode`, given as parameters.
   */
  function ApiRequest(api: SupercellApi, path: string, kwargs: seq<(string, Json)>,
                      quote: string -> string, urlencode: seq<(string, Json)> -> string): Request
  {
    var params := DropNone(kwargs);
    var query := if params == [] then "" else "?" + urlencode(params);
    Request(Prefix(api) + quote(LStrip(path, '/')) + query, "GET",
            [("Authorization", "Bearer " + api.apiKey)], api.debug)
  }

  /**
   * The request: a GET of the endpoint under the client's URL and
   * version, with a query string exactly when some keyword is not None,
   * the key as a bearer token, and the client's debug flag.
   */
  lemma RequestMeaning(api: SupercellApi, path: string, kwargs: seq<(string, Json)>,
                       quote: string -> string, urlencode: seq<(string, Json)> -> string)
    ensures ApiRequest(api, path, kwargs, quote, urlencode).verb == "GET"
    ensures ApiRequest(api, path, kwargs, quote, urlencode).headers == [("Authorization", "Bearer " + api.apiKey)]
    ensures ApiRequest(api, path, kwargs, quote, urlencode).debug == api.debug
    ensures (forall i :: 0 <= i < |kwargs| ==> kwargs[i].1 == JNull) ==>
      ApiRequest(api, path, kwargs, quote, urlencode).url == Prefix(api) + quote(LStrip(path, '/'))
    ensures (exists i :: 0 <= i < |kwargs| && kwargs[i].1 != JNull) ==>
      ApiRequest(api, path, kwargs, quote, urlencode).url ==
        Prefix(api) + quote(LStrip(path, '/')) + "?" + urlencode(DropNone(kwargs))
  {
    DropNoneMeaning(kwargs);
  }

  /** Leading slashes on the endpoint path make no difference. */
  lemma RequestIgnoresLeadingSlash(api: SupercellApi, path: string, kwargs: seq<(string, Json)>,
                                   quote: string -> string, urlencode: seq<(string, Json)> -> string)
    ensures ApiRequest(api, "/" + path, kwargs, quote, urlencode) == ApiRequest(api, path, kwargs, quote, urlencode)
  {
    assert ("/" + path)[1..] == path;
  }

  // ----- create_object -----

  /** What `create_object` does with a response: return a value, or raise. */
  datatype Outcome =
      /** a decoded object, a list of them, or the JSON value itself */
    | Returned(value: Value)
      /** `ClientError(**(json_response or {}))` */
    | Raised(error: ClientError)
      /** Python raises TypeError while building the object or the error */
    | RaisedTypeError

  /** The `_page_generic_type` keyword: the class object, or None. */
  function GenericValue(pageGenericType: Option<Shape>): Value {
    if pageGenericType.Some? then Class(pageGenericType.value) else Raw(JNull)
  }

  /** A status in the 2xx range. */
  predicate IsSuccess(status: int) {
    200 <= status < 300
  }

  /**
   * `create_object((status, json_response), object_class, page_generic_type)`.
   * A dict is decoded with `_page_generic_type` added, a list element by
   * element without it; any other JSON value, or any value when
   * `object_class` is None, is returned as it is.
   */
  function CreateObject(status: int, body: Json, objectClass: Option<Shape> := Some(Page()),
                        pageGenericType: Option<Shape> := None): Outcome
  {
    if IsSuccess(status) then
      if objectClass.Some? && body.JObj? then
        match Instantiate(objectClass.value, body.members, Some(GenericValue(pageGenericType)))
        case Success(r) => Returned(Object(r))
        case Failure => RaisedTypeError
      else if objectClass.Some? && body.JArr? then
        match DecodeElements(objectClass.value, body.elems, 0)
        case Success(rs) => Returned(Objects(rs))
        case Failure => RaisedTypeError
      else Returned(Raw(body))
    else
      // json_response or {}: a falsy body gives no keywords; `**` needs a dict
      var payload := if Truthy(body) then body else JObj([]);
      if payload.JObj? then
        match ErrorOf(payload.members)
        case Success(e) => Raised(e)
        case Failure => RaisedTypeError
      else RaisedTypeError
  }

  /** A value comes back exactly for a 2xx status; a ClientError is raised only outside it. */
  lemma StatusRouting(status: int, body: Json, objectClass: Option<Shape>, pageGenericType: Option<Shape>)
    ensures CreateObject(status, body, objectClass, pageGenericType).Returned? ==> IsSuccess(status)
    ensures CreateObject(status, body, objectClass, pageGenericType).Raised? ==> !IsSuccess(status)
    ensures !IsSuccess(status) ==> !CreateObject(status, body, objectClass, pageGenericType).Returned?
    ensures IsSuccess(status) ==> !CreateObject(status, body, objectClass, pageGenericType).Raised?
  {
  }

  /** The bounds of the 2xx range: 200 and 299 are successes, 199 and 300 are not. */
  lemma StatusBounds()
    ensures CreateObject(200, JNull) == Returned(Raw(JNull))
    ensures CreateObject(299, JNull) == Returned(Raw(JNull))
    ensures CreateObject(199, JNull).Raised?
    ensures CreateObject(300, JNull).Raised?
  {
    ErrorDefaults();
  }

  /**
   * The error body: a falsy one (None, empty, zero, false) raises the
   * default ClientError, a dict is spread into the constructor, and any
   * other value raises TypeError.
   */
  lemma ErrorBody(status: int, body: Json, objectClass: Option<Shape>, pageGenericType: Option<Shape>)
    requires !IsSuccess(status)
    ensures !Truthy(body) ==>
      CreateObject(status, body, objectClass, pageGenericType) == Raised(ClientError([UnknownError], [("reason", JNull), ("message", UnknownError), ("type", JNull), ("detail", JNull)]))
    ensures body.JObj? && Bindable(body.members) ==>
      CreateObject(status, body, objectClass, pageGenericType) == Raised(ErrorOf(body.members).value)
    ensures body.JObj? && !Bindable(body.members) ==>
      CreateObject(status, body, objectClass, pageGenericType) == RaisedTypeError
    ensures Truthy(body) && !body.JObj? ==> CreateObject(status, body, objectClass, pageGenericType) == RaisedTypeError
  {
    ErrorDefaults();
    if body.JObj? && body.members == [] {
      assert !Truthy(body);
    }
  }

  /**
   * A 2xx dict payload: decoded as the object class with the generic type
   * stored under `_page_generic_type`; a payload that has that key itself
   * raises TypeError.
   */
  lemma TopLevelObject(status: int, m: seq<(string, Json)>, c: Shape, pageGenericType: Option<Shape>)
    requires IsSuccess(status)
    requires OrdinaryNames(c.fields)
    ensures HasKey(m, PageTypeAttr) ==> CreateObject(status, JObj(m), Some(c), pageGenericType) == RaisedTypeError
    ensures CreateObject(status, JObj(m), Some(c), pageGenericType).Returned? ==>
      && CreateObject(status, JObj(m), Some(c), pageGenericType).value.Object?
      && var r := CreateObject(status, JObj(m), Some(c), pageGenericType).value.response;
         r.shape == c && Attr(r, PageTypeAttr) == Some(GenericValue(pageGenericType))
  {
    var g := GenericValue(pageGenericType);
    if HasKey(m, PageTypeAttr) {
      GenericClashFails(c, m, g);
    }
    match Instantiate(c, m, Some(g))
    case Success(r) => GenericStored(c, m, g, r);
    case Failure =>
  }

  /** A 2xx list payload: each element decoded as the object class on its own, without the generic type. */
  lemma TopLevelList(status: int, xs: seq<Json>, c: Shape, pageGenericType: Option<Shape>)
    requires IsSuccess(status)
    ensures CreateObject(status, JArr(xs), Some(c), pageGenericType).Returned? <==> AllDecodeFrom(c, xs, 0)
    ensures CreateObject(status, JArr(xs), Some(c), pageGenericType).Returned? ==>
      && CreateObject(status, JArr(xs), Some(c), pageGenericType).value.Objects?
      && DecodedFrom(c, xs, 0, CreateObject(status, JArr(xs), Some(c), pageGenericType).value.responses)
  {
    ElementsDecoded(c, xs, 0);
  }

  /** Without an object class, or for a JSON value that is neither dict nor list, the value itself comes back. */
  lemma PassThrough(status: int, body: Json, objectClass: Option<Shape>, pageGenericType: Option<Shape>)
    requires IsSuccess(status)
    requires objectClass.None? || !(body.JObj? || body.JArr?)
    ensures CreateObject(status, body, objectClass, pageGenericType) == Returned(Raw(body))
  {
  }
}
