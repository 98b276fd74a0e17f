/**
 * Building a shape from a JSON object: `Shape(**body)`, with
 * `_page_generic_type` added when the object is a top-level payload.
 * Binding follows Python's keyword rules, the base constructor stores the
 * keywords no parameter takes, and then each declared field is assigned
 * as its kind says.
 */
module Decoder {
  import opened Wrappers
  import opened JsonData
  import opened Keywords
  import opened Shapes
  import opened Responses

  /** The keyword `create_object` adds to a top-level decode. */
  const PageTypeAttr := "_page_generic_type"

  /** The payload's members as keyword arguments. */
  function RawArgs(body: seq<(string, Json)>): (args: seq<(string, Value)>)
    ensures |args| == |body|
    ensures forall i :: 0 <= i < |body| ==> args[i] == (body[i].0, Raw(body[i].1))
    ensures Keys(args) == Keys(body)
  {
    seq(|body|, i requires 0 <= i < |body| => (body[i].0, Raw(body[i].1)))
  }

  /** The keywords of `Shape(**body)`, or of `Shape(**body, _page_generic_type = g)` when generic is `Some(g)`. */
  function CallArgs(body: seq<(string, Json)>, generic: Option<Value>): seq<(string, Value)> {
    RawArgs(body) + (if generic.Some? then [(PageTypeAttr, generic.value)] else [])
  }

  /**
   * `Shape(**body, ...)`. The keywords no declared parameter takes reach
   * `super().__init__(**kwargs)`, which takes `success` (default True) and
   * sets the rest; then the declared fields are appended in order.
   */
  function Instantiate(s: Shape, body: seq<(string, Json)>, generic: Option<Value>): Result<Response>
    decreases JObj(body), 1, 0
  {
    if !Bindable(CallArgs(body, generic)) then Failure
    else
      var base := BaseAttrs(SuccessArg(s, body, generic), BaseKwargs(s, body, generic));
      var fields :- DecodeFields(s, body, 0);
      Success(Response(s, base + fields))
  }

  /** What the `**kwargs` parameter of the shape's constructor receives. */
  function Kwargs(s: Shape, body: seq<(string, Json)>, generic: Option<Value>): seq<(string, Value)> {
    Unbound(CallArgs(body, generic), Declared(s))
  }

  /** The base constructor's `success` parameter. */
  function SuccessArg(s: Shape, body: seq<(string, Json)>, generic: Option<Value>): Value {
    Arg(Kwargs(s, body, generic), "success", Raw(JBool(true)))
  }

  /** What the `**kwargs` parameter of the base constructor receives. */
  function BaseKwargs(s: Shape, body: seq<(string, Json)>, generic: Option<Value>): seq<(string, Value)> {
    Unbound(Kwargs(s, body, generic), ["success"])
  }

  /**
   * The declared fields from `s.fields[i]` on, each from the payload
   * member of its name. No declared name begins with an underscore, so
   * `_page_generic_type` never reaches one.
   */
  function DecodeFields(s: Shape, body: seq<(string, Json)>, i: nat): Result<seq<(string, Value)>>
    requires i <= |s.fields|
    decreases JObj(body), 0, |s.fields| - i + 1
  {
    if i == |s.fields| then Success([])
    else
      var v :- DecodeParam(body, s.fields[i]);
      var rest :- DecodeFields(s, body, i + 1);
      Success([(s.fields[i].0, v)] + rest)
  }

  /** The payload member a declared parameter receives, or None (its default). */
  function Param(body: seq<(string, Json)>, name: string): Json {
    Arg(body, name, JNull)
  }

  /** A declared field's stored value: absent, it keeps its default None. */
  function DecodeParam(body: seq<(string, Json)>, field: Field): Result<Value>
    decreases JObj(body), 0, 0
  {
    match Lookup(body, field.0)
    case None => Success(Raw(JNull))
    case Some(j) =>
      LookupMember(body, field.0);
      DecodeField(field.1, j)
  }

  /** One declared parameter's value as its field kind stores it. */
  function DecodeField(kind: FieldKind, j: Json): Result<Value>
    decreases j, 2, 0
  {
    match kind
    case Scalar => Success(Raw(j))
    case Nested(t) =>
      // None if x is None else Shape(**x): `**` needs a dict
      if j.JNull? then Success(Raw(JNull))
      else
        var r :- DecodeObject(t, j);
        Success(Object(r))
    case ListOf(t) =>
      // None if xs is None else list(map(lambda x: Shape(**x), xs))
      match j
      case JNull => Success(Raw(JNull))
      case JArr(xs) =>
        var rs :- DecodeElements(t, xs, 0);
        Success(Objects(rs))
      // iterating a dict or a str yields keys or characters, which `**` refuses
      case JObj(m) => if m == [] then Success(Objects([])) else Failure
      case JStr(str) => if str == "" then Success(Objects([])) else Failure
      // numbers and bools are not iterable
      case _ => Failure
  }

  /** `Shape(**x)` for one nested value x, which must be a dict. */
  function DecodeObject(t: Shape, j: Json): Result<Response>
    decreases j, 1, 1
  {
    match j
    case JObj(m) => Instantiate(t, m, None)
    case _ => Failure
  }

  /** `Shape(**x)` for each list element from `xs[i]` on. */
  function DecodeElements(t: Shape, xs: seq<Json>, i: nat): Result<seq<Response>>
    requires i <= |xs|
    decreases JArr(xs), 1, |xs| - i
  {
    if i == |xs| then Success([])
    else
      var r :- DecodeObject(t, xs[i]);
      var rest :- DecodeElements(t, xs, i + 1);
      Success([r] + rest)
  }

  // ----- what a decoded field holds -----

  /** From `xs[i]` on, every element is a dict that decodes as t, giving the matching response. */
  predicate DecodedFrom(t: Shape, xs: seq<Json>, i: nat, rs: seq<Response>) {
    && i <= |xs|
    && |rs| == |xs| - i
    && forall k :: i <= k < |xs| ==> DecodeObject(t, xs[k]) == Success(rs[k - i])
  }

  /** What a field of the given kind holds once its parameter received j. */
  predicate Holds(kind: FieldKind, j: Json, v: Value) {
    match kind
    case Scalar => v == Raw(j)
    case Nested(t) =>
      (match j
       case JNull => v == Raw(JNull)
       case JObj(_) => v.Object? && DecodeObject(t, j) == Success(v.response)
       case _ => false)
    case ListOf(t) =>
      (match j
       case JNull => v == Raw(JNull)
       case JArr(xs) => v.Objects? && DecodedFrom(t, xs, 0, v.responses)
       case JObj(m) => m == [] && v == Objects([])
       case JStr(str) => str == "" && v == Objects([])
       case _ => false)
  }

  /** The decoded response has the field, holding what its kind prescribes for the payload member. */
  predicate FieldHolds(r: Response, body: seq<(string, Json)>, name: string, kind: FieldKind) {
    Attr(r, name).Some? && Holds(kind, Param(body, name), Attr(r, name).value)
  }

  /** Every keyword that no constructor takes is an attribute with its value; the rest are absent. */
  ghost predicate KeepsExtras(r: Response, body: seq<(string, Json)>, generic: Option<Value>, s: Shape) {
    forall k :: k !in Declared(s) && k != "success" && k != SuccessAttr ==>
      Attr(r, k) == Lookup(CallArgs(body, generic), k)
  }
}

/**
 * What `Shape(**body)` does, stated about the decoding functions: when it
 * raises, what each declared field and each extra keyword holds, where
 * the success flag goes, and the attribute order.
 */
module DecoderLaws {
  import opened Wrappers
  import opened JsonData
  import opened Keywords
  import opened Shapes
  import opened Responses
  import opened Decoder

  /** DecodeElements takes one element, then the rest. */
  lemma ElementsStep(t: Shape, xs: seq<Json>, i: nat)
    requires i < |xs|
    ensures DecodeElements(t, xs, i) ==
      if DecodeObject(t, xs[i]).Success? && DecodeElements(t, xs, i + 1).Success?
      then Success([DecodeObject(t, xs[i]).value] + DecodeElements(t, xs, i + 1).value)
      else Failure
  {
  }

  /** From `xs[i]` on, every element is a dict that decodes as t. */
  predicate AllDecodeFrom(t: Shape, xs: seq<Json>, i: nat) {
    forall k :: i <= k < |xs| ==> DecodeObject(t, xs[k]).Success?
  }

  /** The element-wise facts split into the first element and the rest. */
  lemma ElementsCons(t: Shape, xs: seq<Json>, i: nat, r: Response, rest: seq<Response>)
    requires i < |xs|
    ensures AllDecodeFrom(t, xs, i) <==> DecodeObject(t, xs[i]).Success? && AllDecodeFrom(t, xs, i + 1)
    ensures DecodedFrom(t, xs, i, [r] + rest) <==>
      DecodeObject(t, xs[i]) == Success(r) && DecodedFrom(t, xs, i + 1, rest)
  {
    if DecodeObject(t, xs[i]) == Success(r) && DecodedFrom(t, xs, i + 1, rest) {
      forall k | i <= k < |xs| ensures DecodeObject(t, xs[k]) == Success(([r] + rest)[k - i]) {
        if k > i {
          assert ([r] + rest)[k - i] == rest[k - (i + 1)];
        }
      }
    }
    if DecodedFrom(t, xs, i, [r] + rest) {
      forall k | i + 1 <= k < |xs| ensures DecodeObject(t, xs[k]) == Success(rest[k - (i + 1)]) {
        assert ([r] + rest)[k - i] == rest[k - (i + 1)];
      }
    }
  }

  /** The inductive step of ElementsDecoded. */
  lemma ElementsDecodedStep(t: Shape, xs: seq<Json>, i: nat)
    requires i < |xs|
    requires DecodeElements(t, xs, i + 1).Success? <==> AllDecodeFrom(t, xs, i + 1)
    requires DecodeElements(t, xs, i + 1).Success? ==> DecodedFrom(t, xs, i + 1, DecodeElements(t, xs, i + 1).value)
    ensures DecodeElements(t, xs, i).Success? <==> AllDecodeFrom(t, xs, i)
    ensures DecodeElements(t, xs, i).Success? ==> DecodedFrom(t, xs, i, DecodeElements(t, xs, i).value)
  {
    ElementsStep(t, xs, i);
    if DecodeObject(t, xs[i]).Success? && DecodeElements(t, xs, i + 1).Success? {
      ElementsCons(t, xs, i, DecodeObject(t, xs[i]).value, DecodeElements(t, xs, i + 1).value);
    } else {
      ElementsCons(t, xs, i, Response(t, []), []);
    }
  }

  /** A list decodes exactly when every element is a dict that decodes, and then element by element. */
  lemma {:induction false} ElementsDecoded(t: Shape, xs: seq<Json>, i: nat)
    requires i <= |xs|
    ensures DecodeElements(t, xs, i).Success? <==> AllDecodeFrom(t, xs, i)
    ensures DecodeElements(t, xs, i).Success? ==> DecodedFrom(t, xs, i, DecodeElements(t, xs, i).value)
    decreases |xs| - i
  {
    if i < |xs| {
      ElementsDecoded(t, xs, i + 1);
      ElementsDecodedStep(t, xs, i);
    }
  }

  /** At most one list of responses matches a list element by element. */
  lemma {:induction false} DecodedUnique(t: Shape, xs: seq<Json>, i: nat, a: seq<Response>, b: seq<Response>)
    requires DecodedFrom(t, xs, i, a) && DecodedFrom(t, xs, i, b)
    ensures a == b
  {
    forall k | 0 <= k < |a| ensures a[k] == b[k] {
      assert DecodeObject(t, xs[i + k]) == Success(a[i + k - i]);
    }
  }

  /** A nested object decodes as an instance of the class it was decoded as. */
  lemma DecodedShape(t: Shape, j: Json, x: Response)
    requires DecodeObject(t, j) == Success(x)
    ensures x.shape == t
  {
  }

  /** DecodeField yields v exactly when v is what the field kind prescribes for j. */
  lemma FieldKindMeaning(kind: FieldKind, j: Json, v: Value)
    ensures DecodeField(kind, j) == Success(v) <==> Holds(kind, j, v)
  {
    if kind.ListOf? && j.JArr? {
      var xs := j.elems;
      ElementsDecoded(kind.target, xs, 0);
      if Holds(kind, j, v) {
        assert |v.responses| == |xs| - 0;
        assert AllDecodeFrom(kind.target, xs, 0);
        DecodedUnique(kind.target, xs, 0, DecodeElements(kind.target, xs, 0).value, v.responses);
      }
    }
  }

  /** A list field given a JSON list holds the responses decoded element by element. */
  lemma ListFieldHolds(t: Shape, j: Json, v: Value)
    requires Holds(ListOf(t), j, v) && j.JArr?
    ensures v.Objects? && DecodedFrom(t, j.elems, 0, v.responses)
  {
  }

  /** A declared field yields v exactly when v is what its kind prescribes for the payload member, None when absent. */
  lemma ParamMeaning(body: seq<(string, Json)>, name: string, kind: FieldKind, v: Value)
    ensures DecodeParam(body, (name, kind)) == Success(v) <==> Holds(kind, Param(body, name), v)
  {
    match Lookup(body, name)
    case None =>
    case Some(j) => FieldKindMeaning(kind, j, v);
  }

  /** From `s.fields[i]` on, every declared field decodes. */
  predicate ParamsDecodeFrom(s: Shape, body: seq<(string, Json)>, i: nat) {
    forall k :: i <= k < |s.fields| ==> DecodeParam(body, s.fields[k]).Success?
  }

  /** From `s.fields[i]` on, `fs` holds each declared field under its own name with its decoded value. */
  predicate FieldsFrom(s: Shape, body: seq<(string, Json)>, i: nat, fs: seq<(string, Value)>) {
    && i <= |s.fields|
    && |fs| == |s.fields| - i
    && forall k :: i <= k < |s.fields| ==>
         DecodeParam(body, s.fields[k]).Success? && fs[k - i] == (s.fields[k].0, DecodeParam(body, s.fields[k]).value)
  }

  /** The field-wise facts split into the first field and the rest. */
  lemma FieldsCons(s: Shape, body: seq<(string, Json)>, i: nat, v: Value, rest: seq<(string, Value)>)
    requires i < |s.fields|
    ensures ParamsDecodeFrom(s, body, i) <==> DecodeParam(body, s.fields[i]).Success? && ParamsDecodeFrom(s, body, i + 1)
    ensures DecodeParam(body, s.fields[i]) == Success(v) && FieldsFrom(s, body, i + 1, rest) ==>
      FieldsFrom(s, body, i, [(s.fields[i].0, v)] + rest)
  {
    var fs := [(s.fields[i].0, v)] + rest;
    if DecodeParam(body, s.fields[i]) == Success(v) && FieldsFrom(s, body, i + 1, rest) {
      forall k | i <= k < |s.fields|
        ensures DecodeParam(body, s.fields[k]).Success? && fs[k - i] == (s.fields[k].0, DecodeParam(body, s.fields[k]).value)
      {
        if k > i {
          assert fs[k - i] == rest[k - (i + 1)];
        }
      }
    }
  }

  /** The inductive step of FieldsDecoded. */
  lemma FieldsDecodedStep(s: Shape, body: seq<(string, Json)>, i: nat)
    requires i < |s.fields|
    requires DecodeFields(s, body, i + 1).Success? <==> ParamsDecodeFrom(s, body, i + 1)
    requires DecodeFields(s, body, i + 1).Success? ==> FieldsFrom(s, body, i + 1, DecodeFields(s, body, i + 1).value)
    ensures DecodeFields(s, body, i).Success? <==> ParamsDecodeFrom(s, body, i)
    ensures DecodeFields(s, body, i).Success? ==> FieldsFrom(s, body, i, DecodeFields(s, body, i).value)
  {
    if DecodeParam(body, s.fields[i]).Success? && DecodeFields(s, body, i + 1).Success? {
      FieldsCons(s, body, i, DecodeParam(body, s.fields[i]).value, DecodeFields(s, body, i + 1).value);
    } else {
      FieldsCons(s, body, i, Raw(JNull), []);
    }
  }

  /** The declared fields decode exactly when each does, and then in order, each under its own name. */
  lemma {:induction false} FieldsDecoded(s: Shape, body: seq<(string, Json)>, i: nat)
    requires i <= |s.fields|
    ensures DecodeFields(s, body, i).Success? <==> ParamsDecodeFrom(s, body, i)
    ensures DecodeFields(s, body, i).Success? ==> FieldsFrom(s, body, i, DecodeFields(s, body, i).value)
    decreases |s.fields| - i
  {
    if i < |s.fields| {
      FieldsDecoded(s, body, i + 1);
      FieldsDecodedStep(s, body, i);
    }
  }

  /** Decoded fields carry the declared names, in declaration order. */
  lemma FieldsKeys(s: Shape, body: seq<(string, Json)>, fs: seq<(string, Value)>)
    requires FieldsFrom(s, body, 0, fs)
    ensures Keys(fs) == Declared(s)
  {
    forall k | 0 <= k < |fs| ensures Keys(fs)[k] == Declared(s)[k] {
      assert fs[k - 0] == (s.fields[k].0, DecodeParam(body, s.fields[k]).value);
    }
  }

  /**
   * `Shape(**body)` raises exactly when the keywords cannot bind (a `self`
   * key, or `_page_generic_type` given twice) or a declared field fails to
   * decode.
   */
  lemma Decodes(s: Shape, body: seq<(string, Json)>, generic: Option<Value>)
    ensures Instantiate(s, body, generic).Success? <==>
      && Bindable(CallArgs(body, generic))
      && forall k :: 0 <= k < |s.fields| ==> DecodeParam(body, s.fields[k]).Success?
  {
    FieldsDecoded(s, body, 0);
    assert ParamsDecodeFrom(s, body, 0) <==> forall k :: 0 <= k < |s.fields| ==> DecodeParam(body, s.fields[k]).Success?;
  }

  lemma LookupRawArgs(body: seq<(string, Json)>, k: string)
    ensures Lookup(RawArgs(body), k) == if HasKey(body, k) then Some(Raw(Lookup(body, k).value)) else None
  {
    KeyIndexSameKeys(RawArgs(body), body, k);
  }

  /** A payload member is the keyword of its name, unless that name is `_page_generic_type`. */
  lemma LookupCallArgs(body: seq<(string, Json)>, generic: Option<Value>, k: string)
    requires k != PageTypeAttr
    ensures Lookup(CallArgs(body, generic), k) == if HasKey(body, k) then Some(Raw(Lookup(body, k).value)) else None
  {
    LookupRawArgs(body, k);
    LookupConcat(RawArgs(body), if generic.Some? then [(PageTypeAttr, generic.value)] else [], k);
    if generic.Some? {
      assert Keys([(PageTypeAttr, generic.value)]) == [PageTypeAttr];
    }
  }

  /** The pieces of a successful decode. */
  lemma Unfold(s: Shape, body: seq<(string, Json)>, generic: Option<Value>, r: Response)
    requires Instantiate(s, body, generic) == Success(r)
    ensures Bindable(CallArgs(body, generic))
    ensures DecodeFields(s, body, 0).Success?
    ensures r == Response(s, BaseAttrs(SuccessArg(s, body, generic), BaseKwargs(s, body, generic)) + DecodeFields(s, body, 0).value)
  {
  }

  /** Decoded fields carry the declared names, in order. */
  lemma FieldNames(s: Shape, body: seq<(string, Json)>)
    requires DecodeFields(s, body, 0).Success?
    ensures Keys(DecodeFields(s, body, 0).value) == Declared(s)
  {
    FieldsDecoded(s, body, 0);
    FieldsKeys(s, body, DecodeFields(s, body, 0).value);
  }

  /** Bound keywords have distinct names, and so do those each constructor passes on. */
  lemma KwargsDistinct(s: Shape, body: seq<(string, Json)>, generic: Option<Value>)
    requires Bindable(CallArgs(body, generic))
    ensures Distinct(Keys(Kwargs(s, body, generic)))
    ensures Distinct(Keys(BaseKwargs(s, body, generic)))
  {
    UnboundDistinct(CallArgs(body, generic), Declared(s));
    UnboundDistinct(Kwargs(s, body, generic), ["success"]);
  }

  /** A keyword that no constructor takes is found where the base constructor put it. */
  lemma ExtraLookup(s: Shape, body: seq<(string, Json)>, generic: Option<Value>, r: Response, k: string)
    requires Instantiate(s, body, generic) == Success(r)
    requires OrdinaryNames(s.fields)
    requires k !in Declared(s) && k != "success" && k != SuccessAttr
    ensures Attr(r, k) == Lookup(CallArgs(body, generic), k)
  {
    Unfold(s, body, generic, r);
    FieldNames(s, body);
    KwargsDistinct(s, body, generic);
    var base := BaseAttrs(SuccessArg(s, body, generic), BaseKwargs(s, body, generic));
    LookupConcat(base, DecodeFields(s, body, 0).value, k);
    BaseLookup(SuccessArg(s, body, generic), BaseKwargs(s, body, generic), k);
    UnboundLookup(Kwargs(s, body, generic), ["success"], k);
    UnboundLookup(CallArgs(body, generic), Declared(s), k);
  }

  /**
   * Keywords that no constructor takes, `_page_generic_type` among them,
   * stay attributes with their values.
   */
  lemma ExtrasPreserved(s: Shape, body: seq<(string, Json)>, generic: Option<Value>, r: Response)
    requires Instantiate(s, body, generic) == Success(r)
    requires OrdinaryNames(s.fields)
    ensures KeepsExtras(r, body, generic, s)
  {
    forall k | k !in Declared(s) && k != "success" && k != SuccessAttr
      ensures Attr(r, k) == Lookup(CallArgs(body, generic), k)
    {
      ExtraLookup(s, body, generic, r, k);
    }
  }

  /** The base constructor sets no attribute of a declared name. */
  lemma BaseOmitsDeclared(s: Shape, body: seq<(string, Json)>, generic: Option<Value>, name: string)
    requires Bindable(CallArgs(body, generic))
    requires name in Declared(s) && Ordinary(name)
    ensures Lookup(BaseAttrs(SuccessArg(s, body, generic), BaseKwargs(s, body, generic)), name) == None
  {
    KwargsDistinct(s, body, generic);
    UnboundLookup(CallArgs(body, generic), Declared(s), name);
    UnboundLookup(Kwargs(s, body, generic), ["success"], name);
    BaseLookup(SuccessArg(s, body, generic), BaseKwargs(s, body, generic), name);
    assert name != SuccessAttr by {
      assert SuccessAttr[0] == '_';
    }
  }

  /** The k-th declared field is found, with its decoded value, after the base attributes. */
  lemma DeclaredLookup(s: Shape, body: seq<(string, Json)>, generic: Option<Value>, r: Response, k: nat)
    requires Instantiate(s, body, generic) == Success(r)
    requires OrdinaryNames(s.fields)
    requires k < |s.fields|
    ensures DecodeParam(body, s.fields[k]).Success?
    ensures Attr(r, s.fields[k].0) == Some(DecodeParam(body, s.fields[k]).value)
  {
    Unfold(s, body, generic, r);
    var name := s.fields[k].0;
    var fields := DecodeFields(s, body, 0).value;
    FieldsDecoded(s, body, 0);
    FieldNames(s, body);
    assert fields[k - 0] == (name, DecodeParam(body, s.fields[k]).value);
    LookupDistinct(fields, k);
    assert Keys(s.fields)[k] == name;
    BaseOmitsDeclared(s, body, generic, name);
    LookupConcat(BaseAttrs(SuccessArg(s, body, generic), BaseKwargs(s, body, generic)), fields, name);
  }

  /** Every declared field is an attribute holding what its kind prescribes. */
  lemma FieldDecoded(s: Shape, body: seq<(string, Json)>, generic: Option<Value>, r: Response, name: string, kind: FieldKind)
    requires Instantiate(s, body, generic) == Success(r)
    requires OrdinaryNames(s.fields)
    requires (name, kind) in s.fields
    ensures FieldHolds(r, body, name, kind)
  {
    var k :| 0 <= k < |s.fields| && s.fields[k] == (name, kind);
    DeclaredLookup(s, body, generic, r, k);
    ParamMeaning(body, name, kind, Attr(r, name).value);
  }

  /** The k-th declared field is an attribute holding what its kind prescribes. */
  lemma FieldAt(s: Shape, body: seq<(string, Json)>, generic: Option<Value>, r: Response, k: nat)
    requires Instantiate(s, body, generic) == Success(r)
    requires OrdinaryNames(s.fields)
    requires k < |s.fields|
    ensures FieldHolds(r, body, s.fields[k].0, s.fields[k].1)
  {
    DeclaredLookup(s, body, generic, r, k);
    ParamMeaning(body, s.fields[k].0, s.fields[k].1, Attr(r, s.fields[k].0).value);
  }

  /** `vars(r)`: the success flag, then the extra keywords in call order, then the declared fields. */
  lemma AttributeOrder(s: Shape, body: seq<(string, Json)>, generic: Option<Value>, r: Response)
    requires Instantiate(s, body, generic) == Success(r)
    requires OrdinaryNames(s.fields)
    ensures Keys(r.attrs) ==
      [SuccessAttr] + Keys(Unbound(CallArgs(body, generic), Declared(s) + ["success", SuccessAttr])) + Declared(s)
  {
    Unfold(s, body, generic, r);
    FieldNames(s, body);
    KwargsDistinct(s, body, generic);
    var success := SuccessArg(s, body, generic);
    var extras := BaseKwargs(s, body, generic);
    SetAttrsKeys([(SuccessAttr, success)], extras);
    assert Keys([(SuccessAttr, success)]) == [SuccessAttr];
    UnboundTwice(Kwargs(s, body, generic), ["success"], [SuccessAttr]);
    UnboundTwice(CallArgs(body, generic), Declared(s), ["success", SuccessAttr]);
    assert ["success"] + [SuccessAttr] == ["success", SuccessAttr];
    KeysConcat(BaseAttrs(success, extras), DecodeFields(s, body, 0).value);
  }

  /**
   * The payload's `success` member is consumed by the base constructor's
   * parameter and stored under the mangled name (True when absent); a
   * member carrying the mangled name itself overrides it.
   */
  lemma SuccessFlag(s: Shape, body: seq<(string, Json)>, generic: Option<Value>, r: Response)
    requires Instantiate(s, body, generic) == Success(r)
    requires OrdinaryNames(s.fields)
    ensures Attr(r, "success") == None
    ensures Attr(r, SuccessAttr) == Some(
      if HasKey(body, SuccessAttr) then Raw(Lookup(body, SuccessAttr).value)
      else if HasKey(body, "success") then Raw(Lookup(body, "success").value)
      else Raw(JBool(true)))
  {
    Unfold(s, body, generic, r);
    FieldNames(s, body);
    KwargsDistinct(s, body, generic);
    var base := BaseAttrs(SuccessArg(s, body, generic), BaseKwargs(s, body, generic));
    var fields := DecodeFields(s, body, 0).value;
    assert forall i :: 0 <= i < |s.fields| ==> Ordinary(s.fields[i].0);
    assert "success" !in Declared(s);
    assert SuccessAttr !in Declared(s) by {
      assert SuccessAttr[0] == '_';
    }
    LookupConcat(base, fields, "success");
    LookupConcat(base, fields, SuccessAttr);
    BaseLookup(SuccessArg(s, body, generic), BaseKwargs(s, body, generic), "success");
    BaseLookup(SuccessArg(s, body, generic), BaseKwargs(s, body, generic), SuccessAttr);
    UnboundLookup(Kwargs(s, body, generic), ["success"], "success");
    UnboundLookup(Kwargs(s, body, generic), ["success"], SuccessAttr);
    UnboundLookup(CallArgs(body, generic), Declared(s), "success");
    UnboundLookup(CallArgs(body, generic), Declared(s), SuccessAttr);
    LookupCallArgs(body, generic, "success");
    LookupCallArgs(body, generic, SuccessAttr);
  }

  /** `bool(r)`: True by default, the payload's `success` when it is a bool, a TypeError otherwise. */
  lemma Truthiness(s: Shape, body: seq<(string, Json)>, generic: Option<Value>, r: Response)
    requires Instantiate(s, body, generic) == Success(r)
    requires OrdinaryNames(s.fields)
    requires !HasKey(body, SuccessAttr)
    ensures !HasKey(body, "success") ==> Truth(r) == Some(true)
    ensures HasKey(body, "success") ==>
      Truth(r) == if Lookup(body, "success").value.JBool? then Some(Lookup(body, "success").value.b) else None
  {
    SuccessFlag(s, body, generic, r);
  }

  /** The keyword added for a top-level payload is stored as given. */
  lemma GenericStored(s: Shape, body: seq<(string, Json)>, g: Value, r: Response)
    requires Instantiate(s, body, Some(g)) == Success(r)
    requires OrdinaryNames(s.fields)
    ensures Attr(r, PageTypeAttr) == Some(g)
  {
    Unfold(s, body, Some(g), r);
    FieldNames(s, body);
    KwargsDistinct(s, body, Some(g));
    assert PageTypeAttr !in Declared(s) by {
      assert PageTypeAttr[0] == '_';
      assert forall i :: 0 <= i < |s.fields| ==> Ordinary(s.fields[i].0);
    }
    ExtraLookup(s, body, Some(g), r, PageTypeAttr);
    var args := CallArgs(body, Some(g));
    assert !HasKey(RawArgs(body), PageTypeAttr) by {
      forall i | 0 <= i < |body| ensures Keys(RawArgs(body))[i] != PageTypeAttr {
        assert Keys(args)[i] == Keys(RawArgs(body))[i];
        assert Keys(args)[|body|] == PageTypeAttr;
      }
    }
    LookupConcat(RawArgs(body), [(PageTypeAttr, g)], PageTypeAttr);
  }

  /** A payload with a `self` member cannot be bound: Python raises TypeError. */
  lemma SelfKeyFails(s: Shape, body: seq<(string, Json)>, generic: Option<Value>)
    requires HasKey(body, "self")
    ensures Instantiate(s, body, generic) == Failure
  {
    LookupCallArgs(body, generic, "self");
  }

  /** A top-level payload that has its own `_page_generic_type` member gets that keyword twice. */
  lemma GenericClashFails(s: Shape, body: seq<(string, Json)>, g: Value)
    requires HasKey(body, PageTypeAttr)
    ensures Instantiate(s, body, Some(g)) == Failure
  {
    var args := CallArgs(body, Some(g));
    var i :| 0 <= i < |body| && Keys(body)[i] == PageTypeAttr;
    assert Keys(args)[i] == Keys(RawArgs(body))[i];
    assert Keys(args)[|body|] == PageTypeAttr;
  }

  // ----- the constructor run step by step -----

  /** The first i declared fields, each under its own name with its decoded value. */
  predicate FieldsUpTo(s: Shape, body: seq<(string, Json)>, i: nat, fs: seq<(string, Value)>) {
    && i <= |s.fields|
    && |fs| == i
    && forall k :: 0 <= k < i ==>
         DecodeParam(body, s.fields[k]).Success? && fs[k] == (s.fields[k].0, DecodeParam(body, s.fields[k]).value)
  }

  lemma FieldsUpToNext(s: Shape, body: seq<(string, Json)>, i: nat, fs: seq<(string, Value)>, v: Value)
    requires FieldsUpTo(s, body, i, fs)
    requires i < |s.fields|
    requires DecodeParam(body, s.fields[i]) == Success(v)
    ensures FieldsUpTo(s, body, i + 1, fs + [(s.fields[i].0, v)])
  {
    var fs' := fs + [(s.fields[i].0, v)];
    forall k | 0 <= k < i + 1
      ensures DecodeParam(body, s.fields[k]).Success? && fs'[k] == (s.fields[k].0, DecodeParam(body, s.fields[k]).value)
    {
      if k < i {
        assert fs'[k] == fs[k];
      }
    }
  }

  /** All declared fields assigned one by one are what DecodeFields yields. */
  lemma FieldsUpToAll(s: Shape, body: seq<(string, Json)>, fs: seq<(string, Value)>)
    requires FieldsUpTo(s, body, |s.fields|, fs)
    ensures DecodeFields(s, body, 0) == Success(fs)
  {
    FieldsDecoded(s, body, 0);
    assert ParamsDecodeFrom(s, body, 0);
    var ds := DecodeFields(s, body, 0).value;
    assert FieldsFrom(s, body, 0, ds);
    forall k | 0 <= k < |fs| ensures ds[k] == fs[k] {
      assert ds[k - 0] == (s.fields[k].0, DecodeParam(body, s.fields[k]).value);
    }
    assert ds == fs;
  }

  /** A declared field that fails to decode makes the whole decode fail. */
  lemma FieldFails(s: Shape, body: seq<(string, Json)>, i: nat)
    requires i < |s.fields|
    requires DecodeParam(body, s.fields[i]).Failure?
    ensures DecodeFields(s, body, 0) == Failure
  {
    FieldsDecoded(s, body, 0);
    assert !ParamsDecodeFrom(s, body, 0);
  }

  /** When the next declared field is assigned, no attribute of its name exists yet. */
  lemma NameUnset(s: Shape, body: seq<(string, Json)>, generic: Option<Value>, fs: seq<(string, Value)>, i: nat)
    requires Bindable(CallArgs(body, generic))
    requires OrdinaryNames(s.fields)
    requires FieldsUpTo(s, body, i, fs)
    requires i < |s.fields|
    ensures !HasKey(BaseAttrs(SuccessArg(s, body, generic), BaseKwargs(s, body, generic)) + fs, s.fields[i].0)
  {
    var name := s.fields[i].0;
    var base := BaseAttrs(SuccessArg(s, body, generic), BaseKwargs(s, body, generic));
    assert Keys(s.fields)[i] == name;
    BaseOmitsDeclared(s, body, generic, name);
    assert !HasKey(fs, name) by {
      forall m | 0 <= m < i ensures Keys(fs)[m] != name {
        assert Keys(fs)[m] == Keys(s.fields)[m];
      }
    }
    LookupConcat(base, fs, name);
  }

  // ----- the constructor run step by step -----

  /**
   * `Shape(**body, ...)` as Python runs it: bind the keywords, run the
   * base constructor, then assign the declared fields one at a time.
   */
  method Construct(s: Shape, body: seq<(string, Json)>, generic: Option<Value>) returns (res: Result<Response>)
    requires OrdinaryNames(s.fields)
    ensures res == Instantiate(s, body, generic)
  {
    if !Bindable(CallArgs(body, generic)) {
      return Failure;
    }
    var r := Init(s, SuccessArg(s, body, generic), BaseKwargs(s, body, generic));
    var attrs := r.attrs;
    ghost var fs: seq<(string, Value)> := [];
    var i := 0;
    while i < |s.fields|
      invariant FieldsUpTo(s, body, i, fs)
      invariant attrs == r.attrs + fs
    {
      var field := s.fields[i];
      var d := DecodeParam(body, field);
      if d.Failure? {
        FieldFails(s, body, i);
        return Failure;
      }
      NameUnset(s, body, generic, fs, i);
      attrs := SetAttr(attrs, field.0, d.value);
      FieldsUpToNext(s, body, i, fs, d.value);
      fs := fs + [(field.0, d.value)];
      i := i + 1;
    }
    FieldsUpToAll(s, body, fs);
    return Success(Response(s, attrs));
  }
}
