/**
 * The base response class of async_supercell_api/types.py: its attribute
 * dictionary, its constructor, its truth value and its pretty-printer.
 */
module Responses {
  import opened Wrappers
  import opened JsonData
  import opened Keywords
  import opened Shapes

  /** `self.__success`, as Python's name mangling stores it in `vars(self)`. */
  const SuccessAttr := "_SupercellApiResponse__success"

  /** What an attribute of a decoded response can hold. */
  datatype Value =
      /** a JSON value stored as the payload gave it (None is `Raw(JNull)`) */
    | Raw(json: Json)
      /** a nested decoded object */
    | Object(response: Response)
      /** a list of decoded objects */
    | Objects(responses: seq<Response>)
      /** a class object, as `_page_generic_type` holds one */
    | Class(shape: Shape)

  /** An instance: its class and `vars(self)` in insertion order. */
  datatype Response = Response(shape: Shape, attrs: seq<(string, Value)>)

  /** `getattr(r, name)`, when the instance has that attribute. */
  function Attr(r: Response, name: string): Option<Value> {
    Lookup(r.attrs, name)
  }

  /** `vars(self)` once `SupercellApiResponse.__init__(success, **kwargs)` has run. */
  function BaseAttrs(success: Value, kwargs: seq<(string, Value)>): seq<(string, Value)> {
    SetAttrs([(SuccessAttr, success)], kwargs)
  }

  /**
   * `SupercellApiResponse.__init__`: store the success flag, then set every
   * keyword argument as an attribute, in order.
   */
  method Init(shape: Shape, success: Value, kwargs: seq<(string, Value)>) returns (r: Response)
    ensures r == Response(shape, BaseAttrs(success, kwargs))
  {
    var attrs := [(SuccessAttr, success)];
    var i := 0;
    while i < |kwargs|
      invariant 0 <= i <= |kwargs|
      invariant attrs == SetAttrs([(SuccessAttr, success)], kwargs[..i])
    {
      assert kwargs[..i + 1][..i] == kwargs[..i];
      attrs := SetAttr(attrs, kwargs[i].0, kwargs[i].1);
      i := i + 1;
    }
    assert kwargs[..i] == kwargs;
    r := Response(shape, attrs);
  }

  /**
   * With distinct keyword names none of which is the mangled name, the
   * success flag comes first and the keywords follow in call order.
   */
  lemma BaseLayout(success: Value, kwargs: seq<(string, Value)>)
    requires Distinct(Keys(kwargs))
    requires !HasKey(kwargs, SuccessAttr)
    ensures BaseAttrs(success, kwargs) == [(SuccessAttr, success)] + kwargs
  {
    var all := [(SuccessAttr, success)] + kwargs;
    assert Keys(all) == [SuccessAttr] + Keys(kwargs);
    forall i, j | 0 <= i < j < |all| ensures Keys(all)[i] != Keys(all)[j] {
      if i == 0 {
        assert Keys(kwargs)[j - 1] == Keys(all)[j];
      }
    }
    SetAttrsAppend([(SuccessAttr, success)], kwargs);
  }

  /**
   * Each keyword becomes an attribute with its value; a keyword carrying
   * the mangled name replaces the success flag; nothing else is present.
   */
  lemma BaseLookup(success: Value, kwargs: seq<(string, Value)>, k: string)
    requires Distinct(Keys(kwargs))
    ensures Lookup(BaseAttrs(success, kwargs), k) ==
      if HasKey(kwargs, k) then Lookup(kwargs, k)
      else if k == SuccessAttr then Some(success)
      else None
  {
    LookupSetAttrs([(SuccessAttr, success)], kwargs, k);
    assert Keys([(SuccessAttr, success)]) == [SuccessAttr];
  }

  /** The mangled name has the first place in `vars(self)` whatever the keywords. */
  lemma {:induction false} BaseFirst(success: Value, kwargs: seq<(string, Value)>)
    ensures |BaseAttrs(success, kwargs)| > 0
    ensures BaseAttrs(success, kwargs)[0].0 == SuccessAttr
  {
    if kwargs != [] {
      var n := |kwargs| - 1;
      BaseFirst(success, kwargs[..n]);
      var before := BaseAttrs(success, kwargs[..n]);
      assert Keys(before)[0] == SuccessAttr;
    }
  }

  /**
   * `bool(r)`: the stored success flag, or None when it is not a bool
   * (Python then raises TypeError from `__bool__`).
   */
  function Truth(r: Response): (b: Option<bool>)
    ensures b.Some? <==> (Attr(r, SuccessAttr).Some? && Attr(r, SuccessAttr).value.Raw? &&
                          Attr(r, SuccessAttr).value.json.JBool?)
    ensures b.Some? ==> Attr(r, SuccessAttr) == Some(Raw(JBool(b.value)))
  {
    match Attr(r, SuccessAttr)
    case Some(Raw(JBool(b))) => Some(b)
    case _ => None
  }

  // ----- rendering -----

  /** Python's `s * n`: n copies of s, none when n is not positive. */
  function Repeat(s: string, n: int): (r: string)
    ensures n <= 0 ==> r == ""
    ensures n > 0 ==> r == s + Repeat(s, n - 1)
    decreases n
  {
    if n <= 0 then "" else s + Repeat(s, n - 1)
  }

  /** Python's `sep.join(parts)`. */
  function Join(sep: string, parts: seq<string>): string {
    if |parts| == 0 then ""
    else if |parts| == 1 then parts[0]
    else parts[0] + sep + Join(sep, parts[1..])
  }

  /** The attributes `to_string` prints: all but the mangled success flag, in order. */
  function Visible(attrs: seq<(string, Value)>): (v: seq<(string, Value)>)
    ensures forall i :: 0 <= i < |v| ==> v[i] in attrs && v[i].0 != SuccessAttr
    ensures forall i :: 0 <= i < |attrs| && attrs[i].0 != SuccessAttr ==> attrs[i] in v
  {
    if attrs == [] then []
    else
      var rest := Visible(attrs[1..]);
      assert forall i :: 1 <= i < |attrs| ==> attrs[i] == attrs[1..][i - 1];
      if attrs[0].0 == SuccessAttr then rest else [attrs[0]] + rest
  }

  /** The text of a list: `[`, its elements, and the closing bracket after a literal newline. */
  function ListText(parts: seq<string>, level: int, sep: string, nl: string): string {
    "[" + nl + Repeat(sep, level + 2) + Join("," + nl + Repeat(sep, level + 2), parts)
    + "\n" + Repeat(sep, level + 1) + "]"
  }

  /**
   * `r.to_string(level = level, sep = sep, nl = nl)`, where `show` stands
   * for Python's `str` on values that are neither responses nor lists.
   */
  function ToString(r: Response, level: int, sep: string, nl: string, show: Value -> string): string
    decreases r, 2, 0
  {
    r.shape.name + "(" + nl + Repeat(sep, level + 1)
    + Join("," + nl + Repeat(sep, level + 1), Items(r, 0, level, sep, nl, show))
    + nl + Repeat(sep, level) + ")"
  }

  /** The `name = value` lines for `r.attrs[i..]`, skipping the success flag. */
  function Items(r: Response, i: nat, level: int, sep: string, nl: string, show: Value -> string): seq<string>
    requires i <= |r.attrs|
    decreases r, 1, |r.attrs| - i
  {
    if i == |r.attrs| then []
    else
      var rest := Items(r, i + 1, level, sep, nl, show);
      if r.attrs[i].0 == SuccessAttr then rest
      else [r.attrs[i].0 + " = " + Render(r.attrs[i].1, level, sep, nl, show)] + rest
  }

  /** The inner `recursion(obj, level, sep)` of `to_string`, with `nl` taken from the enclosing call. */
  function Render(v: Value, level: int, sep: string, nl: string, show: Value -> string): string
    decreases v, 3, 0
  {
    match v
    case Object(r) => ToString(r, level + 1, sep, "\n", show)
    case Objects(rs) => ListText(RenderObjects(rs, 0, level + 1, sep, show), level, sep, nl)
    case Raw(j) => RenderJson(j, level, sep, nl, show)
    case Class(_) => show(v)
  }

  /** `recursion(x, level, sep)` for each decoded element of a list, from `rs[i]` on. */
  function RenderObjects(rs: seq<Response>, i: nat, level: int, sep: string, show: Value -> string): (texts: seq<string>)
    requires i <= |rs|
    decreases Objects(rs), 2, |rs| - i
  {
    if i == |rs| then []
    else [ToString(rs[i], level + 1, sep, "\n", show)] + RenderObjects(rs, i + 1, level, sep, show)
  }

  /** `recursion(obj, level, sep)` on a raw JSON value: lists are laid out, all else goes to `str`. */
  function RenderJson(j: Json, level: int, sep: string, nl: string, show: Value -> string): string
    decreases j, 3, 0
  {
    match j
    case JArr(xs) => ListText(RenderJsons(xs, 0, level + 1, sep, nl, show), level, sep, nl)
    case _ => show(Raw(j))
  }

  function RenderJsons(xs: seq<Json>, i: nat, level: int, sep: string, nl: string, show: Value -> string): seq<string>
    requires i <= |xs|
    decreases JArr(xs), 2, |xs| - i
  {
    if i == |xs| then []
    else [RenderJson(xs[i], level, sep, nl, show)] + RenderJsons(xs, i + 1, level, sep, nl, show)
  }

  /** `repr(r)`: `to_string` with its defaults. */
  function Repr(r: Response, show: Value -> string): string {
    ToString(r, 0, "    ", "\n", show)
  }

  // ----- rendering laws -----

  /** The `name = value` line of one visible attribute. */
  function Line(a: (string, Value), level: int, sep: string, nl: string, show: Value -> string): string {
    a.0 + " = " + Render(a.1, level, sep, nl, show)
  }

  /** One line per attribute, in order. */
  function Lines(attrs: seq<(string, Value)>, level: int, sep: string, nl: string, show: Value -> string): (ls: seq<string>)
    ensures |ls| == |attrs|
  {
    if attrs == [] then [] else [Line(attrs[0], level, sep, nl, show)] + Lines(attrs[1..], level, sep, nl, show)
  }

  /** `Visible` of a non-empty sequence splits at its head. */
  lemma VisibleCons(attrs: seq<(string, Value)>)
    requires attrs != []
    ensures Visible(attrs) == if attrs[0].0 == SuccessAttr then Visible(attrs[1..]) else [attrs[0]] + Visible(attrs[1..])
  {
  }

  /** The printed items are one line per visible attribute, in `vars(self)` order. */
  lemma {:induction false} ItemsVisible(r: Response, i: nat, level: int, sep: string, nl: string, show: Value -> string)
    requires i <= |r.attrs|
    ensures Items(r, i, level, sep, nl, show) == Lines(Visible(r.attrs[i..]), level, sep, nl, show)
    decreases |r.attrs| - i
  {
    if i < |r.attrs| {
      ItemsVisible(r, i + 1, level, sep, nl, show);
      assert r.attrs[i..][1..] == r.attrs[i + 1..];
      VisibleCons(r.attrs[i..]);
    } else {
      assert r.attrs[i..] == [];
    }
  }

  /**
   * The text of a response: its class name, `(`, the visible attributes
   * one per line, and `)` under the opening line's indentation.
   */
  lemma ToStringLayout(r: Response, level: int, sep: string, nl: string, show: Value -> string)
    ensures ToString(r, level, sep, nl, show) ==
      r.shape.name + "(" + nl + Repeat(sep, level + 1)
      + Join("," + nl + Repeat(sep, level + 1), Lines(Visible(r.attrs), level, sep, nl, show))
      + nl + Repeat(sep, level) + ")"
  {
    ItemsVisible(r, 0, level, sep, nl, show);
    assert r.attrs[0..] == r.attrs;
  }

  /** The success flag never shows: instances of one class with the same other attributes print alike. */
  lemma SuccessHidden(r1: Response, r2: Response, level: int, sep: string, nl: string, show: Value -> string)
    requires r1.shape.name == r2.shape.name
    requires Visible(r1.attrs) == Visible(r2.attrs)
    ensures ToString(r1, level, sep, nl, show) == ToString(r2, level, sep, nl, show)
  {
    ToStringLayout(r1, level, sep, nl, show);
    ToStringLayout(r2, level, sep, nl, show);
  }

  /** Whatever the success value, the base constructor's instance prints the same: its keywords, in order. */
  lemma SuccessNotPrinted(s: Shape, a: Value, b: Value, kwargs: seq<(string, Value)>, level: int, sep: string,
                          nl: string, show: Value -> string)
    requires Distinct(Keys(kwargs))
    requires !HasKey(kwargs, SuccessAttr)
    ensures Visible(BaseAttrs(a, kwargs)) == kwargs
    ensures ToString(Response(s, BaseAttrs(a, kwargs)), level, sep, nl, show) ==
            ToString(Response(s, BaseAttrs(b, kwargs)), level, sep, nl, show)
  {
    BaseLayout(a, kwargs);
    BaseLayout(b, kwargs);
    VisibleCons([(SuccessAttr, a)] + kwargs);
    VisibleCons([(SuccessAttr, b)] + kwargs);
    assert ([(SuccessAttr, a)] + kwargs)[1..] == kwargs;
    assert ([(SuccessAttr, b)] + kwargs)[1..] == kwargs;
    VisibleAll(kwargs);
    SuccessHidden(Response(s, BaseAttrs(a, kwargs)), Response(s, BaseAttrs(b, kwargs)), level, sep, nl, show);
  }

  /** Attributes without the mangled name are all printed. */
  lemma {:induction false} VisibleAll(attrs: seq<(string, Value)>)
    requires !HasKey(attrs, SuccessAttr)
    ensures Visible(attrs) == attrs
  {
    if attrs != [] {
      assert Keys(attrs[1..]) == Keys(attrs)[1..];
      assert attrs[0].0 == Keys(attrs)[0];
      VisibleAll(attrs[1..]);
      VisibleCons(attrs);
    }
  }

  /** A list closes on a literal newline even when `nl` is empty. */
  lemma ListClosesOnNewline(s: Shape, k: string, show: Value -> string)
    requires k != SuccessAttr
    ensures ToString(Response(s, [(k, Objects([]))]), 0, "", "", show) == s.name + "(" + k + " = [\n])"
  {
    var r := Response(s, [(k, Objects([]))]);
    assert Repeat("", 1) == "" && Repeat("", 2) == "" && Repeat("", 0) == "";
    assert Render(Objects([]), 0, "", "", show) == "[\n]";
    assert Items(r, 1, 0, "", "", show) == [];
    assert Items(r, 0, 0, "", "", show) == [k + " = " + "[\n]"];
    assert " = " + "[\n]" == " = [\n]";
  }

  /** A nested object is printed with the default `nl`, not the caller's. */
  lemma NestedDefaultNewline(s: Shape, t: Shape, k: string, show: Value -> string)
    requires k != SuccessAttr
    ensures ToString(Response(s, [(k, Object(Response(t, [])))]), 0, "", "", show)
      == s.name + "(" + k + " = " + t.name + "(\n\n))"
  {
    var inner := Response(t, []);
    var r := Response(s, [(k, Object(inner))]);
    assert Repeat("", 1) == "" && Repeat("", 2) == "" && Repeat("", 0) == "";
    assert Items(inner, 0, 1, "", "\n", show) == [];
    var text := ToString(inner, 1, "", "\n", show);
    assert text == t.name + "(\n\n)";
    assert Render(Object(inner), 0, "", "", show) == text;
    assert Items(r, 1, 0, "", "", show) == [];
    assert Items(r, 0, 0, "", "", show) == [k + " = " + text];
  }

  /** `repr` of an instance: four-space indentation, one attribute per line, the flag hidden. */
  lemma ReprExample(s: Shape, success: Value, k: string, v: Json, show: Value -> string)
    requires k != SuccessAttr && !v.JArr?
    ensures Repr(Response(s, [(SuccessAttr, success), (k, Raw(v))]), show)
      == s.name + "(\n    " + k + " = " + show(Raw(v)) + "\n)"
  {
    var r := Response(s, [(SuccessAttr, success), (k, Raw(v))]);
    assert Repeat("    ", 1) == "    " && Repeat("    ", 0) == "";
    assert Items(r, 2, 0, "    ", "\n", show) == [];
    assert Items(r, 1, 0, "    ", "\n", show) == [k + " = " + show(Raw(v))];
    assert Items(r, 0, 0, "    ", "\n", show) == [k + " = " + show(Raw(v))];
  }

  /** Each decoded element of a list is printed as its own `to_string`, one level deeper, with the default `nl`. */
  lemma {:induction false} RenderObjectsAt(rs: seq<Response>, i: nat, level: int, sep: string, show: Value -> string)
    requires i <= |rs|
    ensures |RenderObjects(rs, i, level, sep, show)| == |rs| - i
    ensures forall k :: i <= k < |rs| ==> RenderObjects(rs, i, level, sep, show)[k - i] == ToString(rs[k], level + 1, sep, "\n", show)
    decreases |rs| - i
  {
    if i < |rs| {
      RenderObjectsAt(rs, i + 1, level, sep, show);
    }
  }

  /**
   * A list of decoded objects: `[`, then each element's text two levels
   * deeper than the attribute, joined by `,` and `nl`, then a literal
   * newline and `]`.
   */
  lemma ObjectsLayout(rs: seq<Response>, level: int, sep: string, nl: string, show: Value -> string)
    ensures Render(Objects(rs), level, sep, nl, show) ==
      "[" + nl + Repeat(sep, level + 2)
      + Join("," + nl + Repeat(sep, level + 2), seq(|rs|, k requires 0 <= k < |rs| => ToString(rs[k], level + 2, sep, "\n", show)))
      + "\n" + Repeat(sep, level + 1) + "]"
  {
    RenderObjectsAt(rs, 0, level + 1, sep, show);
    assert RenderObjects(rs, 0, level + 1, sep, show) ==
      seq(|rs|, k requires 0 <= k < |rs| => ToString(rs[k], level + 2, sep, "\n", show));
  }

  /** Each element of a raw JSON list is printed one level deeper, with the caller's `nl`, in list order. */
  lemma {:induction false} RenderJsonsAt(xs: seq<Json>, i: nat, level: int, sep: string, nl: string, show: Value -> string)
    requires i <= |xs|
    ensures |RenderJsons(xs, i, level, sep, nl, show)| == |xs| - i
    ensures forall k :: i <= k < |xs| ==> RenderJsons(xs, i, level, sep, nl, show)[k - i] == RenderJson(xs[k], level, sep, nl, show)
    decreases |xs| - i
  {
    if i < |xs| {
      RenderJsonsAt(xs, i + 1, level, sep, nl, show);
    }
  }

  /**
   * A raw JSON list: `[`, then each element's text one level deeper than
   * the attribute (keeping the caller's `nl`), joined by `,` and `nl`, then
   * a literal newline and `]`; any other raw value is printed by `str`.
   */
  lemma JsonsLayout(j: Json, level: int, sep: string, nl: string, show: Value -> string)
    ensures j.JArr? ==>
      Render(Raw(j), level, sep, nl, show) == "[" + nl + Repeat(sep, level + 2)
      + Join("," + nl + Repeat(sep, level + 2),
             seq(|j.elems|, k requires 0 <= k < |j.elems| => RenderJson(j.elems[k], level + 1, sep, nl, show)))
      + "\n" + Repeat(sep, level + 1) + "]"
    ensures !j.JArr? ==> Render(Raw(j), level, sep, nl, show) == show(Raw(j))
  {
    if j.JArr? {
      RenderJsonsAt(j.elems, 0, level + 1, sep, nl, show);
      assert RenderJsons(j.elems, 0, level + 1, sep, nl, show) ==
        seq(|j.elems|, k requires 0 <= k < |j.elems| => RenderJson(j.elems[k], level + 1, sep, nl, show));
    }
  }
}
