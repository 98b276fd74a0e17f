/**
 * `ClientError` of async_supercell_api/errors.py: the exception raised for
 * a response outside the 2xx range, built from the error payload's members.
 */
module Errors {
  import opened Wrappers
  import opened JsonData
  import opened Keywords

  /** A raised `ClientError`: `e.args` and `vars(e)` in insertion order. */
  datatype ClientError = ClientError(args: seq<Json>, attrs: seq<(string, Json)>)

  /** The constructor's named parameters, in the order it assigns them. */
  const ErrorParams: seq<string> := ["reason", "message", "type", "detail"]

  /** The default of the `message` parameter. */
  const UnknownError := JStr("Unknown error")

  /** The four named attributes, each the keyword of its name or the parameter's default. */
  function NamedAttrs(kwargs: seq<(string, Json)>): seq<(string, Json)> {
    [("reason", Arg(kwargs, "reason", JNull)),
     ("message", Arg(kwargs, "message", UnknownError)),
     ("type", Arg(kwargs, "type", JNull)),
     ("detail", Arg(kwargs, "detail", JNull))]
  }

  /**
   * `ClientError(**kwargs)`: the message becomes the exception's only
   * argument, the four named parameters are assigned in order, then every
   * other keyword is set as an attribute. Keywords that cannot bind (a
   * `self` key, or a name given twice) raise TypeError.
   */
  function ErrorOf(kwargs: seq<(string, Json)>): Result<ClientError> {
    if !Bindable(kwargs) then Failure
    else Success(ClientError([Arg(kwargs, "message", UnknownError)],
                             SetAttrs(NamedAttrs(kwargs), Unbound(kwargs, ErrorParams))))
  }

  /** `ClientError.__init__` as Python runs it: one assignment at a time, then the setattr loop. */
  method NewClientError(kwargs: seq<(string, Json)>) returns (res: Result<ClientError>)
    ensures res == ErrorOf(kwargs)
  {
    if !Bindable(kwargs) {
      return Failure;
    }
    var reason := Arg(kwargs, "reason", JNull);
    var message := Arg(kwargs, "message", UnknownError);
    var kind := Arg(kwargs, "type", JNull);
    var detail := Arg(kwargs, "detail", JNull);
    var extras := Unbound(kwargs, ErrorParams);
    var args := [message];
    var attrs := [("reason", reason)];
    attrs := attrs + [("message", message)];
    attrs := attrs + [("type", kind)];
    attrs := attrs + [("detail", detail)];
    ghost var named := attrs;
    assert named == NamedAttrs(kwargs);
    var i := 0;
    while i < |extras|
      invariant 0 <= i <= |extras|
      invariant attrs == SetAttrs(named, extras[..i])
    {
      assert extras[..i + 1][..i] == extras[..i];
      attrs := SetAttr(attrs, extras[i].0, extras[i].1);
      i := i + 1;
    }
    assert extras[..i] == extras;
    return Success(ClientError(args, attrs));
  }

  /** The constructor raises exactly when its keywords cannot bind. */
  lemma ErrorRaises(kwargs: seq<(string, Json)>)
    ensures ErrorOf(kwargs).Failure? <==> HasKey(kwargs, "self") || !Distinct(Keys(kwargs))
  {
  }

  /**
   * With no keywords: message 'Unknown error', as the only argument too,
   * and None for reason, type and detail.
   */
  lemma ErrorDefaults()
    ensures ErrorOf([]) == Success(ClientError([UnknownError],
      [("reason", JNull), ("message", UnknownError), ("type", JNull), ("detail", JNull)]))
  {
    assert Keys(NamedAttrs([])) == ErrorParams;
  }

  /** The named attributes carry the parameter names, in order. */
  lemma NamedKeys(kwargs: seq<(string, Json)>)
    ensures Keys(NamedAttrs(kwargs)) == ErrorParams
  {
    var named := NamedAttrs(kwargs);
    assert named[0].0 == "reason" && named[1].0 == "message" && named[2].0 == "type" && named[3].0 == "detail";
  }

  /**
   * The attributes are the four named ones, then the other keywords in
   * payload order; a given message, null included, is kept and passed on as
   * the exception's argument.
   */
  lemma ErrorLayout(kwargs: seq<(string, Json)>)
    requires Bindable(kwargs)
    ensures ErrorOf(kwargs).Success?
    ensures ErrorOf(kwargs).value.attrs == NamedAttrs(kwargs) + Unbound(kwargs, ErrorParams)
    ensures HasKey(kwargs, "message") ==> ErrorOf(kwargs).value.args == [Lookup(kwargs, "message").value]
    ensures !HasKey(kwargs, "message") ==> ErrorOf(kwargs).value.args == [UnknownError]
  {
    var named := NamedAttrs(kwargs);
    var extras := Unbound(kwargs, ErrorParams);
    NamedKeys(kwargs);
    UnboundDistinct(kwargs, ErrorParams);
    assert Distinct(ErrorParams);
    forall i | 0 <= i < |extras| ensures Keys(extras)[i] !in Keys(named) {
      assert extras[i].0 !in ErrorParams;
    }
    DistinctConcat(named, extras);
    SetAttrsAppend(named, extras);
  }

  /** Each keyword ends up an attribute of its name with its value; absent named parameters hold their defaults. */
  lemma ErrorAttr(kwargs: seq<(string, Json)>, k: string)
    requires Bindable(kwargs)
    ensures Lookup(ErrorOf(kwargs).value.attrs, k) ==
      if HasKey(kwargs, k) then Lookup(kwargs, k)
      else if k == "message" then Some(UnknownError)
      else if k in ErrorParams then Some(JNull)
      else None
  {
    var named := NamedAttrs(kwargs);
    UnboundDistinct(kwargs, ErrorParams);
    LookupSetAttrs(named, Unbound(kwargs, ErrorParams), k);
    UnboundLookup(kwargs, ErrorParams, k);
    LookupNamed(kwargs, k);
  }

  /** A lookup among the four named attributes. */
  lemma LookupNamed(kwargs: seq<(string, Json)>, k: string)
    ensures Lookup(NamedAttrs(kwargs), k) ==
      if k == "message" then Some(Arg(kwargs, "message", UnknownError))
      else if k in ErrorParams then Some(Arg(kwargs, k, JNull))
      else None
  {
    var named := NamedAttrs(kwargs);
    NamedKeys(kwargs);
    assert Distinct(ErrorParams);
    if k == "reason" {
      LookupDistinct(named, 0);
    } else if k == "message" {
      LookupDistinct(named, 1);
    } else if k == "type" {
      LookupDistinct(named, 2);
    } else if k == "detail" {
      LookupDistinct(named, 3);
    }
  }
}
