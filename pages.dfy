/**
 * `Page` of async_supercell_api/types.py: what a page decodes to whatever
 * item class its generic parameter names.
 */
module Pages {
  import opened Wrappers
  import opened JsonData
  import opened Keywords
  import opened Shapes
  import opened Responses
  import opened Decoder
  import opened DecoderLaws

  /** `Page.__init__` declares `items` and `paging`. */
  lemma PageNames()
    ensures OrdinaryNames(Page().fields)
  {
    assert Keys(Page().fields) == ["items", "paging"];
  }

  /** Every response of the list is an instance of t. */
  predicate InstancesOf(rs: seq<Response>, t: Shape) {
    forall i :: 0 <= i < |rs| ==> rs[i].shape == t
  }

  /** Responses decoded element by element as t are instances of t. */
  lemma DecodedInstances(t: Shape, xs: seq<Json>, rs: seq<Response>)
    requires DecodedFrom(t, xs, 0, rs)
    ensures InstancesOf(rs, t)
  {
    forall i | 0 <= i < |rs| ensures rs[i].shape == t {
      assert DecodeObject(t, xs[i]) == Success(rs[i - 0]);
      DecodedShape(t, xs[i], rs[i]);
    }
  }

  /**
   * `items`: None when the payload has none, otherwise one bare
   * `SupercellApiResponse` per element, decoded from that element alone.
   */
  lemma PageItems(body: seq<(string, Json)>, generic: Option<Value>, r: Response)
    requires Instantiate(Page(), body, generic) == Success(r)
    ensures Param(body, "items") == JNull ==> Attr(r, "items") == Some(Raw(JNull))
    ensures Param(body, "items").JArr? ==>
      && Attr(r, "items").Some? && Attr(r, "items").value.Objects?
      && DecodedFrom(BaseResponse(), Param(body, "items").elems, 0, Attr(r, "items").value.responses)
      && InstancesOf(Attr(r, "items").value.responses, BaseResponse())
  {
    PageNames();
    FieldAt(Page(), body, generic, r, 0);
    if Param(body, "items").JArr? {
      ListFieldHolds(BaseResponse(), Param(body, "items"), Attr(r, "items").value);
      DecodedInstances(BaseResponse(), Param(body, "items").elems, Attr(r, "items").value.responses);
    }
  }

  /** `paging` is stored as the payload gave it, None when absent. */
  lemma PagePaging(body: seq<(string, Json)>, generic: Option<Value>, r: Response)
    requires Instantiate(Page(), body, generic) == Success(r)
    ensures Attr(r, "paging") == Some(Raw(Param(body, "paging")))
  {
    PageNames();
    FieldAt(Page(), body, generic, r, 1);
  }

  /** The generic type does not reach the items: two pages of one payload have the same items and paging. */
  lemma ItemsIgnoreGeneric(body: seq<(string, Json)>, g1: Option<Value>, g2: Option<Value>, r1: Response, r2: Response)
    requires Instantiate(Page(), body, g1) == Success(r1)
    requires Instantiate(Page(), body, g2) == Success(r2)
    ensures Attr(r1, "items") == Attr(r2, "items")
    ensures Attr(r1, "paging") == Attr(r2, "paging")
  {
    PageNames();
    DeclaredLookup(Page(), body, g1, r1, 0);
    DeclaredLookup(Page(), body, g2, r2, 0);
    DeclaredLookup(Page(), body, g1, r1, 1);
    DeclaredLookup(Page(), body, g2, r2, 1);
  }

  /**
   * A bare item: its attributes are the element's members, except that
   * `success` is consumed and stored under the mangled name.
   */
  lemma ItemAttrs(m: seq<(string, Json)>, x: Response, k: string)
    requires Instantiate(BaseResponse(), m, None) == Success(x)
    ensures x.shape == BaseResponse()
    ensures k != "success" && k != SuccessAttr ==>
      Attr(x, k) == if HasKey(m, k) then Some(Raw(Lookup(m, k).value)) else None
    ensures Attr(x, "success") == None
  {
    assert OrdinaryNames(BaseResponse().fields);
    SuccessFlag(BaseResponse(), m, None, x);
    if k != "success" && k != SuccessAttr {
      ExtraLookup(BaseResponse(), m, None, x, k);
      if k != PageTypeAttr {
        LookupCallArgs(m, None, k);
      } else {
        LookupRawArgs(m, k);
        assert CallArgs(m, None) == RawArgs(m);
      }
    }
  }
}
