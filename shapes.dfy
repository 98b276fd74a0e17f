/**
 * The shapes of the decoding layer: what a class derived from the base
 * response class declares, the two classes of async_supercell_api/types.py,
 * and what Python demands of parameter names.
 */
module Shapes {
  import opened Keywords

  /**
   * A class derived from the base response class: its `__name__` and the
   * parameters its constructor declares, in the order it assigns them.
   */
  datatype Shape = Shape(name: string, fields: seq<Field>)

  /** How a constructor treats one declared parameter. */
  datatype FieldKind =
      /** `self.f = f`: stored as given */
    | Scalar
      /** `self.f = None if f is None else Target(**f)` */
    | Nested(target: Shape)
      /** `self.f = None if f is None else list(map(lambda x: Target(**x), f))` */
    | ListOf(target: Shape)

  /** A declared field: its name and kind. */
  type Field = (string, FieldKind)

  /** The names of the declared parameters, which Python binds by keyword. */
  function Declared(s: Shape): (names: seq<string>)
    ensures |names| == |s.fields|
  {
    Keys(s.fields)
  }

  /** `SupercellApiResponse` itself, which declares no parameter of its own. */
  function BaseResponse(): Shape {
    Shape("SupercellApiResponse", [])
  }

  /** `Page.__init__`: items, then paging; the items are built as bare base responses. */
  function Page(): Shape {
    Shape("Page", [("items", ListOf(BaseResponse())), ("paging", Scalar)])
  }

  /**
   * What Python demands of a constructor's parameter names, and what the
   * decoding layer relies on: no two are alike, and none is `self`,
   * `success` or begins with an underscore (so none is the mangled success
   * attribute or `_page_generic_type`).
   */
  predicate OrdinaryNames(fs: seq<Field>) {
    && Distinct(Keys(fs))
    && forall i :: 0 <= i < |fs| ==> Ordinary(fs[i].0)
  }

  predicate Ordinary(name: string) {
    name != "" && name[0] != '_' && name != "self" && name != "success"
  }

  /** Names that each sit at their own slot are distinct. */
  lemma SlottedNames(fs: seq<Field>, slot: string -> int)
    requires forall i :: 0 <= i < |fs| ==> slot(fs[i].0) == i && Ordinary(fs[i].0)
    ensures OrdinaryNames(fs)
  {
    forall i, j | 0 <= i < j < |fs| ensures Keys(fs)[i] != Keys(fs)[j] {
      assert slot(fs[i].0) == i && slot(fs[j].0) == j;
    }
  }
}
