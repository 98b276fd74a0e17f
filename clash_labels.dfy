/**
 * The Clash of Clans shapes of async_supercell_api/clash_of_clans/types/labels.py. Each table lists a
 * constructor's declared parameters in the order it assigns them after
 * `super().__init__(**kwargs)`, which is the order they take in `vars(self)`.
 */
module ClashLabels {
  import opened Keywords
  import opened Shapes

  /** `Label.__init__` */
  function Label(): Shape {
    Shape("Label", [
      ("name", Scalar),
      ("id", Scalar),
      ("iconUrls", Scalar)
    ])
  }

  /** The position of each name in the `Label` table, -1 for any other name; names are told apart by length first. */
  function LabelSlot(name: string): int {
    if |name| == 2 then (if name == "id" then 1 else -1)
    else if |name| == 4 then (if name == "name" then 0 else -1)
    else if |name| == 8 then (if name == "iconUrls" then 2 else -1)
    else -1
  }

  /** `Label.__init__` declares distinct parameter names, none of them reserved. */
  lemma LabelNames()
    ensures OrdinaryNames(Label().fields)
  {
    var fs := Label().fields;
    forall i | 0 <= i < |fs| ensures LabelSlot(fs[i].0) == i && Ordinary(fs[i].0) {
      if i == 0 {}
      else if i == 1 {}
      else if i == 2 {}
    }
    SlottedNames(fs, LabelSlot);
  }

}

/**
 * What decoding a payload as each shape of async_supercell_api/clash_of_clans/types/labels.py yields:
 * every declared field is present, holds its value as the field's kind
 * prescribes (absent or null gives None), and every undeclared key other
 * than `success` is kept with its value.
 */
module ClashLabelsRules {
  import opened JsonData
  import opened Wrappers
  import opened Shapes
  import opened Responses
  import opened Decoder
  import opened DecoderLaws
  import ClashLabels

  /** `Label(**body)`: each declared field as its kind prescribes, and the extra keywords kept. */
  lemma Label(body: seq<(string, Json)>, generic: Option<Value>, r: Response)
    requires Instantiate(ClashLabels.Label(), body, generic) == Success(r)
    ensures FieldHolds(r, body, "name", Scalar)
    ensures FieldHolds(r, body, "id", Scalar)
    ensures FieldHolds(r, body, "iconUrls", Scalar)
    ensures KeepsExtras(r, body, generic, ClashLabels.Label())
  {
    ClashLabels.LabelNames();
    FieldAt(ClashLabels.Label(), body, generic, r, 0);
    FieldAt(ClashLabels.Label(), body, generic, r, 1);
    FieldAt(ClashLabels.Label(), body, generic, r, 2);
    ExtrasPreserved(ClashLabels.Label(), body, generic, r);
  }

}
