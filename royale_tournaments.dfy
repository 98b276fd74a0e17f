/**
 * The Clash Royale shapes of async_supercell_api/clash_royale/types/tournaments.py. Each table lists a
 * constructor's declared parameters in the order it assigns them after
 * `super().__init__(**kwargs)`, which is the order they take in `vars(self)`.
 */
module RoyaleTournaments {
  import opened Keywords
  import opened Shapes
  import RoyalePlayers

  /** `TournamentHeader.__init__` */
  function TournamentHeader(): Shape {
    Shape("TournamentHeader", [
      ("status", Scalar),
      ("preparationDuration", Scalar),
      ("createdTime", Scalar),
      ("firstPlaceCardPrize", Scalar),
      ("gameMode", Nested(RoyalePlayers.GameMode())),
      ("duration", Scalar),
      ("type", Scalar),
      ("tag", Scalar),
      ("creatorTag", Scalar),
      ("name", Scalar),
      ("description", Scalar),
      ("capacity", Scalar),
      ("maxCapacity", Scalar),
      ("levelCap", Scalar)
    ])
  }

  /** `Tournament.__init__` */
  function Tournament(): Shape {
    Shape("Tournament", [
      ("membersList", ListOf(TournamentMember())),
      ("status", Scalar),
      ("preparationDuration", Scalar),
      ("createdTime", Scalar),
      ("startedTime", Scalar),
      ("endedTime", Scalar),
      ("firstPlaceCardPrize", Scalar),
      ("gameMode", Nested(RoyalePlayers.GameMode())),
      ("duration", Scalar),
      ("type", Scalar),
      ("tag", Scalar),
      ("creatorTag", Scalar),
      ("name", Scalar),
      ("description", Scalar),
      ("capacity", Scalar),
      ("maxCapacity", Scalar),
      ("levelCap", Scalar)
    ])
  }

  /** `TournamentMember.__init__` */
  function TournamentMember(): Shape {
    Shape("TournamentMember", [
      ("rank", Scalar),
      ("previousRank", Scalar),
      ("clan", Nested(RoyalePlayers.PlayerClan())),
      ("tag", Scalar),
      ("name", Scalar),
      ("score", Scalar)
    ])
  }

  /** The position of each name in the `TournamentHeader` table, -1 for any other name; names are told apart by length first. */
  function TournamentHeaderSlot(name: string): int {
    if |name| == 3 then (if name == "tag" then 7 else -1)
    else if |name| == 4 then (if name == "type" then 6 else if name == "name" then 9 else -1)
    else if |name| == 6 then (if name == "status" then 0 else -1)
    else if |name| == 8 then (if name == "gameMode" then 4 else if name == "duration" then 5 else if name == "capacity" then 11 else if name == "levelCap" then 13 else -1)
    else if |name| == 10 then (if name == "creatorTag" then 8 else -1)
    else if |name| == 11 then (if name == "createdTime" then 2 else if name == "description" then 10 else if name == "maxCapacity" then 12 else -1)
    else if |name| == 19 then (if name == "preparationDuration" then 1 else if name == "firstPlaceCardPrize" then 3 else -1)
    else -1
  }

  lemma TournamentHeaderSlots0()
    ensures forall i :: 0 <= i < 6 ==> TournamentHeaderSlot(TournamentHeader().fields[i].0) == i && Ordinary(TournamentHeader().fields[i].0)
  {
    var fs := TournamentHeader().fields;
    forall i | 0 <= i < 6 ensures TournamentHeaderSlot(fs[i].0) == i && Ordinary(fs[i].0) {
      if i == 0 {}
      else if i == 1 {}
      else if i == 2 {}
      else if i == 3 {}
      else if i == 4 {}
      else if i == 5 {}
    }
  }

  lemma TournamentHeaderSlots6()
    ensures forall i :: 6 <= i < 12 ==> TournamentHeaderSlot(TournamentHeader().fields[i].0) == i && Ordinary(TournamentHeader().fields[i].0)
  {
    var fs := TournamentHeader().fields;
    forall i | 6 <= i < 12 ensures TournamentHeaderSlot(fs[i].0) == i && Ordinary(fs[i].0) {
      if i == 6 {}
      else if i == 7 {}
      else if i == 8 {}
      else if i == 9 {}
      else if i == 10 {}
      else if i == 11 {}
    }
  }

  lemma TournamentHeaderSlots12()
    ensures forall i :: 12 <= i < 14 ==> TournamentHeaderSlot(TournamentHeader().fields[i].0) == i && Ordinary(TournamentHeader().fields[i].0)
  {
    var fs := TournamentHeader().fields;
    forall i | 12 <= i < 14 ensures TournamentHeaderSlot(fs[i].0) == i && Ordinary(fs[i].0) {
      if i == 12 {}
      else if i == 13 {}
    }
  }

  /** `TournamentHeader.__init__` declares distinct parameter names, none of them reserved. */
  lemma TournamentHeaderNames()
    ensures OrdinaryNames(TournamentHeader().fields)
  {
    TournamentHeaderSlots0(); TournamentHeaderSlots6(); TournamentHeaderSlots12();
    SlottedNames(TournamentHeader().fields, TournamentHeaderSlot);
  }

  /** The position of each name in the `Tournament` table, -1 for any other name; names are told apart by length first. */
  function TournamentSlot(name: string): int {
    if |name| == 3 then (if name == "tag" then 10 else -1)
    else if |name| == 4 then (if name == "type" then 9 else if name == "name" then 12 else -1)
    else if |name| == 6 then (if name == "status" then 1 else -1)
    else if |name| == 8 then (if name == "gameMode" then 7 else if name == "duration" then 8 else if name == "capacity" then 14 else if name == "levelCap" then 16 else -1)
    else if |name| == 9 then (if name == "endedTime" then 5 else -1)
    else if |name| == 10 then (if name == "creatorTag" then 11 else -1)
    else if |name| == 11 then (if name == "membersList" then 0 else if name == "createdTime" then 3 else if name == "startedTime" then 4 else if name == "description" then 13 else if name == "maxCapacity" then 15 else -1)
    else if |name| == 19 then (if name == "preparationDuration" then 2 else if name == "firstPlaceCardPrize" then 6 else -1)
    else -1
  }

  lemma TournamentSlots0()
    ensures forall i :: 0 <= i < 6 ==> TournamentSlot(Tournament().fields[i].0) == i && Ordinary(Tournament().fields[i].0)
  {
    var fs := Tournament().fields;
    forall i | 0 <= i < 6 ensures TournamentSlot(fs[i].0) == i && Ordinary(fs[i].0) {
      if i == 0 {}
      else if i == 1 {}
      else if i == 2 {}
      else if i == 3 {}
      else if i == 4 {}
      else if i == 5 {}
    }
  }

  lemma TournamentSlots6()
    ensures forall i :: 6 <= i < 12 ==> TournamentSlot(Tournament().fields[i].0) == i && Ordinary(Tournament().fields[i].0)
  {
    var fs := Tournament().fields;
    forall i | 6 <= i < 12 ensures TournamentSlot(fs[i].0) == i && Ordinary(fs[i].0) {
      if i == 6 {}
      else if i == 7 {}
      else if i == 8 {}
      else if i == 9 {}
      else if i == 10 {}
      else if i == 11 {}
    }
  }

  lemma TournamentSlots12()
    ensures forall i :: 12 <= i < 17 ==> TournamentSlot(Tournament().fields[i].0) == i && Ordinary(Tournament().fields[i].0)
  {
    var fs := Tournament().fields;
    forall i | 12 <= i < 17 ensures TournamentSlot(fs[i].0) == i && Ordinary(fs[i].0) {
      if i == 12 {}
      else if i == 13 {}
      else if i == 14 {}
      else if i == 15 {}
      else if i == 16 {}
    }
  }

  /** `Tournament.__init__` declares distinct parameter names, none of them reserved. */
  lemma TournamentNames()
    ensures OrdinaryNames(Tournament().fields)
  {
    TournamentSlots0(); TournamentSlots6(); TournamentSlots12();
    SlottedNames(Tournament().fields, TournamentSlot);
  }

  /** The position of each name in the `TournamentMember` table, -1 for any other name; names are told apart by length first. */
  function TournamentMemberSlot(name: string): int {
    if |name| == 3 then (if name == "tag" then 3 else -1)
    else if |name| == 4 then (if name == "rank" then 0 else if name == "clan" then 2 else if name == "name" then 4 else -1)
    else if |name| == 5 then (if name == "score" then 5 else -1)
    else if |name| == 12 then (if name == "previousRank" then 1 else -1)
    else -1
  }

  /** `TournamentMember.__init__` declares distinct parameter names, none of them reserved. */
  lemma TournamentMemberNames()
    ensures OrdinaryNames(TournamentMember().fields)
  {
    var fs := TournamentMember().fields;
    forall i | 0 <= i < |fs| ensures TournamentMemberSlot(fs[i].0) == i && Ordinary(fs[i].0) {
      if i == 0 {}
      else if i == 1 {}
      else if i == 2 {}
      else if i == 3 {}
      else if i == 4 {}
      else if i == 5 {}
    }
    SlottedNames(fs, TournamentMemberSlot);
  }

}

/**
 * What decoding a payload as each shape of async_supercell_api/clash_royale/types/tournaments.py yields:
 * every declared field is present, holds its value as the field's kind
 * prescribes (absent or null gives None), and every undeclared key other
 * than `success` is kept with its value.
 */
module RoyaleTournamentsRules {
  import opened JsonData
  import opened Wrappers
  import opened Shapes
  import opened Responses
  import opened Decoder
  import opened DecoderLaws
  import RoyaleTournaments
  import RoyalePlayers

  /** `TournamentHeader(**body)`: each declared field as its kind prescribes, and the extra keywords kept. */
  lemma TournamentHeader(body: seq<(string, Json)>, generic: Option<Value>, r: Response)
    requires Instantiate(RoyaleTournaments.TournamentHeader(), body, generic) == Success(r)
    ensures FieldHolds(r, body, "status", Scalar)
    ensures FieldHolds(r, body, "preparationDuration", Scalar)
    ensures FieldHolds(r, body, "createdTime", Scalar)
    ensures FieldHolds(r, body, "firstPlaceCardPrize", Scalar)
    ensures FieldHolds(r, body, "gameMode", Nested(RoyalePlayers.GameMode()))
    ensures FieldHolds(r, body, "duration", Scalar)
    ensures FieldHolds(r, body, "type", Scalar)
    ensures FieldHolds(r, body, "tag", Scalar)
    ensures FieldHolds(r, body, "creatorTag", Scalar)
    ensures FieldHolds(r, body, "name", Scalar)
    ensures FieldHolds(r, body, "description", Scalar)
    ensures FieldHolds(r, body, "capacity", Scalar)
    ensures FieldHolds(r, body, "maxCapacity", Scalar)
    ensures FieldHolds(r, body, "levelCap", Scalar)
    ensures KeepsExtras(r, body, generic, RoyaleTournaments.TournamentHeader())
  {
    RoyaleTournaments.TournamentHeaderNames();
    FieldAt(RoyaleTournaments.TournamentHeader(), body, generic, r, 0);
    FieldAt(RoyaleTournaments.TournamentHeader(), body, generic, r, 1);
    FieldAt(RoyaleTournaments.TournamentHeader(), body, generic, r, 2);
    FieldAt(RoyaleTournaments.TournamentHeader(), body, generic, r, 3);
    FieldAt(RoyaleTournaments.TournamentHeader(), body, generic, r, 4);
    FieldAt(RoyaleTournaments.TournamentHeader(), body, generic, r, 5);
    FieldAt(RoyaleTournaments.TournamentHeader(), body, generic, r, 6);
    FieldAt(RoyaleTournaments.TournamentHeader(), body, generic, r, 7);
    FieldAt(RoyaleTournaments.TournamentHeader(), body, generic, r, 8);
    FieldAt(RoyaleTournaments.TournamentHeader(), body, generic, r, 9);
    FieldAt(RoyaleTournaments.TournamentHeader(), body, generic, r, 10);
    FieldAt(RoyaleTournaments.TournamentHeader(), body, generic, r, 11);
    FieldAt(RoyaleTournaments.TournamentHeader(), body, generic, r, 12);
    FieldAt(RoyaleTournaments.TournamentHeader(), body, generic, r, 13);
    ExtrasPreserved(RoyaleTournaments.TournamentHeader(), body, generic, r);
  }

  /** `Tournament(**body)`: each declared field as its kind prescribes, and the extra keywords kept. */
  lemma Tournament(body: seq<(string, Json)>, generic: Option<Value>, r: Response)
    requires Instantiate(RoyaleTournaments.Tournament(), body, generic) == Success(r)
    ensures FieldHolds(r, body, "membersList", ListOf(RoyaleTournaments.TournamentMember()))
    ensures FieldHolds(r, body, "status", Scalar)
    ensures FieldHolds(r, body, "preparationDuration", Scalar)
    ensures FieldHolds(r, body, "createdTime", Scalar)
    ensures FieldHolds(r, body, "startedTime", Scalar)
    ensures FieldHolds(r, body, "endedTime", Scalar)
    ensures FieldHolds(r, body, "firstPlaceCardPrize", Scalar)
    ensures FieldHolds(r, body, "gameMode", Nested(RoyalePlayers.GameMode()))
    ensures FieldHolds(r, body, "duration", Scalar)
    ensures FieldHolds(r, body, "type", Scalar)
    ensures FieldHolds(r, body, "tag", Scalar)
    ensures FieldHolds(r, body, "creatorTag", Scalar)
    ensures FieldHolds(r, body, "name", Scalar)
    ensures FieldHolds(r, body, "description", Scalar)
    ensures FieldHolds(r, body, "capacity", Scalar)
    ensures FieldHolds(r, body, "maxCapacity", Scalar)
    ensures FieldHolds(r, body, "levelCap", Scalar)
    ensures KeepsExtras(r, body, generic, RoyaleTournaments.Tournament())
  {
    RoyaleTournaments.TournamentNames();
    FieldAt(RoyaleTournaments.Tournament(), body, generic, r, 0);
    FieldAt(RoyaleTournaments.Tournament(), body, generic, r, 1);
    FieldAt(RoyaleTournaments.Tournament(), body, generic, r, 2);
    FieldAt(RoyaleTournaments.Tournament(), body, generic, r, 3);
    FieldAt(RoyaleTournaments.Tournament(), body, generic, r, 4);
    FieldAt(RoyaleTournaments.Tournament(), body, generic, r, 5);
    FieldAt(RoyaleTournaments.Tournament(), body, generic, r, 6);
    FieldAt(RoyaleTournaments.Tournament(), body, generic, r, 7);
    FieldAt(RoyaleTournaments.Tournament(), body, generic, r, 8);
    FieldAt(RoyaleTournaments.Tournament(), body, generic, r, 9);
    FieldAt(RoyaleTournaments.Tournament(), body, generic, r, 10);
    FieldAt(RoyaleTournaments.Tournament(), body, generic, r, 11);
    FieldAt(RoyaleTournaments.Tournament(), body, generic, r, 12);
    FieldAt(RoyaleTournaments.Tournament(), body, generic, r, 13);
    FieldAt(RoyaleTournaments.Tournament(), body, generic, r, 14);
    FieldAt(RoyaleTournaments.Tournament(), body, generic, r, 15);
    FieldAt(RoyaleTournaments.Tournament(), body, generic, r, 16);
    ExtrasPreserved(RoyaleTournaments.Tournament(), body, generic, r);
  }

  /** `TournamentMember(**body)`: each declared field as its kind prescribes, and the extra keywords kept. */
  lemma TournamentMember(body: seq<(string, Json)>, generic: Option<Value>, r: Response)
    requires Instantiate(RoyaleTournaments.TournamentMember(), body, generic) == Success(r)
    ensures FieldHolds(r, body, "rank", Scalar)
    ensures FieldHolds(r, body, "previousRank", Scalar)
    ensures FieldHolds(r, body, "clan", Nested(RoyalePlayers.PlayerClan()))
    ensures FieldHolds(r, body, "tag", Scalar)
    ensures FieldHolds(r, body, "name", Scalar)
    ensures FieldHolds(r, body, "score", Scalar)
    ensures KeepsExtras(r, body, generic, RoyaleTournaments.TournamentMember())
  {
    RoyaleTournaments.TournamentMemberNames();
    FieldAt(RoyaleTournaments.TournamentMember(), body, generic, r, 0);
    FieldAt(RoyaleTournaments.TournamentMember(), body, generic, r, 1);
    FieldAt(RoyaleTournaments.TournamentMember(), body, generic, r, 2);
    FieldAt(RoyaleTournaments.TournamentMember(), body, generic, r, 3);
    FieldAt(RoyaleTournaments.TournamentMember(), body, generic, r, 4);
    FieldAt(RoyaleTournaments.TournamentMember(), body, generic, r, 5);
    ExtrasPreserved(RoyaleTournaments.TournamentMember(), body, generic, r);
  }

}
