/**
 * The Clash of Clans shapes of async_supercell_api/clash_of_clans/types/locations.py. Each table lists a
 * constructor's declared parameters in the order it assigns them after
 * `super().__init__(**kwargs)`, which is the order they take in `vars(self)`.
 */
module ClashLocations {
  import opened Keywords
  import opened Shapes
  import ClashLeagues

  /** `ClanRanking.__init__` */
  function ClanRanking(): Shape {
    Shape("ClanRanking", [
      ("clanPoints", Scalar),
      ("clanLevel", Scalar),
      ("location", Nested(Location())),
      ("members", Scalar),
      ("tag", Scalar),
      ("name", Scalar),
      ("rank", Scalar),
      ("previousRank", Scalar),
      ("badgeUrls", Scalar)
    ])
  }

  /** `Location.__init__` */
  function Location(): Shape {
    Shape("Location", [
      ("localizedName", Scalar),
      ("id", Scalar),
      ("name", Scalar),
      ("isCountry", Scalar),
      ("countryCode", Scalar)
    ])
  }

  /** `ClanVersusRanking.__init__` */
  function ClanVersusRanking(): Shape {
    Shape("ClanVersusRanking", [
      ("clanPoints", Scalar),
      ("clanVersusPoints", Scalar)
    ])
  }

  /** `PlayerVersusRanking.__init__` */
  function PlayerVersusRanking(): Shape {
    Shape("PlayerVersusRanking", [
      ("clan", Nested(ClashLeagues.PlayerRankingClan())),
      ("versusBattleWins", Scalar),
      ("tag", Scalar),
      ("name", Scalar),
      ("expLevel", Scalar),
      ("rank", Scalar),
      ("previousRank", Scalar),
      ("versusTrophies", Scalar)
    ])
  }

  /** The position of each name in the `ClanRanking` table, -1 for any other name; names are told apart by length first. */
  function ClanRankingSlot(name: string): int {
    if |name| == 3 then (if name == "tag" then 4 else -1)
    else if |name| == 4 then (if name == "name" then 5 else if name == "rank" then 6 else -1)
    else if |name| == 7 then (if name == "members" then 3 else -1)
    else if |name| == 8 then (if name == "location" then 2 else -1)
    else if |name| == 9 then (if name == "clanLevel" then 1 else if name == "badgeUrls" then 8 else -1)
    else if |name| == 10 then (if name == "clanPoints" then 0 else -1)
    else if |name| == 12 then (if name == "previousRank" then 7 else -1)
    else -1
  }

  lemma ClanRankingSlots0()
    ensures forall i :: 0 <= i < 6 ==> ClanRankingSlot(ClanRanking().fields[i].0) == i && Ordinary(ClanRanking().fields[i].0)
  {
    var fs := ClanRanking().fields;
    forall i | 0 <= i < 6 ensures ClanRankingSlot(fs[i].0) == i && Ordinary(fs[i].0) {
      if i == 0 {}
      else if i == 1 {}
      else if i == 2 {}
      else if i == 3 {}
      else if i == 4 {}
      else if i == 5 {}
    }
  }

  lemma ClanRankingSlots6()
    ensures forall i :: 6 <= i < 9 ==> ClanRankingSlot(ClanRanking().fields[i].0) == i && Ordinary(ClanRanking().fields[i].0)
  {
    var fs := ClanRanking().fields;
    forall i | 6 <= i < 9 ensures ClanRankingSlot(fs[i].0) == i && Ordinary(fs[i].0) {
      if i == 6 {}
      else if i == 7 {}
      else if i == 8 {}
    }
  }

  /** `ClanRanking.__init__` declares distinct parameter names, none of them reserved. */
  lemma ClanRankingNames()
    ensures OrdinaryNames(ClanRanking().fields)
  {
    ClanRankingSlots0(); ClanRankingSlots6();
    SlottedNames(ClanRanking().fields, ClanRankingSlot);
  }

  /** The position of each name in the `Location` table, -1 for any other name; names are told apart by length first. */
  function LocationSlot(name: string): int {
    if |name| == 2 then (if name == "id" then 1 else -1)
    else if |name| == 4 then (if name == "name" then 2 else -1)
    else if |name| == 9 then (if name == "isCountry" then 3 else -1)
    else if |name| == 11 then (if name == "countryCode" then 4 else -1)
    else if |name| == 13 then (if name == "localizedName" then 0 else -1)
    else -1
  }

  /** `Location.__init__` declares distinct parameter names, none of them reserved. */
  lemma LocationNames()
    ensures OrdinaryNames(Location().fields)
  {
    var fs := Location().fields;
    forall i | 0 <= i < |fs| ensures LocationSlot(fs[i].0) == i && Ordinary(fs[i].0) {
      if i == 0 {}
      else if i == 1 {}
      else if i == 2 {}
      else if i == 3 {}
      else if i == 4 {}
    }
    SlottedNames(fs, LocationSlot);
  }

  /** The position of each name in the `ClanVersusRanking` table, -1 for any other name; names are told apart by length first. */
  function ClanVersusRankingSlot(name: string): int {
    if |name| == 10 then (if name == "clanPoints" then 0 else -1)
    else if |name| == 16 then (if name == "clanVersusPoints" then 1 else -1)
    else -1
  }

  /** `ClanVersusRanking.__init__` declares distinct parameter names, none of them reserved. */
  lemma ClanVersusRankingNames()
    ensures OrdinaryNames(ClanVersusRanking().fields)
  {
    var fs := ClanVersusRanking().fields;
    forall i | 0 <= i < |fs| ensures ClanVersusRankingSlot(fs[i].0) == i && Ordinary(fs[i].0) {
      if i == 0 {}
      else if i == 1 {}
    }
    SlottedNames(fs, ClanVersusRankingSlot);
  }

  /** The position of each name in the `PlayerVersusRanking` table, -1 for any other name; names are told apart by length first. */
  function PlayerVersusRankingSlot(name: string): int {
    if |name| == 3 then (if name == "tag" then 2 else -1)
    else if |name| == 4 then (if name == "clan" then 0 else if name == "name" then 3 else if name == "rank" then 5 else -1)
    else if |name| == 8 then (if name == "expLevel" then 4 else -1)
    else if |name| == 12 then (if name == "previousRank" then 6 else -1)
    else if |name| == 14 then (if name == "versusTrophies" then 7 else -1)
    else if |name| == 16 then (if name == "versusBattleWins" then 1 else -1)
    else -1
  }

  lemma PlayerVersusRankingSlots0()
    ensures forall i :: 0 <= i < 6 ==> PlayerVersusRankingSlot(PlayerVersusRanking().fields[i].0) == i && Ordinary(PlayerVersusRanking().fields[i].0)
  {
    var fs := PlayerVersusRanking().fields;
    forall i | 0 <= i < 6 ensures PlayerVersusRankingSlot(fs[i].0) == i && Ordinary(fs[i].0) {
      if i == 0 {}
      else if i == 1 {}
      else if i == 2 {}
      else if i == 3 {}
      else if i == 4 {}
      else if i == 5 {}
    }
  }

  lemma PlayerVersusRankingSlots6()
    ensures forall i :: 6 <= i < 8 ==> PlayerVersusRankingSlot(PlayerVersusRanking().fields[i].0) == i && Ordinary(PlayerVersusRanking().fields[i].0)
  {
    var fs := PlayerVersusRanking().fields;
    forall i | 6 <= i < 8 ensures PlayerVersusRankingSlot(fs[i].0) == i && Ordinary(fs[i].0) {
      if i == 6 {}
      else if i == 7 {}
    }
  }

  /** `PlayerVersusRanking.__init__` declares distinct parameter names, none of them reserved. */
  lemma PlayerVersusRankingNames()
    ensures OrdinaryNames(PlayerVersusRanking().fields)
  {
    PlayerVersusRankingSlots0(); PlayerVersusRankingSlots6();
    SlottedNames(PlayerVersusRanking().fields, PlayerVersusRankingSlot);
  }

}

/**
 * What decoding a payload as each shape of async_supercell_api/clash_of_clans/types/locations.py yields:
 * every declared field is present, holds its value as the field's kind
 * prescribes (absent or null gives None), and every undeclared key other
 * than `success` is kept with its value.
 */
module ClashLocationsRules {
  import opened JsonData
  import opened Wrappers
  import opened Shapes
  import opened Responses
  import opened Decoder
  import opened DecoderLaws
  import ClashLocations
  import ClashLeagues

  /** `ClanRanking(**body)`: each declared field as its kind prescribes, and the extra keywords kept. */
  lemma ClanRanking(body: seq<(string, Json)>, generic: Option<Value>, r: Response)
    requires Instantiate(ClashLocations.ClanRanking(), body, generic) == Success(r)
    ensures FieldHolds(r, body, "clanPoints", Scalar)
    ensures FieldHolds(r, body, "clanLevel", Scalar)
    ensures FieldHolds(r, body, "location", Nested(ClashLocations.Location()))
    ensures FieldHolds(r, body, "members", Scalar)
    ensures FieldHolds(r, body, "tag", Scalar)
    ensures FieldHolds(r, body, "name", Scalar)
    ensures FieldHolds(r, body, "rank", Scalar)
    ensures FieldHolds(r, body, "previousRank", Scalar)
    ensures FieldHolds(r, body, "badgeUrls", Scalar)
    ensures KeepsExtras(r, body, generic, ClashLocations.ClanRanking())
  {
    ClashLocations.ClanRankingNames();
    FieldAt(ClashLocations.ClanRanking(), body, generic, r, 0);
    FieldAt(ClashLocations.ClanRanking(), body, generic, r, 1);
    FieldAt(ClashLocations.ClanRanking(), body, generic, r, 2);
    FieldAt(ClashLocations.ClanRanking(), body, generic, r, 3);
    FieldAt(ClashLocations.ClanRanking(), body, generic, r, 4);
    FieldAt(ClashLocations.ClanRanking(), body, generic, r, 5);
    FieldAt(ClashLocations.ClanRanking(), body, generic, r, 6);
    FieldAt(ClashLocations.ClanRanking(), body, generic, r, 7);
    FieldAt(ClashLocations.ClanRanking(), body, generic, r, 8);
    ExtrasPreserved(ClashLocations.ClanRanking(), body, generic, r);
  }

  /** `Location(**body)`: each declared field as its kind prescribes, and the extra keywords kept. */
  lemma Location(body: seq<(string, Json)>, generic: Option<Value>, r: Response)
    requires Instantiate(ClashLocations.Location(), body, generic) == Success(r)
    ensures FieldHolds(r, body, "localizedName", Scalar)
    ensures FieldHolds(r, body, "id", Scalar)
    ensures FieldHolds(r, body, "name", Scalar)
    ensures FieldHolds(r, body, "isCountry", Scalar)
    ensures FieldHolds(r, body, "countryCode", Scalar)
    ensures KeepsExtras(r, body, generic, ClashLocations.Location())
  {
    ClashLocations.LocationNames();
    FieldAt(ClashLocations.Location(), body, generic, r, 0);
    FieldAt(ClashLocations.Location(), body, generic, r, 1);
    FieldAt(ClashLocations.Location(), body, generic, r, 2);
    FieldAt(ClashLocations.Location(), body, generic, r, 3);
    FieldAt(ClashLocations.Location(), body, generic, r, 4);
    ExtrasPreserved(ClashLocations.Location(), body, generic, r);
  }

  /** `ClanVersusRanking(**body)`: each declared field as its kind prescribes, and the extra keywords kept. */
  lemma ClanVersusRanking(body: seq<(string, Json)>, generic: Option<Value>, r: Response)
    requires Instantiate(ClashLocations.ClanVersusRanking(), body, generic) == Success(r)
    ensures FieldHolds(r, body, "clanPoints", Scalar)
    ensures FieldHolds(r, body, "clanVersusPoints", Scalar)
    ensures KeepsExtras(r, body, generic, ClashLocations.ClanVersusRanking())
  {
    ClashLocations.ClanVersusRankingNames();
    FieldAt(ClashLocations.ClanVersusRanking(), body, generic, r, 0);
    FieldAt(ClashLocations.ClanVersusRanking(), body, generic, r, 1);
    ExtrasPreserved(ClashLocations.ClanVersusRanking(), body, generic, r);
  }

  /** `PlayerVersusRanking(**body)`: each declared field as its kind prescribes, and the extra keywords kept. */
  lemma PlayerVersusRanking(body: seq<(string, Json)>, generic: Option<Value>, r: Response)
    requires Instantiate(ClashLocations.PlayerVersusRanking(), body, generic) == Success(r)
    ensures FieldHolds(r, body, "clan", Nested(ClashLeagues.PlayerRankingClan()))
    ensures FieldHolds(r, body, "versusBattleWins", Scalar)
    ensures FieldHolds(r, body, "tag", Scalar)
    ensures FieldHolds(r, body, "name", Scalar)
    ensures FieldHolds(r, body, "expLevel", Scalar)
    ensures FieldHolds(r, body, "rank", Scalar)
    ensures FieldHolds(r, body, "previousRank", Scalar)
    ensures FieldHolds(r, body, "versusTrophies", Scalar)
    ensures KeepsExtras(r, body, generic, ClashLocations.PlayerVersusRanking())
  {
    ClashLocations.PlayerVersusRankingNames();
    FieldAt(ClashLocations.PlayerVersusRanking(), body, generic, r, 0);
    FieldAt(ClashLocations.PlayerVersusRanking(), body, generic, r, 1);
    FieldAt(ClashLocations.PlayerVersusRanking(), body, generic, r, 2);
    FieldAt(ClashLocations.PlayerVersusRanking(), body, generic, r, 3);
    FieldAt(ClashLocations.PlayerVersusRanking(), body, generic, r, 4);
    FieldAt(ClashLocations.PlayerVersusRanking(), body, generic, r, 5);
    FieldAt(ClashLocations.PlayerVersusRanking(), body, generic, r, 6);
    FieldAt(ClashLocations.PlayerVersusRanking(), body, generic, r, 7);
    ExtrasPreserved(ClashLocations.PlayerVersusRanking(), body, generic, r);
  }

}
