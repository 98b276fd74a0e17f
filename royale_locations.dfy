/**
 * The Clash Royale shapes of async_supercell_api/clash_royale/types/locations.py. Each table lists a
 * constructor's declared parameters in the order it assigns them after
 * `super().__init__(**kwargs)`, which is the order they take in `vars(self)`.
 */
module RoyaleLocations {
  import opened Keywords
  import opened Shapes
  import RoyaleClans

  /** `ClanRanking.__init__` */
  function ClanRanking(): Shape {
    Shape("ClanRanking", [
      ("clanScore", Scalar),
      ("badgeId", Scalar),
      ("location", Nested(RoyaleClans.Location())),
      ("members", Scalar),
      ("tag", Scalar),
      ("name", Scalar),
      ("rank", Scalar),
      ("previousRank", Scalar),
      ("badgeUrls", Scalar)
    ])
  }

  /** `PlayerRanking.__init__` */
  function PlayerRanking(): Shape {
    Shape("PlayerRanking", [
      ("clan", Nested(PlayerRankingClan())),
      ("arena", Nested(RoyaleClans.Arena())),
      ("tag", Scalar),
      ("name", Scalar),
      ("expLevel", Scalar),
      ("rank", Scalar),
      ("previousRank", Scalar),
      ("trophies", Scalar)
    ])
  }

  /** `PlayerRankingClan.__init__` */
  function PlayerRankingClan(): Shape {
    Shape("PlayerRankingClan", [
      ("badgeId", Scalar),
      ("tag", Scalar),
      ("name", Scalar),
      ("badgeUrls", Scalar)
    ])
  }

  /** `LeagueSeason.__init__` */
  function LeagueSeason(): Shape {
    Shape("LeagueSeason", [
      ("id", Scalar)
    ])
  }

  /** `LadderTournamentRanking.__init__` */
  function LadderTournamentRanking(): Shape {
    Shape("LadderTournamentRanking", [
      ("clan", Nested(PlayerRankingClan())),
      ("wins", Scalar),
      ("losses", Scalar),
      ("tag", Scalar),
      ("name", Scalar),
      ("rank", Scalar),
      ("previousRank", Scalar)
    ])
  }

  /** The position of each name in the `ClanRanking` table, -1 for any other name; names are told apart by length first. */
  function ClanRankingSlot(name: string): int {
    if |name| == 3 then (if name == "tag" then 4 else -1)
    else if |name| == 4 then (if name == "name" then 5 else if name == "rank" then 6 else -1)
    else if |name| == 7 then (if name == "badgeId" then 1 else if name == "members" then 3 else -1)
    else if |name| == 8 then (if name == "location" then 2 else -1)
    else if |name| == 9 then (if name == "clanScore" then 0 else if name == "badgeUrls" then 8 else -1)
    else if |name| == 12 then (if name == "previousRank" then 7 else -1)
    else -1
  }

  lemma ClanRankingSlots0()
    ensures forall i :: 0 <= i < 6 ==> ClanRankingSlot(ClanRanking().fields[i].0) == i && Ordinary(ClanRanking().fields[i].0)
  {
    var fs := ClanRanking().fields;
    forall i | 0 <= i < 6 ensures ClanRankingSlot(fs[i].0) == i && Ordinary(fs[i].0) {
      if i == 0 {}
      else if i == 1 {}
      else if i == 2 {}
      else if i == 3 {}
      else if i == 4 {}
      else if i == 5 {}
    }
  }

  lemma ClanRankingSlots6()
    ensures forall i :: 6 <= i < 9 ==> ClanRankingSlot(ClanRanking().fields[i].0) == i && Ordinary(ClanRanking().fields[i].0)
  {
    var fs := ClanRanking().fields;
    forall i | 6 <= i < 9 ensures ClanRankingSlot(fs[i].0) == i && Ordinary(fs[i].0) {
      if i == 6 {}
      else if i == 7 {}
      else if i == 8 {}
    }
  }

  /** `ClanRanking.__init__` declares distinct parameter names, none of them reserved. */
  lemma ClanRankingNames()
    ensures OrdinaryNames(ClanRanking().fields)
  {
    ClanRankingSlots0(); ClanRankingSlots6();
    SlottedNames(ClanRanking().fields, ClanRankingSlot);
  }

  /** The position of each name in the `PlayerRanking` table, -1 for any other name; names are told apart by length first. */
  function PlayerRankingSlot(name: string): int {
    if |name| == 3 then (if name == "tag" then 2 else -1)
    else if |name| == 4 then (if name == "clan" then 0 else if name == "name" then 3 else if name == "rank" then 5 else -1)
    else if |name| == 5 then (if name == "arena" then 1 else -1)
    else if |name| == 8 then (if name == "expLevel" then 4 else if name == "trophies" then 7 else -1)
    else if |name| == 12 then (if name == "previousRank" then 6 else -1)
    else -1
  }

  lemma PlayerRankingSlots0()
    ensures forall i :: 0 <= i < 6 ==> PlayerRankingSlot(PlayerRanking().fields[i].0) == i && Ordinary(PlayerRanking().fields[i].0)
  {
    var fs := PlayerRanking().fields;
    forall i | 0 <= i < 6 ensures PlayerRankingSlot(fs[i].0) == i && Ordinary(fs[i].0) {
      if i == 0 {}
      else if i == 1 {}
      else if i == 2 {}
      else if i == 3 {}
      else if i == 4 {}
      else if i == 5 {}
    }
  }

  lemma PlayerRankingSlots6()
    ensures forall i :: 6 <= i < 8 ==> PlayerRankingSlot(PlayerRanking().fields[i].0) == i && Ordinary(PlayerRanking().fields[i].0)
  {
    var fs := PlayerRanking().fields;
    forall i | 6 <= i < 8 ensures PlayerRankingSlot(fs[i].0) == i && Ordinary(fs[i].0) {
      if i == 6 {}
      else if i == 7 {}
    }
  }

  /** `PlayerRanking.__init__` declares distinct parameter names, none of them reserved. */
  lemma PlayerRankingNames()
    ensures OrdinaryNames(PlayerRanking().fields)
  {
    PlayerRankingSlots0(); PlayerRankingSlots6();
    SlottedNames(PlayerRanking().fields, PlayerRankingSlot);
  }

  /** The position of each name in the `PlayerRankingClan` table, -1 for any other name; names are told apart by length first. */
  function PlayerRankingClanSlot(name: string): int {
    if |name| == 3 then (if name == "tag" then 1 else -1)
    else if |name| == 4 then (if name == "name" then 2 else -1)
    else if |name| == 7 then (if name == "badgeId" then 0 else -1)
    else if |name| == 9 then (if name == "badgeUrls" then 3 else -1)
    else -1
  }

  /** `PlayerRankingClan.__init__` declares distinct parameter names, none of them reserved. */
  lemma PlayerRankingClanNames()
    ensures OrdinaryNames(PlayerRankingClan().fields)
  {
    var fs := PlayerRankingClan().fields;
    forall i | 0 <= i < |fs| ensures PlayerRankingClanSlot(fs[i].0) == i && Ordinary(fs[i].0) {
      if i == 0 {}
      else if i == 1 {}
      else if i == 2 {}
      else if i == 3 {}
    }
    SlottedNames(fs, PlayerRankingClanSlot);
  }

  /** The position of each name in the `LeagueSeason` table, -1 for any other name; names are told apart by length first. */
  function LeagueSeasonSlot(name: string): int {
    if |name| == 2 then (if name == "id" then 0 else -1)
    else -1
  }

  /** `LeagueSeason.__init__` declares distinct parameter names, none of them reserved. */
  lemma LeagueSeasonNames()
    ensures OrdinaryNames(LeagueSeason().fields)
  {
    var fs := LeagueSeason().fields;
    forall i | 0 <= i < |fs| ensures LeagueSeasonSlot(fs[i].0) == i && Ordinary(fs[i].0) {
      if i == 0 {}
    }
    SlottedNames(fs, LeagueSeasonSlot);
  }

  /** The position of each name in the `LadderTournamentRanking` table, -1 for any other name; names are told apart by length first. */
  function LadderTournamentRankingSlot(name: string): int {
    if |name| == 3 then (if name == "tag" then 3 else -1)
    else if |name| == 4 then (if name == "clan" then 0 else if name == "wins" then 1 else if name == "name" then 4 else if name == "rank" then 5 else -1)
    else if |name| == 6 then (if name == "losses" then 2 else -1)
    else if |name| == 12 then (if name == "previousRank" then 6 else -1)
    else -1
  }

  lemma LadderTournamentRankingSlots0()
    ensures forall i :: 0 <= i < 6 ==> LadderTournamentRankingSlot(LadderTournamentRanking().fields[i].0) == i && Ordinary(LadderTournamentRanking().fields[i].0)
  {
    var fs := LadderTournamentRanking().fields;
    forall i | 0 <= i < 6 ensures LadderTournamentRankingSlot(fs[i].0) == i && Ordinary(fs[i].0) {
      if i == 0 {}
      else if i == 1 {}
      else if i == 2 {}
      else if i == 3 {}
      else if i == 4 {}
      else if i == 5 {}
    }
  }

  lemma LadderTournamentRankingSlots6()
    ensures forall i :: 6 <= i < 7 ==> LadderTournamentRankingSlot(LadderTournamentRanking().fields[i].0) == i && Ordinary(LadderTournamentRanking().fields[i].0)
  {
    var fs := LadderTournamentRanking().fields;
    forall i | 6 <= i < 7 ensures LadderTournamentRankingSlot(fs[i].0) == i && Ordinary(fs[i].0) {
      if i == 6 {}
    }
  }

  /** `LadderTournamentRanking.__init__` declares distinct parameter names, none of them reserved. */
  lemma LadderTournamentRankingNames()
    ensures OrdinaryNames(LadderTournamentRanking().fields)
  {
    LadderTournamentRankingSlots0(); LadderTournamentRankingSlots6();
    SlottedNames(LadderTournamentRanking().fields, LadderTournamentRankingSlot);
  }

}

/**
 * What decoding a payload as each shape of async_supercell_api/clash_royale/types/locations.py yields:
 * every declared field is present, holds its value as the field's kind
 * prescribes (absent or null gives None), and every undeclared key other
 * than `success` is kept with its value.
 */
module RoyaleLocationsRules {
  import opened JsonData
  import opened Wrappers
  import opened Shapes
  import opened Responses
  import opened Decoder
  import opened DecoderLaws
  import RoyaleLocations
  import RoyaleClans

  /** `ClanRanking(**body)`: each declared field as its kind prescribes, and the extra keywords kept. */
  lemma ClanRanking(body: seq<(string, Json)>, generic: Option<Value>, r: Response)
    requires Instantiate(RoyaleLocations.ClanRanking(), body, generic) == Success(r)
    ensures FieldHolds(r, body, "clanScore", Scalar)
    ensures FieldHolds(r, body, "badgeId", Scalar)
    ensures FieldHolds(r, body, "location", Nested(RoyaleClans.Location()))
    ensures FieldHolds(r, body, "members", Scalar)
    ensures FieldHolds(r, body, "tag", Scalar)
    ensures FieldHolds(r, body, "name", Scalar)
    ensures FieldHolds(r, body, "rank", Scalar)
    ensures FieldHolds(r, body, "previousRank", Scalar)
    ensures FieldHolds(r, body, "badgeUrls", Scalar)
    ensures KeepsExtras(r, body, generic, RoyaleLocations.ClanRanking())
  {
    RoyaleLocations.ClanRankingNames();
    FieldAt(RoyaleLocations.ClanRanking(), body, generic, r, 0);
    FieldAt(RoyaleLocations.ClanRanking(), body, generic, r, 1);
    FieldAt(RoyaleLocations.ClanRanking(), body, generic, r, 2);
    FieldAt(RoyaleLocations.ClanRanking(), body, generic, r, 3);
    FieldAt(RoyaleLocations.ClanRanking(), body, generic, r, 4);
    FieldAt(RoyaleLocations.ClanRanking(), body, generic, r, 5);
    FieldAt(RoyaleLocations.ClanRanking(), body, generic, r, 6);
    FieldAt(RoyaleLocations.ClanRanking(), body, generic, r, 7);
    FieldAt(RoyaleLocations.ClanRanking(), body, generic, r, 8);
    ExtrasPreserved(RoyaleLocations.ClanRanking(), body, generic, r);
  }

  /** `PlayerRanking(**body)`: each declared field as its kind prescribes, and the extra keywords kept. */
  lemma PlayerRanking(body: seq<(string, Json)>, generic: Option<Value>, r: Response)
    requires Instantiate(RoyaleLocations.PlayerRanking(), body, generic) == Success(r)
    ensures FieldHolds(r, body, "clan", Nested(RoyaleLocations.PlayerRankingClan()))
    ensures FieldHolds(r, body, "arena", Nested(RoyaleClans.Arena()))
    ensures FieldHolds(r, body, "tag", Scalar)
    ensures FieldHolds(r, body, "name", Scalar)
    ensures FieldHolds(r, body, "expLevel", Scalar)
    ensures FieldHolds(r, body, "rank", Scalar)
    ensures FieldHolds(r, body, "previousRank", Scalar)
    ensures FieldHolds(r, body, "trophies", Scalar)
    ensures KeepsExtras(r, body, generic, RoyaleLocations.PlayerRanking())
  {
    RoyaleLocations.PlayerRankingNames();
    FieldAt(RoyaleLocations.PlayerRanking(), body, generic, r, 0);
    FieldAt(RoyaleLocations.PlayerRanking(), body, generic, r, 1);
    FieldAt(RoyaleLocations.PlayerRanking(), body, generic, r, 2);
    FieldAt(RoyaleLocations.PlayerRanking(), body, generic, r, 3);
    FieldAt(RoyaleLocations.PlayerRanking(), body, generic, r, 4);
    FieldAt(RoyaleLocations.PlayerRanking(), body, generic, r, 5);
    FieldAt(RoyaleLocations.PlayerRanking(), body, generic, r, 6);
    FieldAt(RoyaleLocations.PlayerRanking(), body, generic, r, 7);
    ExtrasPreserved(RoyaleLocations.PlayerRanking(), body, generic, r);
  }

  /** `PlayerRankingClan(**body)`: each declared field as its kind prescribes, and the extra keywords kept. */
  lemma PlayerRankingClan(body: seq<(string, Json)>, generic: Option<Value>, r: Response)
    requires Instantiate(RoyaleLocations.PlayerRankingClan(), body, generic) == Success(r)
    ensures FieldHolds(r, body, "badgeId", Scalar)
    ensures FieldHolds(r, body, "tag", Scalar)
    ensures FieldHolds(r, body, "name", Scalar)
    ensures FieldHolds(r, body, "badgeUrls", Scalar)
    ensures KeepsExtras(r, body, generic, RoyaleLocations.PlayerRankingClan())
  {
    RoyaleLocations.PlayerRankingClanNames();
    FieldAt(RoyaleLocations.PlayerRankingClan(), body, generic, r, 0);
    FieldAt(RoyaleLocations.PlayerRankingClan(), body, generic, r, 1);
    FieldAt(RoyaleLocations.PlayerRankingClan(), body, generic, r, 2);
    FieldAt(RoyaleLocations.PlayerRankingClan(), body, generic, r, 3);
    ExtrasPreserved(RoyaleLocations.PlayerRankingClan(), body, generic, r);
  }

  /** `LeagueSeason(**body)`: each declared field as its kind prescribes, and the extra keywords kept. */
  lemma LeagueSeason(body: seq<(string, Json)>, generic: Option<Value>, r: Response)
    requires Instantiate(RoyaleLocations.LeagueSeason(), body, generic) == Success(r)
    ensures FieldHolds(r, body, "id", Scalar)
    ensures KeepsExtras(r, body, generic, RoyaleLocations.LeagueSeason())
  {
    RoyaleLocations.LeagueSeasonNames();
    FieldAt(RoyaleLocations.LeagueSeason(), body, generic, r, 0);
    ExtrasPreserved(RoyaleLocations.LeagueSeason(), body, generic, r);
  }

  /** `LadderTournamentRanking(**body)`: each declared field as its kind prescribes, and the extra keywords kept. */
  lemma LadderTournamentRanking(body: seq<(string, Json)>, generic: Option<Value>, r: Response)
    requires Instantiate(RoyaleLocations.LadderTournamentRanking(), body, generic) == Success(r)
    ensures FieldHolds(r, body, "clan", Nested(RoyaleLocations.PlayerRankingClan()))
    ensures FieldHolds(r, body, "wins", Scalar)
    ensures FieldHolds(r, body, "losses", Scalar)
    ensures FieldHolds(r, body, "tag", Scalar)
    ensures FieldHolds(r, body, "name", Scalar)
    ensures FieldHolds(r, body, "rank", Scalar)
    ensures FieldHolds(r, body, "previousRank", Scalar)
    ensures KeepsExtras(r, body, generic, RoyaleLocations.LadderTournamentRanking())
  {
    RoyaleLocations.LadderTournamentRankingNames();
    FieldAt(RoyaleLocations.LadderTournamentRanking(), body, generic, r, 0);
    FieldAt(RoyaleLocations.LadderTournamentRanking(), body, generic, r, 1);
    FieldAt(RoyaleLocations.LadderTournamentRanking(), body, generic, r, 2);
    FieldAt(RoyaleLocations.LadderTournamentRanking(), body, generic, r, 3);
    FieldAt(RoyaleLocations.LadderTournamentRanking(), body, generic, r, 4);
    FieldAt(RoyaleLocations.LadderTournamentRanking(), body, generic, r, 5);
    FieldAt(RoyaleLocations.LadderTournamentRanking(), body, generic, r, 6);
    ExtrasPreserved(RoyaleLocations.LadderTournamentRanking(), body, generic, r);
  }

}
