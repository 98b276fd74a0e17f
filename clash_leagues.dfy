/**
 * The Clash of Clans shapes of async_supercell_api/clash_of_clans/types/leagues.py. Each table lists a
 * constructor's declared parameters in the order it assigns them after
 * `super().__init__(**kwargs)`, which is the order they take in `vars(self)`.
 */
module ClashLeagues {
  import opened Keywords
  import opened Shapes

  /** `League.__init__` */
  function League(): Shape {
    Shape("League", [
      ("name", Scalar),
      ("id", Scalar),
      ("iconUrls", Scalar)
    ])
  }

  /** `PlayerRanking.__init__` */
  function PlayerRanking(): Shape {
    Shape("PlayerRanking", [
      ("league", Nested(League())),
      ("clan", Nested(PlayerRankingClan())),
      ("attackWins", Scalar),
      ("defenseWins", Scalar),
      ("tag", Scalar),
      ("name", Scalar),
      ("expLevel", Scalar),
      ("rank", Scalar),
      ("previousRank", Scalar),
      ("trophies", Scalar)
    ])
  }

  /** `PlayerRankingClan.__init__` */
  function PlayerRankingClan(): Shape {
    Shape("PlayerRankingClan", [
      ("tag", Scalar),
      ("name", Scalar),
      ("badgeUrls", Scalar)
    ])
  }

  /** `LeagueSeason.__init__` */
  function LeagueSeason(): Shape {
    Shape("LeagueSeason", [
      ("id", Scalar)
    ])
  }

  /** `WarLeague.__init__` */
  function WarLeague(): Shape {
    Shape("WarLeague", [
      ("name", Scalar),
      ("id", Scalar)
    ])
  }

  /** The position of each name in the `League` table, -1 for any other name; names are told apart by length first. */
  function LeagueSlot(name: string): int {
    if |name| == 2 then (if name == "id" then 1 else -1)
    else if |name| == 4 then (if name == "name" then 0 else -1)
    else if |name| == 8 then (if name == "iconUrls" then 2 else -1)
    else -1
  }

  /** `League.__init__` declares distinct parameter names, none of them reserved. */
  lemma LeagueNames()
    ensures OrdinaryNames(League().fields)
  {
    var fs := League().fields;
    forall i | 0 <= i < |fs| ensures LeagueSlot(fs[i].0) == i && Ordinary(fs[i].0) {
      if i == 0 {}
      else if i == 1 {}
      else if i == 2 {}
    }
    SlottedNames(fs, LeagueSlot);
  }

  /** The position of each name in the `PlayerRanking` table, -1 for any other name; names are told apart by length first. */
  function PlayerRankingSlot(name: string): int {
    if |name| == 3 then (if name == "tag" then 4 else -1)
    else if |name| == 4 then (if name == "clan" then 1 else if name == "name" then 5 else if name == "rank" then 7 else -1)
    else if |name| == 6 then (if name == "league" then 0 else -1)
    else if |name| == 8 then (if name == "expLevel" then 6 else if name == "trophies" then 9 else -1)
    else if |name| == 10 then (if name == "attackWins" then 2 else -1)
    else if |name| == 11 then (if name == "defenseWins" then 3 else -1)
    else if |name| == 12 then (if name == "previousRank" then 8 else -1)
    else -1
  }

  lemma PlayerRankingSlots0()
    ensures forall i :: 0 <= i < 6 ==> PlayerRankingSlot(PlayerRanking().fields[i].0) == i && Ordinary(PlayerRanking().fields[i].0)
  {
    var fs := PlayerRanking().fields;
    forall i | 0 <= i < 6 ensures PlayerRankingSlot(fs[i].0) == i && Ordinary(fs[i].0) {
      if i == 0 {}
      else if i == 1 {}
      else if i == 2 {}
      else if i == 3 {}
      else if i == 4 {}
      else if i == 5 {}
    }
  }

  lemma PlayerRankingSlots6()
    ensures forall i :: 6 <= i < 10 ==> PlayerRankingSlot(PlayerRanking().fields[i].0) == i && Ordinary(PlayerRanking().fields[i].0)
  {
    var fs := PlayerRanking().fields;
    forall i | 6 <= i < 10 ensures PlayerRankingSlot(fs[i].0) == i && Ordinary(fs[i].0) {
      if i == 6 {}
      else if i == 7 {}
      else if i == 8 {}
      else if i == 9 {}
    }
  }

  /** `PlayerRanking.__init__` declares distinct parameter names, none of them reserved. */
  lemma PlayerRankingNames()
    ensures OrdinaryNames(PlayerRanking().fields)
  {
    PlayerRankingSlots0(); PlayerRankingSlots6();
    SlottedNames(PlayerRanking().fields, PlayerRankingSlot);
  }

  /** The position of each name in the `PlayerRankingClan` table, -1 for any other name; names are told apart by length first. */
  function PlayerRankingClanSlot(name: string): int {
    if |name| == 3 then (if name == "tag" then 0 else -1)
    else if |name| == 4 then (if name == "name" then 1 else -1)
    else if |name| == 9 then (if name == "badgeUrls" then 2 else -1)
    else -1
  }

  /** `PlayerRankingClan.__init__` declares distinct parameter names, none of them reserved. */
  lemma PlayerRankingClanNames()
    ensures OrdinaryNames(PlayerRankingClan().fields)
  {
    var fs := PlayerRankingClan().fields;
    forall i | 0 <= i < |fs| ensures PlayerRankingClanSlot(fs[i].0) == i && Ordinary(fs[i].0) {
      if i == 0 {}
      else if i == 1 {}
      else if i == 2 {}
    }
    SlottedNames(fs, PlayerRankingClanSlot);
  }

  /** The position of each name in the `LeagueSeason` table, -1 for any other name; names are told apart by length first. */
  function LeagueSeasonSlot(name: string): int {
    if |name| == 2 then (if name == "id" then 0 else -1)
    else -1
  }

  /** `LeagueSeason.__init__` declares distinct parameter names, none of them reserved. */
  lemma LeagueSeasonNames()
    ensures OrdinaryNames(LeagueSeason().fields)
  {
    var fs := LeagueSeason().fields;
    forall i | 0 <= i < |fs| ensures LeagueSeasonSlot(fs[i].0) == i && Ordinary(fs[i].0) {
      if i == 0 {}
    }
    SlottedNames(fs, LeagueSeasonSlot);
  }

  /** The position of each name in the `WarLeague` table, -1 for any other name; names are told apart by length first. */
  function WarLeagueSlot(name: string): int {
    if |name| == 2 then (if name == "id" then 1 else -1)
    else if |name| == 4 then (if name == "name" then 0 else -1)
    else -1
  }

  /** `WarLeague.__init__` declares distinct parameter names, none of them reserved. */
  lemma WarLeagueNames()
    ensures OrdinaryNames(WarLeague().fields)
  {
    var fs := WarLeague().fields;
    forall i | 0 <= i < |fs| ensures WarLeagueSlot(fs[i].0) == i && Ordinary(fs[i].0) {
      if i == 0 {}
      else if i == 1 {}
    }
    SlottedNames(fs, WarLeagueSlot);
  }

}

/**
 * What decoding a payload as each shape of async_supercell_api/clash_of_clans/types/leagues.py yields:
 * every declared field is present, holds its value as the field's kind
 * prescribes (absent or null gives None), and every undeclared key other
 * than `success` is kept with its value.
 */
module ClashLeaguesRules {
  import opened JsonData
  import opened Wrappers
  import opened Shapes
  import opened Responses
  import opened Decoder
  import opened DecoderLaws
  import ClashLeagues

  /** `League(**body)`: each declared field as its kind prescribes, and the extra keywords kept. */
  lemma League(body: seq<(string, Json)>, generic: Option<Value>, r: Response)
    requires Instantiate(ClashLeagues.League(), body, generic) == Success(r)
    ensures FieldHolds(r, body, "name", Scalar)
    ensures FieldHolds(r, body, "id", Scalar)
    ensures FieldHolds(r, body, "iconUrls", Scalar)
    ensures KeepsExtras(r, body, generic, ClashLeagues.League())
  {
    ClashLeagues.LeagueNames();
    FieldAt(ClashLeagues.League(), body, generic, r, 0);
    FieldAt(ClashLeagues.League(), body, generic, r, 1);
    FieldAt(ClashLeagues.League(), body, generic, r, 2);
    ExtrasPreserved(ClashLeagues.League(), body, generic, r);
  }

  /** `PlayerRanking(**body)`: each declared field as its kind prescribes, and the extra keywords kept. */
  lemma PlayerRanking(body: seq<(string, Json)>, generic: Option<Value>, r: Response)
    requires Instantiate(ClashLeagues.PlayerRanking(), body, generic) == Success(r)
    ensures FieldHolds(r, body, "league", Nested(ClashLeagues.League()))
    ensures FieldHolds(r, body, "clan", Nested(ClashLeagues.PlayerRankingClan()))
    ensures FieldHolds(r, body, "attackWins", Scalar)
    ensures FieldHolds(r, body, "defenseWins", Scalar)
    ensures FieldHolds(r, body, "tag", Scalar)
    ensures FieldHolds(r, body, "name", Scalar)
    ensures FieldHolds(r, body, "expLevel", Scalar)
    ensures FieldHolds(r, body, "rank", Scalar)
    ensures FieldHolds(r, body, "previousRank", Scalar)
    ensures FieldHolds(r, body, "trophies", Scalar)
    ensures KeepsExtras(r, body, generic, ClashLeagues.PlayerRanking())
  {
    ClashLeagues.PlayerRankingNames();
    FieldAt(ClashLeagues.PlayerRanking(), body, generic, r, 0);
    FieldAt(ClashLeagues.PlayerRanking(), body, generic, r, 1);
    FieldAt(ClashLeagues.PlayerRanking(), body, generic, r, 2);
    FieldAt(ClashLeagues.PlayerRanking(), body, generic, r, 3);
    FieldAt(ClashLeagues.PlayerRanking(), body, generic, r, 4);
    FieldAt(ClashLeagues.PlayerRanking(), body, generic, r, 5);
    FieldAt(ClashLeagues.PlayerRanking(), body, generic, r, 6);
    FieldAt(ClashLeagues.PlayerRanking(), body, generic, r, 7);
    FieldAt(ClashLeagues.PlayerRanking(), body, generic, r, 8);
    FieldAt(ClashLeagues.PlayerRanking(), body, generic, r, 9);
    ExtrasPreserved(ClashLeagues.PlayerRanking(), body, generic, r);
  }

  /** `PlayerRankingClan(**body)`: each declared field as its kind prescribes, and the extra keywords kept. */
  lemma PlayerRankingClan(body: seq<(string, Json)>, generic: Option<Value>, r: Response)
    requires Instantiate(ClashLeagues.PlayerRankingClan(), body, generic) == Success(r)
    ensures FieldHolds(r, body, "tag", Scalar)
    ensures FieldHolds(r, body, "name", Scalar)
    ensures FieldHolds(r, body, "badgeUrls", Scalar)
    ensures KeepsExtras(r, body, generic, ClashLeagues.PlayerRankingClan())
  {
    ClashLeagues.PlayerRankingClanNames();
    FieldAt(ClashLeagues.PlayerRankingClan(), body, generic, r, 0);
    FieldAt(ClashLeagues.PlayerRankingClan(), body, generic, r, 1);
    FieldAt(ClashLeagues.PlayerRankingClan(), body, generic, r, 2);
    ExtrasPreserved(ClashLeagues.PlayerRankingClan(), body, generic, r);
  }

  /** `LeagueSeason(**body)`: each declared field as its kind prescribes, and the extra keywords kept. */
  lemma LeagueSeason(body: seq<(string, Json)>, generic: Option<Value>, r: Response)
    requires Instantiate(ClashLeagues.LeagueSeason(), body, generic) == Success(r)
    ensures FieldHolds(r, body, "id", Scalar)
    ensures KeepsExtras(r, body, generic, ClashLeagues.LeagueSeason())
  {
    ClashLeagues.LeagueSeasonNames();
    FieldAt(ClashLeagues.LeagueSeason(), body, generic, r, 0);
    ExtrasPreserved(ClashLeagues.LeagueSeason(), body, generic, r);
  }

  /** `WarLeague(**body)`: each declared field as its kind prescribes, and the extra keywords kept. */
  lemma WarLeague(body: seq<(string, Json)>, generic: Option<Value>, r: Response)
    requires Instantiate(ClashLeagues.WarLeague(), body, generic) == Success(r)
    ensures FieldHolds(r, body, "name", Scalar)
    ensures FieldHolds(r, body, "id", Scalar)
    ensures KeepsExtras(r, body, generic, ClashLeagues.WarLeague())
  {
    ClashLeagues.WarLeagueNames();
    FieldAt(ClashLeagues.WarLeague(), body, generic, r, 0);
    FieldAt(ClashLeagues.WarLeague(), body, generic, r, 1);
    ExtrasPreserved(ClashLeagues.WarLeague(), body, generic, r);
  }

}
