/**
 * The Clash of Clans shapes of async_supercell_api/clash_of_clans/types/players.py. Each table lists a
 * constructor's declared parameters in the order it assigns them after
 * `super().__init__(**kwargs)`, which is the order they take in `vars(self)`.
 */
module ClashPlayers {
  import opened Keywords
  import opened Shapes
  import ClashLabels
  import ClashLeagues

  /** `Player.__init__` */
  function Player(): Shape {
    Shape("Player", [
      ("league", Nested(ClashLeagues.League())),
      ("clan", Nested(PlayerClan())),
      ("role", Scalar),
      ("warPreference", Scalar),
      ("attackWins", Scalar),
      ("defenseWins", Scalar),
      ("townHallLevel", Scalar),
      ("townHallWeaponLevel", Scalar),
      ("versusBattleWins", Scalar),
      ("legendStatistics", Nested(PlayerLegendStatistics())),
      ("troops", ListOf(PlayerItemLevel())),
      ("heroes", ListOf(PlayerItemLevel())),
      ("spells", ListOf(PlayerItemLevel())),
      ("labels", ListOf(ClashLabels.Label())),
      ("tag", Scalar),
      ("name", Scalar),
      ("expLevel", Scalar),
      ("trophies", Scalar),
      ("bestTrophies", Scalar),
      ("donations", Scalar),
      ("donationsReceived", Scalar),
      ("builderHallLevel", Scalar),
      ("versusTrophies", Scalar),
      ("bestVersusTrophies", Scalar),
      ("warStars", Scalar),
      ("achievements", ListOf(PlayerAchievementProgress())),
      ("versusBattleWinCount", Scalar)
    ])
  }

  /** `PlayerClan.__init__` */
  function PlayerClan(): Shape {
    Shape("PlayerClan", [
      ("tag", Scalar),
      ("clanLevel", Scalar),
      ("name", Scalar),
      ("badgeUrls", Scalar)
    ])
  }

  /** `PlayerLegendStatistics.__init__` */
  function PlayerLegendStatistics(): Shape {
    Shape("PlayerLegendStatistics", [
      ("legendTrophies", Scalar),
      ("previousVersusSeason", Nested(LegendLeagueTournamentSeasonResult())),
      ("previousSeason", Nested(LegendLeagueTournamentSeasonResult())),
      ("bestSeason", Nested(LegendLeagueTournamentSeasonResult())),
      ("currentSeason", Nested(LegendLeagueTournamentSeasonResult())),
      ("bestVersusSeason", Nested(LegendLeagueTournamentSeasonResult()))
    ])
  }

  /** `LegendLeagueTournamentSeasonResult.__init__` */
  function LegendLeagueTournamentSeasonResult(): Shape {
    Shape("LegendLeagueTournamentSeasonResult", [
      ("trophies", Scalar),
      ("id", Scalar),
      ("rank", Scalar)
    ])
  }

  /** `PlayerItemLevel.__init__` */
  function PlayerItemLevel(): Shape {
    Shape("PlayerItemLevel", [
      ("level", Scalar),
      ("name", Scalar),
      ("maxLevel", Scalar),
      ("village", Scalar),
      ("superTroopIsActive", Scalar)
    ])
  }

  /** `PlayerAchievementProgress.__init__` */
  function PlayerAchievementProgress(): Shape {
    Shape("PlayerAchievementProgress", [
      ("stars", Scalar),
      ("value", Scalar),
      ("name", Scalar),
      ("target", Scalar),
      ("info", Scalar),
      ("completionInfo", Scalar),
      ("village", Scalar)
    ])
  }

  /** `VerifyTokenResponse.__init__` */
  function VerifyTokenResponse(): Shape {
    Shape("VerifyTokenResponse", [
      ("tag", Scalar),
      ("token", Scalar),
      ("status", Scalar)
    ])
  }

  /** The position of each name in the `Player` table, -1 for any other name; names are told apart by length first. */
  function PlayerSlot(name: string): int {
    if |name| == 3 then (if name == "tag" then 14 else -1)
    else if |name| == 4 then (if name == "clan" then 1 else if name == "role" then 2 else if name == "name" then 15 else -1)
    else if |name| == 6 then (if name == "league" then 0 else if name == "troops" then 10 else if name == "heroes" then 11 else if name == "spells" then 12 else if name == "labels" then 13 else -1)
    else if |name| == 8 then (if name == "expLevel" then 16 else if name == "trophies" then 17 else if name == "warStars" then 24 else -1)
    else if |name| == 9 then (if name == "donations" then 19 else -1)
    else if |name| == 10 then (if name == "attackWins" then 4 else -1)
    else if |name| == 11 then (if name == "defenseWins" then 5 else -1)
    else if |name| == 12 then (if name == "bestTrophies" then 18 else if name == "achievements" then 25 else -1)
    else if |name| == 13 then (if name == "warPreference" then 3 else if name == "townHallLevel" then 6 else -1)
    else if |name| == 14 then (if name == "versusTrophies" then 22 else -1)
    else if |name| == 16 then (if name == "versusBattleWins" then 8 else if name == "legendStatistics" then 9 else if name == "builderHallLevel" then 21 else -1)
    else if |name| == 17 then (if name == "donationsReceived" then 20 else -1)
    else if |name| == 18 then (if name == "bestVersusTrophies" then 23 else -1)
    else if |name| == 19 then (if name == "townHallWeaponLevel" then 7 else -1)
    else if |name| == 20 then (if name == "versusBattleWinCount" then 26 else -1)
    else -1
  }

  lemma PlayerSlots0()
    ensures forall i :: 0 <= i < 6 ==> PlayerSlot(Player().fields[i].0) == i && Ordinary(Player().fields[i].0)
  {
    var fs := Player().fields;
    forall i | 0 <= i < 6 ensures PlayerSlot(fs[i].0) == i && Ordinary(fs[i].0) {
      if i == 0 {}
      else if i == 1 {}
      else if i == 2 {}
      else if i == 3 {}
      else if i == 4 {}
      else if i == 5 {}
    }
  }

  lemma PlayerSlots6()
    ensures forall i :: 6 <= i < 12 ==> PlayerSlot(Player().fields[i].0) == i && Ordinary(Player().fields[i].0)
  {
    var fs := Player().fields;
    forall i | 6 <= i < 12 ensures PlayerSlot(fs[i].0) == i && Ordinary(fs[i].0) {
      if i == 6 {}
      else if i == 7 {}
      else if i == 8 {}
      else if i == 9 {}
      else if i == 10 {}
      else if i == 11 {}
    }
  }

  lemma PlayerSlots12()
    ensures forall i :: 12 <= i < 18 ==> PlayerSlot(Player().fields[i].0) == i && Ordinary(Player().fields[i].0)
  {
    var fs := Player().fields;
    forall i | 12 <= i < 18 ensures PlayerSlot(fs[i].0) == i && Ordinary(fs[i].0) {
      if i == 12 {}
      else if i == 13 {}
      else if i == 14 {}
      else if i == 15 {}
      else if i == 16 {}
      else if i == 17 {}
    }
  }

  lemma PlayerSlots18()
    ensures forall i :: 18 <= i < 24 ==> PlayerSlot(Player().fields[i].0) == i && Ordinary(Player().fields[i].0)
  {
    var fs := Player().fields;
    forall i | 18 <= i < 24 ensures PlayerSlot(fs[i].0) == i && Ordinary(fs[i].0) {
      if i == 18 {}
      else if i == 19 {}
      else if i == 20 {}
      else if i == 21 {}
      else if i == 22 {}
      else if i == 23 {}
    }
  }

  lemma PlayerSlots24()
    ensures forall i :: 24 <= i < 27 ==> PlayerSlot(Player().fields[i].0) == i && Ordinary(Player().fields[i].0)
  {
    var fs := Player().fields;
    forall i | 24 <= i < 27 ensures PlayerSlot(fs[i].0) == i && Ordinary(fs[i].0) {
      if i == 24 {}
      else if i == 25 {}
      else if i == 26 {}
    }
  }

  /** `Player.__init__` declares distinct parameter names, none of them reserved. */
  lemma PlayerNames()
    ensures OrdinaryNames(Player().fields)
  {
    PlayerSlots0(); PlayerSlots6(); PlayerSlots12(); PlayerSlots18(); PlayerSlots24();
    SlottedNames(Player().fields, PlayerSlot);
  }

  /** The position of each name in the `PlayerClan` table, -1 for any other name; names are told apart by length first. */
  function PlayerClanSlot(name: string): int {
    if |name| == 3 then (if name == "tag" then 0 else -1)
    else if |name| == 4 then (if name == "name" then 2 else -1)
    else if |name| == 9 then (if name == "clanLevel" then 1 else if name == "badgeUrls" then 3 else -1)
    else -1
  }

  /** `PlayerClan.__init__` declares distinct parameter names, none of them reserved. */
  lemma PlayerClanNames()
    ensures OrdinaryNames(PlayerClan().fields)
  {
    var fs := PlayerClan().fields;
    forall i | 0 <= i < |fs| ensures PlayerClanSlot(fs[i].0) == i && Ordinary(fs[i].0) {
      if i == 0 {}
      else if i == 1 {}
      else if i == 2 {}
      else if i == 3 {}
    }
    SlottedNames(fs, PlayerClanSlot);
  }

  /** The position of each name in the `PlayerLegendStatistics` table, -1 for any other name; names are told apart by length first. */
  function PlayerLegendStatisticsSlot(name: string): int {
    if |name| == 10 then (if name == "bestSeason" then 3 else -1)
    else if |name| == 13 then (if name == "currentSeason" then 4 else -1)
    else if |name| == 14 then (if name == "legendTrophies" then 0 else if name == "previousSeason" then 2 else -1)
    else if |name| == 16 then (if name == "bestVersusSeason" then 5 else -1)
    else if |name| == 20 then (if name == "previousVersusSeason" then 1 else -1)
    else -1
  }

  /** `PlayerLegendStatistics.__init__` declares distinct parameter names, none of them reserved. */
  lemma PlayerLegendStatisticsNames()
    ensures OrdinaryNames(PlayerLegendStatistics().fields)
  {
    var fs := PlayerLegendStatistics().fields;
    forall i | 0 <= i < |fs| ensures PlayerLegendStatisticsSlot(fs[i].0) == i && Ordinary(fs[i].0) {
      if i == 0 {}
      else if i == 1 {}
      else if i == 2 {}
      else if i == 3 {}
      else if i == 4 {}
      else if i == 5 {}
    }
    SlottedNames(fs, PlayerLegendStatisticsSlot);
  }

  /** The position of each name in the `LegendLeagueTournamentSeasonResult` table, -1 for any other name; names are told apart by length first. */
  function LegendLeagueTournamentSeasonResultSlot(name: string): int {
    if |name| == 2 then (if name == "id" then 1 else -1)
    else if |name| == 4 then (if name == "rank" then 2 else -1)
    else if |name| == 8 then (if name == "trophies" then 0 else -1)
    else -1
  }

  /** `LegendLeagueTournamentSeasonResult.__init__` declares distinct parameter names, none of them reserved. */
  lemma LegendLeagueTournamentSeasonResultNames()
    ensures OrdinaryNames(LegendLeagueTournamentSeasonResult().fields)
  {
    var fs := LegendLeagueTournamentSeasonResult().fields;
    forall i | 0 <= i < |fs| ensures LegendLeagueTournamentSeasonResultSlot(fs[i].0) == i && Ordinary(fs[i].0) {
      if i == 0 {}
      else if i == 1 {}
      else if i == 2 {}
    }
    SlottedNames(fs, LegendLeagueTournamentSeasonResultSlot);
  }

  /** The position of each name in the `PlayerItemLevel` table, -1 for any other name; names are told apart by length first. */
  function PlayerItemLevelSlot(name: string): int {
    if |name| == 4 then (if name == "name" then 1 else -1)
    else if |name| == 5 then (if name == "level" then 0 else -1)
    else if |name| == 7 then (if name == "village" then 3 else -1)
    else if |name| == 8 then (if name == "maxLevel" then 2 else -1)
    else if |name| == 18 then (if name == "superTroopIsActive" then 4 else -1)
    else -1
  }

  /** `PlayerItemLevel.__init__` declares distinct parameter names, none of them reserved. */
  lemma PlayerItemLevelNames()
    ensures OrdinaryNames(PlayerItemLevel().fields)
  {
    var fs := PlayerItemLevel().fields;
    forall i | 0 <= i < |fs| ensures PlayerItemLevelSlot(fs[i].0) == i && Ordinary(fs[i].0) {
      if i == 0 {}
      else if i == 1 {}
      else if i == 2 {}
      else if i == 3 {}
      else if i == 4 {}
    }
    SlottedNames(fs, PlayerItemLevelSlot);
  }

  /** The position of each name in the `PlayerAchievementProgress` table, -1 for any other name; names are told apart by length first. */
  function PlayerAchievementProgressSlot(name: string): int {
    if |name| == 4 then (if name == "name" then 2 else if name == "info" then 4 else -1)
    else if |name| == 5 then (if name == "stars" then 0 else if name == "value" then 1 else -1)
    else if |name| == 6 then (if name == "target" then 3 else -1)
    else if |name| == 7 then (if name == "village" then 6 else -1)
    else if |name| == 14 then (if name == "completionInfo" then 5 else -1)
    else -1
  }

  lemma PlayerAchievementProgressSlots0()
    ensures forall i :: 0 <= i < 6 ==> PlayerAchievementProgressSlot(PlayerAchievementProgress().fields[i].0) == i && Ordinary(PlayerAchievementProgress().fields[i].0)
  {
    var fs := PlayerAchievementProgress().fields;
    forall i | 0 <= i < 6 ensures PlayerAchievementProgressSlot(fs[i].0) == i && Ordinary(fs[i].0) {
      if i == 0 {}
      else if i == 1 {}
      else if i == 2 {}
      else if i == 3 {}
      else if i == 4 {}
      else if i == 5 {}
    }
  }

  lemma PlayerAchievementProgressSlots6()
    ensures forall i :: 6 <= i < 7 ==> PlayerAchievementProgressSlot(PlayerAchievementProgress().fields[i].0) == i && Ordinary(PlayerAchievementProgress().fields[i].0)
  {
    var fs := PlayerAchievementProgress().fields;
    forall i | 6 <= i < 7 ensures PlayerAchievementProgressSlot(fs[i].0) == i && Ordinary(fs[i].0) {
      if i == 6 {}
    }
  }

  /** `PlayerAchievementProgress.__init__` declares distinct parameter names, none of them reserved. */
  lemma PlayerAchievementProgressNames()
    ensures OrdinaryNames(PlayerAchievementProgress().fields)
  {
    PlayerAchievementProgressSlots0(); PlayerAchievementProgressSlots6();
    SlottedNames(PlayerAchievementProgress().fields, PlayerAchievementProgressSlot);
  }

  /** The position of each name in the `VerifyTokenResponse` table, -1 for any other name; names are told apart by length first. */
  function VerifyTokenResponseSlot(name: string): int {
    if |name| == 3 then (if name == "tag" then 0 else -1)
    else if |name| == 5 then (if name == "token" then 1 else -1)
    else if |name| == 6 then (if name == "status" then 2 else -1)
    else -1
  }

  /** `VerifyTokenResponse.__init__` declares distinct parameter names, none of them reserved. */
  lemma VerifyTokenResponseNames()
    ensures OrdinaryNames(VerifyTokenResponse().fields)
  {
    var fs := VerifyTokenResponse().fields;
    forall i | 0 <= i < |fs| ensures VerifyTokenResponseSlot(fs[i].0) == i && Ordinary(fs[i].0) {
      if i == 0 {}
      else if i == 1 {}
      else if i == 2 {}
    }
    SlottedNames(fs, VerifyTokenResponseSlot);
  }

}

/**
 * What decoding a payload as each shape of async_supercell_api/clash_of_clans/types/players.py yields:
 * every declared field is present, holds its value as the field's kind
 * prescribes (absent or null gives None), and every undeclared key other
 * than `success` is kept with its value.
 */
module ClashPlayersRules {
  import opened JsonData
  import opened Wrappers
  import opened Shapes
  import opened Responses
  import opened Decoder
  import opened DecoderLaws
  import ClashPlayers
  import ClashLabels
  import ClashLeagues

  /** `Player(**body)`: each declared field as its kind prescribes, and the extra keywords kept. */
  lemma Player(body: seq<(string, Json)>, generic: Option<Value>, r: Response)
    requires Instantiate(ClashPlayers.Player(), body, generic) == Success(r)
    ensures FieldHolds(r, body, "league", Nested(ClashLeagues.League()))
    ensures FieldHolds(r, body, "clan", Nested(ClashPlayers.PlayerClan()))
    ensures FieldHolds(r, body, "role", Scalar)
    ensures FieldHolds(r, body, "warPreference", Scalar)
    ensures FieldHolds(r, body, "attackWins", Scalar)
    ensures FieldHolds(r, body, "defenseWins", Scalar)
    ensures FieldHolds(r, body, "townHallLevel", Scalar)
    ensures FieldHolds(r, body, "townHallWeaponLevel", Scalar)
    ensures FieldHolds(r, body, "versusBattleWins", Scalar)
    ensures FieldHolds(r, body, "legendStatistics", Nested(ClashPlayers.PlayerLegendStatistics()))
    ensures FieldHolds(r, body, "troops", ListOf(ClashPlayers.PlayerItemLevel()))
    ensures FieldHolds(r, body, "heroes", ListOf(ClashPlayers.PlayerItemLevel()))
    ensures FieldHolds(r, body, "spells", ListOf(ClashPlayers.PlayerItemLevel()))
    ensures FieldHolds(r, body, "labels", ListOf(ClashLabels.Label()))
    ensures FieldHolds(r, body, "tag", Scalar)
    ensures FieldHolds(r, body, "name", Scalar)
    ensures FieldHolds(r, body, "expLevel", Scalar)
    ensures FieldHolds(r, body, "trophies", Scalar)
    ensures FieldHolds(r, body, "bestTrophies", Scalar)
    ensures FieldHolds(r, body, "donations", Scalar)
    ensures FieldHolds(r, body, "donationsReceived", Scalar)
    ensures FieldHolds(r, body, "builderHallLevel", Scalar)
    ensures FieldHolds(r, body, "versusTrophies", Scalar)
    ensures FieldHolds(r, body, "bestVersusTrophies", Scalar)
    ensures FieldHolds(r, body, "warStars", Scalar)
    ensures FieldHolds(r, body, "achievements", ListOf(ClashPlayers.PlayerAchievementProgress()))
    ensures FieldHolds(r, body, "versusBattleWinCount", Scalar)
    ensures KeepsExtras(r, body, generic, ClashPlayers.Player())
  {
    ClashPlayers.PlayerNames();
    FieldAt(ClashPlayers.Player(), body, generic, r, 0);
    FieldAt(ClashPlayers.Player(), body, generic, r, 1);
    FieldAt(ClashPlayers.Player(), body, generic, r, 2);
    FieldAt(ClashPlayers.Player(), body, generic, r, 3);
    FieldAt(ClashPlayers.Player(), body, generic, r, 4);
    FieldAt(ClashPlayers.Player(), body, generic, r, 5);
    FieldAt(ClashPlayers.Player(), body, generic, r, 6);
    FieldAt(ClashPlayers.Player(), body, generic, r, 7);
    FieldAt(ClashPlayers.Player(), body, generic, r, 8);
    FieldAt(ClashPlayers.Player(), body, generic, r, 9);
    FieldAt(ClashPlayers.Player(), body, generic, r, 10);
    FieldAt(ClashPlayers.Player(), body, generic, r, 11);
    FieldAt(ClashPlayers.Player(), body, generic, r, 12);
    FieldAt(ClashPlayers.Player(), body, generic, r, 13);
    FieldAt(ClashPlayers.Player(), body, generic, r, 14);
    FieldAt(ClashPlayers.Player(), body, generic, r, 15);
    FieldAt(ClashPlayers.Player(), body, generic, r, 16);
    FieldAt(ClashPlayers.Player(), body, generic, r, 17);
    FieldAt(ClashPlayers.Player(), body, generic, r, 18);
    FieldAt(ClashPlayers.Player(), body, generic, r, 19);
    FieldAt(ClashPlayers.Player(), body, generic, r, 20);
    FieldAt(ClashPlayers.Player(), body, generic, r, 21);
    FieldAt(ClashPlayers.Player(), body, generic, r, 22);
    FieldAt(ClashPlayers.Player(), body, generic, r, 23);
    FieldAt(ClashPlayers.Player(), body, generic, r, 24);
    FieldAt(ClashPlayers.Player(), body, generic, r, 25);
    FieldAt(ClashPlayers.Player(), body, generic, r, 26);
    ExtrasPreserved(ClashPlayers.Player(), body, generic, r);
  }

  /** `PlayerClan(**body)`: each declared field as its kind prescribes, and the extra keywords kept. */
  lemma PlayerClan(body: seq<(string, Json)>, generic: Option<Value>, r: Response)
    requires Instantiate(ClashPlayers.PlayerClan(), body, generic) == Success(r)
    ensures FieldHolds(r, body, "tag", Scalar)
    ensures FieldHolds(r, body, "clanLevel", Scalar)
    ensures FieldHolds(r, body, "name", Scalar)
    ensures FieldHolds(r, body, "badgeUrls", Scalar)
    ensures KeepsExtras(r, body, generic, ClashPlayers.PlayerClan())
  {
    ClashPlayers.PlayerClanNames();
    FieldAt(ClashPlayers.PlayerClan(), body, generic, r, 0);
    FieldAt(ClashPlayers.PlayerClan(), body, generic, r, 1);
    FieldAt(ClashPlayers.PlayerClan(), body, generic, r, 2);
    FieldAt(ClashPlayers.PlayerClan(), body, generic, r, 3);
    ExtrasPreserved(ClashPlayers.PlayerClan(), body, generic, r);
  }

  /** `PlayerLegendStatistics(**body)`: each declared field as its kind prescribes, and the extra keywords kept. */
  lemma PlayerLegendStatistics(body: seq<(string, Json)>, generic: Option<Value>, r: Response)
    requires Instantiate(ClashPlayers.PlayerLegendStatistics(), body, generic) == Success(r)
    ensures FieldHolds(r, body, "legendTrophies", Scalar)
    ensures FieldHolds(r, body, "previousVersusSeason", Nested(ClashPlayers.LegendLeagueTournamentSeasonResult()))
    ensures FieldHolds(r, body, "previousSeason", Nested(ClashPlayers.LegendLeagueTournamentSeasonResult()))
    ensures FieldHolds(r, body, "bestSeason", Nested(ClashPlayers.LegendLeagueTournamentSeasonResult()))
    ensures FieldHolds(r, body, "currentSeason", Nested(ClashPlayers.LegendLeagueTournamentSeasonResult()))
    ensures FieldHolds(r, body, "bestVersusSeason", Nested(ClashPlayers.LegendLeagueTournamentSeasonResult()))
    ensures KeepsExtras(r, body, generic, ClashPlayers.PlayerLegendStatistics())
  {
    ClashPlayers.PlayerLegendStatisticsNames();
    FieldAt(ClashPlayers.PlayerLegendStatistics(), body, generic, r, 0);
    FieldAt(ClashPlayers.PlayerLegendStatistics(), body, generic, r, 1);
    FieldAt(ClashPlayers.PlayerLegendStatistics(), body, generic, r, 2);
    FieldAt(ClashPlayers.PlayerLegendStatistics(), body, generic, r, 3);
    FieldAt(ClashPlayers.PlayerLegendStatistics(), body, generic, r, 4);
    FieldAt(ClashPlayers.PlayerLegendStatistics(), body, generic, r, 5);
    ExtrasPreserved(ClashPlayers.PlayerLegendStatistics(), body, generic, r);
  }

  /** `LegendLeagueTournamentSeasonResult(**body)`: each declared field as its kind prescribes, and the extra keywords kept. */
  lemma LegendLeagueTournamentSeasonResult(body: seq<(string, Json)>, generic: Option<Value>, r: Response)
    requires Instantiate(ClashPlayers.LegendLeagueTournamentSeasonResult(), body, generic) == Success(r)
    ensures FieldHolds(r, body, "trophies", Scalar)
    ensures FieldHolds(r, body, "id", Scalar)
    ensures FieldHolds(r, body, "rank", Scalar)
    ensures KeepsExtras(r, body, generic, ClashPlayers.LegendLeagueTournamentSeasonResult())
  {
    ClashPlayers.LegendLeagueTournamentSeasonResultNames();
    FieldAt(ClashPlayers.LegendLeagueTournamentSeasonResult(), body, generic, r, 0);
    FieldAt(ClashPlayers.LegendLeagueTournamentSeasonResult(), body, generic, r, 1);
    FieldAt(ClashPlayers.LegendLeagueTournamentSeasonResult(), body, generic, r, 2);
    ExtrasPreserved(ClashPlayers.LegendLeagueTournamentSeasonResult(), body, generic, r);
  }

  /** `PlayerItemLevel(**body)`: each declared field as its kind prescribes, and the extra keywords kept. */
  lemma PlayerItemLevel(body: seq<(string, Json)>, generic: Option<Value>, r: Response)
    requires Instantiate(ClashPlayers.PlayerItemLevel(), body, generic) == Success(r)
    ensures FieldHolds(r, body, "level", Scalar)
    ensures FieldHolds(r, body, "name", Scalar)
    ensures FieldHolds(r, body, "maxLevel", Scalar)
    ensures FieldHolds(r, body, "village", Scalar)
    ensures FieldHolds(r, body, "superTroopIsActive", Scalar)
    ensures KeepsExtras(r, body, generic, ClashPlayers.PlayerItemLevel())
  {
    ClashPlayers.PlayerItemLevelNames();
    FieldAt(ClashPlayers.PlayerItemLevel(), body, generic, r, 0);
    FieldAt(ClashPlayers.PlayerItemLevel(), body, generic, r, 1);
    FieldAt(ClashPlayers.PlayerItemLevel(), body, generic, r, 2);
    FieldAt(ClashPlayers.PlayerItemLevel(), body, generic, r, 3);
    FieldAt(ClashPlayers.PlayerItemLevel(), body, generic, r, 4);
    ExtrasPreserved(ClashPlayers.PlayerItemLevel(), body, generic, r);
  }

  /** `PlayerAchievementProgress(**body)`: each declared field as its kind prescribes, and the extra keywords kept. */
  lemma PlayerAchievementProgress(body: seq<(string, Json)>, generic: Option<Value>, r: Response)
    requires Instantiate(ClashPlayers.PlayerAchievementProgress(), body, generic) == Success(r)
    ensures FieldHolds(r, body, "stars", Scalar)
    ensures FieldHolds(r, body, "value", Scalar)
    ensures FieldHolds(r, body, "name", Scalar)
    ensures FieldHolds(r, body, "target", Scalar)
    ensures FieldHolds(r, body, "info", Scalar)
    ensures FieldHolds(r, body, "completionInfo", Scalar)
    ensures FieldHolds(r, body, "village", Scalar)
    ensures KeepsExtras(r, body, generic, ClashPlayers.PlayerAchievementProgress())
  {
    ClashPlayers.PlayerAchievementProgressNames();
    FieldAt(ClashPlayers.PlayerAchievementProgress(), body, generic, r, 0);
    FieldAt(ClashPlayers.PlayerAchievementProgress(), body, generic, r, 1);
    FieldAt(ClashPlayers.PlayerAchievementProgress(), body, generic, r, 2);
    FieldAt(ClashPlayers.PlayerAchievementProgress(), body, generic, r, 3);
    FieldAt(ClashPlayers.PlayerAchievementProgress(), body, generic, r, 4);
    FieldAt(ClashPlayers.PlayerAchievementProgress(), body, generic, r, 5);
    FieldAt(ClashPlayers.PlayerAchievementProgress(), body, generic, r, 6);
    ExtrasPreserved(ClashPlayers.PlayerAchievementProgress(), body, generic, r);
  }

  /** `VerifyTokenResponse(**body)`: each declared field as its kind prescribes, and the extra keywords kept. */
  lemma VerifyTokenResponse(body: seq<(string, Json)>, generic: Option<Value>, r: Response)
    requires Instantiate(ClashPlayers.VerifyTokenResponse(), body, generic) == Success(r)
    ensures FieldHolds(r, body, "tag", Scalar)
    ensures FieldHolds(r, body, "token", Scalar)
    ensures FieldHolds(r, body, "status", Scalar)
    ensures KeepsExtras(r, body, generic, ClashPlayers.VerifyTokenResponse())
  {
    ClashPlayers.VerifyTokenResponseNames();
    FieldAt(ClashPlayers.VerifyTokenResponse(), body, generic, r, 0);
    FieldAt(ClashPlayers.VerifyTokenResponse(), body, generic, r, 1);
    FieldAt(ClashPlayers.VerifyTokenResponse(), body, generic, r, 2);
    ExtrasPreserved(ClashPlayers.VerifyTokenResponse(), body, generic, r);
  }

}
