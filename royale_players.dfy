/**
 * The Clash Royale shapes of async_supercell_api/clash_royale/types/players.py. Each table lists a
 * constructor's declared parameters in the order it assigns them after
 * `super().__init__(**kwargs)`, which is the order they take in `vars(self)`.
 */
module RoyalePlayers {
  import opened Keywords
  import opened Shapes
  import RoyaleClans

  /** `PlayerBattleData.__init__` */
  function PlayerBattleData(): Shape {
    Shape("PlayerBattleData", [
      ("clan", Nested(PlayerClan())),
      ("cards", ListOf(PlayerItemLevel())),
      ("tag", Scalar),
      ("name", Scalar),
      ("startingTrophies", Scalar),
      ("trophyChange", Scalar),
      ("crowns", Scalar),
      ("kingTowerHitPoints", Scalar),
      ("princessTowersHitPoints", Scalar)
    ])
  }

  /** `GameMode.__init__` */
  function GameMode(): Shape {
    Shape("GameMode", [
      ("id", Scalar),
      ("name", Scalar)
    ])
  }

  /** `Battle.__init__` */
  function Battle(): Shape {
    Shape("Battle", [
      ("gameMode", Nested(GameMode())),
      ("arena", Nested(RoyaleClans.Arena())),
      ("type", Scalar),
      ("deckSelection", Scalar),
      ("opponent", ListOf(PlayerBattleData())),
      ("challengeWinCountBefore", Scalar),
      ("boatBattleSide", Scalar),
      ("boatBattleWon", Scalar),
      ("newTowersDestroyed", Scalar),
      ("prevTowersDestroyed", Scalar),
      ("remainingTowers", Scalar),
      ("team", ListOf(PlayerBattleData())),
      ("battleTime", Scalar),
      ("challengeId", Scalar),
      ("tournamentTag", Scalar),
      ("challengeTitle", Scalar),
      ("isLadderTournament", Scalar),
      ("isHostedMatch", Scalar)
    ])
  }

  /** `Chest.__init__` */
  function Chest(): Shape {
    Shape("Chest", [
      ("name", Scalar),
      ("index", Scalar),
      ("iconUrls", Scalar)
    ])
  }

  /** `UpcomingChests.__init__` */
  function UpcomingChests(): Shape {
    Shape("UpcomingChests", [
      ("items", ListOf(Chest()))
    ])
  }

  /** `PlayerAchievementProgress.__init__` */
  function PlayerAchievementProgress(): Shape {
    Shape("PlayerAchievementProgress", [
      ("stars", Scalar),
      ("value", Scalar),
      ("name", Scalar),
      ("target", Scalar),
      ("info", Scalar),
      ("completionInfo", Scalar)
    ])
  }

  /** `PlayerAchievementBadge.__init__` */
  function PlayerAchievementBadge(): Shape {
    Shape("PlayerAchievementBadge", [
      ("maxLevel", Scalar),
      ("progress", Scalar),
      ("level", Scalar),
      ("target", Scalar),
      ("name", Scalar)
    ])
  }

  /** `PlayerItemLevel.__init__` */
  function PlayerItemLevel(): Shape {
    Shape("PlayerItemLevel", [
      ("id", Scalar),
      ("count", Scalar),
      ("level", Scalar),
      ("starLevel", Scalar),
      ("name", Scalar),
      ("maxLevel", Scalar),
      ("iconUrls", Scalar)
    ])
  }

  /** `LeagueSeasonResult.__init__` */
  function LeagueSeasonResult(): Shape {
    Shape("LeagueSeasonResult", [
      ("trophies", Scalar),
      ("rank", Scalar),
      ("bestTrophies", Scalar),
      ("id", Scalar)
    ])
  }

  /** `Item.__init__` */
  function Item(): Shape {
    Shape("Item", [
      ("iconUrls", Scalar),
      ("name", Scalar),
      ("id", Scalar),
      ("maxLevel", Scalar)
    ])
  }

  /** `PlayerLeagueStatistics.__init__` */
  function PlayerLeagueStatistics(): Shape {
    Shape("PlayerLeagueStatistics", [
      ("bestSeason", Nested(LeagueSeasonResult())),
      ("currentSeason", Nested(LeagueSeasonResult())),
      ("previousSeason", Nested(LeagueSeasonResult()))
    ])
  }

  /** `PlayerClan.__init__` */
  function PlayerClan(): Shape {
    Shape("PlayerClan", [
      ("badgeId", Scalar),
      ("tag", Scalar),
      ("name", Scalar),
      ("badgeUrls", Scalar)
    ])
  }

  /** `Player.__init__` */
  function Player(): Shape {
    Shape("Player", [
      ("clan", Nested(PlayerClan())),
      ("arena", Nested(RoyaleClans.Arena())),
      ("role", Scalar),
      ("wins", Scalar),
      ("losses", Scalar),
      ("totalDonations", Scalar),
      ("leagueStatistics", Nested(PlayerLeagueStatistics())),
      ("cards", ListOf(PlayerItemLevel())),
      ("currentFavouriteCard", Nested(Item())),
      ("badges", ListOf(PlayerAchievementBadge())),
      ("tag", Scalar),
      ("name", Scalar),
      ("expLevel", Scalar),
      ("trophies", Scalar),
      ("bestTrophies", Scalar),
      ("donations", Scalar),
      ("donationsReceived", Scalar),
      ("achievements", ListOf(PlayerAchievementProgress())),
      ("battleCount", Scalar),
      ("threeCrownWins", Scalar),
      ("challengeCardsWon", Scalar),
      ("challengeMaxWins", Scalar),
      ("tournamentCardsWon", Scalar),
      ("tournamentBattleCount", Scalar),
      ("currentDeck", ListOf(PlayerItemLevel())),
      ("warDayWins", Scalar),
      ("clanCardsCollected", Scalar),
      ("starPoints", Scalar),
      ("expPoints", Scalar)
    ])
  }

  /** The position of each name in the `PlayerBattleData` table, -1 for any other name; names are told apart by length first. */
  function PlayerBattleDataSlot(name: string): int {
    if |name| == 3 then (if name == "tag" then 2 else -1)
    else if |name| == 4 then (if name == "clan" then 0 else if name == "name" then 3 else -1)
    else if |name| == 5 then (if name == "cards" then 1 else -1)
    else if |name| == 6 then (if name == "crowns" then 6 else -1)
    else if |name| == 12 then (if name == "trophyChange" then 5 else -1)
    else if |name| == 16 then (if name == "startingTrophies" then 4 else -1)
    else if |name| == 18 then (if name == "kingTowerHitPoints" then 7 else -1)
    else if |name| == 23 then (if name == "princessTowersHitPoints" then 8 else -1)
    else -1
  }

  lemma PlayerBattleDataSlots0()
    ensures forall i :: 0 <= i < 6 ==> PlayerBattleDataSlot(PlayerBattleData().fields[i].0) == i && Ordinary(PlayerBattleData().fields[i].0)
  {
    var fs := PlayerBattleData().fields;
    forall i | 0 <= i < 6 ensures PlayerBattleDataSlot(fs[i].0) == i && Ordinary(fs[i].0) {
      if i == 0 {}
      else if i == 1 {}
      else if i == 2 {}
      else if i == 3 {}
      else if i == 4 {}
      else if i == 5 {}
    }
  }

  lemma PlayerBattleDataSlots6()
    ensures forall i :: 6 <= i < 9 ==> PlayerBattleDataSlot(PlayerBattleData().fields[i].0) == i && Ordinary(PlayerBattleData().fields[i].0)
  {
    var fs := PlayerBattleData().fields;
    forall i | 6 <= i < 9 ensures PlayerBattleDataSlot(fs[i].0) == i && Ordinary(fs[i].0) {
      if i == 6 {}
      else if i == 7 {}
      else if i == 8 {}
    }
  }

  /** `PlayerBattleData.__init__` declares distinct parameter names, none of them reserved. */
  lemma PlayerBattleDataNames()
    ensures OrdinaryNames(PlayerBattleData().fields)
  {
    PlayerBattleDataSlots0(); PlayerBattleDataSlots6();
    SlottedNames(PlayerBattleData().fields, PlayerBattleDataSlot);
  }

  /** The position of each name in the `GameMode` table, -1 for any other name; names are told apart by length first. */
  function GameModeSlot(name: string): int {
    if |name| == 2 then (if name == "id" then 0 else -1)
    else if |name| == 4 then (if name == "name" then 1 else -1)
    else -1
  }

  /** `GameMode.__init__` declares distinct parameter names, none of them reserved. */
  lemma GameModeNames()
    ensures OrdinaryNames(GameMode().fields)
  {
    var fs := GameMode().fields;
    forall i | 0 <= i < |fs| ensures GameModeSlot(fs[i].0) == i && Ordinary(fs[i].0) {
      if i == 0 {}
      else if i == 1 {}
    }
    SlottedNames(fs, GameModeSlot);
  }

  /** The position of each name in the `Battle` table, -1 for any other name; names are told apart by length first. */
  function BattleSlot(name: string): int {
    if |name| == 4 then (if name == "type" then 2 else if name == "team" then 11 else -1)
    else if |name| == 5 then (if name == "arena" then 1 else -1)
    else if |name| == 8 then (if name == "gameMode" then 0 else if name == "opponent" then 4 else -1)
    else if |name| == 10 then (if name == "battleTime" then 12 else -1)
    else if |name| == 11 then (if name == "challengeId" then 13 else -1)
    else if |name| == 13 then (if name == "deckSelection" then 3 else if name == "boatBattleWon" then 7 else if name == "tournamentTag" then 14 else if name == "isHostedMatch" then 17 else -1)
    else if |name| == 14 then (if name == "boatBattleSide" then 6 else if name == "challengeTitle" then 15 else -1)
    else if |name| == 15 then (if name == "remainingTowers" then 10 else -1)
    else if |name| == 18 then (if name == "newTowersDestroyed" then 8 else if name == "isLadderTournament" then 16 else -1)
    else if |name| == 19 then (if name == "prevTowersDestroyed" then 9 else -1)
    else if |name| == 23 then (if name == "challengeWinCountBefore" then 5 else -1)
    else -1
  }

  lemma BattleSlots0()
    ensures forall i :: 0 <= i < 6 ==> BattleSlot(Battle().fields[i].0) == i && Ordinary(Battle().fields[i].0)
  {
    var fs := Battle().fields;
    forall i | 0 <= i < 6 ensures BattleSlot(fs[i].0) == i && Ordinary(fs[i].0) {
      if i == 0 {}
      else if i == 1 {}
      else if i == 2 {}
      else if i == 3 {}
      else if i == 4 {}
      else if i == 5 {}
    }
  }

  lemma BattleSlots6()
    ensures forall i :: 6 <= i < 12 ==> BattleSlot(Battle().fields[i].0) == i && Ordinary(Battle().fields[i].0)
  {
    var fs := Battle().fields;
    forall i | 6 <= i < 12 ensures BattleSlot(fs[i].0) == i && Ordinary(fs[i].0) {
      if i == 6 {}
      else if i == 7 {}
      else if i == 8 {}
      else if i == 9 {}
      else if i == 10 {}
      else if i == 11 {}
    }
  }

  lemma BattleSlots12()
    ensures forall i :: 12 <= i < 18 ==> BattleSlot(Battle().fields[i].0) == i && Ordinary(Battle().fields[i].0)
  {
    var fs := Battle().fields;
    forall i | 12 <= i < 18 ensures BattleSlot(fs[i].0) == i && Ordinary(fs[i].0) {
      if i == 12 {}
      else if i == 13 {}
      else if i == 14 {}
      else if i == 15 {}
      else if i == 16 {}
      else if i == 17 {}
    }
  }

  /** `Battle.__init__` declares distinct parameter names, none of them reserved. */
  lemma BattleNames()
    ensures OrdinaryNames(Battle().fields)
  {
    BattleSlots0(); BattleSlots6(); BattleSlots12();
    SlottedNames(Battle().fields, BattleSlot);
  }

  /** The position of each name in the `Chest` table, -1 for any other name; names are told apart by length first. */
  function ChestSlot(name: string): int {
    if |name| == 4 then (if name == "name" then 0 else -1)
    else if |name| == 5 then (if name == "index" then 1 else -1)
    else if |name| == 8 then (if name == "iconUrls" then 2 else -1)
    else -1
  }

  /** `Chest.__init__` declares distinct parameter names, none of them reserved. */
  lemma ChestNames()
    ensures OrdinaryNames(Chest().fields)
  {
    var fs := Chest().fields;
    forall i | 0 <= i < |fs| ensures ChestSlot(fs[i].0) == i && Ordinary(fs[i].0) {
      if i == 0 {}
      else if i == 1 {}
      else if i == 2 {}
    }
    SlottedNames(fs, ChestSlot);
  }

  /** The position of each name in the `UpcomingChests` table, -1 for any other name; names are told apart by length first. */
  function UpcomingChestsSlot(name: string): int {
    if |name| == 5 then (if name == "items" then 0 else -1)
    else -1
  }

  /** `UpcomingChests.__init__` declares distinct parameter names, none of them reserved. */
  lemma UpcomingChestsNames()
    ensures OrdinaryNames(UpcomingChests().fields)
  {
    var fs := UpcomingChests().fields;
    forall i | 0 <= i < |fs| ensures UpcomingChestsSlot(fs[i].0) == i && Ordinary(fs[i].0) {
      if i == 0 {}
    }
    SlottedNames(fs, UpcomingChestsSlot);
  }

  /** The position of each name in the `PlayerAchievementProgress` table, -1 for any other name; names are told apart by length first. */
  function PlayerAchievementProgressSlot(name: string): int {
    if |name| == 4 then (if name == "name" then 2 else if name == "info" then 4 else -1)
    else if |name| == 5 then (if name == "stars" then 0 else if name == "value" then 1 else -1)
    else if |name| == 6 then (if name == "target" then 3 else -1)
    else if |name| == 14 then (if name == "completionInfo" then 5 else -1)
    else -1
  }

  /** `PlayerAchievementProgress.__init__` declares distinct parameter names, none of them reserved. */
  lemma PlayerAchievementProgressNames()
    ensures OrdinaryNames(PlayerAchievementProgress().fields)
  {
    var fs := PlayerAchievementProgress().fields;
    forall i | 0 <= i < |fs| ensures PlayerAchievementProgressSlot(fs[i].0) == i && Ordinary(fs[i].0) {
      if i == 0 {}
      else if i == 1 {}
      else if i == 2 {}
      else if i == 3 {}
      else if i == 4 {}
      else if i == 5 {}
    }
    SlottedNames(fs, PlayerAchievementProgressSlot);
  }

  /** The position of each name in the `PlayerAchievementBadge` table, -1 for any other name; names are told apart by length first. */
  function PlayerAchievementBadgeSlot(name: string): int {
    if |name| == 4 then (if name == "name" then 4 else -1)
    else if |name| == 5 then (if name == "level" then 2 else -1)
    else if |name| == 6 then (if name == "target" then 3 else -1)
    else if |name| == 8 then (if name == "maxLevel" then 0 else if name == "progress" then 1 else -1)
    else -1
  }

  /** `PlayerAchievementBadge.__init__` declares distinct parameter names, none of them reserved. */
  lemma PlayerAchievementBadgeNames()
    ensures OrdinaryNames(PlayerAchievementBadge().fields)
  {
    var fs := PlayerAchievementBadge().fields;
    forall i | 0 <= i < |fs| ensures PlayerAchievementBadgeSlot(fs[i].0) == i && Ordinary(fs[i].0) {
      if i == 0 {}
      else if i == 1 {}
      else if i == 2 {}
      else if i == 3 {}
      else if i == 4 {}
    }
    SlottedNames(fs, PlayerAchievementBadgeSlot);
  }

  /** The position of each name in the `PlayerItemLevel` table, -1 for any other name; names are told apart by length first. */
  function PlayerItemLevelSlot(name: string): int {
    if |name| == 2 then (if name == "id" then 0 else -1)
    else if |name| == 4 then (if name == "name" then 4 else -1)
    else if |name| == 5 then (if name == "count" then 1 else if name == "level" then 2 else -1)
    else if |name| == 8 then (if name == "maxLevel" then 5 else if name == "iconUrls" then 6 else -1)
    else if |name| == 9 then (if name == "starLevel" then 3 else -1)
    else -1
  }

  lemma PlayerItemLevelSlots0()
    ensures forall i :: 0 <= i < 6 ==> PlayerItemLevelSlot(PlayerItemLevel().fields[i].0) == i && Ordinary(PlayerItemLevel().fields[i].0)
  {
    var fs := PlayerItemLevel().fields;
    forall i | 0 <= i < 6 ensures PlayerItemLevelSlot(fs[i].0) == i && Ordinary(fs[i].0) {
      if i == 0 {}
      else if i == 1 {}
      else if i == 2 {}
      else if i == 3 {}
      else if i == 4 {}
      else if i == 5 {}
    }
  }

  lemma PlayerItemLevelSlots6()
    ensures forall i :: 6 <= i < 7 ==> PlayerItemLevelSlot(PlayerItemLevel().fields[i].0) == i && Ordinary(PlayerItemLevel().fields[i].0)
  {
    var fs := PlayerItemLevel().fields;
    forall i | 6 <= i < 7 ensures PlayerItemLevelSlot(fs[i].0) == i && Ordinary(fs[i].0) {
      if i == 6 {}
    }
  }

  /** `PlayerItemLevel.__init__` declares distinct parameter names, none of them reserved. */
  lemma PlayerItemLevelNames()
    ensures OrdinaryNames(PlayerItemLevel().fields)
  {
    PlayerItemLevelSlots0(); PlayerItemLevelSlots6();
    SlottedNames(PlayerItemLevel().fields, PlayerItemLevelSlot);
  }

  /** The position of each name in the `LeagueSeasonResult` table, -1 for any other name; names are told apart by length first. */
  function LeagueSeasonResultSlot(name: string): int {
    if |name| == 2 then (if name == "id" then 3 else -1)
    else if |name| == 4 then (if name == "rank" then 1 else -1)
    else if |name| == 8 then (if name == "trophies" then 0 else -1)
    else if |name| == 12 then (if name == "bestTrophies" then 2 else -1)
    else -1
  }

  /** `LeagueSeasonResult.__init__` declares distinct parameter names, none of them reserved. */
  lemma LeagueSeasonResultNames()
    ensures OrdinaryNames(LeagueSeasonResult().fields)
  {
    var fs := LeagueSeasonResult().fields;
    forall i | 0 <= i < |fs| ensures LeagueSeasonResultSlot(fs[i].0) == i && Ordinary(fs[i].0) {
      if i == 0 {}
      else if i == 1 {}
      else if i == 2 {}
      else if i == 3 {}
    }
    SlottedNames(fs, LeagueSeasonResultSlot);
  }

  /** The position of each name in the `Item` table, -1 for any other name; names are told apart by length first. */
  function ItemSlot(name: string): int {
    if |name| == 2 then (if name == "id" then 2 else -1)
    else if |name| == 4 then (if name == "name" then 1 else -1)
    else if |name| == 8 then (if name == "iconUrls" then 0 else if name == "maxLevel" then 3 else -1)
    else -1
  }

  /** `Item.__init__` declares distinct parameter names, none of them reserved. */
  lemma ItemNames()
    ensures OrdinaryNames(Item().fields)
  {
    var fs := Item().fields;
    forall i | 0 <= i < |fs| ensures ItemSlot(fs[i].0) == i && Ordinary(fs[i].0) {
      if i == 0 {}
      else if i == 1 {}
      else if i == 2 {}
      else if i == 3 {}
    }
    SlottedNames(fs, ItemSlot);
  }

  /** The position of each name in the `PlayerLeagueStatistics` table, -1 for any other name; names are told apart by length first. */
  function PlayerLeagueStatisticsSlot(name: string): int {
    if |name| == 10 then (if name == "bestSeason" then 0 else -1)
    else if |name| == 13 then (if name == "currentSeason" then 1 else -1)
    else if |name| == 14 then (if name == "previousSeason" then 2 else -1)
    else -1
  }

  /** `PlayerLeagueStatistics.__init__` declares distinct parameter names, none of them reserved. */
  lemma PlayerLeagueStatisticsNames()
    ensures OrdinaryNames(PlayerLeagueStatistics().fields)
  {
    var fs := PlayerLeagueStatistics().fields;
    forall i | 0 <= i < |fs| ensures PlayerLeagueStatisticsSlot(fs[i].0) == i && Ordinary(fs[i].0) {
      if i == 0 {}
      else if i == 1 {}
      else if i == 2 {}
    }
    SlottedNames(fs, PlayerLeagueStatisticsSlot);
  }

  /** The position of each name in the `PlayerClan` table, -1 for any other name; names are told apart by length first. */
  function PlayerClanSlot(name: string): int {
    if |name| == 3 then (if name == "tag" then 1 else -1)
    else if |name| == 4 then (if name == "name" then 2 else -1)
    else if |name| == 7 then (if name == "badgeId" then 0 else -1)
    else if |name| == 9 then (if name == "badgeUrls" then 3 else -1)
    else -1
  }

  /** `PlayerClan.__init__` declares distinct parameter names, none of them reserved. */
  lemma PlayerClanNames()
    ensures OrdinaryNames(PlayerClan().fields)
  {
    var fs := PlayerClan().fields;
    forall i | 0 <= i < |fs| ensures PlayerClanSlot(fs[i].0) == i && Ordinary(fs[i].0) {
      if i == 0 {}
      else if i == 1 {}
      else if i == 2 {}
      else if i == 3 {}
    }
    SlottedNames(fs, PlayerClanSlot);
  }

  /** The position of each name in the `Player` table, -1 for any other name; names are told apart by length first. */
  function PlayerSlot(name: string): int {
    if |name| == 3 then (if name == "tag" then 10 else -1)
    else if |name| == 4 then (if name == "clan" then 0 else if name == "role" then 2 else if name == "wins" then 3 else if name == "name" then 11 else -1)
    else if |name| == 5 then (if name == "arena" then 1 else if name == "cards" then 7 else -1)
    else if |name| == 6 then (if name == "losses" then 4 else if name == "badges" then 9 else -1)
    else if |name| == 8 then (if name == "expLevel" then 12 else if name == "trophies" then 13 else -1)
    else if |name| == 9 then (if name == "donations" then 15 else if name == "expPoints" then 28 else -1)
    else if |name| == 10 then (if name == "warDayWins" then 25 else if name == "starPoints" then 27 else -1)
    else if |name| == 11 then (if name == "battleCount" then 18 else if name == "currentDeck" then 24 else -1)
    else if |name| == 12 then (if name == "bestTrophies" then 14 else if name == "achievements" then 17 else -1)
    else if |name| == 14 then (if name == "totalDonations" then 5 else if name == "threeCrownWins" then 19 else -1)
    else if |name| == 16 then (if name == "leagueStatistics" then 6 else if name == "challengeMaxWins" then 21 else -1)
    else if |name| == 17 then (if name == "donationsReceived" then 16 else if name == "challengeCardsWon" then 20 else -1)
    else if |name| == 18 then (if name == "tournamentCardsWon" then 22 else if name == "clanCardsCollected" then 26 else -1)
    else if |name| == 20 then (if name == "currentFavouriteCard" then 8 else -1)
    else if |name| == 21 then (if name == "tournamentBattleCount" then 23 else -1)
    else -1
  }

  lemma PlayerSlots0()
    ensures forall i :: 0 <= i < 6 ==> PlayerSlot(Player().fields[i].0) == i && Ordinary(Player().fields[i].0)
  {
    var fs := Player().fields;
    forall i | 0 <= i < 6 ensures PlayerSlot(fs[i].0) == i && Ordinary(fs[i].0) {
      if i == 0 {}
      else if i == 1 {}
      else if i == 2 {}
      else if i == 3 {}
      else if i == 4 {}
      else if i == 5 {}
    }
  }

  lemma PlayerSlots6()
    ensures forall i :: 6 <= i < 12 ==> PlayerSlot(Player().fields[i].0) == i && Ordinary(Player().fields[i].0)
  {
    var fs := Player().fields;
    forall i | 6 <= i < 12 ensures PlayerSlot(fs[i].0) == i && Ordinary(fs[i].0) {
      if i == 6 {}
      else if i == 7 {}
      else if i == 8 {}
      else if i == 9 {}
      else if i == 10 {}
      else if i == 11 {}
    }
  }

  lemma PlayerSlots12()
    ensures forall i :: 12 <= i < 18 ==> PlayerSlot(Player().fields[i].0) == i && Ordinary(Player().fields[i].0)
  {
    var fs := Player().fields;
    forall i | 12 <= i < 18 ensures PlayerSlot(fs[i].0) == i && Ordinary(fs[i].0) {
      if i == 12 {}
      else if i == 13 {}
      else if i == 14 {}
      else if i == 15 {}
      else if i == 16 {}
      else if i == 17 {}
    }
  }

  lemma PlayerSlots18()
    ensures forall i :: 18 <= i < 24 ==> PlayerSlot(Player().fields[i].0) == i && Ordinary(Player().fields[i].0)
  {
    var fs := Player().fields;
    forall i | 18 <= i < 24 ensures PlayerSlot(fs[i].0) == i && Ordinary(fs[i].0) {
      if i == 18 {}
      else if i == 19 {}
      else if i == 20 {}
      else if i == 21 {}
      else if i == 22 {}
      else if i == 23 {}
    }
  }

  lemma PlayerSlots24()
    ensures forall i :: 24 <= i < 29 ==> PlayerSlot(Player().fields[i].0) == i && Ordinary(Player().fields[i].0)
  {
    var fs := Player().fields;
    forall i | 24 <= i < 29 ensures PlayerSlot(fs[i].0) == i && Ordinary(fs[i].0) {
      if i == 24 {}
      else if i == 25 {}
      else if i == 26 {}
      else if i == 27 {}
      else if i == 28 {}
    }
  }

  /** `Player.__init__` declares distinct parameter names, none of them reserved. */
  lemma PlayerNames()
    ensures OrdinaryNames(Player().fields)
  {
    PlayerSlots0(); PlayerSlots6(); PlayerSlots12(); PlayerSlots18(); PlayerSlots24();
    SlottedNames(Player().fields, PlayerSlot);
  }

}

/**
 * What decoding a payload as each shape of async_supercell_api/clash_royale/types/players.py yields:
 * every declared field is present, holds its value as the field's kind
 * prescribes (absent or null gives None), and every undeclared key other
 * than `success` is kept with its value.
 */
module RoyalePlayersRules {
  import opened JsonData
  import opened Wrappers
  import opened Shapes
  import opened Responses
  import opened Decoder
  import opened DecoderLaws
  import RoyalePlayers
  import RoyaleClans

  /** `PlayerBattleData(**body)`: each declared field as its kind prescribes, and the extra keywords kept. */
  lemma PlayerBattleData(body: seq<(string, Json)>, generic: Option<Value>, r: Response)
    requires Instantiate(RoyalePlayers.PlayerBattleData(), body, generic) == Success(r)
    ensures FieldHolds(r, body, "clan", Nested(RoyalePlayers.PlayerClan()))
    ensures FieldHolds(r, body, "cards", ListOf(RoyalePlayers.PlayerItemLevel()))
    ensures FieldHolds(r, body, "tag", Scalar)
    ensures FieldHolds(r, body, "name", Scalar)
    ensures FieldHolds(r, body, "startingTrophies", Scalar)
    ensures FieldHolds(r, body, "trophyChange", Scalar)
    ensures FieldHolds(r, body, "crowns", Scalar)
    ensures FieldHolds(r, body, "kingTowerHitPoints", Scalar)
    ensures FieldHolds(r, body, "princessTowersHitPoints", Scalar)
    ensures KeepsExtras(r, body, generic, RoyalePlayers.PlayerBattleData())
  {
    RoyalePlayers.PlayerBattleDataNames();
    FieldAt(RoyalePlayers.PlayerBattleData(), body, generic, r, 0);
    FieldAt(RoyalePlayers.PlayerBattleData(), body, generic, r, 1);
    FieldAt(RoyalePlayers.PlayerBattleData(), body, generic, r, 2);
    FieldAt(RoyalePlayers.PlayerBattleData(), body, generic, r, 3);
    FieldAt(RoyalePlayers.PlayerBattleData(), body, generic, r, 4);
    FieldAt(RoyalePlayers.PlayerBattleData(), body, generic, r, 5);
    FieldAt(RoyalePlayers.PlayerBattleData(), body, generic, r, 6);
    FieldAt(RoyalePlayers.PlayerBattleData(), body, generic, r, 7);
    FieldAt(RoyalePlayers.PlayerBattleData(), body, generic, r, 8);
    ExtrasPreserved(RoyalePlayers.PlayerBattleData(), body, generic, r);
  }

  /** `GameMode(**body)`: each declared field as its kind prescribes, and the extra keywords kept. */
  lemma GameMode(body: seq<(string, Json)>, generic: Option<Value>, r: Response)
    requires Instantiate(RoyalePlayers.GameMode(), body, generic) == Success(r)
    ensures FieldHolds(r, body, "id", Scalar)
    ensures FieldHolds(r, body, "name", Scalar)
    ensures KeepsExtras(r, body, generic, RoyalePlayers.GameMode())
  {
    RoyalePlayers.GameModeNames();
    FieldAt(RoyalePlayers.GameMode(), body, generic, r, 0);
    FieldAt(RoyalePlayers.GameMode(), body, generic, r, 1);
    ExtrasPreserved(RoyalePlayers.GameMode(), body, generic, r);
  }

  /** `Battle(**body)`: each declared field as its kind prescribes, and the extra keywords kept. */
  lemma Battle(body: seq<(string, Json)>, generic: Option<Value>, r: Response)
    requires Instantiate(RoyalePlayers.Battle(), body, generic) == Success(r)
    ensures FieldHolds(r, body, "gameMode", Nested(RoyalePlayers.GameMode()))
    ensures FieldHolds(r, body, "arena", Nested(RoyaleClans.Arena()))
    ensures FieldHolds(r, body, "type", Scalar)
    ensures FieldHolds(r, body, "deckSelection", Scalar)
    ensures FieldHolds(r, body, "opponent", ListOf(RoyalePlayers.PlayerBattleData()))
    ensures FieldHolds(r, body, "challengeWinCountBefore", Scalar)
    ensures FieldHolds(r, body, "boatBattleSide", Scalar)
    ensures FieldHolds(r, body, "boatBattleWon", Scalar)
    ensures FieldHolds(r, body, "newTowersDestroyed", Scalar)
    ensures FieldHolds(r, body, "prevTowersDestroyed", Scalar)
    ensures FieldHolds(r, body, "remainingTowers", Scalar)
    ensures FieldHolds(r, body, "team", ListOf(RoyalePlayers.PlayerBattleData()))
    ensures FieldHolds(r, body, "battleTime", Scalar)
    ensures FieldHolds(r, body, "challengeId", Scalar)
    ensures FieldHolds(r, body, "tournamentTag", Scalar)
    ensures FieldHolds(r, body, "challengeTitle", Scalar)
    ensures FieldHolds(r, body, "isLadderTournament", Scalar)
    ensures FieldHolds(r, body, "isHostedMatch", Scalar)
    ensures KeepsExtras(r, body, generic, RoyalePlayers.Battle())
  {
    RoyalePlayers.BattleNames();
    FieldAt(RoyalePlayers.Battle(), body, generic, r, 0);
    FieldAt(RoyalePlayers.Battle(), body, generic, r, 1);
    FieldAt(RoyalePlayers.Battle(), body, generic, r, 2);
    FieldAt(RoyalePlayers.Battle(), body, generic, r, 3);
    FieldAt(RoyalePlayers.Battle(), body, generic, r, 4);
    FieldAt(RoyalePlayers.Battle(), body, generic, r, 5);
    FieldAt(RoyalePlayers.Battle(), body, generic, r, 6);
    FieldAt(RoyalePlayers.Battle(), body, generic, r, 7);
    FieldAt(RoyalePlayers.Battle(), body, generic, r, 8);
    FieldAt(RoyalePlayers.Battle(), body, generic, r, 9);
    FieldAt(RoyalePlayers.Battle(), body, generic, r, 10);
    FieldAt(RoyalePlayers.Battle(), body, generic, r, 11);
    FieldAt(RoyalePlayers.Battle(), body, generic, r, 12);
    FieldAt(RoyalePlayers.Battle(), body, generic, r, 13);
    FieldAt(RoyalePlayers.Battle(), body, generic, r, 14);
    FieldAt(RoyalePlayers.Battle(), body, generic, r, 15);
    FieldAt(RoyalePlayers.Battle(), body, generic, r, 16);
    FieldAt(RoyalePlayers.Battle(), body, generic, r, 17);
    ExtrasPreserved(RoyalePlayers.Battle(), body, generic, r);
  }

  /** `Chest(**body)`: each declared field as its kind prescribes, and the extra keywords kept. */
  lemma Chest(body: seq<(string, Json)>, generic: Option<Value>, r: Response)
    requires Instantiate(RoyalePlayers.Chest(), body, generic) == Success(r)
    ensures FieldHolds(r, body, "name", Scalar)
    ensures FieldHolds(r, body, "index", Scalar)
    ensures FieldHolds(r, body, "iconUrls", Scalar)
    ensures KeepsExtras(r, body, generic, RoyalePlayers.Chest())
  {
    RoyalePlayers.ChestNames();
    FieldAt(RoyalePlayers.Chest(), body, generic, r, 0);
    FieldAt(RoyalePlayers.Chest(), body, generic, r, 1);
    FieldAt(RoyalePlayers.Chest(), body, generic, r, 2);
    ExtrasPreserved(RoyalePlayers.Chest(), body, generic, r);
  }

  /** `UpcomingChests(**body)`: each declared field as its kind prescribes, and the extra keywords kept. */
  lemma UpcomingChests(body: seq<(string, Json)>, generic: Option<Value>, r: Response)
    requires Instantiate(RoyalePlayers.UpcomingChests(), body, generic) == Success(r)
    ensures FieldHolds(r, body, "items", ListOf(RoyalePlayers.Chest()))
    ensures KeepsExtras(r, body, generic, RoyalePlayers.UpcomingChests())
  {
    RoyalePlayers.UpcomingChestsNames();
    FieldAt(RoyalePlayers.UpcomingChests(), body, generic, r, 0);
    ExtrasPreserved(RoyalePlayers.UpcomingChests(), body, generic, r);
  }

  /** `PlayerAchievementProgress(**body)`: each declared field as its kind prescribes, and the extra keywords kept. */
  lemma PlayerAchievementProgress(body: seq<(string, Json)>, generic: Option<Value>, r: Response)
    requires Instantiate(RoyalePlayers.PlayerAchievementProgress(), body, generic) == Success(r)
    ensures FieldHolds(r, body, "stars", Scalar)
    ensures FieldHolds(r, body, "value", Scalar)
    ensures FieldHolds(r, body, "name", Scalar)
    ensures FieldHolds(r, body, "target", Scalar)
    ensures FieldHolds(r, body, "info", Scalar)
    ensures FieldHolds(r, body, "completionInfo", Scalar)
    ensures KeepsExtras(r, body, generic, RoyalePlayers.PlayerAchievementProgress())
  {
    RoyalePlayers.PlayerAchievementProgressNames();
    FieldAt(RoyalePlayers.PlayerAchievementProgress(), body, generic, r, 0);
    FieldAt(RoyalePlayers.PlayerAchievementProgress(), body, generic, r, 1);
    FieldAt(RoyalePlayers.PlayerAchievementProgress(), body, generic, r, 2);
    FieldAt(RoyalePlayers.PlayerAchievementProgress(), body, generic, r, 3);
    FieldAt(RoyalePlayers.PlayerAchievementProgress(), body, generic, r, 4);
    FieldAt(RoyalePlayers.PlayerAchievementProgress(), body, generic, r, 5);
    ExtrasPreserved(RoyalePlayers.PlayerAchievementProgress(), body, generic, r);
  }

  /** `PlayerAchievementBadge(**body)`: each declared field as its kind prescribes, and the extra keywords kept. */
  lemma PlayerAchievementBadge(body: seq<(string, Json)>, generic: Option<Value>, r: Response)
    requires Instantiate(RoyalePlayers.PlayerAchievementBadge(), body, generic) == Success(r)
    ensures FieldHolds(r, body, "maxLevel", Scalar)
    ensures FieldHolds(r, body, "progress", Scalar)
    ensures FieldHolds(r, body, "level", Scalar)
    ensures FieldHolds(r, body, "target", Scalar)
    ensures FieldHolds(r, body, "name", Scalar)
    ensures KeepsExtras(r, body, generic, RoyalePlayers.PlayerAchievementBadge())
  {
    RoyalePlayers.PlayerAchievementBadgeNames();
    FieldAt(RoyalePlayers.PlayerAchievementBadge(), body, generic, r, 0);
    FieldAt(RoyalePlayers.PlayerAchievementBadge(), body, generic, r, 1);
    FieldAt(RoyalePlayers.PlayerAchievementBadge(), body, generic, r, 2);
    FieldAt(RoyalePlayers.PlayerAchievementBadge(), body, generic, r, 3);
    FieldAt(RoyalePlayers.PlayerAchievementBadge(), body, generic, r, 4);
    ExtrasPreserved(RoyalePlayers.PlayerAchievementBadge(), body, generic, r);
  }

  /** `PlayerItemLevel(**body)`: each declared field as its kind prescribes, and the extra keywords kept. */
  lemma PlayerItemLevel(body: seq<(string, Json)>, generic: Option<Value>, r: Response)
    requires Instantiate(RoyalePlayers.PlayerItemLevel(), body, generic) == Success(r)
    ensures FieldHolds(r, body, "id", Scalar)
    ensures FieldHolds(r, body, "count", Scalar)
    ensures FieldHolds(r, body, "level", Scalar)
    ensures FieldHolds(r, body, "starLevel", Scalar)
    ensures FieldHolds(r, body, "name", Scalar)
    ensures FieldHolds(r, body, "maxLevel", Scalar)
    ensures FieldHolds(r, body, "iconUrls", Scalar)
    ensures KeepsExtras(r, body, generic, RoyalePlayers.PlayerItemLevel())
  {
    RoyalePlayers.PlayerItemLevelNames();
    FieldAt(RoyalePlayers.PlayerItemLevel(), body, generic, r, 0);
    FieldAt(RoyalePlayers.PlayerItemLevel(), body, generic, r, 1);
    FieldAt(RoyalePlayers.PlayerItemLevel(), body, generic, r, 2);
    FieldAt(RoyalePlayers.PlayerItemLevel(), body, generic, r, 3);
    FieldAt(RoyalePlayers.PlayerItemLevel(), body, generic, r, 4);
    FieldAt(RoyalePlayers.PlayerItemLevel(), body, generic, r, 5);
    FieldAt(RoyalePlayers.PlayerItemLevel(), body, generic, r, 6);
    ExtrasPreserved(RoyalePlayers.PlayerItemLevel(), body, generic, r);
  }

  /** `LeagueSeasonResult(**body)`: each declared field as its kind prescribes, and the extra keywords kept. */
  lemma LeagueSeasonResult(body: seq<(string, Json)>, generic: Option<Value>, r: Response)
    requires Instantiate(RoyalePlayers.LeagueSeasonResult(), body, generic) == Success(r)
    ensures FieldHolds(r, body, "trophies", Scalar)
    ensures FieldHolds(r, body, "rank", Scalar)
    ensures FieldHolds(r, body, "bestTrophies", Scalar)
    ensures FieldHolds(r, body, "id", Scalar)
    ensures KeepsExtras(r, body, generic, RoyalePlayers.LeagueSeasonResult())
  {
    RoyalePlayers.LeagueSeasonResultNames();
    FieldAt(RoyalePlayers.LeagueSeasonResult(), body, generic, r, 0);
    FieldAt(RoyalePlayers.LeagueSeasonResult(), body, generic, r, 1);
    FieldAt(RoyalePlayers.LeagueSeasonResult(), body, generic, r, 2);
    FieldAt(RoyalePlayers.LeagueSeasonResult(), body, generic, r, 3);
    ExtrasPreserved(RoyalePlayers.LeagueSeasonResult(), body, generic, r);
  }

  /** `Item(**body)`: each declared field as its kind prescribes, and the extra keywords kept. */
  lemma Item(body: seq<(string, Json)>, generic: Option<Value>, r: Response)
    requires Instantiate(RoyalePlayers.Item(), body, generic) == Success(r)
    ensures FieldHolds(r, body, "iconUrls", Scalar)
    ensures FieldHolds(r, body, "name", Scalar)
    ensures FieldHolds(r, body, "id", Scalar)
    ensures FieldHolds(r, body, "maxLevel", Scalar)
    ensures KeepsExtras(r, body, generic, RoyalePlayers.Item())
  {
    RoyalePlayers.ItemNames();
    FieldAt(RoyalePlayers.Item(), body, generic, r, 0);
    FieldAt(RoyalePlayers.Item(), body, generic, r, 1);
    FieldAt(RoyalePlayers.Item(), body, generic, r, 2);
    FieldAt(RoyalePlayers.Item(), body, generic, r, 3);
    ExtrasPreserved(RoyalePlayers.Item(), body, generic, r);
  }

  /** `PlayerLeagueStatistics(**body)`: each declared field as its kind prescribes, and the extra keywords kept. */
  lemma PlayerLeagueStatistics(body: seq<(string, Json)>, generic: Option<Value>, r: Response)
    requires Instantiate(RoyalePlayers.PlayerLeagueStatistics(), body, generic) == Success(r)
    ensures FieldHolds(r, body, "bestSeason", Nested(RoyalePlayers.LeagueSeasonResult()))
    ensures FieldHolds(r, body, "currentSeason", Nested(RoyalePlayers.LeagueSeasonResult()))
    ensures FieldHolds(r, body, "previousSeason", Nested(RoyalePlayers.LeagueSeasonResult()))
    ensures KeepsExtras(r, body, generic, RoyalePlayers.PlayerLeagueStatistics())
  {
    RoyalePlayers.PlayerLeagueStatisticsNames();
    FieldAt(RoyalePlayers.PlayerLeagueStatistics(), body, generic, r, 0);
    FieldAt(RoyalePlayers.PlayerLeagueStatistics(), body, generic, r, 1);
    FieldAt(RoyalePlayers.PlayerLeagueStatistics(), body, generic, r, 2);
    ExtrasPreserved(RoyalePlayers.PlayerLeagueStatistics(), body, generic, r);
  }

  /** `PlayerClan(**body)`: each declared field as its kind prescribes, and the extra keywords kept. */
  lemma PlayerClan(body: seq<(string, Json)>, generic: Option<Value>, r: Response)
    requires Instantiate(RoyalePlayers.PlayerClan(), body, generic) == Success(r)
    ensures FieldHolds(r, body, "badgeId", Scalar)
    ensures FieldHolds(r, body, "tag", Scalar)
    ensures FieldHolds(r, body, "name", Scalar)
    ensures FieldHolds(r, body, "badgeUrls", Scalar)
    ensures KeepsExtras(r, body, generic, RoyalePlayers.PlayerClan())
  {
    RoyalePlayers.PlayerClanNames();
    FieldAt(RoyalePlayers.PlayerClan(), body, generic, r, 0);
    FieldAt(RoyalePlayers.PlayerClan(), body, generic, r, 1);
    FieldAt(RoyalePlayers.PlayerClan(), body, generic, r, 2);
    FieldAt(RoyalePlayers.PlayerClan(), body, generic, r, 3);
    ExtrasPreserved(RoyalePlayers.PlayerClan(), body, generic, r);
  }

  /** `Player(**body)`: each declared field as its kind prescribes, and the extra keywords kept. */
  lemma Player(body: seq<(string, Json)>, generic: Option<Value>, r: Response)
    requires Instantiate(RoyalePlayers.Player(), body, generic) == Success(r)
    ensures FieldHolds(r, body, "clan", Nested(RoyalePlayers.PlayerClan()))
    ensures FieldHolds(r, body, "arena", Nested(RoyaleClans.Arena()))
    ensures FieldHolds(r, body, "role", Scalar)
    ensures FieldHolds(r, body, "wins", Scalar)
    ensures FieldHolds(r, body, "losses", Scalar)
    ensures FieldHolds(r, body, "totalDonations", Scalar)
    ensures FieldHolds(r, body, "leagueStatistics", Nested(RoyalePlayers.PlayerLeagueStatistics()))
    ensures FieldHolds(r, body, "cards", ListOf(RoyalePlayers.PlayerItemLevel()))
    ensures FieldHolds(r, body, "currentFavouriteCard", Nested(RoyalePlayers.Item()))
    ensures FieldHolds(r, body, "badges", ListOf(RoyalePlayers.PlayerAchievementBadge()))
    ensures FieldHolds(r, body, "tag", Scalar)
    ensures FieldHolds(r, body, "name", Scalar)
    ensures FieldHolds(r, body, "expLevel", Scalar)
    ensures FieldHolds(r, body, "trophies", Scalar)
    ensures FieldHolds(r, body, "bestTrophies", Scalar)
    ensures FieldHolds(r, body, "donations", Scalar)
    ensures FieldHolds(r, body, "donationsReceived", Scalar)
    ensures FieldHolds(r, body, "achievements", ListOf(RoyalePlayers.PlayerAchievementProgress()))
    ensures FieldHolds(r, body, "battleCount", Scalar)
    ensures FieldHolds(r, body, "threeCrownWins", Scalar)
    ensures FieldHolds(r, body, "challengeCardsWon", Scalar)
    ensures FieldHolds(r, body, "challengeMaxWins", Scalar)
    ensures FieldHolds(r, body, "tournamentCardsWon", Scalar)
    ensures FieldHolds(r, body, "tournamentBattleCount", Scalar)
    ensures FieldHolds(r, body, "currentDeck", ListOf(RoyalePlayers.PlayerItemLevel()))
    ensures FieldHolds(r, body, "warDayWins", Scalar)
    ensures FieldHolds(r, body, "clanCardsCollected", Scalar)
    ensures FieldHolds(r, body, "starPoints", Scalar)
    ensures FieldHolds(r, body, "expPoints", Scalar)
    ensures KeepsExtras(r, body, generic, RoyalePlayers.Player())
  {
    RoyalePlayers.PlayerNames();
    FieldAt(RoyalePlayers.Player(), body, generic, r, 0);
    FieldAt(RoyalePlayers.Player(), body, generic, r, 1);
    FieldAt(RoyalePlayers.Player(), body, generic, r, 2);
    FieldAt(RoyalePlayers.Player(), body, generic, r, 3);
    FieldAt(RoyalePlayers.Player(), body, generic, r, 4);
    FieldAt(RoyalePlayers.Player(), body, generic, r, 5);
    FieldAt(RoyalePlayers.Player(), body, generic, r, 6);
    FieldAt(RoyalePlayers.Player(), body, generic, r, 7);
    FieldAt(RoyalePlayers.Player(), body, generic, r, 8);
    FieldAt(RoyalePlayers.Player(), body, generic, r, 9);
    FieldAt(RoyalePlayers.Player(), body, generic, r, 10);
    FieldAt(RoyalePlayers.Player(), body, generic, r, 11);
    FieldAt(RoyalePlayers.Player(), body, generic, r, 12);
    FieldAt(RoyalePlayers.Player(), body, generic, r, 13);
    FieldAt(RoyalePlayers.Player(), body, generic, r, 14);
    FieldAt(RoyalePlayers.Player(), body, generic, r, 15);
    FieldAt(RoyalePlayers.Player(), body, generic, r, 16);
    FieldAt(RoyalePlayers.Player(), body, generic, r, 17);
    FieldAt(RoyalePlayers.Player(), body, generic, r, 18);
    FieldAt(RoyalePlayers.Player(), body, generic, r, 19);
    FieldAt(RoyalePlayers.Player(), body, generic, r, 20);
    FieldAt(RoyalePlayers.Player(), body, generic, r, 21);
    FieldAt(RoyalePlayers.Player(), body, generic, r, 22);
    FieldAt(RoyalePlayers.Player(), body, generic, r, 23);
    FieldAt(RoyalePlayers.Player(), body, generic, r, 24);
    FieldAt(RoyalePlayers.Player(), body, generic, r, 25);
    FieldAt(RoyalePlayers.Player(), body, generic, r, 26);
    FieldAt(RoyalePlayers.Player(), body, generic, r, 27);
    FieldAt(RoyalePlayers.Player(), body, generic, r, 28);
    ExtrasPreserved(RoyalePlayers.Player(), body, generic, r);
  }

}
