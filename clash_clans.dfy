/**
 * The Clash of Clans shapes of async_supercell_api/clash_of_clans/types/clans.py. Each table lists a
 * constructor's declared parameters in the order it assigns them after
 * `super().__init__(**kwargs)`, which is the order they take in `vars(self)`.
 */
module ClashClans {
  import opened Keywords
  import opened Shapes
  import ClashLabels
  import ClashLeagues
  import ClashLocations

  /** `ClanWarLeagueGroup.__init__` */
  function ClanWarLeagueGroup(): Shape {
    Shape("ClanWarLeagueGroup", [
      ("tag", Scalar),
      ("state", Scalar),
      ("season", Scalar),
      ("clans", ListOf(ClanWarLeagueClan())),
      ("rounds", ListOf(ClanWarLeagueRound()))
    ])
  }

  /** `ClanWarLeagueClan.__init__` */
  function ClanWarLeagueClan(): Shape {
    Shape("ClanWarLeagueClan", [
      ("tag", Scalar),
      ("clanLevel", Scalar),
      ("name", Scalar),
      ("members", ListOf(ClanWarLeagueClanMember())),
      ("badgeUrls", Scalar)
    ])
  }

  /** `ClanWarLeagueRound.__init__` */
  function ClanWarLeagueRound(): Shape {
    Shape("ClanWarLeagueRound", [
      ("warTags", Scalar)
    ])
  }

  /** `ClanWarLeagueClanMember.__init__` */
  function ClanWarLeagueClanMember(): Shape {
    Shape("ClanWarLeagueClanMember", [
      ("tag", Scalar),
      ("townHallLevel", Scalar),
      ("name", Scalar)
    ])
  }

  /** `ClanWarLogEntry.__init__` */
  function ClanWarLogEntry(): Shape {
    Shape("ClanWarLogEntry", [
      ("clan", Nested(WarClan())),
      ("teamSize", Scalar),
      ("attacksPerMember", Scalar),
      ("opponent", Nested(WarClan())),
      ("endTime", Scalar),
      ("result", Scalar)
    ])
  }

  /** `WarClan.__init__` */
  function WarClan(): Shape {
    Shape("WarClan", [
      ("destructionPercentage", Scalar),
      ("tag", Scalar),
      ("name", Scalar),
      ("badgeUrls", Scalar),
      ("clanLevel", Scalar),
      ("attacks", Scalar),
      ("stars", Scalar),
      ("expEarned", Scalar),
      ("members", ListOf(ClanWarMember()))
    ])
  }

  /** `ClanWarMember.__init__` */
  function ClanWarMember(): Shape {
    Shape("ClanWarMember", [
      ("tag", Scalar),
      ("name", Scalar),
      ("mapPosition", Scalar),
      ("townhallLevel", Scalar),
      ("opponentAttacks", Scalar),
      ("bestOpponentAttack", Nested(ClanWarAttack())),
      ("attacks", ListOf(ClanWarAttack()))
    ])
  }

  /** `ClanWarAttack.__init__` */
  function ClanWarAttack(): Shape {
    Shape("ClanWarAttack", [
      ("order", Scalar),
      ("attackerTag", Scalar),
      ("defenderTag", Scalar),
      ("stars", Scalar),
      ("destructionPercentage", Scalar),
      ("duration", Scalar)
    ])
  }

  /** `Clan.__init__` */
  function Clan(): Shape {
    Shape("Clan", [
      ("warLeague", Nested(ClashLeagues.WarLeague())),
      ("memberList", ListOf(ClanMember())),
      ("tag", Scalar),
      ("requiredVersusTrophies", Scalar),
      ("requiredTownhallLevel", Scalar),
      ("warLosses", Scalar),
      ("clanPoints", Scalar),
      ("warFrequency", Scalar),
      ("warWinStreak", Scalar),
      ("clanLevel", Scalar),
      ("warTies", Scalar),
      ("warWins", Scalar),
      ("clanVersusPoints", Scalar),
      ("chatLanguage", Nested(Language())),
      ("isWarLogPublic", Scalar),
      ("requiredTrophies", Scalar),
      ("labels", ListOf(ClashLabels.Label())),
      ("name", Scalar),
      ("location", Nested(ClashLocations.Location())),
      ("type", Scalar),
      ("members", Scalar),
      ("description", Scalar),
      ("badgeUrls", Scalar)
    ])
  }

  /** `ClanWar.__init__` */
  function ClanWar(): Shape {
    Shape("ClanWar", [
      ("clan", Nested(WarClan())),
      ("teamSize", Scalar),
      ("attacksPerMember", Scalar),
      ("opponent", Nested(WarClan())),
      ("startTime", Scalar),
      ("state", Scalar),
      ("endTime", Scalar),
      ("preparationStartTime", Scalar)
    ])
  }

  /** `Language.__init__` */
  function Language(): Shape {
    Shape("Language", [
      ("name", Scalar),
      ("id", Scalar),
      ("languageCode", Scalar)
    ])
  }

  /** `ClanMember.__init__` */
  function ClanMember(): Shape {
    Shape("ClanMember", [
      ("league", Nested(ClashLeagues.League())),
      ("tag", Scalar),
      ("name", Scalar),
      ("role", Scalar),
      ("expLevel", Scalar),
      ("clanRank", Scalar),
      ("previousClanRank", Scalar),
      ("donations", Scalar),
      ("donationsReceived", Scalar),
      ("trophies", Scalar),
      ("versusTrophies", Scalar)
    ])
  }

  /** The position of each name in the `ClanWarLeagueGroup` table, -1 for any other name; names are told apart by length first. */
  function ClanWarLeagueGroupSlot(name: string): int {
    if |name| == 3 then (if name == "tag" then 0 else -1)
    else if |name| == 5 then (if name == "state" then 1 else if name == "clans" then 3 else -1)
    else if |name| == 6 then (if name == "season" then 2 else if name == "rounds" then 4 else -1)
    else -1
  }

  /** `ClanWarLeagueGroup.__init__` declares distinct parameter names, none of them reserved. */
  lemma ClanWarLeagueGroupNames()
    ensures OrdinaryNames(ClanWarLeagueGroup().fields)
  {
    var fs := ClanWarLeagueGroup().fields;
    forall i | 0 <= i < |fs| ensures ClanWarLeagueGroupSlot(fs[i].0) == i && Ordinary(fs[i].0) {
      if i == 0 {}
      else if i == 1 {}
      else if i == 2 {}
      else if i == 3 {}
      else if i == 4 {}
    }
    SlottedNames(fs, ClanWarLeagueGroupSlot);
  }

  /** The position of each name in the `ClanWarLeagueClan` table, -1 for any other name; names are told apart by length first. */
  function ClanWarLeagueClanSlot(name: string): int {
    if |name| == 3 then (if name == "tag" then 0 else -1)
    else if |name| == 4 then (if name == "name" then 2 else -1)
    else if |name| == 7 then (if name == "members" then 3 else -1)
    else if |name| == 9 then (if name == "clanLevel" then 1 else if name == "badgeUrls" then 4 else -1)
    else -1
  }

  /** `ClanWarLeagueClan.__init__` declares distinct parameter names, none of them reserved. */
  lemma ClanWarLeagueClanNames()
    ensures OrdinaryNames(ClanWarLeagueClan().fields)
  {
    var fs := ClanWarLeagueClan().fields;
    forall i | 0 <= i < |fs| ensures ClanWarLeagueClanSlot(fs[i].0) == i && Ordinary(fs[i].0) {
      if i == 0 {}
      else if i == 1 {}
      else if i == 2 {}
      else if i == 3 {}
      else if i == 4 {}
    }
    SlottedNames(fs, ClanWarLeagueClanSlot);
  }

  /** The position of each name in the `ClanWarLeagueRound` table, -1 for any other name; names are told apart by length first. */
  function ClanWarLeagueRoundSlot(name: string): int {
    if |name| == 7 then (if name == "warTags" then 0 else -1)
    else -1
  }

  /** `ClanWarLeagueRound.__init__` declares distinct parameter names, none of them reserved. */
  lemma ClanWarLeagueRoundNames()
    ensures OrdinaryNames(ClanWarLeagueRound().fields)
  {
    var fs := ClanWarLeagueRound().fields;
    forall i | 0 <= i < |fs| ensures ClanWarLeagueRoundSlot(fs[i].0) == i && Ordinary(fs[i].0) {
      if i == 0 {}
    }
    SlottedNames(fs, ClanWarLeagueRoundSlot);
  }

  /** The position of each name in the `ClanWarLeagueClanMember` table, -1 for any other name; names are told apart by length first. */
  function ClanWarLeagueClanMemberSlot(name: string): int {
    if |name| == 3 then (if name == "tag" then 0 else -1)
    else if |name| == 4 then (if name == "name" then 2 else -1)
    else if |name| == 13 then (if name == "townHallLevel" then 1 else -1)
    else -1
  }

  /** `ClanWarLeagueClanMember.__init__` declares distinct parameter names, none of them reserved. */
  lemma ClanWarLeagueClanMemberNames()
    ensures OrdinaryNames(ClanWarLeagueClanMember().fields)
  {
    var fs := ClanWarLeagueClanMember().fields;
    forall i | 0 <= i < |fs| ensures ClanWarLeagueClanMemberSlot(fs[i].0) == i && Ordinary(fs[i].0) {
      if i == 0 {}
      else if i == 1 {}
      else if i == 2 {}
    }
    SlottedNames(fs, ClanWarLeagueClanMemberSlot);
  }

  /** The position of each name in the `ClanWarLogEntry` table, -1 for any other name; names are told apart by length first. */
  function ClanWarLogEntrySlot(name: string): int {
    if |name| == 4 then (if name == "clan" then 0 else -1)
    else if |name| == 6 then (if name == "result" then 5 else -1)
    else if |name| == 7 then (if name == "endTime" then 4 else -1)
    else if |name| == 8 then (if name == "teamSize" then 1 else if name == "opponent" then 3 else -1)
    else if |name| == 16 then (if name == "attacksPerMember" then 2 else -1)
    else -1
  }

  /** `ClanWarLogEntry.__init__` declares distinct parameter names, none of them reserved. */
  lemma ClanWarLogEntryNames()
    ensures OrdinaryNames(ClanWarLogEntry().fields)
  {
    var fs := ClanWarLogEntry().fields;
    forall i | 0 <= i < |fs| ensures ClanWarLogEntrySlot(fs[i].0) == i && Ordinary(fs[i].0) {
      if i == 0 {}
      else if i == 1 {}
      else if i == 2 {}
      else if i == 3 {}
      else if i == 4 {}
      else if i == 5 {}
    }
    SlottedNames(fs, ClanWarLogEntrySlot);
  }

  /** The position of each name in the `WarClan` table, -1 for any other name; names are told apart by length first. */
  function WarClanSlot(name: string): int {
    if |name| == 3 then (if name == "tag" then 1 else -1)
    else if |name| == 4 then (if name == "name" then 2 else -1)
    else if |name| == 5 then (if name == "stars" then 6 else -1)
    else if |name| == 7 then (if name == "attacks" then 5 else if name == "members" then 8 else -1)
    else if |name| == 9 then (if name == "badgeUrls" then 3 else if name == "clanLevel" then 4 else if name == "expEarned" then 7 else -1)
    else if |name| == 21 then (if name == "destructionPercentage" then 0 else -1)
    else -1
  }

  lemma WarClanSlots0()
    ensures forall i :: 0 <= i < 6 ==> WarClanSlot(WarClan().fields[i].0) == i && Ordinary(WarClan().fields[i].0)
  {
    var fs := WarClan().fields;
    forall i | 0 <= i < 6 ensures WarClanSlot(fs[i].0) == i && Ordinary(fs[i].0) {
      if i == 0 {}
      else if i == 1 {}
      else if i == 2 {}
      else if i == 3 {}
      else if i == 4 {}
      else if i == 5 {}
    }
  }

  lemma WarClanSlots6()
    ensures forall i :: 6 <= i < 9 ==> WarClanSlot(WarClan().fields[i].0) == i && Ordinary(WarClan().fields[i].0)
  {
    var fs := WarClan().fields;
    forall i | 6 <= i < 9 ensures WarClanSlot(fs[i].0) == i && Ordinary(fs[i].0) {
      if i == 6 {}
      else if i == 7 {}
      else if i == 8 {}
    }
  }

  /** `WarClan.__init__` declares distinct parameter names, none of them reserved. */
  lemma WarClanNames()
    ensures OrdinaryNames(WarClan().fields)
  {
    WarClanSlots0(); WarClanSlots6();
    SlottedNames(WarClan().fields, WarClanSlot);
  }

  /** The position of each name in the `ClanWarMember` table, -1 for any other name; names are told apart by length first. */
  function ClanWarMemberSlot(name: string): int {
    if |name| == 3 then (if name == "tag" then 0 else -1)
    else if |name| == 4 then (if name == "name" then 1 else -1)
    else if |name| == 7 then (if name == "attacks" then 6 else -1)
    else if |name| == 11 then (if name == "mapPosition" then 2 else -1)
    else if |name| == 13 then (if name == "townhallLevel" then 3 else -1)
    else if |name| == 15 then (if name == "opponentAttacks" then 4 else -1)
    else if |name| == 18 then (if name == "bestOpponentAttack" then 5 else -1)
    else -1
  }

  lemma ClanWarMemberSlots0()
    ensures forall i :: 0 <= i < 6 ==> ClanWarMemberSlot(ClanWarMember().fields[i].0) == i && Ordinary(ClanWarMember().fields[i].0)
  {
    var fs := ClanWarMember().fields;
    forall i | 0 <= i < 6 ensures ClanWarMemberSlot(fs[i].0) == i && Ordinary(fs[i].0) {
      if i == 0 {}
      else if i == 1 {}
      else if i == 2 {}
      else if i == 3 {}
      else if i == 4 {}
      else if i == 5 {}
    }
  }

  lemma ClanWarMemberSlots6()
    ensures forall i :: 6 <= i < 7 ==> ClanWarMemberSlot(ClanWarMember().fields[i].0) == i && Ordinary(ClanWarMember().fields[i].0)
  {
    var fs := ClanWarMember().fields;
    forall i | 6 <= i < 7 ensures ClanWarMemberSlot(fs[i].0) == i && Ordinary(fs[i].0) {
      if i == 6 {}
    }
  }

  /** `ClanWarMember.__init__` declares distinct parameter names, none of them reserved. */
  lemma ClanWarMemberNames()
    ensures OrdinaryNames(ClanWarMember().fields)
  {
    ClanWarMemberSlots0(); ClanWarMemberSlots6();
    SlottedNames(ClanWarMember().fields, ClanWarMemberSlot);
  }

  /** The position of each name in the `ClanWarAttack` table, -1 for any other name; names are told apart by length first. */
  function ClanWarAttackSlot(name: string): int {
    if |name| == 5 then (if name == "order" then 0 else if name == "stars" then 3 else -1)
    else if |name| == 8 then (if name == "duration" then 5 else -1)
    else if |name| == 11 then (if name == "attackerTag" then 1 else if name == "defenderTag" then 2 else -1)
    else if |name| == 21 then (if name == "destructionPercentage" then 4 else -1)
    else -1
  }

  /** `ClanWarAttack.__init__` declares distinct parameter names, none of them reserved. */
  lemma ClanWarAttackNames()
    ensures OrdinaryNames(ClanWarAttack().fields)
  {
    var fs := ClanWarAttack().fields;
    forall i | 0 <= i < |fs| ensures ClanWarAttackSlot(fs[i].0) == i && Ordinary(fs[i].0) {
      if i == 0 {}
      else if i == 1 {}
      else if i == 2 {}
      else if i == 3 {}
      else if i == 4 {}
      else if i == 5 {}
    }
    SlottedNames(fs, ClanWarAttackSlot);
  }

  /** The position of each name in the `Clan` table, -1 for any other name; names are told apart by length first. */
  function ClanSlot(name: string): int {
    if |name| == 3 then (if name == "tag" then 2 else -1)
    else if |name| == 4 then (if name == "name" then 17 else if name == "type" then 19 else -1)
    else if |name| == 6 then (if name == "labels" then 16 else -1)
    else if |name| == 7 then (if name == "warTies" then 10 else if name == "warWins" then 11 else if name == "members" then 20 else -1)
    else if |name| == 8 then (if name == "location" then 18 else -1)
    else if |name| == 9 then (if name == "warLeague" then 0 else if name == "warLosses" then 5 else if name == "clanLevel" then 9 else if name == "badgeUrls" then 22 else -1)
    else if |name| == 10 then (if name == "memberList" then 1 else if name == "clanPoints" then 6 else -1)
    else if |name| == 11 then (if name == "description" then 21 else -1)
    else if |name| == 12 then (if name == "warFrequency" then 7 else if name == "warWinStreak" then 8 else if name == "chatLanguage" then 13 else -1)
    else if |name| == 14 then (if name == "isWarLogPublic" then 14 else -1)
    else if |name| == 16 then (if name == "clanVersusPoints" then 12 else if name == "requiredTrophies" then 15 else -1)
    else if |name| == 21 then (if name == "requiredTownhallLevel" then 4 else -1)
    else if |name| == 22 then (if name == "requiredVersusTrophies" then 3 else -1)
    else -1
  }

  lemma ClanSlots0()
    ensures forall i :: 0 <= i < 6 ==> ClanSlot(Clan().fields[i].0) == i && Ordinary(Clan().fields[i].0)
  {
    var fs := Clan().fields;
    forall i | 0 <= i < 6 ensures ClanSlot(fs[i].0) == i && Ordinary(fs[i].0) {
      if i == 0 {}
      else if i == 1 {}
      else if i == 2 {}
      else if i == 3 {}
      else if i == 4 {}
      else if i == 5 {}
    }
  }

  lemma ClanSlots6()
    ensures forall i :: 6 <= i < 12 ==> ClanSlot(Clan().fields[i].0) == i && Ordinary(Clan().fields[i].0)
  {
    var fs := Clan().fields;
    forall i | 6 <= i < 12 ensures ClanSlot(fs[i].0) == i && Ordinary(fs[i].0) {
      if i == 6 {}
      else if i == 7 {}
      else if i == 8 {}
      else if i == 9 {}
      else if i == 10 {}
      else if i == 11 {}
    }
  }

  lemma ClanSlots12()
    ensures forall i :: 12 <= i < 18 ==> ClanSlot(Clan().fields[i].0) == i && Ordinary(Clan().fields[i].0)
  {
    var fs := Clan().fields;
    forall i | 12 <= i < 18 ensures ClanSlot(fs[i].0) == i && Ordinary(fs[i].0) {
      if i == 12 {}
      else if i == 13 {}
      else if i == 14 {}
      else if i == 15 {}
      else if i == 16 {}
      else if i == 17 {}
    }
  }

  lemma ClanSlots18()
    ensures forall i :: 18 <= i < 23 ==> ClanSlot(Clan().fields[i].0) == i && Ordinary(Clan().fields[i].0)
  {
    var fs := Clan().fields;
    forall i | 18 <= i < 23 ensures ClanSlot(fs[i].0) == i && Ordinary(fs[i].0) {
      if i == 18 {}
      else if i == 19 {}
      else if i == 20 {}
      else if i == 21 {}
      else if i == 22 {}
    }
  }

  /** `Clan.__init__` declares distinct parameter names, none of them reserved. */
  lemma ClanNames()
    ensures OrdinaryNames(Clan().fields)
  {
    ClanSlots0(); ClanSlots6(); ClanSlots12(); ClanSlots18();
    SlottedNames(Clan().fields, ClanSlot);
  }

  /** The position of each name in the `ClanWar` table, -1 for any other name; names are told apart by length first. */
  function ClanWarSlot(name: string): int {
    if |name| == 4 then (if name == "clan" then 0 else -1)
    else if |name| == 5 then (if name == "state" then 5 else -1)
    else if |name| == 7 then (if name == "endTime" then 6 else -1)
    else if |name| == 8 then (if name == "teamSize" then 1 else if name == "opponent" then 3 else -1)
    else if |name| == 9 then (if name == "startTime" then 4 else -1)
    else if |name| == 16 then (if name == "attacksPerMember" then 2 else -1)
    else if |name| == 20 then (if name == "preparationStartTime" then 7 else -1)
    else -1
  }

  lemma ClanWarSlots0()
    ensures forall i :: 0 <= i < 6 ==> ClanWarSlot(ClanWar().fields[i].0) == i && Ordinary(ClanWar().fields[i].0)
  {
    var fs := ClanWar().fields;
    forall i | 0 <= i < 6 ensures ClanWarSlot(fs[i].0) == i && Ordinary(fs[i].0) {
      if i == 0 {}
      else if i == 1 {}
      else if i == 2 {}
      else if i == 3 {}
      else if i == 4 {}
      else if i == 5 {}
    }
  }

  lemma ClanWarSlots6()
    ensures forall i :: 6 <= i < 8 ==> ClanWarSlot(ClanWar().fields[i].0) == i && Ordinary(ClanWar().fields[i].0)
  {
    var fs := ClanWar().fields;
    forall i | 6 <= i < 8 ensures ClanWarSlot(fs[i].0) == i && Ordinary(fs[i].0) {
      if i == 6 {}
      else if i == 7 {}
    }
  }

  /** `ClanWar.__init__` declares distinct parameter names, none of them reserved. */
  lemma ClanWarNames()
    ensures OrdinaryNames(ClanWar().fields)
  {
    ClanWarSlots0(); ClanWarSlots6();
    SlottedNames(ClanWar().fields, ClanWarSlot);
  }

  /** The position of each name in the `Language` table, -1 for any other name; names are told apart by length first. */
  function LanguageSlot(name: string): int {
    if |name| == 2 then (if name == "id" then 1 else -1)
    else if |name| == 4 then (if name == "name" then 0 else -1)
    else if |name| == 12 then (if name == "languageCode" then 2 else -1)
    else -1
  }

  /** `Language.__init__` declares distinct parameter names, none of them reserved. */
  lemma LanguageNames()
    ensures OrdinaryNames(Language().fields)
  {
    var fs := Language().fields;
    forall i | 0 <= i < |fs| ensures LanguageSlot(fs[i].0) == i && Ordinary(fs[i].0) {
      if i == 0 {}
      else if i == 1 {}
      else if i == 2 {}
    }
    SlottedNames(fs, LanguageSlot);
  }

  /** The position of each name in the `ClanMember` table, -1 for any other name; names are told apart by length first. */
  function ClanMemberSlot(name: string): int {
    if |name| == 3 then (if name == "tag" then 1 else -1)
    else if |name| == 4 then (if name == "name" then 2 else if name == "role" then 3 else -1)
    else if |name| == 6 then (if name == "league" then 0 else -1)
    else if |name| == 8 then (if name == "expLevel" then 4 else if name == "clanRank" then 5 else if name == "trophies" then 9 else -1)
    else if |name| == 9 then (if name == "donations" then 7 else -1)
    else if |name| == 14 then (if name == "versusTrophies" then 10 else -1)
    else if |name| == 16 then (if name == "previousClanRank" then 6 else -1)
    else if |name| == 17 then (if name == "donationsReceived" then 8 else -1)
    else -1
  }

  lemma ClanMemberSlots0()
    ensures forall i :: 0 <= i < 6 ==> ClanMemberSlot(ClanMember().fields[i].0) == i && Ordinary(ClanMember().fields[i].0)
  {
    var fs := ClanMember().fields;
    forall i | 0 <= i < 6 ensures ClanMemberSlot(fs[i].0) == i && Ordinary(fs[i].0) {
      if i == 0 {}
      else if i == 1 {}
      else if i == 2 {}
      else if i == 3 {}
      else if i == 4 {}
      else if i == 5 {}
    }
  }

  lemma ClanMemberSlots6()
    ensures forall i :: 6 <= i < 11 ==> ClanMemberSlot(ClanMember().fields[i].0) == i && Ordinary(ClanMember().fields[i].0)
  {
    var fs := ClanMember().fields;
    forall i | 6 <= i < 11 ensures ClanMemberSlot(fs[i].0) == i && Ordinary(fs[i].0) {
      if i == 6 {}
      else if i == 7 {}
      else if i == 8 {}
      else if i == 9 {}
      else if i == 10 {}
    }
  }

  /** `ClanMember.__init__` declares distinct parameter names, none of them reserved. */
  lemma ClanMemberNames()
    ensures OrdinaryNames(ClanMember().fields)
  {
    ClanMemberSlots0(); ClanMemberSlots6();
    SlottedNames(ClanMember().fields, ClanMemberSlot);
  }

}

/**
 * What decoding a payload as each shape of async_supercell_api/clash_of_clans/types/clans.py yields:
 * every declared field is present, holds its value as the field's kind
 * prescribes (absent or null gives None), and every undeclared key other
 * than `success` is kept with its value.
 */
module ClashClansRules {
  import opened JsonData
  import opened Wrappers
  import opened Shapes
  import opened Responses
  import opened Decoder
  import opened DecoderLaws
  import ClashClans
  import ClashLabels
  import ClashLeagues
  import ClashLocations

  /** `ClanWarLeagueGroup(**body)`: each declared field as its kind prescribes, and the extra keywords kept. */
  lemma ClanWarLeagueGroup(body: seq<(string, Json)>, generic: Option<Value>, r: Response)
    requires Instantiate(ClashClans.ClanWarLeagueGroup(), body, generic) == Success(r)
    ensures FieldHolds(r, body, "tag", Scalar)
    ensures FieldHolds(r, body, "state", Scalar)
    ensures FieldHolds(r, body, "season", Scalar)
    ensures FieldHolds(r, body, "clans", ListOf(ClashClans.ClanWarLeagueClan()))
    ensures FieldHolds(r, body, "rounds", ListOf(ClashClans.ClanWarLeagueRound()))
    ensures KeepsExtras(r, body, generic, ClashClans.ClanWarLeagueGroup())
  {
    ClashClans.ClanWarLeagueGroupNames();
    FieldAt(ClashClans.ClanWarLeagueGroup(), body, generic, r, 0);
    FieldAt(ClashClans.ClanWarLeagueGroup(), body, generic, r, 1);
    FieldAt(ClashClans.ClanWarLeagueGroup(), body, generic, r, 2);
    FieldAt(ClashClans.ClanWarLeagueGroup(), body, generic, r, 3);
    FieldAt(ClashClans.ClanWarLeagueGroup(), body, generic, r, 4);
    ExtrasPreserved(ClashClans.ClanWarLeagueGroup(), body, generic, r);
  }

  /** `ClanWarLeagueClan(**body)`: each declared field as its kind prescribes, and the extra keywords kept. */
  lemma ClanWarLeagueClan(body: seq<(string, Json)>, generic: Option<Value>, r: Response)
    requires Instantiate(ClashClans.ClanWarLeagueClan(), body, generic) == Success(r)
    ensures FieldHolds(r, body, "tag", Scalar)
    ensures FieldHolds(r, body, "clanLevel", Scalar)
    ensures FieldHolds(r, body, "name", Scalar)
    ensures FieldHolds(r, body, "members", ListOf(ClashClans.ClanWarLeagueClanMember()))
    ensures FieldHolds(r, body, "badgeUrls", Scalar)
    ensures KeepsExtras(r, body, generic, ClashClans.ClanWarLeagueClan())
  {
    ClashClans.ClanWarLeagueClanNames();
    FieldAt(ClashClans.ClanWarLeagueClan(), body, generic, r, 0);
    FieldAt(ClashClans.ClanWarLeagueClan(), body, generic, r, 1);
    FieldAt(ClashClans.ClanWarLeagueClan(), body, generic, r, 2);
    FieldAt(ClashClans.ClanWarLeagueClan(), body, generic, r, 3);
    FieldAt(ClashClans.ClanWarLeagueClan(), body, generic, r, 4);
    ExtrasPreserved(ClashClans.ClanWarLeagueClan(), body, generic, r);
  }

  /** `ClanWarLeagueRound(**body)`: each declared field as its kind prescribes, and the extra keywords kept. */
  lemma ClanWarLeagueRound(body: seq<(string, Json)>, generic: Option<Value>, r: Response)
    requires Instantiate(ClashClans.ClanWarLeagueRound(), body, generic) == Success(r)
    ensures FieldHolds(r, body, "warTags", Scalar)
    ensures KeepsExtras(r, body, generic, ClashClans.ClanWarLeagueRound())
  {
    ClashClans.ClanWarLeagueRoundNames();
    FieldAt(ClashClans.ClanWarLeagueRound(), body, generic, r, 0);
    ExtrasPreserved(ClashClans.ClanWarLeagueRound(), body, generic, r);
  }

  /** `ClanWarLeagueClanMember(**body)`: each declared field as its kind prescribes, and the extra keywords kept. */
  lemma ClanWarLeagueClanMember(body: seq<(string, Json)>, generic: Option<Value>, r: Response)
    requires Instantiate(ClashClans.ClanWarLeagueClanMember(), body, generic) == Success(r)
    ensures FieldHolds(r, body, "tag", Scalar)
    ensures FieldHolds(r, body, "townHallLevel", Scalar)
    ensures FieldHolds(r, body, "name", Scalar)
    ensures KeepsExtras(r, body, generic, ClashClans.ClanWarLeagueClanMember())
  {
    ClashClans.ClanWarLeagueClanMemberNames();
    FieldAt(ClashClans.ClanWarLeagueClanMember(), body, generic, r, 0);
    FieldAt(ClashClans.ClanWarLeagueClanMember(), body, generic, r, 1);
    FieldAt(ClashClans.ClanWarLeagueClanMember(), body, generic, r, 2);
    ExtrasPreserved(ClashClans.ClanWarLeagueClanMember(), body, generic, r);
  }

  /** `ClanWarLogEntry(**body)`: each declared field as its kind prescribes, and the extra keywords kept. */
  lemma ClanWarLogEntry(body: seq<(string, Json)>, generic: Option<Value>, r: Response)
    requires Instantiate(ClashClans.ClanWarLogEntry(), body, generic) == Success(r)
    ensures FieldHolds(r, body, "clan", Nested(ClashClans.WarClan()))
    ensures FieldHolds(r, body, "teamSize", Scalar)
    ensures FieldHolds(r, body, "attacksPerMember", Scalar)
    ensures FieldHolds(r, body, "opponent", Nested(ClashClans.WarClan()))
    ensures FieldHolds(r, body, "endTime", Scalar)
    ensures FieldHolds(r, body, "result", Scalar)
    ensures KeepsExtras(r, body, generic, ClashClans.ClanWarLogEntry())
  {
    ClashClans.ClanWarLogEntryNames();
    FieldAt(ClashClans.ClanWarLogEntry(), body, generic, r, 0);
    FieldAt(ClashClans.ClanWarLogEntry(), body, generic, r, 1);
    FieldAt(ClashClans.ClanWarLogEntry(), body, generic, r, 2);
    FieldAt(ClashClans.ClanWarLogEntry(), body, generic, r, 3);
    FieldAt(ClashClans.ClanWarLogEntry(), body, generic, r, 4);
    FieldAt(ClashClans.ClanWarLogEntry(), body, generic, r, 5);
    ExtrasPreserved(ClashClans.ClanWarLogEntry(), body, generic, r);
  }

  /** `WarClan(**body)`: each declared field as its kind prescribes, and the extra keywords kept. */
  lemma WarClan(body: seq<(string, Json)>, generic: Option<Value>, r: Response)
    requires Instantiate(ClashClans.WarClan(), body, generic) == Success(r)
    ensures FieldHolds(r, body, "destructionPercentage", Scalar)
    ensures FieldHolds(r, body, "tag", Scalar)
    ensures FieldHolds(r, body, "name", Scalar)
    ensures FieldHolds(r, body, "badgeUrls", Scalar)
    ensures FieldHolds(r, body, "clanLevel", Scalar)
    ensures FieldHolds(r, body, "attacks", Scalar)
    ensures FieldHolds(r, body, "stars", Scalar)
    ensures FieldHolds(r, body, "expEarned", Scalar)
    ensures FieldHolds(r, body, "members", ListOf(ClashClans.ClanWarMember()))
    ensures KeepsExtras(r, body, generic, ClashClans.WarClan())
  {
    ClashClans.WarClanNames();
    FieldAt(ClashClans.WarClan(), body, generic, r, 0);
    FieldAt(ClashClans.WarClan(), body, generic, r, 1);
    FieldAt(ClashClans.WarClan(), body, generic, r, 2);
    FieldAt(ClashClans.WarClan(), body, generic, r, 3);
    FieldAt(ClashClans.WarClan(), body, generic, r, 4);
    FieldAt(ClashClans.WarClan(), body, generic, r, 5);
    FieldAt(ClashClans.WarClan(), body, generic, r, 6);
    FieldAt(ClashClans.WarClan(), body, generic, r, 7);
    FieldAt(ClashClans.WarClan(), body, generic, r, 8);
    ExtrasPreserved(ClashClans.WarClan(), body, generic, r);
  }

  /** `ClanWarMember(**body)`: each declared field as its kind prescribes, and the extra keywords kept. */
  lemma ClanWarMember(body: seq<(string, Json)>, generic: Option<Value>, r: Response)
    requires Instantiate(ClashClans.ClanWarMember(), body, generic) == Success(r)
    ensures FieldHolds(r, body, "tag", Scalar)
    ensures FieldHolds(r, body, "name", Scalar)
    ensures FieldHolds(r, body, "mapPosition", Scalar)
    ensures FieldHolds(r, body, "townhallLevel", Scalar)
    ensures FieldHolds(r, body, "opponentAttacks", Scalar)
    ensures FieldHolds(r, body, "bestOpponentAttack", Nested(ClashClans.ClanWarAttack()))
    ensures FieldHolds(r, body, "attacks", ListOf(ClashClans.ClanWarAttack()))
    ensures KeepsExtras(r, body, generic, ClashClans.ClanWarMember())
  {
    ClashClans.ClanWarMemberNames();
    FieldAt(ClashClans.ClanWarMember(), body, generic, r, 0);
    FieldAt(ClashClans.ClanWarMember(), body, generic, r, 1);
    FieldAt(ClashClans.ClanWarMember(), body, generic, r, 2);
    FieldAt(ClashClans.ClanWarMember(), body, generic, r, 3);
    FieldAt(ClashClans.ClanWarMember(), body, generic, r, 4);
    FieldAt(ClashClans.ClanWarMember(), body, generic, r, 5);
    FieldAt(ClashClans.ClanWarMember(), body, generic, r, 6);
    ExtrasPreserved(ClashClans.ClanWarMember(), body, generic, r);
  }

  /** `ClanWarAttack(**body)`: each declared field as its kind prescribes, and the extra keywords kept. */
  lemma ClanWarAttack(body: seq<(string, Json)>, generic: Option<Value>, r: Response)
    requires Instantiate(ClashClans.ClanWarAttack(), body, generic) == Success(r)
    ensures FieldHolds(r, body, "order", Scalar)
    ensures FieldHolds(r, body, "attackerTag", Scalar)
    ensures FieldHolds(r, body, "defenderTag", Scalar)
    ensures FieldHolds(r, body, "stars", Scalar)
    ensures FieldHolds(r, body, "destructionPercentage", Scalar)
    ensures FieldHolds(r, body, "duration", Scalar)
    ensures KeepsExtras(r, body, generic, ClashClans.ClanWarAttack())
  {
    ClashClans.ClanWarAttackNames();
    FieldAt(ClashClans.ClanWarAttack(), body, generic, r, 0);
    FieldAt(ClashClans.ClanWarAttack(), body, generic, r, 1);
    FieldAt(ClashClans.ClanWarAttack(), body, generic, r, 2);
    FieldAt(ClashClans.ClanWarAttack(), body, generic, r, 3);
    FieldAt(ClashClans.ClanWarAttack(), body, generic, r, 4);
    FieldAt(ClashClans.ClanWarAttack(), body, generic, r, 5);
    ExtrasPreserved(ClashClans.ClanWarAttack(), body, generic, r);
  }

  /** `Clan(**body)`: each declared field as its kind prescribes, and the extra keywords kept. */
  lemma Clan(body: seq<(string, Json)>, generic: Option<Value>, r: Response)
    requires Instantiate(ClashClans.Clan(), body, generic) == Success(r)
    ensures FieldHolds(r, body, "warLeague", Nested(ClashLeagues.WarLeague()))
    ensures FieldHolds(r, body, "memberList", ListOf(ClashClans.ClanMember()))
    ensures FieldHolds(r, body, "tag", Scalar)
    ensures FieldHolds(r, body, "requiredVersusTrophies", Scalar)
    ensures FieldHolds(r, body, "requiredTownhallLevel", Scalar)
    ensures FieldHolds(r, body, "warLosses", Scalar)
    ensures FieldHolds(r, body, "clanPoints", Scalar)
    ensures FieldHolds(r, body, "warFrequency", Scalar)
    ensures FieldHolds(r, body, "warWinStreak", Scalar)
    ensures FieldHolds(r, body, "clanLevel", Scalar)
    ensures FieldHolds(r, body, "warTies", Scalar)
    ensures FieldHolds(r, body, "warWins", Scalar)
    ensures FieldHolds(r, body, "clanVersusPoints", Scalar)
    ensures FieldHolds(r, body, "chatLanguage", Nested(ClashClans.Language()))
    ensures FieldHolds(r, body, "isWarLogPublic", Scalar)
    ensures FieldHolds(r, body, "requiredTrophies", Scalar)
    ensures FieldHolds(r, body, "labels", ListOf(ClashLabels.Label()))
    ensures FieldHolds(r, body, "name", Scalar)
    ensures FieldHolds(r, body, "location", Nested(ClashLocations.Location()))
    ensures FieldHolds(r, body, "type", Scalar)
    ensures FieldHolds(r, body, "members", Scalar)
    ensures FieldHolds(r, body, "description", Scalar)
    ensures FieldHolds(r, body, "badgeUrls", Scalar)
    ensures KeepsExtras(r, body, generic, ClashClans.Clan())
  {
    ClashClans.ClanNames();
    FieldAt(ClashClans.Clan(), body, generic, r, 0);
    FieldAt(ClashClans.Clan(), body, generic, r, 1);
    FieldAt(ClashClans.Clan(), body, generic, r, 2);
    FieldAt(ClashClans.Clan(), body, generic, r, 3);
    FieldAt(ClashClans.Clan(), body, generic, r, 4);
    FieldAt(ClashClans.Clan(), body, generic, r, 5);
    FieldAt(ClashClans.Clan(), body, generic, r, 6);
    FieldAt(ClashClans.Clan(), body, generic, r, 7);
    FieldAt(ClashClans.Clan(), body, generic, r, 8);
    FieldAt(ClashClans.Clan(), body, generic, r, 9);
    FieldAt(ClashClans.Clan(), body, generic, r, 10);
    FieldAt(ClashClans.Clan(), body, generic, r, 11);
    FieldAt(ClashClans.Clan(), body, generic, r, 12);
    FieldAt(ClashClans.Clan(), body, generic, r, 13);
    FieldAt(ClashClans.Clan(), body, generic, r, 14);
    FieldAt(ClashClans.Clan(), body, generic, r, 15);
    FieldAt(ClashClans.Clan(), body, generic, r, 16);
    FieldAt(ClashClans.Clan(), body, generic, r, 17);
    FieldAt(ClashClans.Clan(), body, generic, r, 18);
    FieldAt(ClashClans.Clan(), body, generic, r, 19);
    FieldAt(ClashClans.Clan(), body, generic, r, 20);
    FieldAt(ClashClans.Clan(), body, generic, r, 21);
    FieldAt(ClashClans.Clan(), body, generic, r, 22);
    ExtrasPreserved(ClashClans.Clan(), body, generic, r);
  }

  /** `ClanWar(**body)`: each declared field as its kind prescribes, and the extra keywords kept. */
  lemma ClanWar(body: seq<(string, Json)>, generic: Option<Value>, r: Response)
    requires Instantiate(ClashClans.ClanWar(), body, generic) == Success(r)
    ensures FieldHolds(r, body, "clan", Nested(ClashClans.WarClan()))
    ensures FieldHolds(r, body, "teamSize", Scalar)
    ensures FieldHolds(r, body, "attacksPerMember", Scalar)
    ensures FieldHolds(r, body, "opponent", Nested(ClashClans.WarClan()))
    ensures FieldHolds(r, body, "startTime", Scalar)
    ensures FieldHolds(r, body, "state", Scalar)
    ensures FieldHolds(r, body, "endTime", Scalar)
    ensures FieldHolds(r, body, "preparationStartTime", Scalar)
    ensures KeepsExtras(r, body, generic, ClashClans.ClanWar())
  {
    ClashClans.ClanWarNames();
    FieldAt(ClashClans.ClanWar(), body, generic, r, 0);
    FieldAt(ClashClans.ClanWar(), body, generic, r, 1);
    FieldAt(ClashClans.ClanWar(), body, generic, r, 2);
    FieldAt(ClashClans.ClanWar(), body, generic, r, 3);
    FieldAt(ClashClans.ClanWar(), body, generic, r, 4);
    FieldAt(ClashClans.ClanWar(), body, generic, r, 5);
    FieldAt(ClashClans.ClanWar(), body, generic, r, 6);
    FieldAt(ClashClans.ClanWar(), body, generic, r, 7);
    ExtrasPreserved(ClashClans.ClanWar(), body, generic, r);
  }

  /** `Language(**body)`: each declared field as its kind prescribes, and the extra keywords kept. */
  lemma Language(body: seq<(string, Json)>, generic: Option<Value>, r: Response)
    requires Instantiate(ClashClans.Language(), body, generic) == Success(r)
    ensures FieldHolds(r, body, "name", Scalar)
    ensures FieldHolds(r, body, "id", Scalar)
    ensures FieldHolds(r, body, "languageCode", Scalar)
    ensures KeepsExtras(r, body, generic, ClashClans.Language())
  {
    ClashClans.LanguageNames();
    FieldAt(ClashClans.Language(), body, generic, r, 0);
    FieldAt(ClashClans.Language(), body, generic, r, 1);
    FieldAt(ClashClans.Language(), body, generic, r, 2);
    ExtrasPreserved(ClashClans.Language(), body, generic, r);
  }

  /** `ClanMember(**body)`: each declared field as its kind prescribes, and the extra keywords kept. */
  lemma ClanMember(body: seq<(string, Json)>, generic: Option<Value>, r: Response)
    requires Instantiate(ClashClans.ClanMember(), body, generic) == Success(r)
    ensures FieldHolds(r, body, "league", Nested(ClashLeagues.League()))
    ensures FieldHolds(r, body, "tag", Scalar)
    ensures FieldHolds(r, body, "name", Scalar)
    ensures FieldHolds(r, body, "role", Scalar)
    ensures FieldHolds(r, body, "expLevel", Scalar)
    ensures FieldHolds(r, body, "clanRank", Scalar)
    ensures FieldHolds(r, body, "previousClanRank", Scalar)
    ensures FieldHolds(r, body, "donations", Scalar)
    ensures FieldHolds(r, body, "donationsReceived", Scalar)
    ensures FieldHolds(r, body, "trophies", Scalar)
    ensures FieldHolds(r, body, "versusTrophies", Scalar)
    ensures KeepsExtras(r, body, generic, ClashClans.ClanMember())
  {
    ClashClans.ClanMemberNames();
    FieldAt(ClashClans.ClanMember(), body, generic, r, 0);
    FieldAt(ClashClans.ClanMember(), body, generic, r, 1);
    FieldAt(ClashClans.ClanMember(), body, generic, r, 2);
    FieldAt(ClashClans.ClanMember(), body, generic, r, 3);
    FieldAt(ClashClans.ClanMember(), body, generic, r, 4);
    FieldAt(ClashClans.ClanMember(), body, generic, r, 5);
    FieldAt(ClashClans.ClanMember(), body, generic, r, 6);
    FieldAt(ClashClans.ClanMember(), body, generic, r, 7);
    FieldAt(ClashClans.ClanMember(), body, generic, r, 8);
    FieldAt(ClashClans.ClanMember(), body, generic, r, 9);
    FieldAt(ClashClans.ClanMember(), body, generic, r, 10);
    ExtrasPreserved(ClashClans.ClanMember(), body, generic, r);
  }

}
