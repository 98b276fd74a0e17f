/**
 * The Clash Royale shapes of async_supercell_api/clash_royale/types/clans.py. Each table lists a
 * constructor's declared parameters in the order it assigns them after
 * `super().__init__(**kwargs)`, which is the order they take in `vars(self)`.
 */
module RoyaleClans {
  import opened Keywords
  import opened Shapes

  /** `ClanWarLogEntry.__init__` */
  function ClanWarLogEntry(): Shape {
    Shape("ClanWarLogEntry", [
      ("standings", ListOf(ClanWarStanding())),
      ("seasonId", Scalar),
      ("participants", ListOf(ClanWarParticipant())),
      ("createdDate", Scalar)
    ])
  }

  /** `ClanWarStanding.__init__` */
  function ClanWarStanding(): Shape {
    Shape("ClanWarStanding", [
      ("trophyChange", Scalar),
      ("clan", Nested(ClanWarClan()))
    ])
  }

  /** `ClanWarParticipant.__init__` */
  function ClanWarParticipant(): Shape {
    Shape("ClanWarParticipant", [
      ("tag", Scalar),
      ("name", Scalar),
      ("cardsEarned", Scalar),
      ("battlesPlayed", Scalar),
      ("wins", Scalar),
      ("collectionDayBattlesPlayed", Scalar),
      ("numberOfBattles", Scalar)
    ])
  }

  /** `ClanWarClan.__init__` */
  function ClanWarClan(): Shape {
    Shape("ClanWarClan", [
      ("crowns", Scalar),
      ("tag", Scalar),
      ("clanScore", Scalar),
      ("badgeId", Scalar),
      ("name", Scalar),
      ("participants", Scalar),
      ("battlesPlayed", Scalar),
      ("wins", Scalar)
    ])
  }

  /** `Clan.__init__` */
  function Clan(): Shape {
    Shape("Clan", [
      ("memberList", ListOf(ClanMember())),
      ("tag", Scalar),
      ("clanWarTrophies", Scalar),
      ("requiredTrophies", Scalar),
      ("donationsPerWeek", Scalar),
      ("clanScore", Scalar),
      ("badgeId", Scalar),
      ("clanChestMaxLevel", Scalar),
      ("clanChestStatus", Scalar),
      ("clanChestLevel", Scalar),
      ("name", Scalar),
      ("location", Nested(Location())),
      ("type", Scalar),
      ("members", Scalar),
      ("description", Scalar),
      ("clanChestPoints", Scalar),
      ("badgeUrls", Scalar)
    ])
  }

  /** `Location.__init__` */
  function Location(): Shape {
    Shape("Location", [
      ("localizedName", Scalar),
      ("id", Scalar),
      ("name", Scalar),
      ("isCountry", Scalar),
      ("countryCode", Scalar)
    ])
  }

  /** `ClanMember.__init__` */
  function ClanMember(): Shape {
    Shape("ClanMember", [
      ("clanChestPoints", Scalar),
      ("arena", Nested(Arena())),
      ("lastSeen", Scalar),
      ("tag", Scalar),
      ("name", Scalar),
      ("role", Scalar),
      ("expLevel", Scalar),
      ("trophies", Scalar),
      ("clanRank", Scalar),
      ("previousClanRank", Scalar),
      ("donations", Scalar),
      ("donationsReceived", Scalar)
    ])
  }

  /** `Arena.__init__` */
  function Arena(): Shape {
    Shape("Arena", [
      ("name", Scalar),
      ("id", Scalar),
      ("iconUrls", Scalar)
    ])
  }

  /** `RiverRaceLogEntry.__init__` */
  function RiverRaceLogEntry(): Shape {
    Shape("RiverRaceLogEntry", [
      ("standings", ListOf(RiverRaceStanding())),
      ("seasonId", Scalar),
      ("createdDate", Scalar),
      ("sectionIndex", Scalar)
    ])
  }

  /** `RiverRaceStanding.__init__` */
  function RiverRaceStanding(): Shape {
    Shape("RiverRaceStanding", [
      ("rank", Scalar),
      ("trophyChange", Scalar),
      ("clan", Nested(RiverRaceClan()))
    ])
  }

  /** `RiverRaceClan.__init__` */
  function RiverRaceClan(): Shape {
    Shape("RiverRaceClan", [
      ("tag", Scalar),
      ("clanScore", Scalar),
      ("badgeId", Scalar),
      ("name", Scalar),
      ("fame", Scalar),
      ("repairPoints", Scalar),
      ("finishTime", Scalar),
      ("participants", ListOf(RiverRaceParticipant())),
      ("periodPoints", Scalar)
    ])
  }

  /** `RiverRaceParticipant.__init__` */
  function RiverRaceParticipant(): Shape {
    Shape("RiverRaceParticipant", [
      ("tag", Scalar),
      ("name", Scalar),
      ("fame", Scalar),
      ("repairPoints", Scalar),
      ("boatAttacks", Scalar),
      ("decksUsed", Scalar),
      ("decksUsedToday", Scalar)
    ])
  }

  /** `CurrentClanWar.__init__` */
  function CurrentClanWar(): Shape {
    Shape("CurrentClanWar", [
      ("state", Scalar),
      ("clan", Nested(ClanWarClan())),
      ("participants", ListOf(ClanWarParticipant())),
      ("clans", ListOf(ClanWarClan())),
      ("collectionEndTime", Scalar),
      ("warEndTime", Scalar)
    ])
  }

  /** `CurrentRiverRace.__init__` */
  function CurrentRiverRace(): Shape {
    Shape("CurrentRiverRace", [
      ("state", Scalar),
      ("clan", Nested(RiverRaceClan())),
      ("clans", ListOf(RiverRaceClan())),
      ("collectionEndTime", Scalar),
      ("warEndTime", Scalar),
      ("sectionIndex", Scalar),
      ("periodIndex", Scalar),
      ("periodType", Scalar),
      ("periodLogs", ListOf(PeriodLog()))
    ])
  }

  /** `PeriodLog.__init__` */
  function PeriodLog(): Shape {
    Shape("PeriodLog", [
      ("items", ListOf(PeriodLogEntry())),
      ("periodIndex", Scalar)
    ])
  }

  /** `PeriodLogEntry.__init__` */
  function PeriodLogEntry(): Shape {
    Shape("PeriodLogEntry", [
      ("clan", Nested(PeriodLogEntryClan())),
      ("pointsEarned", Scalar),
      ("progressStartOfDay", Scalar),
      ("progressEndOfDay", Scalar),
      ("endOfDayRank", Scalar),
      ("progressEarned", Scalar),
      ("numOfDefensesRemaining", Scalar),
      ("progressEarnedFromDefenses", Scalar)
    ])
  }

  /** `PeriodLogEntryClan.__init__` */
  function PeriodLogEntryClan(): Shape {
    Shape("PeriodLogEntryClan", [
      ("tag", Scalar)
    ])
  }

  /** The position of each name in the `ClanWarLogEntry` table, -1 for any other name; names are told apart by length first. */
  function ClanWarLogEntrySlot(name: string): int {
    if |name| == 8 then (if name == "seasonId" then 1 else -1)
    else if |name| == 9 then (if name == "standings" then 0 else -1)
    else if |name| == 11 then (if name == "createdDate" then 3 else -1)
    else if |name| == 12 then (if name == "participants" then 2 else -1)
    else -1
  }

  /** `ClanWarLogEntry.__init__` declares distinct parameter names, none of them reserved. */
  lemma ClanWarLogEntryNames()
    ensures OrdinaryNames(ClanWarLogEntry().fields)
  {
    var fs := ClanWarLogEntry().fields;
    forall i | 0 <= i < |fs| ensures ClanWarLogEntrySlot(fs[i].0) == i && Ordinary(fs[i].0) {
      if i == 0 {}
      else if i == 1 {}
      else if i == 2 {}
      else if i == 3 {}
    }
    SlottedNames(fs, ClanWarLogEntrySlot);
  }

  /** The position of each name in the `ClanWarStanding` table, -1 for any other name; names are told apart by length first. */
  function ClanWarStandingSlot(name: string): int {
    if |name| == 4 then (if name == "clan" then 1 else -1)
    else if |name| == 12 then (if name == "trophyChange" then 0 else -1)
    else -1
  }

  /** `ClanWarStanding.__init__` declares distinct parameter names, none of them reserved. */
  lemma ClanWarStandingNames()
    ensures OrdinaryNames(ClanWarStanding().fields)
  {
    var fs := ClanWarStanding().fields;
    forall i | 0 <= i < |fs| ensures ClanWarStandingSlot(fs[i].0) == i && Ordinary(fs[i].0) {
      if i == 0 {}
      else if i == 1 {}
    }
    SlottedNames(fs, ClanWarStandingSlot);
  }

  /** The position of each name in the `ClanWarParticipant` table, -1 for any other name; names are told apart by length first. */
  function ClanWarParticipantSlot(name: string): int {
    if |name| == 3 then (if name == "tag" then 0 else -1)
    else if |name| == 4 then (if name == "name" then 1 else if name == "wins" then 4 else -1)
    else if |name| == 11 then (if name == "cardsEarned" then 2 else -1)
    else if |name| == 13 then (if name == "battlesPlayed" then 3 else -1)
    else if |name| == 15 then (if name == "numberOfBattles" then 6 else -1)
    else if |name| == 26 then (if name == "collectionDayBattlesPlayed" then 5 else -1)
    else -1
  }

  lemma ClanWarParticipantSlots0()
    ensures forall i :: 0 <= i < 6 ==> ClanWarParticipantSlot(ClanWarParticipant().fields[i].0) == i && Ordinary(ClanWarParticipant().fields[i].0)
  {
    var fs := ClanWarParticipant().fields;
    forall i | 0 <= i < 6 ensures ClanWarParticipantSlot(fs[i].0) == i && Ordinary(fs[i].0) {
      if i == 0 {}
      else if i == 1 {}
      else if i == 2 {}
      else if i == 3 {}
      else if i == 4 {}
      else if i == 5 {}
    }
  }

  lemma ClanWarParticipantSlots6()
    ensures forall i :: 6 <= i < 7 ==> ClanWarParticipantSlot(ClanWarParticipant().fields[i].0) == i && Ordinary(ClanWarParticipant().fields[i].0)
  {
    var fs := ClanWarParticipant().fields;
    forall i | 6 <= i < 7 ensures ClanWarParticipantSlot(fs[i].0) == i && Ordinary(fs[i].0) {
      if i == 6 {}
    }
  }

  /** `ClanWarParticipant.__init__` declares distinct parameter names, none of them reserved. */
  lemma ClanWarParticipantNames()
    ensures OrdinaryNames(ClanWarParticipant().fields)
  {
    ClanWarParticipantSlots0(); ClanWarParticipantSlots6();
    SlottedNames(ClanWarParticipant().fields, ClanWarParticipantSlot);
  }

  /** The position of each name in the `ClanWarClan` table, -1 for any other name; names are told apart by length first. */
  function ClanWarClanSlot(name: string): int {
    if |name| == 3 then (if name == "tag" then 1 else -1)
    else if |name| == 4 then (if name == "name" then 4 else if name == "wins" then 7 else -1)
    else if |name| == 6 then (if name == "crowns" then 0 else -1)
    else if |name| == 7 then (if name == "badgeId" then 3 else -1)
    else if |name| == 9 then (if name == "clanScore" then 2 else -1)
    else if |name| == 12 then (if name == "participants" then 5 else -1)
    else if |name| == 13 then (if name == "battlesPlayed" then 6 else -1)
    else -1
  }

  lemma ClanWarClanSlots0()
    ensures forall i :: 0 <= i < 6 ==> ClanWarClanSlot(ClanWarClan().fields[i].0) == i && Ordinary(ClanWarClan().fields[i].0)
  {
    var fs := ClanWarClan().fields;
    forall i | 0 <= i < 6 ensures ClanWarClanSlot(fs[i].0) == i && Ordinary(fs[i].0) {
      if i == 0 {}
      else if i == 1 {}
      else if i == 2 {}
      else if i == 3 {}
      else if i == 4 {}
      else if i == 5 {}
    }
  }

  lemma ClanWarClanSlots6()
    ensures forall i :: 6 <= i < 8 ==> ClanWarClanSlot(ClanWarClan().fields[i].0) == i && Ordinary(ClanWarClan().fields[i].0)
  {
    var fs := ClanWarClan().fields;
    forall i | 6 <= i < 8 ensures ClanWarClanSlot(fs[i].0) == i && Ordinary(fs[i].0) {
      if i == 6 {}
      else if i == 7 {}
    }
  }

  /** `ClanWarClan.__init__` declares distinct parameter names, none of them reserved. */
  lemma ClanWarClanNames()
    ensures OrdinaryNames(ClanWarClan().fields)
  {
    ClanWarClanSlots0(); ClanWarClanSlots6();
    SlottedNames(ClanWarClan().fields, ClanWarClanSlot);
  }

  /** The position of each name in the `Clan` table, -1 for any other name; names are told apart by length first. */
  function ClanSlot(name: string): int {
    if |name| == 3 then (if name == "tag" then 1 else -1)
    else if |name| == 4 then (if name == "name" then 10 else if name == "type" then 12 else -1)
    else if |name| == 7 then (if name == "badgeId" then 6 else if name == "members" then 13 else -1)
    else if |name| == 8 then (if name == "location" then 11 else -1)
    else if |name| == 9 then (if name == "clanScore" then 5 else if name == "badgeUrls" then 16 else -1)
    else if |name| == 10 then (if name == "memberList" then 0 else -1)
    else if |name| == 11 then (if name == "description" then 14 else -1)
    else if |name| == 14 then (if name == "clanChestLevel" then 9 else -1)
    else if |name| == 15 then (if name == "clanWarTrophies" then 2 else if name == "clanChestStatus" then 8 else if name == "clanChestPoints" then 15 else -1)
    else if |name| == 16 then (if name == "requiredTrophies" then 3 else if name == "donationsPerWeek" then 4 else -1)
    else if |name| == 17 then (if name == "clanChestMaxLevel" then 7 else -1)
    else -1
  }

  lemma ClanSlots0()
    ensures forall i :: 0 <= i < 6 ==> ClanSlot(Clan().fields[i].0) == i && Ordinary(Clan().fields[i].0)
  {
    var fs := Clan().fields;
    forall i | 0 <= i < 6 ensures ClanSlot(fs[i].0) == i && Ordinary(fs[i].0) {
      if i == 0 {}
      else if i == 1 {}
      else if i == 2 {}
      else if i == 3 {}
      else if i == 4 {}
      else if i == 5 {}
    }
  }

  lemma ClanSlots6()
    ensures forall i :: 6 <= i < 12 ==> ClanSlot(Clan().fields[i].0) == i && Ordinary(Clan().fields[i].0)
  {
    var fs := Clan().fields;
    forall i | 6 <= i < 12 ensures ClanSlot(fs[i].0) == i && Ordinary(fs[i].0) {
      if i == 6 {}
      else if i == 7 {}
      else if i == 8 {}
      else if i == 9 {}
      else if i == 10 {}
      else if i == 11 {}
    }
  }

  lemma ClanSlots12()
    ensures forall i :: 12 <= i < 17 ==> ClanSlot(Clan().fields[i].0) == i && Ordinary(Clan().fields[i].0)
  {
    var fs := Clan().fields;
    forall i | 12 <= i < 17 ensures ClanSlot(fs[i].0) == i && Ordinary(fs[i].0) {
      if i == 12 {}
      else if i == 13 {}
      else if i == 14 {}
      else if i == 15 {}
      else if i == 16 {}
    }
  }

  /** `Clan.__init__` declares distinct parameter names, none of them reserved. */
  lemma ClanNames()
    ensures OrdinaryNames(Clan().fields)
  {
    ClanSlots0(); ClanSlots6(); ClanSlots12();
    SlottedNames(Clan().fields, ClanSlot);
  }

  /** The position of each name in the `Location` table, -1 for any other name; names are told apart by length first. */
  function LocationSlot(name: string): int {
    if |name| == 2 then (if name == "id" then 1 else -1)
    else if |name| == 4 then (if name == "name" then 2 else -1)
    else if |name| == 9 then (if name == "isCountry" then 3 else -1)
    else if |name| == 11 then (if name == "countryCode" then 4 else -1)
    else if |name| == 13 then (if name == "localizedName" then 0 else -1)
    else -1
  }

  /** `Location.__init__` declares distinct parameter names, none of them reserved. */
  lemma LocationNames()
    ensures OrdinaryNames(Location().fields)
  {
    var fs := Location().fields;
    forall i | 0 <= i < |fs| ensures LocationSlot(fs[i].0) == i && Ordinary(fs[i].0) {
      if i == 0 {}
      else if i == 1 {}
      else if i == 2 {}
      else if i == 3 {}
      else if i == 4 {}
    }
    SlottedNames(fs, LocationSlot);
  }

  /** The position of each name in the `ClanMember` table, -1 for any other name; names are told apart by length first. */
  function ClanMemberSlot(name: string): int {
    if |name| == 3 then (if name == "tag" then 3 else -1)
    else if |name| == 4 then (if name == "name" then 4 else if name == "role" then 5 else -1)
    else if |name| == 5 then (if name == "arena" then 1 else -1)
    else if |name| == 8 then (if name == "lastSeen" then 2 else if name == "expLevel" then 6 else if name == "trophies" then 7 else if name == "clanRank" then 8 else -1)
    else if |name| == 9 then (if name == "donations" then 10 else -1)
    else if |name| == 15 then (if name == "clanChestPoints" then 0 else -1)
    else if |name| == 16 then (if name == "previousClanRank" then 9 else -1)
    else if |name| == 17 then (if name == "donationsReceived" then 11 else -1)
    else -1
  }

  lemma ClanMemberSlots0()
    ensures forall i :: 0 <= i < 6 ==> ClanMemberSlot(ClanMember().fields[i].0) == i && Ordinary(ClanMember().fields[i].0)
  {
    var fs := ClanMember().fields;
    forall i | 0 <= i < 6 ensures ClanMemberSlot(fs[i].0) == i && Ordinary(fs[i].0) {
      if i == 0 {}
      else if i == 1 {}
      else if i == 2 {}
      else if i == 3 {}
      else if i == 4 {}
      else if i == 5 {}
    }
  }

  lemma ClanMemberSlots6()
    ensures forall i :: 6 <= i < 12 ==> ClanMemberSlot(ClanMember().fields[i].0) == i && Ordinary(ClanMember().fields[i].0)
  {
    var fs := ClanMember().fields;
    forall i | 6 <= i < 12 ensures ClanMemberSlot(fs[i].0) == i && Ordinary(fs[i].0) {
      if i == 6 {}
      else if i == 7 {}
      else if i == 8 {}
      else if i == 9 {}
      else if i == 10 {}
      else if i == 11 {}
    }
  }

  /** `ClanMember.__init__` declares distinct parameter names, none of them reserved. */
  lemma ClanMemberNames()
    ensures OrdinaryNames(ClanMember().fields)
  {
    ClanMemberSlots0(); ClanMemberSlots6();
    SlottedNames(ClanMember().fields, ClanMemberSlot);
  }

  /** The position of each name in the `Arena` table, -1 for any other name; names are told apart by length first. */
  function ArenaSlot(name: string): int {
    if |name| == 2 then (if name == "id" then 1 else -1)
    else if |name| == 4 then (if name == "name" then 0 else -1)
    else if |name| == 8 then (if name == "iconUrls" then 2 else -1)
    else -1
  }

  /** `Arena.__init__` declares distinct parameter names, none of them reserved. */
  lemma ArenaNames()
    ensures OrdinaryNames(Arena().fields)
  {
    var fs := Arena().fields;
    forall i | 0 <= i < |fs| ensures ArenaSlot(fs[i].0) == i && Ordinary(fs[i].0) {
      if i == 0 {}
      else if i == 1 {}
      else if i == 2 {}
    }
    SlottedNames(fs, ArenaSlot);
  }

  /** The position of each name in the `RiverRaceLogEntry` table, -1 for any other name; names are told apart by length first. */
  function RiverRaceLogEntrySlot(name: string): int {
    if |name| == 8 then (if name == "seasonId" then 1 else -1)
    else if |name| == 9 then (if name == "standings" then 0 else -1)
    else if |name| == 11 then (if name == "createdDate" then 2 else -1)
    else if |name| == 12 then (if name == "sectionIndex" then 3 else -1)
    else -1
  }

  /** `RiverRaceLogEntry.__init__` declares distinct parameter names, none of them reserved. */
  lemma RiverRaceLogEntryNames()
    ensures OrdinaryNames(RiverRaceLogEntry().fields)
  {
    var fs := RiverRaceLogEntry().fields;
    forall i | 0 <= i < |fs| ensures RiverRaceLogEntrySlot(fs[i].0) == i && Ordinary(fs[i].0) {
      if i == 0 {}
      else if i == 1 {}
      else if i == 2 {}
      else if i == 3 {}
    }
    SlottedNames(fs, RiverRaceLogEntrySlot);
  }

  /** The position of each name in the `RiverRaceStanding` table, -1 for any other name; names are told apart by length first. */
  function RiverRaceStandingSlot(name: string): int {
    if |name| == 4 then (if name == "rank" then 0 else if name == "clan" then 2 else -1)
    else if |name| == 12 then (if name == "trophyChange" then 1 else -1)
    else -1
  }

  /** `RiverRaceStanding.__init__` declares distinct parameter names, none of them reserved. */
  lemma RiverRaceStandingNames()
    ensures OrdinaryNames(RiverRaceStanding().fields)
  {
    var fs := RiverRaceStanding().fields;
    forall i | 0 <= i < |fs| ensures RiverRaceStandingSlot(fs[i].0) == i && Ordinary(fs[i].0) {
      if i == 0 {}
      else if i == 1 {}
      else if i == 2 {}
    }
    SlottedNames(fs, RiverRaceStandingSlot);
  }

  /** The position of each name in the `RiverRaceClan` table, -1 for any other name; names are told apart by length first. */
  function RiverRaceClanSlot(name: string): int {
    if |name| == 3 then (if name == "tag" then 0 else -1)
    else if |name| == 4 then (if name == "name" then 3 else if name == "fame" then 4 else -1)
    else if |name| == 7 then (if name == "badgeId" then 2 else -1)
    else if |name| == 9 then (if name == "clanScore" then 1 else -1)
    else if |name| == 10 then (if name == "finishTime" then 6 else -1)
    else if |name| == 12 then (if name == "repairPoints" then 5 else if name == "participants" then 7 else if name == "periodPoints" then 8 else -1)
    else -1
  }

  lemma RiverRaceClanSlots0()
    ensures forall i :: 0 <= i < 6 ==> RiverRaceClanSlot(RiverRaceClan().fields[i].0) == i && Ordinary(RiverRaceClan().fields[i].0)
  {
    var fs := RiverRaceClan().fields;
    forall i | 0 <= i < 6 ensures RiverRaceClanSlot(fs[i].0) == i && Ordinary(fs[i].0) {
      if i == 0 {}
      else if i == 1 {}
      else if i == 2 {}
      else if i == 3 {}
      else if i == 4 {}
      else if i == 5 {}
    }
  }

  lemma RiverRaceClanSlots6()
    ensures forall i :: 6 <= i < 9 ==> RiverRaceClanSlot(RiverRaceClan().fields[i].0) == i && Ordinary(RiverRaceClan().fields[i].0)
  {
    var fs := RiverRaceClan().fields;
    forall i | 6 <= i < 9 ensures RiverRaceClanSlot(fs[i].0) == i && Ordinary(fs[i].0) {
      if i == 6 {}
      else if i == 7 {}
      else if i == 8 {}
    }
  }

  /** `RiverRaceClan.__init__` declares distinct parameter names, none of them reserved. */
  lemma RiverRaceClanNames()
    ensures OrdinaryNames(RiverRaceClan().fields)
  {
    RiverRaceClanSlots0(); RiverRaceClanSlots6();
    SlottedNames(RiverRaceClan().fields, RiverRaceClanSlot);
  }

  /** The position of each name in the `RiverRaceParticipant` table, -1 for any other name; names are told apart by length first. */
  function RiverRaceParticipantSlot(name: string): int {
    if |name| == 3 then (if name == "tag" then 0 else -1)
    else if |name| == 4 then (if name == "name" then 1 else if name == "fame" then 2 else -1)
    else if |name| == 9 then (if name == "decksUsed" then 5 else -1)
    else if |name| == 11 then (if name == "boatAttacks" then 4 else -1)
    else if |name| == 12 then (if name == "repairPoints" then 3 else -1)
    else if |name| == 14 then (if name == "decksUsedToday" then 6 else -1)
    else -1
  }

  lemma RiverRaceParticipantSlots0()
    ensures forall i :: 0 <= i < 6 ==> RiverRaceParticipantSlot(RiverRaceParticipant().fields[i].0) == i && Ordinary(RiverRaceParticipant().fields[i].0)
  {
    var fs := RiverRaceParticipant().fields;
    forall i | 0 <= i < 6 ensures RiverRaceParticipantSlot(fs[i].0) == i && Ordinary(fs[i].0) {
      if i == 0 {}
      else if i == 1 {}
      else if i == 2 {}
      else if i == 3 {}
      else if i == 4 {}
      else if i == 5 {}
    }
  }

  lemma RiverRaceParticipantSlots6()
    ensures forall i :: 6 <= i < 7 ==> RiverRaceParticipantSlot(RiverRaceParticipant().fields[i].0) == i && Ordinary(RiverRaceParticipant().fields[i].0)
  {
    var fs := RiverRaceParticipant().fields;
    forall i | 6 <= i < 7 ensures RiverRaceParticipantSlot(fs[i].0) == i && Ordinary(fs[i].0) {
      if i == 6 {}
    }
  }

  /** `RiverRaceParticipant.__init__` declares distinct parameter names, none of them reserved. */
  lemma RiverRaceParticipantNames()
    ensures OrdinaryNames(RiverRaceParticipant().fields)
  {
    RiverRaceParticipantSlots0(); RiverRaceParticipantSlots6();
    SlottedNames(RiverRaceParticipant().fields, RiverRaceParticipantSlot);
  }

  /** The position of each name in the `CurrentClanWar` table, -1 for any other name; names are told apart by length first. */
  function CurrentClanWarSlot(name: string): int {
    if |name| == 4 then (if name == "clan" then 1 else -1)
    else if |name| == 5 then (if name == "state" then 0 else if name == "clans" then 3 else -1)
    else if |name| == 10 then (if name == "warEndTime" then 5 else -1)
    else if |name| == 12 then (if name == "participants" then 2 else -1)
    else if |name| == 17 then (if name == "collectionEndTime" then 4 else -1)
    else -1
  }

  /** `CurrentClanWar.__init__` declares distinct parameter names, none of them reserved. */
  lemma CurrentClanWarNames()
    ensures OrdinaryNames(CurrentClanWar().fields)
  {
    var fs := CurrentClanWar().fields;
    forall i | 0 <= i < |fs| ensures CurrentClanWarSlot(fs[i].0) == i && Ordinary(fs[i].0) {
      if i == 0 {}
      else if i == 1 {}
      else if i == 2 {}
      else if i == 3 {}
      else if i == 4 {}
      else if i == 5 {}
    }
    SlottedNames(fs, CurrentClanWarSlot);
  }

  /** The position of each name in the `CurrentRiverRace` table, -1 for any other name; names are told apart by length first. */
  function CurrentRiverRaceSlot(name: string): int {
    if |name| == 4 then (if name == "clan" then 1 else -1)
    else if |name| == 5 then (if name == "state" then 0 else if name == "clans" then 2 else -1)
    else if |name| == 10 then (if name == "warEndTime" then 4 else if name == "periodType" then 7 else if name == "periodLogs" then 8 else -1)
    else if |name| == 11 then (if name == "periodIndex" then 6 else -1)
    else if |name| == 12 then (if name == "sectionIndex" then 5 else -1)
    else if |name| == 17 then (if name == "collectionEndTime" then 3 else -1)
    else -1
  }

  lemma CurrentRiverRaceSlots0()
    ensures forall i :: 0 <= i < 6 ==> CurrentRiverRaceSlot(CurrentRiverRace().fields[i].0) == i && Ordinary(CurrentRiverRace().fields[i].0)
  {
    var fs := CurrentRiverRace().fields;
    forall i | 0 <= i < 6 ensures CurrentRiverRaceSlot(fs[i].0) == i && Ordinary(fs[i].0) {
      if i == 0 {}
      else if i == 1 {}
      else if i == 2 {}
      else if i == 3 {}
      else if i == 4 {}
      else if i == 5 {}
    }
  }

  lemma CurrentRiverRaceSlots6()
    ensures forall i :: 6 <= i < 9 ==> CurrentRiverRaceSlot(CurrentRiverRace().fields[i].0) == i && Ordinary(CurrentRiverRace().fields[i].0)
  {
    var fs := CurrentRiverRace().fields;
    forall i | 6 <= i < 9 ensures CurrentRiverRaceSlot(fs[i].0) == i && Ordinary(fs[i].0) {
      if i == 6 {}
      else if i == 7 {}
      else if i == 8 {}
    }
  }

  /** `CurrentRiverRace.__init__` declares distinct parameter names, none of them reserved. */
  lemma CurrentRiverRaceNames()
    ensures OrdinaryNames(CurrentRiverRace().fields)
  {
    CurrentRiverRaceSlots0(); CurrentRiverRaceSlots6();
    SlottedNames(CurrentRiverRace().fields, CurrentRiverRaceSlot);
  }

  /** The position of each name in the `PeriodLog` table, -1 for any other name; names are told apart by length first. */
  function PeriodLogSlot(name: string): int {
    if |name| == 5 then (if name == "items" then 0 else -1)
    else if |name| == 11 then (if name == "periodIndex" then 1 else -1)
    else -1
  }

  /** `PeriodLog.__init__` declares distinct parameter names, none of them reserved. */
  lemma PeriodLogNames()
    ensures OrdinaryNames(PeriodLog().fields)
  {
    var fs := PeriodLog().fields;
    forall i | 0 <= i < |fs| ensures PeriodLogSlot(fs[i].0) == i && Ordinary(fs[i].0) {
      if i == 0 {}
      else if i == 1 {}
    }
    SlottedNames(fs, PeriodLogSlot);
  }

  /** The position of each name in the `PeriodLogEntry` table, -1 for any other name; names are told apart by length first. */
  function PeriodLogEntrySlot(name: string): int {
    if |name| == 4 then (if name == "clan" then 0 else -1)
    else if |name| == 12 then (if name == "pointsEarned" then 1 else if name == "endOfDayRank" then 4 else -1)
    else if |name| == 14 then (if name == "progressEarned" then 5 else -1)
    else if |name| == 16 then (if name == "progressEndOfDay" then 3 else -1)
    else if |name| == 18 then (if name == "progressStartOfDay" then 2 else -1)
    else if |name| == 22 then (if name == "numOfDefensesRemaining" then 6 else -1)
    else if |name| == 26 then (if name == "progressEarnedFromDefenses" then 7 else -1)
    else -1
  }

  lemma PeriodLogEntrySlots0()
    ensures forall i :: 0 <= i < 6 ==> PeriodLogEntrySlot(PeriodLogEntry().fields[i].0) == i && Ordinary(PeriodLogEntry().fields[i].0)
  {
    var fs := PeriodLogEntry().fields;
    forall i | 0 <= i < 6 ensures PeriodLogEntrySlot(fs[i].0) == i && Ordinary(fs[i].0) {
      if i == 0 {}
      else if i == 1 {}
      else if i == 2 {}
      else if i == 3 {}
      else if i == 4 {}
      else if i == 5 {}
    }
  }

  lemma PeriodLogEntrySlots6()
    ensures forall i :: 6 <= i < 8 ==> PeriodLogEntrySlot(PeriodLogEntry().fields[i].0) == i && Ordinary(PeriodLogEntry().fields[i].0)
  {
    var fs := PeriodLogEntry().fields;
    forall i | 6 <= i < 8 ensures PeriodLogEntrySlot(fs[i].0) == i && Ordinary(fs[i].0) {
      if i == 6 {}
      else if i == 7 {}
    }
  }

  /** `PeriodLogEntry.__init__` declares distinct parameter names, none of them reserved. */
  lemma PeriodLogEntryNames()
    ensures OrdinaryNames(PeriodLogEntry().fields)
  {
    PeriodLogEntrySlots0(); PeriodLogEntrySlots6();
    SlottedNames(PeriodLogEntry().fields, PeriodLogEntrySlot);
  }

  /** The position of each name in the `PeriodLogEntryClan` table, -1 for any other name; names are told apart by length first. */
  function PeriodLogEntryClanSlot(name: string): int {
    if |name| == 3 then (if name == "tag" then 0 else -1)
    else -1
  }

  /** `PeriodLogEntryClan.__init__` declares distinct parameter names, none of them reserved. */
  lemma PeriodLogEntryClanNames()
    ensures OrdinaryNames(PeriodLogEntryClan().fields)
  {
    var fs := PeriodLogEntryClan().fields;
    forall i | 0 <= i < |fs| ensures PeriodLogEntryClanSlot(fs[i].0) == i && Ordinary(fs[i].0) {
      if i == 0 {}
    }
    SlottedNames(fs, PeriodLogEntryClanSlot);
  }

}

/**
 * What decoding a payload as each shape of async_supercell_api/clash_royale/types/clans.py yields:
 * every declared field is present, holds its value as the field's kind
 * prescribes (absent or null gives None), and every undeclared key other
 * than `success` is kept with its value.
 */
module RoyaleClansRules {
  import opened JsonData
  import opened Wrappers
  import opened Shapes
  import opened Responses
  import opened Decoder
  import opened DecoderLaws
  import RoyaleClans

  /** `ClanWarLogEntry(**body)`: each declared field as its kind prescribes, and the extra keywords kept. */
  lemma ClanWarLogEntry(body: seq<(string, Json)>, generic: Option<Value>, r: Response)
    requires Instantiate(RoyaleClans.ClanWarLogEntry(), body, generic) == Success(r)
    ensures FieldHolds(r, body, "standings", ListOf(RoyaleClans.ClanWarStanding()))
    ensures FieldHolds(r, body, "seasonId", Scalar)
    ensures FieldHolds(r, body, "participants", ListOf(RoyaleClans.ClanWarParticipant()))
    ensures FieldHolds(r, body, "createdDate", Scalar)
    ensures KeepsExtras(r, body, generic, RoyaleClans.ClanWarLogEntry())
  {
    RoyaleClans.ClanWarLogEntryNames();
    FieldAt(RoyaleClans.ClanWarLogEntry(), body, generic, r, 0);
    FieldAt(RoyaleClans.ClanWarLogEntry(), body, generic, r, 1);
    FieldAt(RoyaleClans.ClanWarLogEntry(), body, generic, r, 2);
    FieldAt(RoyaleClans.ClanWarLogEntry(), body, generic, r, 3);
    ExtrasPreserved(RoyaleClans.ClanWarLogEntry(), body, generic, r);
  }

  /** `ClanWarStanding(**body)`: each declared field as its kind prescribes, and the extra keywords kept. */
  lemma ClanWarStanding(body: seq<(string, Json)>, generic: Option<Value>, r: Response)
    requires Instantiate(RoyaleClans.ClanWarStanding(), body, generic) == Success(r)
    ensures FieldHolds(r, body, "trophyChange", Scalar)
    ensures FieldHolds(r, body, "clan", Nested(RoyaleClans.ClanWarClan()))
    ensures KeepsExtras(r, body, generic, RoyaleClans.ClanWarStanding())
  {
    RoyaleClans.ClanWarStandingNames();
    FieldAt(RoyaleClans.ClanWarStanding(), body, generic, r, 0);
    FieldAt(RoyaleClans.ClanWarStanding(), body, generic, r, 1);
    ExtrasPreserved(RoyaleClans.ClanWarStanding(), body, generic, r);
  }

  /** `ClanWarParticipant(**body)`: each declared field as its kind prescribes, and the extra keywords kept. */
  lemma ClanWarParticipant(body: seq<(string, Json)>, generic: Option<Value>, r: Response)
    requires Instantiate(RoyaleClans.ClanWarParticipant(), body, generic) == Success(r)
    ensures FieldHolds(r, body, "tag", Scalar)
    ensures FieldHolds(r, body, "name", Scalar)
    ensures FieldHolds(r, body, "cardsEarned", Scalar)
    ensures FieldHolds(r, body, "battlesPlayed", Scalar)
    ensures FieldHolds(r, body, "wins", Scalar)
    ensures FieldHolds(r, body, "collectionDayBattlesPlayed", Scalar)
    ensures FieldHolds(r, body, "numberOfBattles", Scalar)
    ensures KeepsExtras(r, body, generic, RoyaleClans.ClanWarParticipant())
  {
    RoyaleClans.ClanWarParticipantNames();
    FieldAt(RoyaleClans.ClanWarParticipant(), body, generic, r, 0);
    FieldAt(RoyaleClans.ClanWarParticipant(), body, generic, r, 1);
    FieldAt(RoyaleClans.ClanWarParticipant(), body, generic, r, 2);
    FieldAt(RoyaleClans.ClanWarParticipant(), body, generic, r, 3);
    FieldAt(RoyaleClans.ClanWarParticipant(), body, generic, r, 4);
    FieldAt(RoyaleClans.ClanWarParticipant(), body, generic, r, 5);
    FieldAt(RoyaleClans.ClanWarParticipant(), body, generic, r, 6);
    ExtrasPreserved(RoyaleClans.ClanWarParticipant(), body, generic, r);
  }

  /** `ClanWarClan(**body)`: each declared field as its kind prescribes, and the extra keywords kept. */
  lemma ClanWarClan(body: seq<(string, Json)>, generic: Option<Value>, r: Response)
    requires Instantiate(RoyaleClans.ClanWarClan(), body, generic) == Success(r)
    ensures FieldHolds(r, body, "crowns", Scalar)
    ensures FieldHolds(r, body, "tag", Scalar)
    ensures FieldHolds(r, body, "clanScore", Scalar)
    ensures FieldHolds(r, body, "badgeId", Scalar)
    ensures FieldHolds(r, body, "name", Scalar)
    ensures FieldHolds(r, body, "participants", Scalar)
    ensures FieldHolds(r, body, "battlesPlayed", Scalar)
    ensures FieldHolds(r, body, "wins", Scalar)
    ensures KeepsExtras(r, body, generic, RoyaleClans.ClanWarClan())
  {
    RoyaleClans.ClanWarClanNames();
    FieldAt(RoyaleClans.ClanWarClan(), body, generic, r, 0);
    FieldAt(RoyaleClans.ClanWarClan(), body, generic, r, 1);
    FieldAt(RoyaleClans.ClanWarClan(), body, generic, r, 2);
    FieldAt(RoyaleClans.ClanWarClan(), body, generic, r, 3);
    FieldAt(RoyaleClans.ClanWarClan(), body, generic, r, 4);
    FieldAt(RoyaleClans.ClanWarClan(), body, generic, r, 5);
    FieldAt(RoyaleClans.ClanWarClan(), body, generic, r, 6);
    FieldAt(RoyaleClans.ClanWarClan(), body, generic, r, 7);
    ExtrasPreserved(RoyaleClans.ClanWarClan(), body, generic, r);
  }

  /** `Clan(**body)`: each declared field as its kind prescribes, and the extra keywords kept. */
  lemma Clan(body: seq<(string, Json)>, generic: Option<Value>, r: Response)
    requires Instantiate(RoyaleClans.Clan(), body, generic) == Success(r)
    ensures FieldHolds(r, body, "memberList", ListOf(RoyaleClans.ClanMember()))
    ensures FieldHolds(r, body, "tag", Scalar)
    ensures FieldHolds(r, body, "clanWarTrophies", Scalar)
    ensures FieldHolds(r, body, "requiredTrophies", Scalar)
    ensures FieldHolds(r, body, "donationsPerWeek", Scalar)
    ensures FieldHolds(r, body, "clanScore", Scalar)
    ensures FieldHolds(r, body, "badgeId", Scalar)
    ensures FieldHolds(r, body, "clanChestMaxLevel", Scalar)
    ensures FieldHolds(r, body, "clanChestStatus", Scalar)
    ensures FieldHolds(r, body, "clanChestLevel", Scalar)
    ensures FieldHolds(r, body, "name", Scalar)
    ensures FieldHolds(r, body, "location", Nested(RoyaleClans.Location()))
    ensures FieldHolds(r, body, "type", Scalar)
    ensures FieldHolds(r, body, "members", Scalar)
    ensures FieldHolds(r, body, "description", Scalar)
    ensures FieldHolds(r, body, "clanChestPoints", Scalar)
    ensures FieldHolds(r, body, "badgeUrls", Scalar)
    ensures KeepsExtras(r, body, generic, RoyaleClans.Clan())
  {
    RoyaleClans.ClanNames();
    FieldAt(RoyaleClans.Clan(), body, generic, r, 0);
    FieldAt(RoyaleClans.Clan(), body, generic, r, 1);
    FieldAt(RoyaleClans.Clan(), body, generic, r, 2);
    FieldAt(RoyaleClans.Clan(), body, generic, r, 3);
    FieldAt(RoyaleClans.Clan(), body, generic, r, 4);
    FieldAt(RoyaleClans.Clan(), body, generic, r, 5);
    FieldAt(RoyaleClans.Clan(), body, generic, r, 6);
    FieldAt(RoyaleClans.Clan(), body, generic, r, 7);
    FieldAt(RoyaleClans.Clan(), body, generic, r, 8);
    FieldAt(RoyaleClans.Clan(), body, generic, r, 9);
    FieldAt(RoyaleClans.Clan(), body, generic, r, 10);
    FieldAt(RoyaleClans.Clan(), body, generic, r, 11);
    FieldAt(RoyaleClans.Clan(), body, generic, r, 12);
    FieldAt(RoyaleClans.Clan(), body, generic, r, 13);
    FieldAt(RoyaleClans.Clan(), body, generic, r, 14);
    FieldAt(RoyaleClans.Clan(), body, generic, r, 15);
    FieldAt(RoyaleClans.Clan(), body, generic, r, 16);
    ExtrasPreserved(RoyaleClans.Clan(), body, generic, r);
  }

  /** `Location(**body)`: each declared field as its kind prescribes, and the extra keywords kept. */
  lemma Location(body: seq<(string, Json)>, generic: Option<Value>, r: Response)
    requires Instantiate(RoyaleClans.Location(), body, generic) == Success(r)
    ensures FieldHolds(r, body, "localizedName", Scalar)
    ensures FieldHolds(r, body, "id", Scalar)
    ensures FieldHolds(r, body, "name", Scalar)
    ensures FieldHolds(r, body, "isCountry", Scalar)
    ensures FieldHolds(r, body, "countryCode", Scalar)
    ensures KeepsExtras(r, body, generic, RoyaleClans.Location())
  {
    RoyaleClans.LocationNames();
    FieldAt(RoyaleClans.Location(), body, generic, r, 0);
    FieldAt(RoyaleClans.Location(), body, generic, r, 1);
    FieldAt(RoyaleClans.Location(), body, generic, r, 2);
    FieldAt(RoyaleClans.Location(), body, generic, r, 3);
    FieldAt(RoyaleClans.Location(), body, generic, r, 4);
    ExtrasPreserved(RoyaleClans.Location(), body, generic, r);
  }

  /** `ClanMember(**body)`: each declared field as its kind prescribes, and the extra keywords kept. */
  lemma ClanMember(body: seq<(string, Json)>, generic: Option<Value>, r: Response)
    requires Instantiate(RoyaleClans.ClanMember(), body, generic) == Success(r)
    ensures FieldHolds(r, body, "clanChestPoints", Scalar)
    ensures FieldHolds(r, body, "arena", Nested(RoyaleClans.Arena()))
    ensures FieldHolds(r, body, "lastSeen", Scalar)
    ensures FieldHolds(r, body, "tag", Scalar)
    ensures FieldHolds(r, body, "name", Scalar)
    ensures FieldHolds(r, body, "role", Scalar)
    ensures FieldHolds(r, body, "expLevel", Scalar)
    ensures FieldHolds(r, body, "trophies", Scalar)
    ensures FieldHolds(r, body, "clanRank", Scalar)
    ensures FieldHolds(r, body, "previousClanRank", Scalar)
    ensures FieldHolds(r, body, "donations", Scalar)
    ensures FieldHolds(r, body, "donationsReceived", Scalar)
    ensures KeepsExtras(r, body, generic, RoyaleClans.ClanMember())
  {
    RoyaleClans.ClanMemberNames();
    FieldAt(RoyaleClans.ClanMember(), body, generic, r, 0);
    FieldAt(RoyaleClans.ClanMember(), body, generic, r, 1);
    FieldAt(RoyaleClans.ClanMember(), body, generic, r, 2);
    FieldAt(RoyaleClans.ClanMember(), body, generic, r, 3);
    FieldAt(RoyaleClans.ClanMember(), body, generic, r, 4);
    FieldAt(RoyaleClans.ClanMember(), body, generic, r, 5);
    FieldAt(RoyaleClans.ClanMember(), body, generic, r, 6);
    FieldAt(RoyaleClans.ClanMember(), body, generic, r, 7);
    FieldAt(RoyaleClans.ClanMember(), body, generic, r, 8);
    FieldAt(RoyaleClans.ClanMember(), body, generic, r, 9);
    FieldAt(RoyaleClans.ClanMember(), body, generic, r, 10);
    FieldAt(RoyaleClans.ClanMember(), body, generic, r, 11);
    ExtrasPreserved(RoyaleClans.ClanMember(), body, generic, r);
  }

  /** `Arena(**body)`: each declared field as its kind prescribes, and the extra keywords kept. */
  lemma Arena(body: seq<(string, Json)>, generic: Option<Value>, r: Response)
    requires Instantiate(RoyaleClans.Arena(), body, generic) == Success(r)
    ensures FieldHolds(r, body, "name", Scalar)
    ensures FieldHolds(r, body, "id", Scalar)
    ensures FieldHolds(r, body, "iconUrls", Scalar)
    ensures KeepsExtras(r, body, generic, RoyaleClans.Arena())
  {
    RoyaleClans.ArenaNames();
    FieldAt(RoyaleClans.Arena(), body, generic, r, 0);
    FieldAt(RoyaleClans.Arena(), body, generic, r, 1);
    FieldAt(RoyaleClans.Arena(), body, generic, r, 2);
    ExtrasPreserved(RoyaleClans.Arena(), body, generic, r);
  }

  /** `RiverRaceLogEntry(**body)`: each declared field as its kind prescribes, and the extra keywords kept. */
  lemma RiverRaceLogEntry(body: seq<(string, Json)>, generic: Option<Value>, r: Response)
    requires Instantiate(RoyaleClans.RiverRaceLogEntry(), body, generic) == Success(r)
    ensures FieldHolds(r, body, "standings", ListOf(RoyaleClans.RiverRaceStanding()))
    ensures FieldHolds(r, body, "seasonId", Scalar)
    ensures FieldHolds(r, body, "createdDate", Scalar)
    ensures FieldHolds(r, body, "sectionIndex", Scalar)
    ensures KeepsExtras(r, body, generic, RoyaleClans.RiverRaceLogEntry())
  {
    RoyaleClans.RiverRaceLogEntryNames();
    FieldAt(RoyaleClans.RiverRaceLogEntry(), body, generic, r, 0);
    FieldAt(RoyaleClans.RiverRaceLogEntry(), body, generic, r, 1);
    FieldAt(RoyaleClans.RiverRaceLogEntry(), body, generic, r, 2);
    FieldAt(RoyaleClans.RiverRaceLogEntry(), body, generic, r, 3);
    ExtrasPreserved(RoyaleClans.RiverRaceLogEntry(), body, generic, r);
  }

  /** `RiverRaceStanding(**body)`: each declared field as its kind prescribes, and the extra keywords kept. */
  lemma RiverRaceStanding(body: seq<(string, Json)>, generic: Option<Value>, r: Response)
    requires Instantiate(RoyaleClans.RiverRaceStanding(), body, generic) == Success(r)
    ensures FieldHolds(r, body, "rank", Scalar)
    ensures FieldHolds(r, body, "trophyChange", Scalar)
    ensures FieldHolds(r, body, "clan", Nested(RoyaleClans.RiverRaceClan()))
    ensures KeepsExtras(r, body, generic, RoyaleClans.RiverRaceStanding())
  {
    RoyaleClans.RiverRaceStandingNames();
    FieldAt(RoyaleClans.RiverRaceStanding(), body, generic, r, 0);
    FieldAt(RoyaleClans.RiverRaceStanding(), body, generic, r, 1);
    FieldAt(RoyaleClans.RiverRaceStanding(), body, generic, r, 2);
    ExtrasPreserved(RoyaleClans.RiverRaceStanding(), body, generic, r);
  }

  /** `RiverRaceClan(**body)`: each declared field as its kind prescribes, and the extra keywords kept. */
  lemma RiverRaceClan(body: seq<(string, Json)>, generic: Option<Value>, r: Response)
    requires Instantiate(RoyaleClans.RiverRaceClan(), body, generic) == Success(r)
    ensures FieldHolds(r, body, "tag", Scalar)
    ensures FieldHolds(r, body, "clanScore", Scalar)
    ensures FieldHolds(r, body, "badgeId", Scalar)
    ensures FieldHolds(r, body, "name", Scalar)
    ensures FieldHolds(r, body, "fame", Scalar)
    ensures FieldHolds(r, body, "repairPoints", Scalar)
    ensures FieldHolds(r, body, "finishTime", Scalar)
    ensures FieldHolds(r, body, "participants", ListOf(RoyaleClans.RiverRaceParticipant()))
    ensures FieldHolds(r, body, "periodPoints", Scalar)
    ensures KeepsExtras(r, body, generic, RoyaleClans.RiverRaceClan())
  {
    RoyaleClans.RiverRaceClanNames();
    FieldAt(RoyaleClans.RiverRaceClan(), body, generic, r, 0);
    FieldAt(RoyaleClans.RiverRaceClan(), body, generic, r, 1);
    FieldAt(RoyaleClans.RiverRaceClan(), body, generic, r, 2);
    FieldAt(RoyaleClans.RiverRaceClan(), body, generic, r, 3);
    FieldAt(RoyaleClans.RiverRaceClan(), body, generic, r, 4);
    FieldAt(RoyaleClans.RiverRaceClan(), body, generic, r, 5);
    FieldAt(RoyaleClans.RiverRaceClan(), body, generic, r, 6);
    FieldAt(RoyaleClans.RiverRaceClan(), body, generic, r, 7);
    FieldAt(RoyaleClans.RiverRaceClan(), body, generic, r, 8);
    ExtrasPreserved(RoyaleClans.RiverRaceClan(), body, generic, r);
  }

  /** `RiverRaceParticipant(**body)`: each declared field as its kind prescribes, and the extra keywords kept. */
  lemma RiverRaceParticipant(body: seq<(string, Json)>, generic: Option<Value>, r: Response)
    requires Instantiate(RoyaleClans.RiverRaceParticipant(), body, generic) == Success(r)
    ensures FieldHolds(r, body, "tag", Scalar)
    ensures FieldHolds(r, body, "name", Scalar)
    ensures FieldHolds(r, body, "fame", Scalar)
    ensures FieldHolds(r, body, "repairPoints", Scalar)
    ensures FieldHolds(r, body, "boatAttacks", Scalar)
    ensures FieldHolds(r, body, "decksUsed", Scalar)
    ensures FieldHolds(r, body, "decksUsedToday", Scalar)
    ensures KeepsExtras(r, body, generic, RoyaleClans.RiverRaceParticipant())
  {
    RoyaleClans.RiverRaceParticipantNames();
    FieldAt(RoyaleClans.RiverRaceParticipant(), body, generic, r, 0);
    FieldAt(RoyaleClans.RiverRaceParticipant(), body, generic, r, 1);
    FieldAt(RoyaleClans.RiverRaceParticipant(), body, generic, r, 2);
    FieldAt(RoyaleClans.RiverRaceParticipant(), body, generic, r, 3);
    FieldAt(RoyaleClans.RiverRaceParticipant(), body, generic, r, 4);
    FieldAt(RoyaleClans.RiverRaceParticipant(), body, generic, r, 5);
    FieldAt(RoyaleClans.RiverRaceParticipant(), body, generic, r, 6);
    ExtrasPreserved(RoyaleClans.RiverRaceParticipant(), body, generic, r);
  }

  /** `CurrentClanWar(**body)`: each declared field as its kind prescribes, and the extra keywords kept. */
  lemma CurrentClanWar(body: seq<(string, Json)>, generic: Option<Value>, r: Response)
    requires Instantiate(RoyaleClans.CurrentClanWar(), body, generic) == Success(r)
    ensures FieldHolds(r, body, "state", Scalar)
    ensures FieldHolds(r, body, "clan", Nested(RoyaleClans.ClanWarClan()))
    ensures FieldHolds(r, body, "participants", ListOf(RoyaleClans.ClanWarParticipant()))
    ensures FieldHolds(r, body, "clans", ListOf(RoyaleClans.ClanWarClan()))
    ensures FieldHolds(r, body, "collectionEndTime", Scalar)
    ensures FieldHolds(r, body, "warEndTime", Scalar)
    ensures KeepsExtras(r, body, generic, RoyaleClans.CurrentClanWar())
  {
    RoyaleClans.CurrentClanWarNames();
    FieldAt(RoyaleClans.CurrentClanWar(), body, generic, r, 0);
    FieldAt(RoyaleClans.CurrentClanWar(), body, generic, r, 1);
    FieldAt(RoyaleClans.CurrentClanWar(), body, generic, r, 2);
    FieldAt(RoyaleClans.CurrentClanWar(), body, generic, r, 3);
    FieldAt(RoyaleClans.CurrentClanWar(), body, generic, r, 4);
    FieldAt(RoyaleClans.CurrentClanWar(), body, generic, r, 5);
    ExtrasPreserved(RoyaleClans.CurrentClanWar(), body, generic, r);
  }

  /** `CurrentRiverRace(**body)`: each declared field as its kind prescribes, and the extra keywords kept. */
  lemma CurrentRiverRace(body: seq<(string, Json)>, generic: Option<Value>, r: Response)
    requires Instantiate(RoyaleClans.CurrentRiverRace(), body, generic) == Success(r)
    ensures FieldHolds(r, body, "state", Scalar)
    ensures FieldHolds(r, body, "clan", Nested(RoyaleClans.RiverRaceClan()))
    ensures FieldHolds(r, body, "clans", ListOf(RoyaleClans.RiverRaceClan()))
    ensures FieldHolds(r, body, "collectionEndTime", Scalar)
    ensures FieldHolds(r, body, "warEndTime", Scalar)
    ensures FieldHolds(r, body, "sectionIndex", Scalar)
    ensures FieldHolds(r, body, "periodIndex", Scalar)
    ensures FieldHolds(r, body, "periodType", Scalar)
    ensures FieldHolds(r, body, "periodLogs", ListOf(RoyaleClans.PeriodLog()))
    ensures KeepsExtras(r, body, generic, RoyaleClans.CurrentRiverRace())
  {
    RoyaleClans.CurrentRiverRaceNames();
    FieldAt(RoyaleClans.CurrentRiverRace(), body, generic, r, 0);
    FieldAt(RoyaleClans.CurrentRiverRace(), body, generic, r, 1);
    FieldAt(RoyaleClans.CurrentRiverRace(), body, generic, r, 2);
    FieldAt(RoyaleClans.CurrentRiverRace(), body, generic, r, 3);
    FieldAt(RoyaleClans.CurrentRiverRace(), body, generic, r, 4);
    FieldAt(RoyaleClans.CurrentRiverRace(), body, generic, r, 5);
    FieldAt(RoyaleClans.CurrentRiverRace(), body, generic, r, 6);
    FieldAt(RoyaleClans.CurrentRiverRace(), body, generic, r, 7);
    FieldAt(RoyaleClans.CurrentRiverRace(), body, generic, r, 8);
    ExtrasPreserved(RoyaleClans.CurrentRiverRace(), body, generic, r);
  }

  /** `PeriodLog(**body)`: each declared field as its kind prescribes, and the extra keywords kept. */
  lemma PeriodLog(body: seq<(string, Json)>, generic: Option<Value>, r: Response)
    requires Instantiate(RoyaleClans.PeriodLog(), body, generic) == Success(r)
    ensures FieldHolds(r, body, "items", ListOf(RoyaleClans.PeriodLogEntry()))
    ensures FieldHolds(r, body, "periodIndex", Scalar)
    ensures KeepsExtras(r, body, generic, RoyaleClans.PeriodLog())
  {
    RoyaleClans.PeriodLogNames();
    FieldAt(RoyaleClans.PeriodLog(), body, generic, r, 0);
    FieldAt(RoyaleClans.PeriodLog(), body, generic, r, 1);
    ExtrasPreserved(RoyaleClans.PeriodLog(), body, generic, r);
  }

  /** `PeriodLogEntry(**body)`: each declared field as its kind prescribes, and the extra keywords kept. */
  lemma PeriodLogEntry(body: seq<(string, Json)>, generic: Option<Value>, r: Response)
    requires Instantiate(RoyaleClans.PeriodLogEntry(), body, generic) == Success(r)
    ensures FieldHolds(r, body, "clan", Nested(RoyaleClans.PeriodLogEntryClan()))
    ensures FieldHolds(r, body, "pointsEarned", Scalar)
    ensures FieldHolds(r, body, "progressStartOfDay", Scalar)
    ensures FieldHolds(r, body, "progressEndOfDay", Scalar)
    ensures FieldHolds(r, body, "endOfDayRank", Scalar)
    ensures FieldHolds(r, body, "progressEarned", Scalar)
    ensures FieldHolds(r, body, "numOfDefensesRemaining", Scalar)
    ensures FieldHolds(r, body, "progressEarnedFromDefenses", Scalar)
    ensures KeepsExtras(r, body, generic, RoyaleClans.PeriodLogEntry())
  {
    RoyaleClans.PeriodLogEntryNames();
    FieldAt(RoyaleClans.PeriodLogEntry(), body, generic, r, 0);
    FieldAt(RoyaleClans.PeriodLogEntry(), body, generic, r, 1);
    FieldAt(RoyaleClans.PeriodLogEntry(), body, generic, r, 2);
    FieldAt(RoyaleClans.PeriodLogEntry(), body, generic, r, 3);
    FieldAt(RoyaleClans.PeriodLogEntry(), body, generic, r, 4);
    FieldAt(RoyaleClans.PeriodLogEntry(), body, generic, r, 5);
    FieldAt(RoyaleClans.PeriodLogEntry(), body, generic, r, 6);
    FieldAt(RoyaleClans.PeriodLogEntry(), body, generic, r, 7);
    ExtrasPreserved(RoyaleClans.PeriodLogEntry(), body, generic, r);
  }

  /** `PeriodLogEntryClan(**body)`: each declared field as its kind prescribes, and the extra keywords kept. */
  lemma PeriodLogEntryClan(body: seq<(string, Json)>, generic: Option<Value>, r: Response)
    requires Instantiate(RoyaleClans.PeriodLogEntryClan(), body, generic) == Success(r)
    ensures FieldHolds(r, body, "tag", Scalar)
    ensures KeepsExtras(r, body, generic, RoyaleClans.PeriodLogEntryClan())
  {
    RoyaleClans.PeriodLogEntryClanNames();
    FieldAt(RoyaleClans.PeriodLogEntryClan(), body, generic, r, 0);
    ExtrasPreserved(RoyaleClans.PeriodLogEntryClan(), body, generic, r);
  }

}
