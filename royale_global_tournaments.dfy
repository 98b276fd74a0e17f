/**
 * The Clash Royale shapes of async_supercell_api/clash_royale/types/global_tournaments.py. Each table lists a
 * constructor's declared parameters in the order it assigns them after
 * `super().__init__(**kwargs)`, which is the order they take in `vars(self)`.
 */
module RoyaleGlobalTournaments {
  import opened Keywords
  import opened Shapes
  import RoyalePlayers

  /** `LadderTournament.__init__` */
  function LadderTournament(): Shape {
    Shape("LadderTournament", [
      ("gameMode", Nested(RoyalePlayers.GameMode())),
      ("maxLosses", Scalar),
      ("minExpLevel", Scalar),
      ("tournamentLevel", Scalar),
      ("milestoneRewards", ListOf(SurvivalMilestoneReward())),
      ("freeTierRewards", ListOf(SurvivalMilestoneReward())),
      ("tag", Scalar),
      ("title", Scalar),
      ("startTime", Scalar),
      ("endTime", Scalar),
      ("topRankReward", ListOf(SurvivalMilestoneReward())),
      ("maxTopRewardRank", Scalar)
    ])
  }

  /** `SurvivalMilestoneReward.__init__` */
  function SurvivalMilestoneReward(): Shape {
    Shape("SurvivalMilestoneReward", [
      ("chest", Scalar),
      ("rarity", Scalar),
      ("resource", Scalar),
      ("type", Scalar),
      ("amount", Scalar),
      ("card", Nested(RoyalePlayers.Item())),
      ("wins", Scalar)
    ])
  }

  /** The position of each name in the `LadderTournament` table, -1 for any other name; names are told apart by length first. */
  function LadderTournamentSlot(name: string): int {
    if |name| == 3 then (if name == "tag" then 6 else -1)
    else if |name| == 5 then (if name == "title" then 7 else -1)
    else if |name| == 7 then (if name == "endTime" then 9 else -1)
    else if |name| == 8 then (if name == "gameMode" then 0 else -1)
    else if |name| == 9 then (if name == "maxLosses" then 1 else if name == "startTime" then 8 else -1)
    else if |name| == 11 then (if name == "minExpLevel" then 2 else -1)
    else if |name| == 13 then (if name == "topRankReward" then 10 else -1)
    else if |name| == 15 then (if name == "tournamentLevel" then 3 else if name == "freeTierRewards" then 5 else -1)
    else if |name| == 16 then (if name == "milestoneRewards" then 4 else if name == "maxTopRewardRank" then 11 else -1)
    else -1
  }

  lemma LadderTournamentSlots0()
    ensures forall i :: 0 <= i < 6 ==> LadderTournamentSlot(LadderTournament().fields[i].0) == i && Ordinary(LadderTournament().fields[i].0)
  {
    var fs := LadderTournament().fields;
    forall i | 0 <= i < 6 ensures LadderTournamentSlot(fs[i].0) == i && Ordinary(fs[i].0) {
      if i == 0 {}
      else if i == 1 {}
      else if i == 2 {}
      else if i == 3 {}
      else if i == 4 {}
      else if i == 5 {}
    }
  }

  lemma LadderTournamentSlots6()
    ensures forall i :: 6 <= i < 12 ==> LadderTournamentSlot(LadderTournament().fields[i].0) == i && Ordinary(LadderTournament().fields[i].0)
  {
    var fs := LadderTournament().fields;
    forall i | 6 <= i < 12 ensures LadderTournamentSlot(fs[i].0) == i && Ordinary(fs[i].0) {
      if i == 6 {}
      else if i == 7 {}
      else if i == 8 {}
      else if i == 9 {}
      else if i == 10 {}
      else if i == 11 {}
    }
  }

  /** `LadderTournament.__init__` declares distinct parameter names, none of them reserved. */
  lemma LadderTournamentNames()
    ensures OrdinaryNames(LadderTournament().fields)
  {
    LadderTournamentSlots0(); LadderTournamentSlots6();
    SlottedNames(LadderTournament().fields, LadderTournamentSlot);
  }

  /** The position of each name in the `SurvivalMilestoneReward` table, -1 for any other name; names are told apart by length first. */
  function SurvivalMilestoneRewardSlot(name: string): int {
    if |name| == 4 then (if name == "type" then 3 else if name == "card" then 5 else if name == "wins" then 6 else -1)
    else if |name| == 5 then (if name == "chest" then 0 else -1)
    else if |name| == 6 then (if name == "rarity" then 1 else if name == "amount" then 4 else -1)
    else if |name| == 8 then (if name == "resource" then 2 else -1)
    else -1
  }

  lemma SurvivalMilestoneRewardSlots0()
    ensures forall i :: 0 <= i < 6 ==> SurvivalMilestoneRewardSlot(SurvivalMilestoneReward().fields[i].0) == i && Ordinary(SurvivalMilestoneReward().fields[i].0)
  {
    var fs := SurvivalMilestoneReward().fields;
    forall i | 0 <= i < 6 ensures SurvivalMilestoneRewardSlot(fs[i].0) == i && Ordinary(fs[i].0) {
      if i == 0 {}
      else if i == 1 {}
      else if i == 2 {}
      else if i == 3 {}
      else if i == 4 {}
      else if i == 5 {}
    }
  }

  lemma SurvivalMilestoneRewardSlots6()
    ensures forall i :: 6 <= i < 7 ==> SurvivalMilestoneRewardSlot(SurvivalMilestoneReward().fields[i].0) == i && Ordinary(SurvivalMilestoneReward().fields[i].0)
  {
    var fs := SurvivalMilestoneReward().fields;
    forall i | 6 <= i < 7 ensures SurvivalMilestoneRewardSlot(fs[i].0) == i && Ordinary(fs[i].0) {
      if i == 6 {}
    }
  }

  /** `SurvivalMilestoneReward.__init__` declares distinct parameter names, none of them reserved. */
  lemma SurvivalMilestoneRewardNames()
    ensures OrdinaryNames(SurvivalMilestoneReward().fields)
  {
    SurvivalMilestoneRewardSlots0(); SurvivalMilestoneRewardSlots6();
    SlottedNames(SurvivalMilestoneReward().fields, SurvivalMilestoneRewardSlot);
  }

}

/**
 * What decoding a payload as each shape of async_supercell_api/clash_royale/types/global_tournaments.py yields:
 * every declared field is present, holds its value as the field's kind
 * prescribes (absent or null gives None), and every undeclared key other
 * than `success` is kept with its value.
 */
module RoyaleGlobalTournamentsRules {
  import opened JsonData
  import opened Wrappers
  import opened Shapes
  import opened Responses
  import opened Decoder
  import opened DecoderLaws
  import RoyaleGlobalTournaments
  import RoyalePlayers

  /** `LadderTournament(**body)`: each declared field as its kind prescribes, and the extra keywords kept. */
  lemma LadderTournament(body: seq<(string, Json)>, generic: Option<Value>, r: Response)
    requires Instantiate(RoyaleGlobalTournaments.LadderTournament(), body, generic) == Success(r)
    ensures FieldHolds(r, body, "gameMode", Nested(RoyalePlayers.GameMode()))
    ensures FieldHolds(r, body, "maxLosses", Scalar)
    ensures FieldHolds(r, body, "minExpLevel", Scalar)
    ensures FieldHolds(r, body, "tournamentLevel", Scalar)
    ensures FieldHolds(r, body, "milestoneRewards", ListOf(RoyaleGlobalTournaments.SurvivalMilestoneReward()))
    ensures FieldHolds(r, body, "freeTierRewards", ListOf(RoyaleGlobalTournaments.SurvivalMilestoneReward()))
    ensures FieldHolds(r, body, "tag", Scalar)
    ensures FieldHolds(r, body, "title", Scalar)
    ensures FieldHolds(r, body, "startTime", Scalar)
    ensures FieldHolds(r, body, "endTime", Scalar)
    ensures FieldHolds(r, body, "topRankReward", ListOf(RoyaleGlobalTournaments.SurvivalMilestoneReward()))
    ensures FieldHolds(r, body, "maxTopRewardRank", Scalar)
    ensures KeepsExtras(r, body, generic, RoyaleGlobalTournaments.LadderTournament())
  {
    RoyaleGlobalTournaments.LadderTournamentNames();
    FieldAt(RoyaleGlobalTournaments.LadderTournament(), body, generic, r, 0);
    FieldAt(RoyaleGlobalTournaments.LadderTournament(), body, generic, r, 1);
    FieldAt(RoyaleGlobalTournaments.LadderTournament(), body, generic, r, 2);
    FieldAt(RoyaleGlobalTournaments.LadderTournament(), body, generic, r, 3);
    FieldAt(RoyaleGlobalTournaments.LadderTournament(), body, generic, r, 4);
    FieldAt(RoyaleGlobalTournaments.LadderTournament(), body, generic, r, 5);
    FieldAt(RoyaleGlobalTournaments.LadderTournament(), body, generic, r, 6);
    FieldAt(RoyaleGlobalTournaments.LadderTournament(), body, generic, r, 7);
    FieldAt(RoyaleGlobalTournaments.LadderTournament(), body, generic, r, 8);
    FieldAt(RoyaleGlobalTournaments.LadderTournament(), body, generic, r, 9);
    FieldAt(RoyaleGlobalTournaments.LadderTournament(), body, generic, r, 10);
    FieldAt(RoyaleGlobalTournaments.LadderTournament(), body, generic, r, 11);
    ExtrasPreserved(RoyaleGlobalTournaments.LadderTournament(), body, generic, r);
  }

  /** `SurvivalMilestoneReward(**body)`: each declared field as its kind prescribes, and the extra keywords kept. */
  lemma SurvivalMilestoneReward(body: seq<(string, Json)>, generic: Option<Value>, r: Response)
    requires Instantiate(RoyaleGlobalTournaments.SurvivalMilestoneReward(), body, generic) == Success(r)
    ensures FieldHolds(r, body, "chest", Scalar)
    ensures FieldHolds(r, body, "rarity", Scalar)
    ensures FieldHolds(r, body, "resource", Scalar)
    ensures FieldHolds(r, body, "type", Scalar)
    ensures FieldHolds(r, body, "amount", Scalar)
    ensures FieldHolds(r, body, "card", Nested(RoyalePlayers.Item()))
    ensures FieldHolds(r, body, "wins", Scalar)
    ensures KeepsExtras(r, body, generic, RoyaleGlobalTournaments.SurvivalMilestoneReward())
  {
    RoyaleGlobalTournaments.SurvivalMilestoneRewardNames();
    FieldAt(RoyaleGlobalTournaments.SurvivalMilestoneReward(), body, generic, r, 0);
    FieldAt(RoyaleGlobalTournaments.SurvivalMilestoneReward(), body, generic, r, 1);
    FieldAt(RoyaleGlobalTournaments.SurvivalMilestoneReward(), body, generic, r, 2);
    FieldAt(RoyaleGlobalTournaments.SurvivalMilestoneReward(), body, generic, r, 3);
    FieldAt(RoyaleGlobalTournaments.SurvivalMilestoneReward(), body, generic, r, 4);
    FieldAt(RoyaleGlobalTournaments.SurvivalMilestoneReward(), body, generic, r, 5);
    FieldAt(RoyaleGlobalTournaments.SurvivalMilestoneReward(), body, generic, r, 6);
    ExtrasPreserved(RoyaleGlobalTournaments.SurvivalMilestoneReward(), body, generic, r);
  }

}
