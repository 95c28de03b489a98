/** The formation model of the football demo: position tags, player records,
    the two fixed personnel groupings a team is built from, and the state that
    owns a roster. */
module Roster {

  /** Rust's `u8`: jersey numbers and team ids are unsigned bytes. Adding a
      team id to a base number must stay below 256, so the builders carry the
      bound as a precondition (in a debug build the addition panics otherwise). */
  newtype u8 = x: int | 0 <= x < 256

  /** Position tags. `NT` is declared but no builder uses it. */
  datatype FBPosition = QB | HB | FB | WR | TE | LB | DE | DT | NT | FS | SS | CB

  /** A player record: jersey number, position tag and team id. */
  datatype FBPlayer = FBPlayer(number: u8, position: FBPosition, team: u8)

  /** The game state: the roster it lays out on start. */
  datatype FBState = FBState(players: seq<FBPlayer>)

  /** One slot of a formation template: the base jersey number (before the team
      id is added) and the position tag the builder writes at that slot. */
  datatype Slot = Slot(base: nat, position: FBPosition)

  /** The "21" offense, slot by slot: QB, HB, FB, TE, two WR, then the five
      linemen (C, LG, RG, LT, RT), which the builder tags HB; C and RG both have
      base 68. */
  const OffenseTemplate: seq<Slot> :=
    [Slot(12, QB), Slot(20, HB), Slot(33, FB), Slot(88, TE), Slot(84, WR), Slot(81, WR),
     Slot(68, HB), Slot(77, HB), Slot(68, HB), Slot(69, HB), Slot(71, HB)]

  /** The "3-4" defense, slot by slot: the nose tackle (tagged DT), two DE, four
      LB, two CB, FS, SS. */
  const DefenseTemplate: seq<Slot> :=
    [Slot(91, DT), Slot(94, DE), Slot(96, DE), Slot(56, LB), Slot(60, LB), Slot(63, LB),
     Slot(52, LB), Slot(20, CB), Slot(26, CB), Slot(30, FS), Slot(36, SS)]

  /** Largest team ids whose jersey numbers all fit in a u8 (88 + 167 == 255 and
      96 + 159 == 255). */
  const MaxOffenseTeam: u8 := 167
  const MaxDefenseTeam: u8 := 159

  /** Every base number of `template` plus `team` fits in a u8. */
  predicate FitsU8(template: seq<Slot>, team: u8)
  {
    forall i :: 0 <= i < |template| ==> template[i].base + team as int < 256
  }

  /** Reference definition of a grouping: the players `template` yields for
      `team`, in slot order. */
  function Instantiate(template: seq<Slot>, team: u8): (r: seq<FBPlayer>)
    requires FitsU8(template, team)
    ensures |r| == |template|
    ensures forall i :: 0 <= i < |r| ==>
              r[i].number as int == template[i].base + team as int &&
              r[i].position == template[i].position &&
              r[i].team == team
  {
    if template == [] then []
    else
      assert FitsU8(template[1..], team) by {
        forall i | 0 <= i < |template[1..]| ensures template[1..][i].base + team as int < 256 {
          assert template[1..][i] == template[i + 1];
        }
      }
      [FBPlayer((template[0].base + team as int) as u8, template[0].position, team)]
        + Instantiate(template[1..], team)
  }

  /** `FBState::build_std_21_offense`: eleven records built one by one and
      returned in formation order. */
  function BuildStd21Offense(team: u8): (r: seq<FBPlayer>)
    requires team <= MaxOffenseTeam
    ensures |r| == 11
    ensures forall i :: 0 <= i < |r| ==> r[i].team == team
    ensures r == Instantiate(OffenseTemplate, team)
  {
    var qb := FBPlayer(12 + team, QB, team);
    var hb := FBPlayer(20 + team, HB, team);
    var fb := FBPlayer(33 + team, FB, team);
    var te := FBPlayer(88 + team, TE, team);
    var wr1 := FBPlayer(84 + team, WR, team);
    var wr2 := FBPlayer(81 + team, WR, team);
    var c := FBPlayer(68 + team, HB, team);
    var lg := FBPlayer(77 + team, HB, team);
    var rg := FBPlayer(68 + team, HB, team);
    var lt := FBPlayer(69 + team, HB, team);
    var rt := FBPlayer(71 + team, HB, team);
    var r := [qb, hb, fb, te, wr1, wr2, c, lg, rg, lt, rt];
    OffenseFitsU8(team);
    assert forall i :: 0 <= i < 11 ==> r[i] == Instantiate(OffenseTemplate, team)[i];
    r
  }

  /** `FBState::build_std_34_defense`: eleven records built one by one and
      returned in formation order. */
  function BuildStd34Defense(team: u8): (r: seq<FBPlayer>)
    requires team <= MaxDefenseTeam
    ensures |r| == 11
    ensures forall i :: 0 <= i < |r| ==> r[i].team == team
    ensures r == Instantiate(DefenseTemplate, team)
  {
    var nt := FBPlayer(91 + team, DT, team);
    var dt1 := FBPlayer(94 + team, DE, team);
    var dt2 := FBPlayer(96 + team, DE, team);
    var ilb1 := FBPlayer(56 + team, LB, team);
    var ilb2 := FBPlayer(60 + team, LB, team);
    var olb1 := FBPlayer(63 + team, LB, team);
    var olb2 := FBPlayer(52 + team, LB, team);
    var cb1 := FBPlayer(20 + team, CB, team);
    var cb2 := FBPlayer(26 + team, CB, team);
    var fs := FBPlayer(30 + team, FS, team);
    var ss := FBPlayer(36 + team, SS, team);
    var r := [nt, dt1, dt2, ilb1, ilb2, olb1, olb2, cb1, cb2, fs, ss];
    DefenseFitsU8(team);
    assert forall i :: 0 <= i < 11 ==> r[i] == Instantiate(DefenseTemplate, team)[i];
    r
  }

  /** The offense's numbers fit in a u8 exactly when the team id is at most 167. */
  lemma OffenseFitsU8(team: u8)
    ensures FitsU8(OffenseTemplate, team) <==> team <= MaxOffenseTeam
  {
    if FitsU8(OffenseTemplate, team) {
      assert OffenseTemplate[3].base == 88;
    }
  }

  /** The defense's numbers fit in a u8 exactly when the team id is at most 159. */
  lemma DefenseFitsU8(team: u8)
    ensures FitsU8(DefenseTemplate, team) <==> team <= MaxDefenseTeam
  {
    if FitsU8(DefenseTemplate, team) {
      assert DefenseTemplate[2].base == 96;
    }
  }

  /** `FBState::build_std_team`: the offense of team 0, extended in place with
      the defense of team 1. */
  method BuildStdTeam() returns (players: seq<FBPlayer>)
    ensures |players| == 22
    ensures players[..11] == BuildStd21Offense(0) && players[11..] == BuildStd34Defense(1)
    ensures forall i :: 0 <= i < |players| ==> players[i].team == if i < 11 then 0 else 1
    ensures forall i, j :: 0 <= i < j < |players| ==>
              (players[i].number == players[j].number <==> i == 6 && j == 8)
  {
    players := BuildStd21Offense(0);
    var defense := BuildStd34Defense(1);
    StdTeamSharedNumbers(players, defense);
    players := players + defense;
  }

  /** `FBState::new`: a state whose roster is empty. */
  function New(): (s: FBState)
    ensures |s.players| == 0
  {
    FBState([])
  }

  /** Offense positions in order: QB, HB, FB, TE, WR, WR, and HB for all five
      linemen, so HB appears six times and no defensive tag appears. */
  lemma OffensePositions(team: u8)
    requires team <= MaxOffenseTeam
    ensures forall i :: 6 <= i < 11 ==> BuildStd21Offense(team)[i].position == HB
    ensures multiset(seq(11, i requires 0 <= i < 11 => BuildStd21Offense(team)[i].position))
         == multiset{QB, FB, TE, WR, WR, HB, HB, HB, HB, HB, HB}
  {
    var r := BuildStd21Offense(team);
    var ps := seq(11, i requires 0 <= i < 11 => r[i].position);
    assert ps == [QB, HB, FB, TE, WR, WR, HB, HB, HB, HB, HB];
  }

  /** Defense positions in order: DT, DE, DE, LB x4, CB, CB, FS, SS. The nose
      tackle is tagged DT, so the tag NT never appears and DT appears once. */
  lemma DefensePositions(team: u8)
    requires team <= MaxDefenseTeam
    ensures forall i :: 0 <= i < 11 ==> BuildStd34Defense(team)[i].position != NT
    ensures forall i :: 0 <= i < 11 ==> (BuildStd34Defense(team)[i].position == DT <==> i == 0)
    ensures multiset(seq(11, i requires 0 <= i < 11 => BuildStd34Defense(team)[i].position))
         == multiset{DT, DE, DE, LB, LB, LB, LB, CB, CB, FS, SS}
  {
    var r := BuildStd34Defense(team);
    var ps := seq(11, i requires 0 <= i < 11 => r[i].position);
    assert ps == [DT, DE, DE, LB, LB, LB, LB, CB, CB, FS, SS];
  }

  /** Offense jersey numbers are not unique: the only two players sharing a
      number are the center (index 6) and the right guard (index 8). */
  lemma OffenseSharedNumber(team: u8)
    requires team <= MaxOffenseTeam
    ensures forall i, j :: 0 <= i < j < 11 ==>
              (BuildStd21Offense(team)[i].number == BuildStd21Offense(team)[j].number <==> i == 6 && j == 8)
  {
  }

  /** Defense jersey numbers are pairwise distinct. */
  lemma DefenseNumbersDistinct(team: u8)
    requires team <= MaxDefenseTeam
    ensures forall i, j :: 0 <= i < j < 11 ==>
              BuildStd34Defense(team)[i].number != BuildStd34Defense(team)[j].number
  {
  }

  /** Building both groupings with the same team id repeats a number: the HB
      and the first CB both wear 20 + team. */
  lemma SameTeamRepeatsNumber(team: u8)
    requires team <= MaxDefenseTeam
    ensures BuildStd21Offense(team)[1].number == BuildStd34Defense(team)[7].number
    ensures BuildStd21Offense(team)[1].position == HB && BuildStd34Defense(team)[7].position == CB
  {
  }

  /** Team id offsets every number: two offenses built for different team ids
      differ at every slot by exactly the difference of the ids. */
  lemma OffenseTeamOffset(a: u8, b: u8, i: nat)
    requires a <= MaxOffenseTeam && b <= MaxOffenseTeam && i < 11
    ensures BuildStd21Offense(b)[i].number as int - BuildStd21Offense(a)[i].number as int == b as int - a as int
  {
  }

  /** No number of the offense of team 0 is also a number of the defense of team 1. */
  lemma StdHalvesDisjoint()
    ensures forall i, j :: 0 <= i < 11 && 0 <= j < 11 ==>
              BuildStd21Offense(0)[i].number != BuildStd34Defense(1)[j].number
  {
    forall i, j | 0 <= i < 11 && 0 <= j < 11
      ensures BuildStd21Offense(0)[i].number != BuildStd34Defense(1)[j].number
    {
      OffenseNumberOfTeam0(i);
      DefenseNumberOfTeam1(j);
    }
  }

  /** The numbers the offense of team 0 wears. */
  lemma OffenseNumberOfTeam0(i: nat)
    requires i < 11
    ensures BuildStd21Offense(0)[i].number as int in {12, 20, 33, 88, 84, 81, 68, 77, 69, 71}
  {
    assert OffenseTemplate[i].base in {12, 20, 33, 88, 84, 81, 68, 77, 69, 71};
  }

  /** The numbers the defense of team 1 wears. */
  lemma DefenseNumberOfTeam1(j: nat)
    requires j < 11
    ensures BuildStd34Defense(1)[j].number as int in {92, 95, 97, 57, 61, 64, 53, 21, 27, 31, 37}
  {
    assert DefenseTemplate[j].base + 1 in {92, 95, 97, 57, 61, 64, 53, 21, 27, 31, 37};
  }

  /** In the standard team (offense of team 0 followed by defense of team 1)
      the only repeated number is the one the offense already repeats. */
  lemma StdTeamSharedNumbers(players: seq<FBPlayer>, defense: seq<FBPlayer>)
    requires players == BuildStd21Offense(0) && defense == BuildStd34Defense(1)
    ensures forall i, j :: 0 <= i < j < |players + defense| ==>
              ((players + defense)[i].number == (players + defense)[j].number <==> i == 6 && j == 8)
  {
    assert forall i, j :: 0 <= i < j < |players| ==>
        (players[i].number == players[j].number <==> i == 6 && j == 8) by {
      forall i, j | 0 <= i < j < |players|
        ensures players[i].number == players[j].number <==> i == 6 && j == 8
      {
        assert j < 11;
        OffenseSharedNumber(0);
      }
    }
    assert forall i, j :: 0 <= i < j < |defense| ==> defense[i].number != defense[j].number by {
      forall i, j | 0 <= i < j < |defense| ensures defense[i].number != defense[j].number {
        assert j < 11;
        DefenseNumbersDistinct(1);
      }
    }
    assert forall i, j :: 0 <= i < |players| && 0 <= j < |defense| ==>
        players[i].number != defense[j].number by {
      forall i, j | 0 <= i < |players| && 0 <= j < |defense|
        ensures players[i].number != defense[j].number
      {
        assert i < 11 && j < 11;
        StdHalvesDisjoint();
      }
    }
    ExtendSharedNumbers(players, defense, 6, 8);
  }

  /** Appending a grouping whose numbers are distinct and disjoint from the
      first grouping's keeps the repeated pairs of the first and adds none. */
  lemma ExtendSharedNumbers(first: seq<FBPlayer>, second: seq<FBPlayer>, i0: nat, j0: nat)
    requires i0 < j0 < |first|
    requires forall i, j :: 0 <= i < j < |first| ==> (first[i].number == first[j].number <==> i == i0 && j == j0)
    requires forall i, j :: 0 <= i < j < |second| ==> second[i].number != second[j].number
    requires forall i, j :: 0 <= i < |first| && 0 <= j < |second| ==> first[i].number != second[j].number
    ensures forall i, j :: 0 <= i < j < |first + second| ==>
              ((first + second)[i].number == (first + second)[j].number <==> i == i0 && j == j0)
  {
  }
}
