/** The six dungeons and the stage arithmetic over them
    (src/lib/dungeon-config.ts). */
module DungeonConfig {
  import opened Wrappers

  /** A `DungeonTheme`; the colours and description are display text and
      are left out. */
  datatype DungeonTheme = DungeonTheme(
    id: int,
    name: string,
    stages: int,
    enemyModifier: real,
    tokenMultiplier: real,
    xpMultiplier: real)

  /** `DUNGEON_THEMES`. */
  const Themes: seq<DungeonTheme> := [
    DungeonTheme(1, "Void Nexus", 5, 1.0, 1.0, 1.0),
    DungeonTheme(2, "Crimson Wasteland", 5, 1.2, 1.3, 1.2),
    DungeonTheme(3, "Frozen Citadel", 5, 1.5, 1.6, 1.4),
    DungeonTheme(4, "Toxic Swamp", 5, 1.8, 2.0, 1.6),
    DungeonTheme(5, "Lightning Temple", 5, 2.2, 2.5, 1.8),
    DungeonTheme(6, "Shadow Realm", 5, 2.6, 3.0, 2.0)
  ]

  /** The table is ordered by id, every dungeon has five stages, and the
      difficulty and both reward multipliers rise strictly with the id. */
  lemma ThemesTableFacts()
    ensures |Themes| == 6
    ensures forall i :: 0 <= i < |Themes| ==> Themes[i].id == i + 1 && Themes[i].stages == 5
    ensures forall i, j :: 0 <= i < j < |Themes| ==>
      Themes[i].enemyModifier < Themes[j].enemyModifier
      && Themes[i].tokenMultiplier < Themes[j].tokenMultiplier
      && Themes[i].xpMultiplier < Themes[j].xpMultiplier
  {
  }

  /** `getDungeonTheme`: the theme at index `dungeonId - 1`, or the first
      theme when there is none there. */
  function GetDungeonTheme(dungeonId: int): (t: DungeonTheme)
    ensures 1 <= dungeonId <= 6 ==> t.id == dungeonId
    ensures !(1 <= dungeonId <= 6) ==> t == Themes[0]
    ensures t in Themes
  {
    if 0 <= dungeonId - 1 < |Themes| then Themes[dungeonId - 1] else Themes[0]
  }

  /** The sum of the `stages` fields of `ts`, folded from the left as
      `reduce((sum, d) => sum + d.stages, 0)` does. */
  function SumStages(ts: seq<DungeonTheme>): int
  {
    if ts == [] then 0 else SumStages(ts[..|ts| - 1]) + ts[|ts| - 1].stages
  }

  /** Every prefix of the table holds five stages per dungeon. */
  lemma {:induction false} SumStagesPrefix(k: nat)
    requires k <= |Themes|
    ensures SumStages(Themes[..k]) == 5 * k
  {
    if k > 0 {
      SumStagesPrefix(k - 1);
      assert Themes[..k][..k - 1] == Themes[..k - 1];
    }
  }

  /** `getTotalStages`. */
  function GetTotalStages(): (n: int)
    ensures n == 30
  {
    SumStagesPrefix(|Themes|);
    assert Themes[..|Themes|] == Themes;
    SumStages(Themes)
  }

  /** `getGlobalStageNumber`: adds the stages of every earlier dungeon to
      `stageNumber`. Reading a seventh or later table entry throws in the
      source; that is the `None` result. */
  method GetGlobalStageNumber(dungeonId: int, stageNumber: int) returns (r: Option<int>)
    ensures 1 <= dungeonId <= 7 ==> r == Some((dungeonId - 1) * 5 + stageNumber)
    ensures dungeonId <= 1 ==> r == Some(stageNumber)
    ensures r.None? <==> dungeonId > 7
  {
    var globalStage := 0;
    var i := 0;
    while i < dungeonId - 1
      invariant 0 <= i <= |Themes|
      invariant dungeonId - 1 > 0 ==> i <= dungeonId - 1
      invariant dungeonId - 1 <= 0 ==> i == 0
      invariant globalStage == 5 * i
    {
      if i >= |Themes| {
        return None;
      }
      globalStage := globalStage + Themes[i].stages;
      i := i + 1;
    }
    r := Some(globalStage + stageNumber);
  }
}
