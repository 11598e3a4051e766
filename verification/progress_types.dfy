/** The persisted progress record and its initial value
    (src/types/progress.ts). */
module ProgressTypes {

  /** One dungeon's bests. `completedStages` and `stars` are documented as
      0..5; `bestTime` is in seconds and 0 means "not set". */
  datatype DungeonProgress = DungeonProgress(
    completedStages: int,
    stars: int,
    bestTime: int,
    bestScore: int,
    unlocked: bool)

  /** `GameProgress`: the per-dungeon records keyed by dungeon id plus the
      global totals. */
  datatype GameProgress = GameProgress(
    currentDungeon: int,
    dungeons: map<int, DungeonProgress>,
    totalTokens: int,
    totalKills: int,
    highestStage: int,
    highestDungeon: int)

  /** The record every dungeon starts from; only the first is unlocked. */
  function FreshDungeon(id: int): (d: DungeonProgress)
    ensures d.completedStages == 0 && d.stars == 0 && d.bestTime == 0 && d.bestScore == 0
    ensures d.unlocked <==> id == 1
  {
    DungeonProgress(0, 0, 0, 0, id == 1)
  }

  /** `INITIAL_PROGRESS`. */
  const InitialProgress: GameProgress :=
    GameProgress(
      currentDungeon := 1,
      dungeons := map[
        1 := DungeonProgress(0, 0, 0, 0, true),
        2 := DungeonProgress(0, 0, 0, 0, false),
        3 := DungeonProgress(0, 0, 0, 0, false),
        4 := DungeonProgress(0, 0, 0, 0, false),
        5 := DungeonProgress(0, 0, 0, 0, false),
        6 := DungeonProgress(0, 0, 0, 0, false)],
      totalTokens := 0,
      totalKills := 0,
      highestStage := 0,
      highestDungeon := 1)

  /** The six dungeon ids. */
  const DungeonIds: set<int> := {1, 2, 3, 4, 5, 6}

  predicate IsDungeonId(d: int) { 1 <= d <= 6 }

  /** The record holds exactly the dungeons 1..6. */
  predicate HasAllDungeons(p: GameProgress)
  {
    p.dungeons.Keys == DungeonIds
  }

  /** The documented ranges of the per-dungeon counters. */
  predicate InDocumentedRange(d: DungeonProgress)
  {
    0 <= d.completedStages <= 5 && 0 <= d.stars <= 5
  }

  lemma InitialProgressFacts()
    ensures HasAllDungeons(InitialProgress)
    ensures forall d :: d in DungeonIds <==> IsDungeonId(d)
    ensures forall d :: IsDungeonId(d) ==> InitialProgress.dungeons[d] == FreshDungeon(d)
    ensures forall d :: IsDungeonId(d) ==> InDocumentedRange(InitialProgress.dungeons[d])
    ensures InitialProgress.currentDungeon == 1 && InitialProgress.highestDungeon == 1
    ensures InitialProgress.totalTokens == 0 && InitialProgress.totalKills == 0
    ensures InitialProgress.highestStage == 0
  {
  }
}
