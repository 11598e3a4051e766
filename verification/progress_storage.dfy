/** Loading and merging the persisted progress
    (src/lib/progress-storage.ts). The storage reads and writes themselves
    are I/O: what `localStorage` and the in-memory fallback hold is passed in,
    and the record to be saved is returned. */
module ProgressStorage {
  import opened Wrappers
  import opened ProgressTypes

  /** What `loadProgress` can observe: whether it runs in a browser, whether
      the storage probe succeeded, the in-memory fallback, and the parsed
      stored record (`None` when nothing is stored or reading/parsing throws). */
  datatype StorageView = StorageView(
    hasWindow: bool,
    storageAvailable: bool,
    memory: Option<GameProgress>,
    saved: Option<GameProgress>)

  /** The dungeon-fill step: entries 1..6 come from the parsed record when
      present and from `INITIAL_PROGRESS` otherwise; no other key survives. */
  function FillDungeons(parsed: GameProgress): (r: GameProgress)
    ensures HasAllDungeons(r)
    ensures forall d :: IsDungeonId(d) ==>
      r.dungeons[d] == (if d in parsed.dungeons then parsed.dungeons[d] else FreshDungeon(d))
    ensures r == parsed.(dungeons := r.dungeons)
  {
    parsed.(dungeons := map d | d in DungeonIds ::
      if d in parsed.dungeons then parsed.dungeons[d] else InitialProgress.dungeons[d])
  }

  /** `loadProgress`. */
  function LoadProgress(env: StorageView): (r: GameProgress)
    ensures !env.hasWindow ==> r == InitialProgress
    ensures env.hasWindow && !env.storageAvailable && env.memory.Some? ==> r == env.memory.value
    ensures env.hasWindow && (env.storageAvailable || env.memory.None?) && env.saved.Some? ==>
      r == FillDungeons(env.saved.value)
  {
    if !env.hasWindow then InitialProgress
    else if !env.storageAvailable && env.memory.Some? then env.memory.value
    else if env.saved.Some? then FillDungeons(env.saved.value)
    else if env.memory.Some? then env.memory.value
    else InitialProgress
  }

  /** Whatever path `loadProgress` takes, dungeons 1..6 all have entries,
      unless it hands back an in-memory record that lacks one. */
  lemma LoadProgressHasAllDungeons(env: StorageView)
    requires env.memory.Some? ==> HasAllDungeons(env.memory.value)
    ensures HasAllDungeons(LoadProgress(env))
  {
    InitialProgressFacts();
  }

  /** The new best time: the run's time when none is recorded (0), else
      the smaller of the two. */
  function MergeBestTime(best: int, time: int): (r: int)
    ensures best == 0 ==> r == time
    ensures best != 0 ==> r <= best && r <= time && (r == best || r == time)
  {
    if best == 0 then time else MinInt(best, time)
  }

  /** A recorded best time never gets worse or unset through a run that
      lasted at least a second. (A run shorter than a second reports time
      0, which the source takes as "unset".) */
  lemma BestTimeNeverRegresses(best: int, time: int)
    requires best > 0 && time > 0
    ensures 0 < MergeBestTime(best, time) <= best
  {
  }

  /** The merged record of one dungeon after a run reaching `stage` with
      `score` in `time` seconds. */
  function MergeDungeon(d: DungeonProgress, stage: int, score: int, time: int): (r: DungeonProgress)
    ensures r.completedStages >= d.completedStages && r.completedStages >= stage
    ensures r.stars >= d.stars && r.stars >= stage
    ensures r.bestScore >= d.bestScore && r.bestScore >= score
    ensures r.completedStages in {d.completedStages, stage} && r.stars in {d.stars, stage}
    ensures r.bestScore in {d.bestScore, score}
    ensures r.bestTime == MergeBestTime(d.bestTime, time)
    ensures r.unlocked == d.unlocked
  {
    DungeonProgress(
      completedStages := MaxInt(d.completedStages, stage),
      stars := MaxInt(d.stars, stage),
      bestTime := MergeBestTime(d.bestTime, time),
      bestScore := MaxInt(d.bestScore, score),
      unlocked := d.unlocked)
  }

  /** Whether finishing at `stage` in `dungeonId` unlocks the next dungeon. */
  predicate UnlocksNext(dungeonId: int, stage: int)
  {
    stage >= 5 && dungeonId < 6
  }

  /** The value `updateDungeonProgress` returns (and saves) for the loaded
      record `p`; `None` when it throws because the next dungeon's entry is
      missing. */
  function Merged(p: GameProgress, dungeonId: int, stage: int, score: int, time: int): (r: Option<GameProgress>)
  {
    if dungeonId !in p.dungeons then Some(p)
    else if UnlocksNext(dungeonId, stage) && dungeonId + 1 !in p.dungeons then None
    else
      var ds := p.dungeons[dungeonId := MergeDungeon(p.dungeons[dungeonId], stage, score, time)];
      var ds' := if UnlocksNext(dungeonId, stage) then ds[dungeonId + 1 := ds[dungeonId + 1].(unlocked := true)] else ds;
      Some(p.(dungeons := ds',
              highestStage := MaxInt(p.highestStage, stage),
              highestDungeon := MaxInt(p.highestDungeon, dungeonId)))
  }

  /** `updateDungeonProgress`, writing the loaded record field by field. */
  method UpdateDungeonProgress(loaded: GameProgress, dungeonId: int, stage: int, score: int, time: int)
    returns (r: Option<GameProgress>)
    ensures r == Merged(loaded, dungeonId, stage, score, time)
  {
    var progress := loaded;
    if dungeonId !in progress.dungeons {
      return Some(progress);
    }
    var entry := progress.dungeons[dungeonId];
    entry := entry.(completedStages := MaxInt(entry.completedStages, stage));
    entry := entry.(stars := MaxInt(entry.stars, stage));
    entry := entry.(bestScore := MaxInt(entry.bestScore, score));
    if entry.bestTime == 0 {
      entry := entry.(bestTime := time);
    } else {
      entry := entry.(bestTime := MinInt(entry.bestTime, time));
    }
    progress := progress.(dungeons := progress.dungeons[dungeonId := entry]);
    if stage >= 5 && dungeonId < 6 {
      if dungeonId + 1 !in progress.dungeons {
        return None;
      }
      var next := progress.dungeons[dungeonId + 1];
      progress := progress.(dungeons := progress.dungeons[dungeonId + 1 := next.(unlocked := true)]);
    }
    progress := progress.(highestStage := MaxInt(progress.highestStage, stage));
    progress := progress.(highestDungeon := MaxInt(progress.highestDungeon, dungeonId));
    r := Some(progress);
  }

  /** `after` records at least what `before` did: same dungeons, no best
      lowered (best time aside), nothing re-locked, totals and the current
      dungeon untouched. */
  predicate NoRegression(before: GameProgress, after: GameProgress)
  {
    && after.dungeons.Keys == before.dungeons.Keys
    && (forall d :: d in before.dungeons ==>
          && after.dungeons[d].completedStages >= before.dungeons[d].completedStages
          && after.dungeons[d].stars >= before.dungeons[d].stars
          && after.dungeons[d].bestScore >= before.dungeons[d].bestScore
          && (before.dungeons[d].unlocked ==> after.dungeons[d].unlocked))
    && after.highestStage >= before.highestStage
    && after.highestDungeon >= before.highestDungeon
    && after.totalTokens == before.totalTokens
    && after.totalKills == before.totalKills
    && after.currentDungeon == before.currentDungeon
  }

  /** A dungeon id with no entry leaves the record as loaded. */
  lemma MergedMissingDungeon(p: GameProgress, dungeonId: int, stage: int, score: int, time: int)
    requires dungeonId !in p.dungeons
    ensures Merged(p, dungeonId, stage, score, time) == Some(p)
  {
  }

  /** On a record of exactly the six dungeons the update never throws and
      keeps that shape. */
  lemma MergedTotalOnAllDungeons(p: GameProgress, dungeonId: int, stage: int, score: int, time: int)
    requires HasAllDungeons(p)
    ensures Merged(p, dungeonId, stage, score, time).Some?
    ensures HasAllDungeons(Merged(p, dungeonId, stage, score, time).value)
  {
  }

  /** The update is a monotone merge. */
  lemma MergedNoRegression(p: GameProgress, dungeonId: int, stage: int, score: int, time: int)
    requires Merged(p, dungeonId, stage, score, time).Some?
    ensures NoRegression(p, Merged(p, dungeonId, stage, score, time).value)
  {
  }

  /** Exactly the entries of `dungeonId` and, on an unlock, `dungeonId + 1`
      can change; the unlock sets only the `unlocked` flag, and it happens
      exactly when the run reached stage 5 of a dungeon before the sixth. */
  lemma MergedFrame(p: GameProgress, dungeonId: int, stage: int, score: int, time: int)
    requires dungeonId in p.dungeons
    requires Merged(p, dungeonId, stage, score, time).Some?
    ensures var q := Merged(p, dungeonId, stage, score, time).value;
      && q.dungeons[dungeonId] == MergeDungeon(p.dungeons[dungeonId], stage, score, time)
      && (forall d :: d in p.dungeons && d != dungeonId && d != dungeonId + 1 ==> q.dungeons[d] == p.dungeons[d])
      && (dungeonId + 1 in p.dungeons ==>
            q.dungeons[dungeonId + 1] ==
              p.dungeons[dungeonId + 1].(unlocked := p.dungeons[dungeonId + 1].unlocked || UnlocksNext(dungeonId, stage)))
      && q.highestStage == MaxInt(p.highestStage, stage)
      && q.highestDungeon == MaxInt(p.highestDungeon, dungeonId)
  {
  }

  /** Reporting the same run twice records the same as reporting it once. */
  lemma MergedIdempotent(p: GameProgress, dungeonId: int, stage: int, score: int, time: int)
    requires Merged(p, dungeonId, stage, score, time).Some?
    ensures var q := Merged(p, dungeonId, stage, score, time).value;
      Merged(q, dungeonId, stage, score, time) == Some(q)
  {
    var q := Merged(p, dungeonId, stage, score, time).value;
    if dungeonId in p.dungeons {
      var e := q.dungeons[dungeonId];
      assert MergeDungeon(e, stage, score, time) == e;
      if UnlocksNext(dungeonId, stage) {
        assert q.dungeons[dungeonId + 1].unlocked;
        assert q.dungeons[dungeonId + 1 := q.dungeons[dungeonId + 1].(unlocked := true)] == q.dungeons;
      }
      assert q.dungeons[dungeonId := e] == q.dungeons;
    }
  }

  /** The documented 0..5 range of `completedStages` and `stars` survives
      only reports of stages within 0..5: nothing clamps the stage. */
  lemma MergedDocumentedRange(p: GameProgress, dungeonId: int, stage: int, score: int, time: int)
    requires dungeonId in p.dungeons && InDocumentedRange(p.dungeons[dungeonId])
    requires Merged(p, dungeonId, stage, score, time).Some?
    ensures InDocumentedRange(Merged(p, dungeonId, stage, score, time).value.dungeons[dungeonId])
        <==> stage <= 5
  {
  }
}
