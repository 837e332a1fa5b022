/**
 * The player-progress store: player statistics, preferences, the equation
 * being played with its hint level, and the lists of completed equations and
 * unlocked levels. Each action replaces some of the store's fields; the pure
 * functions below say what the new statistics are, and the store's methods
 * are proved to install exactly them.
 */
module GameStore {
  import opened Seqs
  import opened ChemTypes

  // ----------------------------------------------------------- initial state

  const InitialPlayerStats := PlayerStats(
    level := 1, experience := 0,
    protonPoints := 100, electronCredits := 50, neutronNuggets := 10,
    equationsBalanced := 0, perfectBalances := 0, totalPlayTime := 0,
    currentStreak := 0, bestStreak := 0, achievements := [])

  const InitialPreferences := UserPreferences(
    soundEnabled := true, musicEnabled := true,
    soundVolume := 0.7, musicVolume := 0.5,
    theme := "default", difficulty := Normal, hintsEnabled := true,
    animations := Full, language := "en")

  const InitialLevels := ["level-1"]

  // -------------------------------------------------------------- patches

  /** A supplied field of a `Partial<...>` argument, or the value it leaves in place. */
  function Pick<T>(supplied: Option<T>, current: T): T
  {
    if supplied.Some? then supplied.value else current
  }

  /** `Partial<PlayerStats>`: each field either supplied or absent. */
  datatype StatsPatch = StatsPatch(
    level: Option<int>, experience: Option<int>,
    protonPoints: Option<int>, electronCredits: Option<int>, neutronNuggets: Option<int>,
    equationsBalanced: Option<int>, perfectBalances: Option<int>, totalPlayTime: Option<int>,
    currentStreak: Option<int>, bestStreak: Option<int>, achievements: Option<seq<Opaque>>)

  const NoStats := StatsPatch(None, None, None, None, None, None, None, None, None, None, None)

  /** `{ ...stats, ...patch }` */
  function MergeStats(s: PlayerStats, p: StatsPatch): PlayerStats
  {
    PlayerStats(
      Pick(p.level, s.level), Pick(p.experience, s.experience),
      Pick(p.protonPoints, s.protonPoints), Pick(p.electronCredits, s.electronCredits),
      Pick(p.neutronNuggets, s.neutronNuggets), Pick(p.equationsBalanced, s.equationsBalanced),
      Pick(p.perfectBalances, s.perfectBalances), Pick(p.totalPlayTime, s.totalPlayTime),
      Pick(p.currentStreak, s.currentStreak), Pick(p.bestStreak, s.bestStreak),
      Pick(p.achievements, s.achievements))
  }

  /** `{ ...p, ...q }`: the later patch wins where both supply a field. */
  function Overlay<T>(p: Option<T>, q: Option<T>): Option<T>
  {
    if q.Some? then q else p
  }

  function OverlayStats(p: StatsPatch, q: StatsPatch): StatsPatch
  {
    StatsPatch(
      Overlay(p.level, q.level), Overlay(p.experience, q.experience),
      Overlay(p.protonPoints, q.protonPoints), Overlay(p.electronCredits, q.electronCredits),
      Overlay(p.neutronNuggets, q.neutronNuggets), Overlay(p.equationsBalanced, q.equationsBalanced),
      Overlay(p.perfectBalances, q.perfectBalances), Overlay(p.totalPlayTime, q.totalPlayTime),
      Overlay(p.currentStreak, q.currentStreak), Overlay(p.bestStreak, q.bestStreak),
      Overlay(p.achievements, q.achievements))
  }

  /** Every field the patch supplies is overwritten, and every field it leaves out keeps its value. */
  lemma MergeStatsFields(s: PlayerStats, p: StatsPatch)
    ensures p.level.Some? ==> MergeStats(s, p).level == p.level.value
    ensures p.level.None? ==> MergeStats(s, p).level == s.level
    ensures p.experience.Some? ==> MergeStats(s, p).experience == p.experience.value
    ensures p.experience.None? ==> MergeStats(s, p).experience == s.experience
    ensures p.protonPoints.Some? ==> MergeStats(s, p).protonPoints == p.protonPoints.value
    ensures p.protonPoints.None? ==> MergeStats(s, p).protonPoints == s.protonPoints
    ensures p.electronCredits.Some? ==> MergeStats(s, p).electronCredits == p.electronCredits.value
    ensures p.electronCredits.None? ==> MergeStats(s, p).electronCredits == s.electronCredits
    ensures p.neutronNuggets.Some? ==> MergeStats(s, p).neutronNuggets == p.neutronNuggets.value
    ensures p.neutronNuggets.None? ==> MergeStats(s, p).neutronNuggets == s.neutronNuggets
    ensures p.equationsBalanced.Some? ==> MergeStats(s, p).equationsBalanced == p.equationsBalanced.value
    ensures p.equationsBalanced.None? ==> MergeStats(s, p).equationsBalanced == s.equationsBalanced
    ensures p.perfectBalances.Some? ==> MergeStats(s, p).perfectBalances == p.perfectBalances.value
    ensures p.perfectBalances.None? ==> MergeStats(s, p).perfectBalances == s.perfectBalances
    ensures p.totalPlayTime.Some? ==> MergeStats(s, p).totalPlayTime == p.totalPlayTime.value
    ensures p.totalPlayTime.None? ==> MergeStats(s, p).totalPlayTime == s.totalPlayTime
    ensures p.currentStreak.Some? ==> MergeStats(s, p).currentStreak == p.currentStreak.value
    ensures p.currentStreak.None? ==> MergeStats(s, p).currentStreak == s.currentStreak
    ensures p.bestStreak.Some? ==> MergeStats(s, p).bestStreak == p.bestStreak.value
    ensures p.bestStreak.None? ==> MergeStats(s, p).bestStreak == s.bestStreak
    ensures p.achievements.Some? ==> MergeStats(s, p).achievements == p.achievements.value
    ensures p.achievements.None? ==> MergeStats(s, p).achievements == s.achievements
  {
  }

  /**
   * The laws of a shallow merge: the empty patch changes nothing, merging
   * twice is merging once, and two merges in a row are one merge of the
   * overlaid patches.
   */
  lemma MergeStatsProperties(s: PlayerStats, p: StatsPatch, q: StatsPatch)
    ensures MergeStats(s, NoStats) == s
    ensures MergeStats(MergeStats(s, p), p) == MergeStats(s, p)
    ensures MergeStats(MergeStats(s, p), q) == MergeStats(s, OverlayStats(p, q))
  {
  }

  /** `Partial<UserPreferences>` */
  datatype PreferencesPatch = PreferencesPatch(
    soundEnabled: Option<bool>, musicEnabled: Option<bool>,
    soundVolume: Option<real>, musicVolume: Option<real>,
    theme: Option<string>, difficulty: Option<GameDifficulty>, hintsEnabled: Option<bool>,
    animations: Option<Animations>, language: Option<string>)

  const NoPreferences := PreferencesPatch(None, None, None, None, None, None, None, None, None)

  /** `{ ...preferences, ...patch }` */
  function MergePreferences(u: UserPreferences, p: PreferencesPatch): UserPreferences
  {
    UserPreferences(
      Pick(p.soundEnabled, u.soundEnabled), Pick(p.musicEnabled, u.musicEnabled),
      Pick(p.soundVolume, u.soundVolume), Pick(p.musicVolume, u.musicVolume),
      Pick(p.theme, u.theme), Pick(p.difficulty, u.difficulty), Pick(p.hintsEnabled, u.hintsEnabled),
      Pick(p.animations, u.animations), Pick(p.language, u.language))
  }

  function OverlayPreferences(p: PreferencesPatch, q: PreferencesPatch): PreferencesPatch
  {
    PreferencesPatch(
      Overlay(p.soundEnabled, q.soundEnabled), Overlay(p.musicEnabled, q.musicEnabled),
      Overlay(p.soundVolume, q.soundVolume), Overlay(p.musicVolume, q.musicVolume),
      Overlay(p.theme, q.theme), Overlay(p.difficulty, q.difficulty), Overlay(p.hintsEnabled, q.hintsEnabled),
      Overlay(p.animations, q.animations), Overlay(p.language, q.language))
  }

  /** Every field the patch supplies is overwritten, and every field it leaves out keeps its value. */
  lemma MergePreferencesFields(u: UserPreferences, p: PreferencesPatch)
    ensures p.soundEnabled.Some? ==> MergePreferences(u, p).soundEnabled == p.soundEnabled.value
    ensures p.soundEnabled.None? ==> MergePreferences(u, p).soundEnabled == u.soundEnabled
    ensures p.musicEnabled.Some? ==> MergePreferences(u, p).musicEnabled == p.musicEnabled.value
    ensures p.musicEnabled.None? ==> MergePreferences(u, p).musicEnabled == u.musicEnabled
    ensures p.soundVolume.Some? ==> MergePreferences(u, p).soundVolume == p.soundVolume.value
    ensures p.soundVolume.None? ==> MergePreferences(u, p).soundVolume == u.soundVolume
    ensures p.musicVolume.Some? ==> MergePreferences(u, p).musicVolume == p.musicVolume.value
    ensures p.musicVolume.None? ==> MergePreferences(u, p).musicVolume == u.musicVolume
    ensures p.theme.Some? ==> MergePreferences(u, p).theme == p.theme.value
    ensures p.theme.None? ==> MergePreferences(u, p).theme == u.theme
    ensures p.difficulty.Some? ==> MergePreferences(u, p).difficulty == p.difficulty.value
    ensures p.difficulty.None? ==> MergePreferences(u, p).difficulty == u.difficulty
    ensures p.hintsEnabled.Some? ==> MergePreferences(u, p).hintsEnabled == p.hintsEnabled.value
    ensures p.hintsEnabled.None? ==> MergePreferences(u, p).hintsEnabled == u.hintsEnabled
    ensures p.animations.Some? ==> MergePreferences(u, p).animations == p.animations.value
    ensures p.animations.None? ==> MergePreferences(u, p).animations == u.animations
    ensures p.language.Some? ==> MergePreferences(u, p).language == p.language.value
    ensures p.language.None? ==> MergePreferences(u, p).language == u.language
  {
  }

  /** The same shallow-merge laws for preferences. */
  lemma MergePreferencesProperties(u: UserPreferences, p: PreferencesPatch, q: PreferencesPatch)
    ensures MergePreferences(u, NoPreferences) == u
    ensures MergePreferences(MergePreferences(u, p), p) == MergePreferences(u, p)
    ensures MergePreferences(MergePreferences(u, p), q) == MergePreferences(u, OverlayPreferences(p, q))
  {
  }

  // ------------------------------------------------------------- experience

  /** `Math.floor(xp / 100) + 1`; Dafny's division by a positive number rounds down like `Math.floor`. */
  function LevelFor(xp: int): (level: int)
    ensures (level - 1) * 100 <= xp < level * 100
  {
    xp / 100 + 1
  }

  /** More experience never means a lower level. */
  lemma LevelForMonotonic(a: int, b: int)
    requires a <= b
    ensures LevelFor(a) <= LevelFor(b)
  {
  }

  /** The level is the one the experience earns. */
  predicate LevelEarned(s: PlayerStats)
  {
    s.level == LevelFor(s.experience)
  }

  function AddExperience(s: PlayerStats, xp: int): (r: PlayerStats)
    ensures r == s.(experience := r.experience, level := r.level)
    ensures r.experience == s.experience + xp
    ensures LevelEarned(r)
  {
    var newXp := s.experience + xp;
    s.(experience := newXp, level := LevelFor(newXp))
  }

  /** Experience adds up, and gaining experience never lowers an earned level. */
  lemma AddExperienceProperties(s: PlayerStats, a: int, b: int)
    ensures AddExperience(AddExperience(s, a), b) == AddExperience(s, a + b)
    ensures LevelEarned(s) && a >= 0 ==> AddExperience(s, a).level >= s.level
  {
    if LevelEarned(s) && a >= 0 {
      LevelForMonotonic(s.experience, s.experience + a);
    }
  }

  // ----------------------------------------------------------------- points

  datatype PointKind = Proton | Electron | Neutron

  /** The counter a kind of point goes to. */
  function Points(s: PlayerStats, kind: PointKind): int
  {
    match kind
    case Proton => s.protonPoints
    case Electron => s.electronCredits
    case Neutron => s.neutronNuggets
  }

  /** `[pointKey]: state.playerStats[pointKey] + points` */
  function AddPoints(s: PlayerStats, points: int, kind: PointKind): (r: PlayerStats)
    ensures Points(r, kind) == Points(s, kind) + points
    ensures forall other | other != kind :: Points(r, other) == Points(s, other)
    ensures r == s.(protonPoints := r.protonPoints, electronCredits := r.electronCredits, neutronNuggets := r.neutronNuggets)
  {
    match kind
    case Proton => s.(protonPoints := s.protonPoints + points)
    case Electron => s.(electronCredits := s.electronCredits + points)
    case Neutron => s.(neutronNuggets := s.neutronNuggets + points)
  }

  /** Points of one kind add up, and points of different kinds can be added in either order. */
  lemma AddPointsProperties(s: PlayerStats, a: int, b: int, k1: PointKind, k2: PointKind)
    ensures AddPoints(AddPoints(s, a, k1), b, k1) == AddPoints(s, a + b, k1)
    ensures AddPoints(AddPoints(s, a, k1), b, k2) == AddPoints(AddPoints(s, b, k2), a, k1)
  {
  }

  // ------------------------------------------------------------ solving

  /** The statistics after a solution is accepted. */
  function Solved(s: PlayerStats): (r: PlayerStats)
    ensures r == s.(equationsBalanced := r.equationsBalanced, currentStreak := r.currentStreak, bestStreak := r.bestStreak)
    ensures r.equationsBalanced == s.equationsBalanced + 1
    ensures r.currentStreak == s.currentStreak + 1
    ensures r.bestStreak >= r.currentStreak && r.bestStreak >= s.bestStreak
    ensures r.bestStreak == r.currentStreak || r.bestStreak == s.bestStreak
  {
    var streak := s.currentStreak + 1;
    s.(equationsBalanced := s.equationsBalanced + 1,
       currentStreak := streak,
       bestStreak := if streak > s.bestStreak then streak else s.bestStreak)
  }

  /** The best streak is never below the current one. */
  predicate StreakRecorded(s: PlayerStats)
  {
    s.currentStreak <= s.bestStreak
  }

  /** Solving keeps the best streak at or above the current one. */
  lemma SolvedKeepsStreakRecorded(s: PlayerStats)
    ensures StreakRecorded(Solved(s))
    ensures StreakRecorded(s) ==> Solved(s).bestStreak == Solved(s).currentStreak || Solved(s).bestStreak == s.bestStreak
  {
  }

  /** From the start, `n` accepted solutions make the streak, the best streak and the solved count all `n`. */
  lemma {:induction false} SolveTimesFromStart(n: nat)
    ensures SolveTimes(InitialPlayerStats, n).currentStreak == n
    ensures SolveTimes(InitialPlayerStats, n).bestStreak == n
    ensures SolveTimes(InitialPlayerStats, n).equationsBalanced == n
  {
    if n > 0 {
      SolveTimesFromStart(n - 1);
    }
  }

  function SolveTimes(s: PlayerStats, n: nat): PlayerStats
  {
    if n == 0 then s else Solved(SolveTimes(s, n - 1))
  }

  // ------------------------------------------------------------------ hints

  /** A hint costs 10 electron credits, never leaving fewer than 0. */
  function ChargeHint(s: PlayerStats): (r: PlayerStats)
    ensures r == s.(electronCredits := r.electronCredits)
    ensures r.electronCredits >= 0
    ensures s.electronCredits >= 10 ==> r.electronCredits == s.electronCredits - 10
    ensures s.electronCredits < 10 ==> r.electronCredits == 0
  {
    s.(electronCredits := if s.electronCredits - 10 > 0 then s.electronCredits - 10 else 0)
  }

  function ChargeHints(s: PlayerStats, n: nat): PlayerStats
  {
    if n == 0 then s else ChargeHint(ChargeHints(s, n - 1))
  }

  /** `n` hints from `c` credits leave `max(0, c - 10n)`. */
  lemma {:induction false} ChargeHintsCredits(s: PlayerStats, n: nat)
    requires s.electronCredits >= 0 || n >= 1
    ensures var c := s.electronCredits - 10 * n;
      ChargeHints(s, n).electronCredits == if c > 0 then c else 0
  {
    if n > 1 {
      ChargeHintsCredits(s, n - 1);
    }
  }

  // ------------------------------------------------------------ completion

  /** `[...new Set([...completed, id])]` */
  function Complete(completed: seq<string>, id: string): seq<string>
  {
    Dedup(completed + [id])
  }

  /**
   * The list holds `id` and every earlier entry, once each, in the order of
   * their first completion; completing the same equation again changes nothing.
   */
  lemma CompleteProperties(completed: seq<string>, id: string)
    ensures id in Complete(completed, id) && NoDup(Complete(completed, id))
    ensures forall x :: x in Complete(completed, id) <==> x in completed || x == id
    ensures Dedup(completed) <= Complete(completed, id)
    ensures Complete(Complete(completed, id), id) == Complete(completed, id)
  {
    CompleteMembers(completed, id);
    DedupPrefix(completed, [id]);
    DedupSnocIdempotent(completed, id);
  }

  lemma CompleteMembers(completed: seq<string>, id: string)
    ensures forall x :: x in Complete(completed, id) <==> x in completed || x == id
  {
    var r := Complete(completed, id);
    assert (completed + [id])[|completed|] == id;
    forall x | x in completed || x == id ensures x in r {
      if x in completed {
        var k :| 0 <= k < |completed| && completed[k] == x;
        assert (completed + [id])[k] == x;
      }
    }
  }

  // ------------------------------------------------------------------ store

  class GameStore {
    var playerStats: PlayerStats
    var userPreferences: UserPreferences
    var currentSession: Option<GameSession>
    var currentEquation: Option<ChemicalEquation>
    var unlockedLevels: seq<string>
    var completedEquations: seq<string>
    var equationAttempts: seq<EquationAttempt>
    var isDragging: bool
    var selectedAtom: Option<string>
    var hintLevel: int
    var showTutorial: bool

    /** The hint level points into the current equation's hints, or one past the last. */
    predicate HintInRange()
      reads this
    {
      && 0 <= hintLevel
      && (currentEquation.Some? && currentEquation.value.hints.Some? ==>
            hintLevel <= |currentEquation.value.hints.value|)
    }

    constructor()
      ensures playerStats == InitialPlayerStats && userPreferences == InitialPreferences
      ensures currentSession == None && currentEquation == None
      ensures unlockedLevels == InitialLevels && completedEquations == [] && equationAttempts == []
      ensures !isDragging && selectedAtom == None && hintLevel == 0 && showTutorial
      ensures HintInRange() && StreakRecorded(playerStats) && LevelEarned(playerStats)
    {
      playerStats := InitialPlayerStats;
      userPreferences := InitialPreferences;
      currentSession := None;
      currentEquation := None;
      unlockedLevels := InitialLevels;
      completedEquations := [];
      equationAttempts := [];
      isDragging := false;
      selectedAtom := None;
      hintLevel := 0;
      showTutorial := true;
    }

    method UpdatePlayerStats(stats: StatsPatch)
      modifies this`playerStats
      ensures playerStats == MergeStats(old(playerStats), stats)
    {
      playerStats := MergeStats(playerStats, stats);
    }

    method AddExperienceAction(xp: int)
      modifies this`playerStats
      ensures playerStats == AddExperience(old(playerStats), xp)
      ensures LevelEarned(playerStats)
      ensures old(StreakRecorded(playerStats)) ==> StreakRecorded(playerStats)
    {
      var newXp := playerStats.experience + xp;
      var newLevel := newXp / 100 + 1;
      playerStats := playerStats.(experience := newXp, level := newLevel);
    }

    method AddPointsAction(points: int, kind: PointKind)
      modifies this`playerStats
      ensures playerStats == AddPoints(old(playerStats), points, kind)
      ensures old(LevelEarned(playerStats)) ==> LevelEarned(playerStats)
      ensures old(StreakRecorded(playerStats)) ==> StreakRecorded(playerStats)
    {
      match kind
      case Proton => playerStats := playerStats.(protonPoints := playerStats.protonPoints + points);
      case Electron => playerStats := playerStats.(electronCredits := playerStats.electronCredits + points);
      case Neutron => playerStats := playerStats.(neutronNuggets := playerStats.neutronNuggets + points);
    }

    method UpdatePreferences(prefs: PreferencesPatch)
      modifies this`userPreferences
      ensures userPreferences == MergePreferences(old(userPreferences), prefs)
    {
      userPreferences := MergePreferences(userPreferences, prefs);
    }

    method SetCurrentEquation(equation: ChemicalEquation)
      modifies this`currentEquation, this`hintLevel
      ensures currentEquation == Some(equation) && hintLevel == 0
      ensures HintInRange()
    {
      currentEquation := Some(equation);
      hintLevel := 0;
    }

    /**
     * Accepts any coefficients once an equation is being played: the
     * statistics record a solution and the equation's id is appended, again
     * if it was already there.
     */
    method SubmitSolution(reactantCoeffs: seq<int>, productCoeffs: seq<int>) returns (accepted: bool)
      modifies this`playerStats, this`completedEquations
      ensures accepted <==> old(currentEquation).Some?
      ensures !accepted ==> playerStats == old(playerStats) && completedEquations == old(completedEquations)
      ensures accepted ==> playerStats == Solved(old(playerStats))
      ensures accepted ==> completedEquations == old(completedEquations) + [currentEquation.value.id]
      ensures StreakRecorded(playerStats) || (!accepted && !old(StreakRecorded(playerStats)))
      ensures old(LevelEarned(playerStats)) ==> LevelEarned(playerStats)
    {
      if currentEquation.None? {
        return false;
      }
      var isCorrect := true;
      if isCorrect {
        var stats := playerStats;
        var best := if stats.currentStreak + 1 > stats.bestStreak then stats.currentStreak + 1 else stats.bestStreak;
        playerStats := stats.(
          equationsBalanced := stats.equationsBalanced + 1,
          currentStreak := stats.currentStreak + 1,
          bestStreak := best);
        completedEquations := completedEquations + [currentEquation.value.id];
      }
      return isCorrect;
    }

    /**
     * The next hint of the current equation, if there is one: the hint level
     * moves past it and the hint is paid for. Otherwise nothing changes.
     */
    method UseHint() returns (hint: Option<string>)
      modifies this`playerStats, this`hintLevel
      ensures var eq := currentEquation;
        if eq.Some? && eq.value.hints.Some? && old(hintLevel) < |eq.value.hints.value| then
          && hintLevel == old(hintLevel) + 1
          && playerStats == ChargeHint(old(playerStats))
          && hint == (if 0 <= old(hintLevel) then Some(eq.value.hints.value[old(hintLevel)]) else None)
        else
          hint == None && hintLevel == old(hintLevel) && playerStats == old(playerStats)
      ensures old(HintInRange()) ==> HintInRange()
      ensures hintLevel != old(hintLevel) ==> playerStats.electronCredits >= 0
      ensures old(StreakRecorded(playerStats)) ==> StreakRecorded(playerStats)
    {
      if currentEquation.None? || currentEquation.value.hints.None? {
        return None;
      }
      var hints := currentEquation.value.hints.value;
      var currentHintLevel := hintLevel;
      if currentHintLevel < |hints| {
        hintLevel := hintLevel + 1;
        var credits := playerStats.electronCredits - 10;
        playerStats := playerStats.(electronCredits := if credits > 0 then credits else 0);
        if 0 <= currentHintLevel {
          return Some(hints[currentHintLevel]);
        }
        return None;
      }
      return None;
    }

    method CompleteEquation(equationId: string)
      modifies this`completedEquations
      ensures completedEquations == Complete(old(completedEquations), equationId)
      ensures equationId in completedEquations && NoDup(completedEquations)
    {
      completedEquations := Dedup(completedEquations + [equationId]);
      CompleteProperties(old(completedEquations), equationId);
    }

    /** Progress goes back to the start; preferences, the current equation and the hint level stay. */
    method ResetProgress()
      modifies this`playerStats, this`unlockedLevels, this`completedEquations, this`equationAttempts
      ensures playerStats == InitialPlayerStats && unlockedLevels == InitialLevels
      ensures completedEquations == [] && equationAttempts == []
      ensures StreakRecorded(playerStats) && LevelEarned(playerStats)
      ensures old(HintInRange()) ==> HintInRange()
    {
      playerStats := InitialPlayerStats;
      unlockedLevels := InitialLevels;
      completedEquations := [];
      equationAttempts := [];
    }
  }
}
