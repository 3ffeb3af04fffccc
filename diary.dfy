/**
 * DiaryNotifier: watches the achievement diary varbits and the "Congratulations! You have completed
 * all of the ..." message box, and reports a completed diary at most once per 2-tick cooldown.
 */
module Diary {
  import opened Wrappers
  import opened Text

  /** AchievementDiary.Difficulty, in ordinal order. */
  datatype Difficulty = EASY | MEDIUM | HARD | ELITE {

    function Ordinal(): nat {
      match this
      case EASY => 0
      case MEDIUM => 1
      case HARD => 2
      case ELITE => 3
    }

    /** The constant's name, as `valueOf` expects it. */
    function Name(): string {
      match this
      case EASY => "EASY"
      case MEDIUM => "MEDIUM"
      case HARD => "HARD"
      case ELITE => "ELITE"
    }
  }

  /** An entry of the diary table: the area's name and the tier. */
  datatype Diary = Diary(area: string, difficulty: Difficulty)

  /** What the notifier reads from its configuration: the plugin's own switch, notifyAchievementDiary and minDiaryDifficulty. */
  datatype DiaryConfig = DiaryConfig(pluginEnabled: bool, notifyDiary: bool, minDifficulty: Difficulty)

  /** DiaryNotificationData */
  datatype DiaryNotification = DiaryNotification(area: string, difficulty: Difficulty, total: int)

  /** The three Karamja diaries whose varbit counts 0 = not started, 1 = started, 2 = completed. */
  const KARAMJA_IDS: set<int> := {3578, 3599, 3611}

  /** isComplete: a Karamja diary is complete above 1, any other above 0. */
  predicate IsComplete(id: int, value: int) {
    if id in KARAMJA_IDS then value > 1 else value > 0
  }

  /** A higher value of a complete diary is still complete. */
  lemma IsCompleteMonotone(id: int, v: int, w: int)
    requires v <= w && IsComplete(id, v)
    ensures IsComplete(id, w)
  {
  }

  /** The value the message-box path records: 1 if that already counts as complete, else 2. */
  function MessageBoxValue(id: int): (v: int)
    ensures IsComplete(id, v) && !IsComplete(id, v - 1)
  {
    if IsComplete(id, 1) then 1 else 2
  }

  /** checkDifficulty */
  predicate CheckDifficulty(difficulty: Difficulty, cfg: DiaryConfig) {
    cfg.notifyDiary && difficulty.Ordinal() >= cfg.minDifficulty.Ordinal()
  }

  /** The ids of `ids` that `m` records as complete. */
  function CompleteIds(m: map<int, int>, ids: set<int>): set<int> {
    set id | id in ids && id in m && IsComplete(id, m[id])
  }

  /** getTotalCompleted's result: how many recorded diaries are complete. */
  function TotalCompleted(m: map<int, int>): nat {
    |CompleteIds(m, m.Keys)|
  }

  lemma CompleteIdsRemove(m: map<int, int>, ids: set<int>, id: int)
    requires id in ids
    ensures |CompleteIds(m, ids)| == |CompleteIds(m, ids - {id})| + (if id in m && IsComplete(id, m[id]) then 1 else 0)
  {
    if id in m && IsComplete(id, m[id]) {
      assert CompleteIds(m, ids) == CompleteIds(m, ids - {id}) + {id};
    } else {
      assert CompleteIds(m, ids) == CompleteIds(m, ids - {id});
    }
  }

  /** Some element of a non-empty set: the next key of an iteration. */
  method Pick(ids: set<int>) returns (id: int)
    requires ids != {}
    ensures id in ids
  {
    HasElement(ids);
    id :| id in ids;
  }

  /** A non-empty set has an element. */
  lemma HasElement(ids: set<int>)
    requires ids != {}
    ensures exists id :: id in ids
  {
    if !(exists id :: id in ids) {
      assert false;
    }
  }

  /** `m` after initCompleted has read the varbits of `ids`: every non-negative value is stored, the rest left alone. */
  function SeedFrom(m: map<int, int>, ids: set<int>, varbit: int -> int): map<int, int> {
    m + map id | id in ids && varbit(id) >= 0 :: varbit(id)
  }

  /** Seeding stores exactly the non-negative readings and keeps every other entry. */
  lemma SeedFromStores(m: map<int, int>, ids: set<int>, varbit: int -> int)
    ensures forall id :: id in ids && varbit(id) >= 0 ==> id in SeedFrom(m, ids, varbit) && SeedFrom(m, ids, varbit)[id] == varbit(id)
    ensures forall id :: id in m && !(id in ids && varbit(id) >= 0) ==> id in SeedFrom(m, ids, varbit) && SeedFrom(m, ids, varbit)[id] == m[id]
    ensures forall id :: id in SeedFrom(m, ids, varbit) ==> id in m || (id in ids && varbit(id) >= 0)
  {
  }

  /** `seeded` is `base` with the non-negative values of the ids in `done` written over it. */
  ghost predicate SeededOver(base: map<int, int>, done: set<int>, varbit: int -> int, seeded: map<int, int>) {
    && (forall id :: id in seeded <==> id in base || (id in done && varbit(id) >= 0))
    && (forall id :: id in seeded ==> seeded[id] == if id in done && varbit(id) >= 0 then varbit(id) else base[id])
  }

  /** Seeding one more id, one entry at a time, keeps that description. */
  lemma SeededOverAdd(base: map<int, int>, done: set<int>, varbit: int -> int, seeded: map<int, int>, id: int)
    requires SeededOver(base, done, varbit, seeded) && id !in done
    ensures SeededOver(base, done + {id}, varbit, if varbit(id) >= 0 then seeded[id := varbit(id)] else seeded)
  {
  }

  /** A map described entry by entry as seeding describes it is the seeded map. */
  lemma SeedFromPointwise(base: map<int, int>, ids: set<int>, varbit: int -> int, seeded: map<int, int>)
    requires SeededOver(base, ids, varbit, seeded)
    ensures seeded == SeedFrom(base, ids, varbit)
  {
    var t := SeedFrom(base, ids, varbit);
    SeedFromStores(base, ids, varbit);
    forall id
      ensures id in seeded.Keys <==> id in t.Keys
    {
      assert id in seeded <==> id in t;
    }
    assert forall id :: id in seeded ==> seeded[id] == t[id];
  }

  /** Seeding over the table ids keeps the map within the table and its values non-negative. */
  lemma SeedFromKeepsValid(m: map<int, int>, ids: set<int>, varbit: int -> int)
    requires m.Keys <= ids && forall id :: id in m ==> m[id] >= 0
    ensures SeedFrom(m, ids, varbit).Keys <= ids
    ensures forall id :: id in SeedFrom(m, ids, varbit) ==> SeedFrom(m, ids, varbit)[id] >= 0
  {
    SeedFromStores(m, ids, varbit);
  }

  lemma SeedFromAdd(m: map<int, int>, ids: set<int>, id: int, varbit: int -> int)
    requires id !in ids
    ensures SeedFrom(m, ids + {id}, varbit) == if varbit(id) >= 0 then SeedFrom(m, ids, varbit)[id := varbit(id)] else SeedFrom(m, ids, varbit)
  {
    var a := SeedFrom(m, ids + {id}, varbit);
    var b := if varbit(id) >= 0 then SeedFrom(m, ids, varbit)[id := varbit(id)] else SeedFrom(m, ids, varbit);
    assert a.Keys == b.Keys;
    assert forall k :: k in a ==> a[k] == b[k];
  }

  /** initCompleted's loop over the table ids: every non-negative varbit value is stored over `base`. */
  method SeedLoop(base: map<int, int>, ids: set<int>, varbit: int -> int) returns (seeded: map<int, int>)
    ensures seeded == SeedFrom(base, ids, varbit)
  {
    seeded := base;
    ghost var done: set<int> := {};
    var rest := ids;
    while rest != {}
      invariant done + rest == ids && done !! rest
      invariant SeededOver(base, done, varbit, seeded)
      decreases |rest|
    {
      var id := Pick(rest);
      SeededOverAdd(base, done, varbit, seeded, id);
      var value := varbit(id);
      if value >= 0 {
        seeded := seeded[id := value];
      }
      done := done + {id};
      rest := rest - {id};
    }
    SeedFromPointwise(base, ids, varbit, seeded);
  }

  // ---------------------------------------------------------------------------------------------
  // COMPLETION_REGEX: "Congratulations! You have completed all of the (?<difficulty>.+) tasks in the (?<area>.+) area"

  const CONGRATULATIONS := "Congratulations! You have completed all of the "
  const TASKS_IN_THE := " tasks in the "
  const AREA := " area"

  /** The two groups of a completion line. */
  datatype CompletionMatch = CompletionMatch(difficulty: string, area: string)

  /** A line matches COMPLETION_REGEX at `p` with groups `m`. */
  ghost predicate CompletionShape(msg: string, p: int, m: CompletionMatch) {
    && HasAt(msg, p, CONGRATULATIONS)
    && var b := p + |CONGRATULATIONS|;
       && |m.difficulty| >= 1 && HasAt(msg, b, m.difficulty) && NoTerminators(m.difficulty)
       && var i := b + |m.difficulty|;
          && HasAt(msg, i, TASKS_IN_THE)
          && var c := i + |TASKS_IN_THE|;
             && |m.area| >= 1 && HasAt(msg, c, m.area) && NoTerminators(m.area)
             && HasAt(msg, c + |m.area|, AREA)
  }

  function AreaCandidate(msg: string, c: int, j: int): Option<string> {
    if 0 <= c < j && HasAt(msg, j, AREA) then Some(msg[c..j]) else None
  }

  function AreaCandidates(msg: string, c: int): int -> Option<string> {
    j => AreaCandidate(msg, c, j)
  }

  /** `(?<area>.+) area` from `c`, the group giving back characters from the end of the line. */
  function AreaAt(msg: string, c: int): Option<string>
    requires 0 <= c <= |msg|
  {
    Greedy(c + 1, LineEnd(msg, c), AreaCandidates(msg, c))
  }

  function DifficultyCandidate(msg: string, b: int, i: int): Option<CompletionMatch> {
    if !(0 <= b < i && HasAt(msg, i, TASKS_IN_THE)) then None
    else match AreaAt(msg, i + |TASKS_IN_THE|)
      case None => None
      case Some(area) => Some(CompletionMatch(msg[b..i], area))
  }

  function DifficultyCandidates(msg: string, b: int): int -> Option<CompletionMatch> {
    i => DifficultyCandidate(msg, b, i)
  }

  /** COMPLETION_REGEX tried at `p`. */
  function CompletionAt(msg: string, p: int): Option<CompletionMatch> {
    if !HasAt(msg, p, CONGRATULATIONS) then None
    else
      var b := p + |CONGRATULATIONS|;
      Greedy(b + 1, LineEnd(msg, b), DifficultyCandidates(msg, b))
  }

  function CompletionStarts(msg: string): int -> Option<CompletionMatch> {
    p => CompletionAt(msg, p)
  }

  /** `COMPLETION_REGEX.matcher(message).find()` with its two groups. */
  function MatchCompletion(msg: string): Option<CompletionMatch> {
    Leftmost(0, |msg|, CompletionStarts(msg))
  }

  lemma AreaAtSound(msg: string, c: int)
    requires 0 <= c <= |msg| && AreaAt(msg, c).Some?
    ensures var a := AreaAt(msg, c).value;
            |a| >= 1 && HasAt(msg, c, a) && NoTerminators(a) && HasAt(msg, c + |a|, AREA)
  {
    var j := GreedyAt(c + 1, LineEnd(msg, c), AreaCandidates(msg, c));
    NoTerminatorsPrefix(msg, c, j, LineEnd(msg, c));
    assert HasAt(msg, c, msg[c..j]);
  }

  lemma AreaAtComplete(msg: string, c: int, a: string)
    requires 0 <= c <= |msg|
    requires |a| >= 1 && HasAt(msg, c, a) && NoTerminators(a) && HasAt(msg, c + |a|, AREA)
    ensures AreaAt(msg, c).Some?
  {
    var j := c + |a|;
    assert msg[c..j] == a;
    LineEndBounds(msg, c, j);
    assert AreaCandidates(msg, c)(j).Some?;
  }

  lemma DifficultyCandidateSound(msg: string, p: int, i: int)
    requires HasAt(msg, p, CONGRATULATIONS)
    requires i <= LineEnd(msg, p + |CONGRATULATIONS|)
    requires DifficultyCandidate(msg, p + |CONGRATULATIONS|, i).Some?
    ensures CompletionShape(msg, p, DifficultyCandidate(msg, p + |CONGRATULATIONS|, i).value)
  {
    var b := p + |CONGRATULATIONS|;
    var c := i + |TASKS_IN_THE|;
    var m := DifficultyCandidate(msg, b, i).value;
    assert m.difficulty == msg[b..i] && m.area == AreaAt(msg, c).value;
    NoTerminatorsPrefix(msg, b, i, LineEnd(msg, b));
    AreaAtSound(msg, c);
    assert HasAt(msg, b, m.difficulty);
  }

  lemma CompletionAtSound(msg: string, p: int)
    requires CompletionAt(msg, p).Some?
    ensures CompletionShape(msg, p, CompletionAt(msg, p).value)
  {
    var b := p + |CONGRATULATIONS|;
    var i := GreedyAt(b + 1, LineEnd(msg, b), DifficultyCandidates(msg, b));
    DifficultyCandidateSound(msg, p, i);
  }

  lemma DifficultyCandidateComplete(msg: string, p: int, m: CompletionMatch)
    requires CompletionShape(msg, p, m)
    ensures DifficultyCandidate(msg, p + |CONGRATULATIONS|, p + |CONGRATULATIONS| + |m.difficulty|).Some?
  {
    var b := p + |CONGRATULATIONS|;
    var i := b + |m.difficulty|;
    AreaAtComplete(msg, i + |TASKS_IN_THE|, m.area);
  }

  lemma CompletionAtComplete(msg: string, p: int, m: CompletionMatch)
    requires CompletionShape(msg, p, m)
    ensures CompletionAt(msg, p).Some?
  {
    var b := p + |CONGRATULATIONS|;
    var i := b + |m.difficulty|;
    assert msg[b..i] == m.difficulty;
    LineEndBounds(msg, b, i);
    DifficultyCandidateComplete(msg, p, m);
    assert DifficultyCandidates(msg, b)(i).Some?;
  }

  /** The recogniser finds a match exactly when the line has the pattern's layout somewhere. */
  lemma MatchCompletionCorrect(msg: string)
    ensures MatchCompletion(msg).Some? ==> exists p :: 0 <= p <= |msg| && CompletionShape(msg, p, MatchCompletion(msg).value)
    ensures (exists p, m :: CompletionShape(msg, p, m)) ==> MatchCompletion(msg).Some?
  {
    if MatchCompletion(msg).Some? {
      var p := LeftmostAt(0, |msg|, CompletionStarts(msg));
      CompletionAtSound(msg, p);
    }
    if p, m :| CompletionShape(msg, p, m) {
      CompletionAtComplete(msg, p, m);
      assert 0 <= p <= |msg| && CompletionStarts(msg)(p).Some?;
    }
  }

  /** `Difficulty.valueOf(s.toUpperCase())`: the tier whose name is `s` in upper case, or none (IllegalArgumentException). */
  function ParseDifficulty(s: string): (r: Option<Difficulty>)
    ensures r.Some? ==> Upper(s) == r.value.Name()
    ensures r.None? ==> forall d: Difficulty :: Upper(s) != d.Name()
  {
    var u := Upper(s);
    if u == EASY.Name() then Some(EASY)
    else if u == MEDIUM.Name() then Some(MEDIUM)
    else if u == HARD.Name() then Some(HARD)
    else if u == ELITE.Name() then Some(ELITE)
    else None
  }

  /** A completion line's tier and trimmed area text, when the line matches and names a tier. */
  function Recognise(message: string): (r: Option<(Difficulty, string)>)
    ensures r.Some? ==>
      && MatchCompletion(message).Some?
      && ParseDifficulty(MatchCompletion(message).value.difficulty) == Some(r.value.0)
      && r.value.1 == Trim(MatchCompletion(message).value.area)
    ensures MatchCompletion(message).Some? && ParseDifficulty(MatchCompletion(message).value.difficulty).Some? ==> r.Some?
  {
    match MatchCompletion(message)
    case None => None
    case Some(m) =>
      match ParseDifficulty(m.difficulty)
      case None => None
      case Some(d) => Some((d, Trim(m.area)))
  }

  /** The table entries the message box may refer to: the same tier, with an area name `containsEither` relates to the text. */
  function Candidates(diaries: map<int, Diary>, difficulty: Difficulty, area: string, containsEither: (string, string) -> bool): set<int> {
    set id | id in diaries && diaries[id].difficulty == difficulty && containsEither(diaries[id].area, area)
  }

  /**
   * The table ids onMessageBox may pick for `message`: none while disabled or when the line does
   * not match or names no tier, otherwise the ids of that tier whose area matches.
   */
  function MessageBoxIds(diaries: map<int, Diary>, message: string, cfg: DiaryConfig, containsEither: (string, string) -> bool): (r: set<int>)
    ensures r <= diaries.Keys
    ensures r != {} ==> cfg.notifyDiary && cfg.pluginEnabled && Recognise(message).Some?
    ensures forall id :: id in r ==> diaries[id].difficulty == Recognise(message).value.0
    ensures cfg.notifyDiary && cfg.pluginEnabled && Recognise(message).Some? ==>
              r == Candidates(diaries, Recognise(message).value.0, Recognise(message).value.1, containsEither)
  {
    if !(cfg.notifyDiary && cfg.pluginEnabled) then {}
    else match Recognise(message)
      case None => {}
      case Some((difficulty, area)) => Candidates(diaries, difficulty, area, containsEither)
  }

  // ---------------------------------------------------------------------------------------------
  // The notifier's state and its transitions

  /** What the notifier holds: the recorded varbit values by id and the two tick counters. */
  datatype DiaryState = DiaryState(completion: map<int, int>, initDelayTicks: int, cooldownTicks: int) {

    /** Only table ids are recorded, never with a negative value, and both counters stay within their ranges. */
    predicate Valid(diaries: map<int, Diary>) {
      && completion.Keys <= diaries.Keys
      && (forall id :: id in completion ==> completion[id] >= 0)
      && 0 <= initDelayTicks <= 4
      && 0 <= cooldownTicks <= 2
    }
  }

  /** The state `reset` leaves behind. */
  const Cleared := DiaryState(map[], 0, 0)

  /** `Math.max(i - 1, 0)` */
  function Countdown(i: int): (r: int)
    ensures r >= 0 && (i > 0 ==> r == i - 1)
    ensures i <= 0 ==> r == 0
  {
    if i - 1 > 0 then i - 1 else 0
  }

  /** handle: the cooldown restarts at 2 either way, and a notification goes out only if it had run out. */
  function HandleStep(s: DiaryState, area: string, difficulty: Difficulty): (DiaryState, Option<DiaryNotification>) {
    var s1 := s.(cooldownTicks := 2);
    if s.cooldownTicks > 0 then (s1, None)
    else (s1, Some(DiaryNotification(area, difficulty, TotalCompleted(s.completion))))
  }

  /**
   * onVarbitChanged: ignored for negative or non-diary ids, while disabled, and before the map is
   * seeded; a lower value or an unrecorded id resets everything; a higher value is recorded and,
   * if it completes a diary of a wanted tier, handled.
   */
  function VarbitStep(s: DiaryState, diaries: map<int, Diary>, id: int, value: int, cfg: DiaryConfig): (DiaryState, Option<DiaryNotification>) {
    if id < 0 || id !in diaries || !cfg.pluginEnabled || s.completion == map[] then (s, None)
    else if id !in s.completion || value < s.completion[id] then (Cleared, None)
    else if value > s.completion[id] then
      var s1 := s.(completion := s.completion[id := value]);
      if IsComplete(id, value) && CheckDifficulty(diaries[id].difficulty, cfg) then HandleStep(s1, diaries[id].area, diaries[id].difficulty)
      else (s1, None)
    else (s, None)
  }

  /** onMessageBox as written, once the table entry `id` is found: record it as complete and handle it. */
  function MessageBoxStepAsWritten(s: DiaryState, diaries: map<int, Diary>, id: int): (DiaryState, Option<DiaryNotification>)
    requires id in diaries
  {
    HandleStep(s.(completion := s.completion[id := MessageBoxValue(id)]), diaries[id].area, diaries[id].difficulty)
  }

  /** onMessageBox with the minimum tier applied as on the varbit path: record it as complete, and handle it if its tier is wanted. */
  function MessageBoxStep(s: DiaryState, diaries: map<int, Diary>, id: int, cfg: DiaryConfig): (DiaryState, Option<DiaryNotification>)
    requires id in diaries
  {
    var s1 := s.(completion := s.completion[id := MessageBoxValue(id)]);
    if CheckDifficulty(diaries[id].difficulty, cfg) then HandleStep(s1, diaries[id].area, diaries[id].difficulty)
    else (s1, None)
  }

  /**
   * onTick: nothing while logged out; otherwise the cooldown counts down, and the init countdown
   * either counts down (seeding the map as it leaves 1) or, if idle while the map lacks entries,
   * starts again at 4.
   */
  function TickStep(s: DiaryState, diaries: map<int, Diary>, loggedIn: bool, pluginEnabled: bool, varbit: int -> int): DiaryState {
    if !loggedIn then s
    else
      var s1 := DiaryState(s.completion, Countdown(s.initDelayTicks), Countdown(s.cooldownTicks));
      if s.initDelayTicks > 0 then
        if s.initDelayTicks == 1 && pluginEnabled then s1.(completion := SeedFrom(s.completion, diaries.Keys, varbit)) else s1
      else if |s.completion| < |diaries| && pluginEnabled then s1.(initDelayTicks := 4)
      else s1
  }

  // ---------------------------------------------------------------------------------------------
  // Properties of the transitions

  /** A varbit change keeps the state consistent with the table. */
  lemma VarbitPreservesValid(s: DiaryState, diaries: map<int, Diary>, id: int, value: int, cfg: DiaryConfig)
    requires s.Valid(diaries)
    ensures VarbitStep(s, diaries, id, value, cfg).0.Valid(diaries)
  {
  }

  /** A message box keeps the state consistent with the table. */
  lemma MessageBoxPreservesValid(s: DiaryState, diaries: map<int, Diary>, id: int, cfg: DiaryConfig)
    requires s.Valid(diaries) && id in diaries
    ensures MessageBoxStep(s, diaries, id, cfg).0.Valid(diaries)
  {
  }

  /** A tick keeps the state consistent with the table. */
  lemma TickPreservesValid(s: DiaryState, diaries: map<int, Diary>, loggedIn: bool, pluginEnabled: bool, varbit: int -> int)
    requires s.Valid(diaries)
    ensures TickStep(s, diaries, loggedIn, pluginEnabled, varbit).Valid(diaries)
  {
    if loggedIn && s.initDelayTicks == 1 && pluginEnabled {
      SeedFromKeepsValid(s.completion, diaries.Keys, varbit);
    }
  }

  /** A lower value, or an id missing from a seeded map, wipes the whole state and reports nothing. */
  lemma RegressionResets(s: DiaryState, diaries: map<int, Diary>, id: int, value: int, cfg: DiaryConfig)
    requires 0 <= id && id in diaries && cfg.pluginEnabled && s.completion != map[]
    requires id !in s.completion || value < s.completion[id]
    ensures VarbitStep(s, diaries, id, value, cfg) == (Cleared, None)
  {
  }

  /** Before seeding, and for ids outside the table, varbit changes leave everything as it is. */
  lemma VarbitIgnored(s: DiaryState, diaries: map<int, Diary>, id: int, value: int, cfg: DiaryConfig)
    requires s.completion == map[] || id < 0 || id !in diaries || !cfg.pluginEnabled
    ensures VarbitStep(s, diaries, id, value, cfg) == (s, None)
  {
  }

  /**
   * A higher value for a recorded id is stored, nothing else changes but the cooldown, and a
   * notification about that diary goes out only when it is complete, of a wanted tier and not cooling down.
   */
  lemma VarbitIncrease(s: DiaryState, diaries: map<int, Diary>, id: int, value: int, cfg: DiaryConfig)
    requires s.Valid(diaries)
    requires 0 <= id && id in diaries && cfg.pluginEnabled && id in s.completion && value > s.completion[id]
    ensures var (s2, e) := VarbitStep(s, diaries, id, value, cfg);
      && s2.completion == s.completion[id := value] && s2.initDelayTicks == s.initDelayTicks
      && (e.Some? <==> IsComplete(id, value) && CheckDifficulty(diaries[id].difficulty, cfg) && s.cooldownTicks == 0)
      && (e.Some? ==> e.value == DiaryNotification(diaries[id].area, diaries[id].difficulty, TotalCompleted(s.completion[id := value])))
  {
  }

  /** An equal value changes nothing. */
  lemma VarbitUnchanged(s: DiaryState, diaries: map<int, Diary>, id: int, cfg: DiaryConfig)
    requires id in s.completion
    ensures VarbitStep(s, diaries, id, s.completion[id], cfg) == (s, None)
  {
  }

  /** Whatever entry the message box resolves to is complete afterwards, and a notification implies a wanted tier. */
  lemma MessageBoxCompletes(s: DiaryState, diaries: map<int, Diary>, id: int, cfg: DiaryConfig)
    requires id in diaries
    ensures var (s2, e) := MessageBoxStep(s, diaries, id, cfg);
      && id in s2.completion && IsComplete(id, s2.completion[id])
      && (e.Some? ==> CheckDifficulty(diaries[id].difficulty, cfg) && e.value.area == diaries[id].area)
  {
  }

  /**
   * Two handles in the same tick, or one tick apart, yield one notification; after two logged-in
   * ticks the cooldown has run out and the next handle notifies again.
   */
  lemma CooldownWindow(s: DiaryState, diaries: map<int, Diary>, a1: string, d1: Difficulty, a2: string, d2: Difficulty,
                       pluginEnabled: bool, varbit: int -> int)
    ensures var s1 := HandleStep(s, a1, d1).0;
            var t1 := TickStep(s1, diaries, true, pluginEnabled, varbit);
            var t2 := TickStep(t1, diaries, true, pluginEnabled, varbit);
            && HandleStep(s1, a2, d2).1.None?
            && HandleStep(t1, a2, d2).1.None?
            && HandleStep(t2, a2, d2).1.Some?
  {
  }

  /** Logged-in ticks from the cleared state seed the map from the varbits on the fifth tick. */
  lemma SeededOnFifthTick(diaries: map<int, Diary>, varbit: int -> int)
    requires |diaries| > 0
    ensures var t1 := TickStep(Cleared, diaries, true, true, varbit);
            var t2 := TickStep(t1, diaries, true, true, varbit);
            var t3 := TickStep(t2, diaries, true, true, varbit);
            var t4 := TickStep(t3, diaries, true, true, varbit);
            var t5 := TickStep(t4, diaries, true, true, varbit);
            && t4.completion == map[]
            && t5.completion == SeedFrom(map[], diaries.Keys, varbit)
  {
    var t1 := TickStep(Cleared, diaries, true, true, varbit);
    assert t1.initDelayTicks == 4;
  }

  // ---------------------------------------------------------------------------------------------

  /** DiaryNotifier's own state, over the fixed diary table. */
  class DiaryNotifier {
    /** AchievementDiary.DIARIES: varbit id to area and tier. */
    const diaries: map<int, Diary>
    var completion: map<int, int>
    var initDelayTicks: int
    var cooldownTicks: int

    function State(): DiaryState
      reads this
    {
      DiaryState(completion, initDelayTicks, cooldownTicks)
    }

    ghost predicate Valid()
      reads this
    {
      State().Valid(diaries)
    }

    constructor(diaries: map<int, Diary>)
      ensures this.diaries == diaries && State() == Cleared && Valid()
    {
      this.diaries := diaries;
      completion := map[];
      initDelayTicks := 0;
      cooldownTicks := 0;
    }

    /** reset */
    method Reset()
      modifies this
      ensures State() == Cleared && Valid()
    {
      completion := map[];
      initDelayTicks := 0;
      cooldownTicks := 0;
    }

    /** onGameState: any state but LOGGED_IN resets. */
    method OnGameState(loggedIn: bool)
      modifies this
      ensures State() == if loggedIn then old(State()) else Cleared
      ensures old(Valid()) ==> Valid()
    {
      if !loggedIn {
        Reset();
      }
    }

    /** getTotalCompleted */
    method GetTotalCompleted() returns (n: int)
      ensures n == TotalCompleted(completion)
    {
      n := 0;
      var rest := completion.Keys;
      while rest != {}
        invariant rest <= completion.Keys
        invariant n + |CompleteIds(completion, rest)| == TotalCompleted(completion)
        decreases |rest|
      {
        var id := Pick(rest);
        CompleteIdsRemove(completion, rest, id);
        if IsComplete(id, completion[id]) {
          n := n + 1;
        }
        rest := rest - {id};
      }
    }

    /** initCompleted: reads every table id's varbit and records the non-negative ones. */
    method InitCompleted(pluginEnabled: bool, varbit: int -> int)
      requires Valid()
      modifies this
      ensures completion == if pluginEnabled then SeedFrom(old(completion), diaries.Keys, varbit) else old(completion)
      ensures initDelayTicks == old(initDelayTicks) && cooldownTicks == old(cooldownTicks)
      ensures Valid()
    {
      if !pluginEnabled {
        return;
      }
      SeedFromKeepsValid(completion, diaries.Keys, varbit);
      completion := SeedLoop(completion, diaries.Keys, varbit);
    }

    /** onTick */
    method OnTick(loggedIn: bool, pluginEnabled: bool, varbit: int -> int)
      requires Valid()
      modifies this
      ensures State() == TickStep(old(State()), diaries, loggedIn, pluginEnabled, varbit)
      ensures Valid()
    {
      TickPreservesValid(State(), diaries, loggedIn, pluginEnabled, varbit);
      if !loggedIn {
        return;
      }
      cooldownTicks := Countdown(cooldownTicks);
      var ticks := initDelayTicks;
      initDelayTicks := Countdown(ticks);
      if ticks > 0 {
        if ticks == 1 {
          InitCompleted(pluginEnabled, varbit);
        }
      } else if |completion| < |diaries| && pluginEnabled {
        initDelayTicks := 4;
      }
    }

    /** handle */
    method Handle(area: string, difficulty: Difficulty) returns (emitted: Option<DiaryNotification>)
      requires Valid()
      modifies this
      ensures (State(), emitted) == HandleStep(old(State()), area, difficulty)
      ensures Valid()
    {
      var previous := cooldownTicks;
      cooldownTicks := 2;
      if previous > 0 {
        return None;
      }
      var total := GetTotalCompleted();
      emitted := Some(DiaryNotification(area, difficulty, total));
    }

    /** onVarbitChanged */
    method OnVarbitChanged(id: int, value: int, cfg: DiaryConfig) returns (emitted: Option<DiaryNotification>)
      requires Valid()
      modifies this
      ensures (State(), emitted) == VarbitStep(old(State()), diaries, id, value, cfg)
      ensures Valid()
    {
      VarbitPreservesValid(State(), diaries, id, value, cfg);
      emitted := None;
      if id < 0 || id !in diaries || !cfg.pluginEnabled || completion == map[] {
        return;
      }
      var diary := diaries[id];
      if id !in completion {
        Reset();
      } else if value < completion[id] {
        Reset();
      } else if value > completion[id] {
        completion := completion[id := value];
        if IsComplete(id, value) && CheckDifficulty(diary.difficulty, cfg) {
          emitted := Handle(diary.area, diary.difficulty);
        }
      }
    }

    /**
     * onMessageBox, with `Utils.containsEither` as a parameter. `chosen` is the table entry the
     * search found, if any; which of several matching entries it picks is left open, as `findAny` leaves it.
     */
    method OnMessageBox(message: string, cfg: DiaryConfig, containsEither: (string, string) -> bool)
      returns (chosen: Option<int>, emitted: Option<DiaryNotification>)
      requires Valid()
      modifies this
      ensures chosen.Some? <==> MessageBoxIds(diaries, message, cfg, containsEither) != {}
      ensures chosen.None? ==> State() == old(State()) && emitted.None?
      ensures chosen.Some? ==> chosen.value in MessageBoxIds(diaries, message, cfg, containsEither)
                               && (State(), emitted) == MessageBoxStep(old(State()), diaries, chosen.value, cfg)
      ensures Valid()
    {
      chosen, emitted := None, None;
      var candidates := MessageBoxIds(diaries, message, cfg, containsEither);
      if candidates == {} {
        return;
      }
      var id := Pick(candidates);
      chosen := Some(id);
      emitted := RecordFound(id, cfg);
    }

    /** The found entry is recorded as complete at the lowest qualifying value, then handled if its tier is wanted. */
    method RecordFound(id: int, cfg: DiaryConfig) returns (emitted: Option<DiaryNotification>)
      requires id in diaries && Valid()
      modifies this
      ensures (State(), emitted) == MessageBoxStep(old(State()), diaries, id, cfg)
      ensures Valid()
    {
      MessageBoxPreservesValid(State(), diaries, id, cfg);
      emitted := None;
      completion := completion[id := MessageBoxValue(id)];
      if CheckDifficulty(diaries[id].difficulty, cfg) {
        emitted := Handle(diaries[id].area, diaries[id].difficulty);
      }
    }
  }

  // ---------------------------------------------------------------------------------------------
  // The message-box path as written skips the minimum-tier check

  /**
   * As written, the message box notifies about a completion below the configured minimum tier,
   * which the varbit path for the same completion declines to do.
   */
  lemma MessageBoxIgnoresMinimum()
    ensures var diaries := map[1 := Diary("Lumbridge & Draynor", EASY)];
            var cfg := DiaryConfig(true, true, HARD);
            var s := DiaryState(map[1 := 0], 0, 0);
            && MessageBoxStepAsWritten(s, diaries, 1).1.Some?
            && VarbitStep(s, diaries, 1, 1, cfg).1.None?
            && MessageBoxStep(s, diaries, 1, cfg).1.None?
  {
    var diaries := map[1 := Diary("Lumbridge & Draynor", EASY)];
    var cfg := DiaryConfig(true, true, HARD);
    assert !CheckDifficulty(diaries[1].difficulty, cfg);
  }

  /** With the minimum applied, both paths agree on whether a completion of a given tier may be reported. */
  lemma MessageBoxRespectsMinimum(s: DiaryState, diaries: map<int, Diary>, id: int, cfg: DiaryConfig)
    requires s.Valid(diaries) && id in diaries
    ensures MessageBoxStep(s, diaries, id, cfg).1.Some? ==> CheckDifficulty(diaries[id].difficulty, cfg)
    ensures MessageBoxStep(s, diaries, id, cfg).1.Some? <==> CheckDifficulty(diaries[id].difficulty, cfg) && s.cooldownTicks == 0
  {
  }
}
