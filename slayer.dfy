/**
 * SlayerNotifier: assembles a task label from up to three chat lines (a boss-task line, the task
 * line, and the points line that completes it) and reports the task if the points reach the
 * configured threshold. A label left incomplete is dropped on the second tick.
 */
module Slayer {
  import opened Wrappers
  import opened Text

  /** `[^.]`, which unlike `.` also matches line terminators. */
  predicate NotDot(c: char) {
    c != '.'
  }

  // ---------------------------------------------------------------------------------------------
  // BOSS_REGEX: "You are granted .+ Slayer XP for completing your boss task against(?: the)? (?<name>.+)\.$"

  const GRANTED := "You are granted "
  const AGAINST := " Slayer XP for completing your boss task against"

  /** `(?<name>.+)\.$` at `n`: a name on one line, then a full stop that ends the input. */
  ghost predicate NameShape(msg: string, n: int, name: string) {
    && |name| >= 1 && HasAt(msg, n, name) && NoTerminators(name)
    && HasAt(msg, n + |name|, ".") && DollarAt(msg, n + |name| + 1)
  }

  /** Some name in the layout of `(?<name>.+)\.$` starts at `n`. */
  ghost predicate HasName(msg: string, n: int) {
    exists name :: NameShape(msg, n, name)
  }

  /**
   * `(?: the)? (?<name>.+)\.$` at `k`. The optional group is greedy: " the " is taken whenever a
   * name follows it, so "against the Kraken." names "Kraken". Only when no name follows " the "
   * is the name the text after the single space.
   */
  ghost predicate TheNameShape(msg: string, k: int, name: string) {
    if HasAt(msg, k, " the ") && HasName(msg, k + |" the "|) then NameShape(msg, k + |" the "|, name)
    else HasAt(msg, k, " ") && NameShape(msg, k + 1, name)
  }

  /** A line matches BOSS_REGEX at `p`, its `.+` covering `xp`, with group `name`. */
  ghost predicate BossShape(msg: string, p: int, xp: string, name: string) {
    && HasAt(msg, p, GRANTED)
    && var b := p + |GRANTED|;
       && |xp| >= 1 && HasAt(msg, b, xp) && NoTerminators(xp)
       && HasAt(msg, b + |xp|, AGAINST)
       && TheNameShape(msg, b + |xp| + |AGAINST|, name)
  }

  function NameCandidate(msg: string, n: int, j: int): Option<string> {
    if 0 <= n < j && HasAt(msg, j, ".") && DollarAt(msg, j + 1) then Some(msg[n..j]) else None
  }

  function NameCandidates(msg: string, n: int): int -> Option<string> {
    j => NameCandidate(msg, n, j)
  }

  /** ` (?<name>.+)\.$` at `c`, the name giving back characters from the end of the line. */
  function NameAt(msg: string, c: int): Option<string> {
    if !HasAt(msg, c, " ") then None
    else Greedy(c + 2, LineEnd(msg, c + 1), NameCandidates(msg, c + 1))
  }

  /** `(?: the)? (?<name>.+)\.$` at `k`: with " the" first, then without. */
  function TheNameAt(msg: string, k: int): Option<string> {
    if HasAt(msg, k, " the") && NameAt(msg, k + |" the"|).Some? then NameAt(msg, k + |" the"|)
    else NameAt(msg, k)
  }

  function XpCandidate(msg: string, b: int, i: int): Option<string> {
    if 0 <= b < i && HasAt(msg, i, AGAINST) then TheNameAt(msg, i + |AGAINST|) else None
  }

  function XpCandidates(msg: string, b: int): int -> Option<string> {
    i => XpCandidate(msg, b, i)
  }

  lemma XpCandidatesApply(msg: string, b: int, i: int)
    ensures XpCandidates(msg, b)(i) == XpCandidate(msg, b, i)
  {
  }

  /** BOSS_REGEX tried at `p`. */
  function BossAt(msg: string, p: int): Option<string> {
    if !HasAt(msg, p, GRANTED) then None
    else
      var b := p + |GRANTED|;
      Greedy(b + 1, LineEnd(msg, b), XpCandidates(msg, b))
  }

  function BossStarts(msg: string): int -> Option<string> {
    p => BossAt(msg, p)
  }

  /** `BOSS_REGEX.matcher(chatMessage).find()` and its `name` group. */
  function MatchBoss(msg: string): Option<string> {
    Leftmost(0, |msg|, BossStarts(msg))
  }

  lemma NameCandidateSound(msg: string, n: int, j: int)
    requires 0 <= n <= |msg| && j <= LineEnd(msg, n)
    requires NameCandidate(msg, n, j).Some?
    ensures NameShape(msg, n, NameCandidate(msg, n, j).value)
  {
    var name := msg[n..j];
    assert n < j && HasAt(msg, j, ".") && DollarAt(msg, j + 1) && NameCandidate(msg, n, j).value == name;
    NoTerminatorsPrefix(msg, n, j, LineEnd(msg, n));
    assert |name| == j - n && HasAt(msg, n, name);
  }

  lemma NameAtSound(msg: string, c: int)
    requires NameAt(msg, c).Some?
    ensures HasAt(msg, c, " ") && NameShape(msg, c + 1, NameAt(msg, c).value)
  {
    var n := c + 1;
    var j := GreedyAt(n + 1, LineEnd(msg, n), NameCandidates(msg, n));
    NameCandidateSound(msg, n, j);
  }

  /** A full stop followed by the end of the input can stand at one place only. */
  lemma DotEndUnique(msg: string, j1: int, j2: int)
    requires HasAt(msg, j1, ".") && DollarAt(msg, j1 + 1)
    requires HasAt(msg, j2, ".") && DollarAt(msg, j2 + 1)
    ensures j1 == j2
  {
    HasAtChar(msg, j1, ".", 0);
    HasAtChar(msg, j2, ".", 0);
  }

  lemma NameAtComplete(msg: string, c: int, name: string)
    requires HasAt(msg, c, " ") && NameShape(msg, c + 1, name)
    ensures NameAt(msg, c) == Some(name)
  {
    var n := c + 1;
    var j := n + |name|;
    assert msg[n..j] == name;
    LineEndBounds(msg, n, j);
    assert NameCandidates(msg, n)(j).Some?;
    var i := GreedyAt(n + 1, LineEnd(msg, n), NameCandidates(msg, n));
    assert NameCandidate(msg, n, i).Some?;
    DotEndUnique(msg, i, j);
  }

  /** Whether the " the" alternative succeeds is whether a name follows " the ". */
  lemma TheLayout(msg: string, k: int)
    ensures (HasAt(msg, k, " the") && NameAt(msg, k + |" the"|).Some?)
        <==> (HasAt(msg, k, " the ") && HasName(msg, k + |" the "|))
  {
    if HasAt(msg, k, " the") && NameAt(msg, k + 4).Some? {
      NameAtSound(msg, k + 4);
      assert msg[k..k + 5] == msg[k..k + 4] + msg[k + 4..k + 5];
    }
    if HasAt(msg, k, " the ") && HasName(msg, k + 5) {
      var name :| NameShape(msg, k + 5, name);
      assert msg[k..k + 4] == msg[k..k + 5][..4];
      assert msg[k + 4..k + 5] == msg[k..k + 5][4..];
      NameAtComplete(msg, k + 4, name);
    }
  }

  lemma TheNameAtSound(msg: string, k: int)
    requires TheNameAt(msg, k).Some?
    ensures TheNameShape(msg, k, TheNameAt(msg, k).value)
  {
    TheLayout(msg, k);
    if HasAt(msg, k, " the") && NameAt(msg, k + 4).Some? {
      NameAtSound(msg, k + 4);
    } else {
      NameAtSound(msg, k);
    }
  }

  lemma TheNameAtComplete(msg: string, k: int, name: string)
    requires TheNameShape(msg, k, name)
    ensures TheNameAt(msg, k) == Some(name)
  {
    TheLayout(msg, k);
    if HasAt(msg, k, " the ") && HasName(msg, k + 5) {
      assert msg[k + 4..k + 5] == msg[k..k + 5][4..];
      NameAtComplete(msg, k + 4, name);
    } else {
      NameAtComplete(msg, k, name);
    }
  }

  /** The layout at `k` fixes the name. */
  lemma TheNameShapeUnique(msg: string, k: int, name1: string, name2: string)
    requires TheNameShape(msg, k, name1) && TheNameShape(msg, k, name2)
    ensures name1 == name2
  {
    TheNameAtComplete(msg, k, name1);
    TheNameAtComplete(msg, k, name2);
  }

  /** "against the Kraken." reports "Kraken", never "the Kraken". */
  lemma TheArticleDropped(msg: string, k: int, name: string)
    requires HasAt(msg, k, " the ") && NameShape(msg, k + |" the "|, name)
    ensures TheNameAt(msg, k) == Some(name)
  {
    assert HasName(msg, k + 5);
    TheNameAtComplete(msg, k, name);
  }

  /** No layout of BOSS_REGEX at `p` has a longer `.+` than `xp`: the greedy `.+` takes it. */
  ghost predicate LongestXp(msg: string, p: int, xp: string) {
    forall xp2, name2 :: BossShape(msg, p, xp2, name2) ==> |xp2| <= |xp|
  }

  /** BOSS_REGEX matches at `p` with group `name`, its `.+` as long as any layout allows. */
  ghost predicate BossMatch(msg: string, p: int, name: string) {
    exists xp :: BossShape(msg, p, xp, name) && LongestXp(msg, p, xp)
  }

  lemma XpCandidateSound(msg: string, p: int, i: int)
    requires HasAt(msg, p, GRANTED) && i <= LineEnd(msg, p + |GRANTED|)
    requires XpCandidate(msg, p + |GRANTED|, i).Some?
    ensures BossShape(msg, p, msg[p + |GRANTED|..i], XpCandidate(msg, p + |GRANTED|, i).value)
  {
    var b := p + |GRANTED|;
    var k := i + |AGAINST|;
    assert b < i && HasAt(msg, i, AGAINST) && XpCandidate(msg, b, i) == TheNameAt(msg, k);
    TheNameAtSound(msg, k);
    var xp := msg[b..i];
    NoTerminatorsPrefix(msg, b, i, LineEnd(msg, b));
    assert |xp| >= 1 && HasAt(msg, b, xp) && NoTerminators(xp);
  }

  lemma XpCandidateComplete(msg: string, p: int, b: int, xp: string, name: string)
    requires b == p + |GRANTED|
    ensures BossShape(msg, p, xp, name) ==>
      b + |xp| <= LineEnd(msg, b) && XpCandidate(msg, b, b + |xp|) == Some(name)
  {
    if BossShape(msg, p, xp, name) {
      var i := b + |xp|;
      assert msg[b..i] == xp;
      LineEndBounds(msg, b, i);
      TheNameAtComplete(msg, i + |AGAINST|, name);
    }
  }

  /** Where the greedy `.+` stops, no layout has a longer one. */
  lemma LongestXpAt(msg: string, p: int, b: int, i: int)
    requires HasAt(msg, p, GRANTED) && b == p + |GRANTED| <= i <= |msg|
    requires forall j :: i < j <= LineEnd(msg, b) ==> XpCandidate(msg, b, j).None?
    ensures LongestXp(msg, p, msg[b..i])
  {
    forall xp2, name2 | BossShape(msg, p, xp2, name2) ensures |xp2| <= i - b {
      XpCandidateComplete(msg, p, b, xp2, name2);
    }
  }

  lemma BossAtSound(msg: string, p: int)
    requires BossAt(msg, p).Some?
    ensures BossMatch(msg, p, BossAt(msg, p).value)
  {
    var b := p + |GRANTED|;
    var i := GreedyAt(b + 1, LineEnd(msg, b), XpCandidates(msg, b));
    XpCandidateSound(msg, p, i);
    forall j | i < j <= LineEnd(msg, b) ensures XpCandidate(msg, b, j).None? {
      XpCandidatesApply(msg, b, j);
    }
    LongestXpAt(msg, p, b, i);
  }

  lemma BossAtFrom(msg: string, p: int, b: int, e: int)
    requires b == p + |GRANTED|
    ensures
      (HasAt(msg, p, GRANTED) && b < e <= LineEnd(msg, b) && XpCandidate(msg, b, e).Some?)
      ==> BossAt(msg, p).Some?
  {
    if HasAt(msg, p, GRANTED) && b < e <= LineEnd(msg, b) && XpCandidate(msg, b, e).Some? {
      XpCandidatesApply(msg, b, e);
      GreedyFinds(b + 1, LineEnd(msg, b), XpCandidates(msg, b), e);
    }
  }

  /** Any layout at `p` makes the recogniser succeed there. */
  lemma BossAtFound(msg: string, p: int, xp: string, name: string)
    ensures BossShape(msg, p, xp, name) ==> BossAt(msg, p).Some?
  {
    var b := p + |GRANTED|;
    XpCandidateComplete(msg, p, b, xp, name);
    BossAtFrom(msg, p, b, b + |xp|);
  }

  /** Two layouts at one start whose `.+` have one length have one name. */
  lemma BossShapeUnique(msg: string, p: int, xp1: string, name1: string, xp2: string, name2: string)
    requires BossShape(msg, p, xp1, name1) && BossShape(msg, p, xp2, name2) && |xp1| == |xp2|
    ensures xp1 == xp2 && name1 == name2
  {
    var b := p + |GRANTED|;
    assert xp1 == msg[b..b + |xp1|] == xp2;
    TheNameShapeUnique(msg, b + |xp1| + |AGAINST|, name1, name2);
  }

  lemma BossAtComplete(msg: string, p: int, xp: string, name: string)
    requires BossShape(msg, p, xp, name) && LongestXp(msg, p, xp)
    ensures BossAt(msg, p) == Some(name)
  {
    BossAtFound(msg, p, xp, name);
    BossAtSound(msg, p);
    var found := BossAt(msg, p).value;
    var xp' :| BossShape(msg, p, xp', found) && LongestXp(msg, p, xp');
    BossShapeUnique(msg, p, xp, name, xp', found);
  }

  /** No layout of BOSS_REGEX starts before `p`. */
  ghost predicate NoBossBefore(msg: string, p: int) {
    forall q, xp, name :: 0 <= q < p ==> !BossShape(msg, q, xp, name)
  }

  /**
   * The recogniser finds a match exactly when the line has the pattern's layout somewhere, and
   * then reports the group of the leftmost start, with the longest `.+` and " the " dropped.
   */
  lemma MatchBossCorrect(msg: string)
    ensures MatchBoss(msg).Some? ==>
      exists p :: 0 <= p <= |msg| && NoBossBefore(msg, p) && BossMatch(msg, p, MatchBoss(msg).value)
    ensures (exists p, xp, name :: BossShape(msg, p, xp, name)) ==> MatchBoss(msg).Some?
  {
    if MatchBoss(msg).Some? {
      var p := LeftmostAt(0, |msg|, BossStarts(msg));
      BossAtSound(msg, p);
      forall q, xp, name | 0 <= q < p ensures !BossShape(msg, q, xp, name) {
        assert BossStarts(msg)(q).None?;
        BossAtFound(msg, q, xp, name);
      }
    }
    if p, xp, name :| BossShape(msg, p, xp, name) {
      BossAtFound(msg, p, xp, name);
      assert 0 <= p <= |msg| && BossStarts(msg)(p).Some?;
    }
  }

  // ---------------------------------------------------------------------------------------------
  // SLAYER_TASK_REGEX: "You have completed your task! You killed (?<task>[\d,]+ [^.]+)\..*"

  const KILLED := "You have completed your task! You killed "

  /** The `task` group, split at its first space: the kill count and the monster. */
  datatype TaskMatch = TaskMatch(count: string, monster: string) {
    function Task(): (r: string)
      ensures ' ' in r
    {
      assert (count + " " + monster)[|count|] == ' ';
      count + " " + monster
    }
  }

  /** A line matches SLAYER_TASK_REGEX at `p` with the task `m`. */
  ghost predicate TaskShape(msg: string, p: int, m: TaskMatch) {
    && HasAt(msg, p, KILLED)
    && var a := p + |KILLED|;
       && |m.count| >= 1 && AllDigitsOrCommas(m.count) && HasAt(msg, a, m.count)
       && HasAt(msg, a + |m.count|, " ")
       && |m.monster| >= 1 && (forall k :: 0 <= k < |m.monster| ==> NotDot(m.monster[k]))
       && HasAt(msg, a + |m.count| + 1, m.monster)
       && HasAt(msg, a + |m.count| + 1 + |m.monster|, ".")
  }

  /** SLAYER_TASK_REGEX tried at `p`; both runs are maximal, since what follows each cannot belong to it. */
  function TaskAt(msg: string, p: int): (r: Option<TaskMatch>)
    ensures r.Some? ==> AllDigitsOrCommas(r.value.count)
  {
    if !HasAt(msg, p, KILLED) then None
    else
      var a := p + |KILLED|;
      var e := RunEnd(msg, a, IsDigitOrComma);
      if e == a || !HasAt(msg, e, " ") then None
      else
        var f := RunEnd(msg, e + 1, NotDot);
        if f == e + 1 || f == |msg| then None
        else Some(TaskMatch(msg[a..e], msg[e + 1..f]))
  }

  function TaskStarts(msg: string): int -> Option<TaskMatch> {
    p => TaskAt(msg, p)
  }

  /** `SLAYER_TASK_REGEX.matcher(chatMessage).find()` and its `task` group. */
  function MatchTask(msg: string): (r: Option<TaskMatch>)
    ensures r.Some? ==> AllDigitsOrCommas(r.value.count)
  {
    Leftmost(0, |msg|, TaskStarts(msg))
  }

  lemma TaskAtSound(msg: string, p: int)
    requires TaskAt(msg, p).Some?
    ensures TaskShape(msg, p, TaskAt(msg, p).value)
  {
    var m := TaskAt(msg, p).value;
    var a := p + |KILLED|;
    var e := RunEnd(msg, a, IsDigitOrComma);
    assert HasAt(msg, a, m.count);
    forall k | 0 <= k < |m.count|
      ensures IsDigitOrComma(m.count[k])
    {
      assert m.count[k] == msg[a + k];
    }
    var f := RunEnd(msg, e + 1, NotDot);
    assert HasAt(msg, e + 1, m.monster);
    forall k | 0 <= k < |m.monster|
      ensures NotDot(m.monster[k])
    {
      assert m.monster[k] == msg[e + 1 + k];
    }
  }

  /** TaskAt in terms of where its two runs end. */
  lemma TaskAtOf(msg: string, p: int, e: int, f: int)
    requires HasAt(msg, p, KILLED)
    requires RunEnd(msg, p + |KILLED|, IsDigitOrComma) == e && e > p + |KILLED| && HasAt(msg, e, " ")
    requires RunEnd(msg, e + 1, NotDot) == f && e + 1 < f < |msg|
    ensures TaskAt(msg, p) == Some(TaskMatch(msg[p + |KILLED|..e], msg[e + 1..f]))
  {
  }

  lemma TaskAtComplete(msg: string, p: int, m: TaskMatch)
    requires TaskShape(msg, p, m)
    ensures TaskAt(msg, p) == Some(m)
  {
    var a := p + |KILLED|;
    var e := a + |m.count|;
    var f := e + 1 + |m.monster|;
    HasAtChar(msg, e, " ", 0);
    HasAtChar(msg, f, ".", 0);
    RunEndOf(msg, a, m.count, IsDigitOrComma);
    RunEndOf(msg, e + 1, m.monster, NotDot);
    TaskAtOf(msg, p, e, f);
    assert msg[a..e] == m.count && msg[e + 1..f] == m.monster;
  }

  /** The recogniser finds a match exactly when the line has the pattern's layout somewhere. */
  lemma MatchTaskCorrect(msg: string)
    ensures MatchTask(msg).Some? ==> exists p :: 0 <= p <= |msg| && TaskShape(msg, p, MatchTask(msg).value)
    ensures (exists p, m :: TaskShape(msg, p, m)) ==> MatchTask(msg).Some?
  {
    if MatchTask(msg).Some? {
      var p := LeftmostAt(0, |msg|, TaskStarts(msg));
      TaskAtSound(msg, p);
    }
    if p, m :| TaskShape(msg, p, m) {
      TaskAtComplete(msg, p, m);
      assert 0 <= p <= |msg| && TaskStarts(msg)(p).Some?;
    }
  }

  // ---------------------------------------------------------------------------------------------
  // SLAYER_COMPLETE_REGEX: "You've completed (?:at least )?(?<taskCount>[\d,]+) (?:Wilderness )?tasks?
  //   (?: and received (?<points>[\d,]+) points, giving you a total of [\d,]+
  //      |\.You'll be eligible to earn reward points if you complete tasks from a more advanced Slayer Master\.
  //      | and reached the maximum amount of Slayer points \((?<points2>[\d,]+)\))?"

  const COMPLETED := "You've completed "
  const AT_LEAST := "at least "
  const WILDERNESS := "Wilderness "
  const RECEIVED := " and received "
  const GIVING := " points, giving you a total of "
  // Split after its first character, which is what tells this alternative apart from the other two.
  const ELIGIBLE := "." + "You'll be eligible to earn reward points if you complete tasks from a more advanced Slayer Master."
  const REACHED := " and reached the maximum amount of Slayer points ("

  /** The three groups of a completion line; the two points groups are null when their alternative did not match. */
  datatype CompleteMatch = CompleteMatch(taskCount: string, points: Option<string>, points2: Option<string>) {
    /** Every group that is present holds a `[\d,]+` number. */
    predicate WellFormed() {
      && IsNumber(taskCount)
      && (points.Some? ==> IsNumber(points.value))
      && (points2.Some? ==> IsNumber(points2.value))
    }
  }

  /** `[\d,]+` */
  predicate IsNumber(s: string) {
    |s| >= 1 && AllDigitsOrCommas(s)
  }

  /** An optional literal: where the text goes on after it. */
  function Skip(msg: string, i: int, lit: string): int {
    if HasAt(msg, i, lit) then i + |lit| else i
  }

  /** `[\d,]+` at `i` followed by `after`: the run, which must be maximal since `after` starts with neither. */
  function NumberBefore(msg: string, i: int, after: string): (r: Option<string>)
    ensures r.Some? ==> IsNumber(r.value)
  {
    if !(0 <= i <= |msg|) then None
    else
      var e := RunEnd(msg, i, IsDigitOrComma);
      if e > i && HasAt(msg, e, after) then Some(msg[i..e]) else None
  }

  /** The first alternative's `points`: the number received, when the whole alternative matches at `t`. */
  function ReceivedPoints(msg: string, t: int): (r: Option<string>)
    ensures r.Some? ==> IsNumber(r.value)
  {
    if !HasAt(msg, t, RECEIVED) then None
    else
      match NumberBefore(msg, t + |RECEIVED|, GIVING)
      case None => None
      case Some(points) =>
        var u := t + |RECEIVED| + |points| + |GIVING|;
        if u < |msg| && IsDigitOrComma(msg[u]) then Some(points) else None
  }

  /** The third alternative's `points2`, tried only when the first two alternatives fail at `t`. */
  function MaximumPoints(msg: string, t: int): (r: Option<string>)
    ensures r.Some? ==> IsNumber(r.value)
  {
    if ReceivedPoints(msg, t).Some? || HasAt(msg, t, ELIGIBLE) || !HasAt(msg, t, REACHED) then None
    else NumberBefore(msg, t + |REACHED|, ")")
  }

  /** Where the optional trailing group starts: after "task" and a greedy optional "s". */
  function TailStart(msg: string, p: int, count: string): int {
    var c := Skip(msg, p + |COMPLETED|, AT_LEAST);
    var w := Skip(msg, c + |count| + 1, WILDERNESS);
    Skip(msg, w + 4, "s")
  }

  /** SLAYER_COMPLETE_REGEX up to "task", tried at `p`: the task count, when that much of the line is there. */
  function TaskCountAt(msg: string, p: int): (r: Option<string>)
    ensures r.Some? ==> IsNumber(r.value)
  {
    if !HasAt(msg, p, COMPLETED) then None
    else
      var c := Skip(msg, p + |COMPLETED|, AT_LEAST);
      match NumberBefore(msg, c, " ")
      case None => None
      case Some(count) =>
        if HasAt(msg, Skip(msg, c + |count| + 1, WILDERNESS), "task") then Some(count) else None
  }

  /**
   * SLAYER_COMPLETE_REGEX tried at `p`. The optional words are taken whenever present, since
   * without them the count or "task" could not follow; the trailing group is optional, so the
   * match succeeds once "task" is found.
   */
  function CompleteAt(msg: string, p: int): (r: Option<CompleteMatch>)
    ensures r.Some? ==> r.value.WellFormed()
  {
    match TaskCountAt(msg, p)
    case None => None
    case Some(count) =>
      var t := TailStart(msg, p, count);
      Some(CompleteMatch(count, ReceivedPoints(msg, t), MaximumPoints(msg, t)))
  }

  function CompleteStarts(msg: string): int -> Option<CompleteMatch> {
    p => CompleteAt(msg, p)
  }

  /** `SLAYER_COMPLETE_REGEX.matcher(chatMessage).find()` with its groups. */
  function MatchComplete(msg: string): (r: Option<CompleteMatch>)
    ensures r.Some? ==> r.value.WellFormed()
  {
    Leftmost(0, |msg|, CompleteStarts(msg))
  }

  /** The first alternative at `t`: " and received ", the points, " points, giving you a total of " and a number. */
  ghost predicate ReceivedShape(msg: string, t: int, points: string) {
    && HasAt(msg, t, RECEIVED) && IsNumber(points) && HasAt(msg, t + |RECEIVED|, points)
    && var g := t + |RECEIVED| + |points|;
       HasAt(msg, g, GIVING) && g + |GIVING| < |msg| && IsDigitOrComma(msg[g + |GIVING|])
  }

  /** The third alternative at `t`: " and reached the maximum amount of Slayer points (", the points and ")". */
  ghost predicate MaximumShape(msg: string, t: int, points2: string) {
    && HasAt(msg, t, REACHED) && IsNumber(points2) && HasAt(msg, t + |REACHED|, points2)
    && HasAt(msg, t + |REACHED| + |points2|, ")")
  }

  /** The `points` group: set to the received points when the first alternative matches, null when it does not. */
  ghost predicate ReceivedGroup(msg: string, t: int, g: Option<string>) {
    match g
    case Some(x) => ReceivedShape(msg, t, x)
    case None => forall x :: !ReceivedShape(msg, t, x)
  }

  /** The `points2` group: set to the capped points when the third alternative matches, null when it does not. */
  ghost predicate MaximumGroup(msg: string, t: int, g: Option<string>) {
    match g
    case Some(x) => MaximumShape(msg, t, x)
    case None => forall x :: !MaximumShape(msg, t, x)
  }

  /** The three alternatives exclude each other, so the order in which they are tried decides nothing. */
  lemma AlternativesExclusive(msg: string, t: int)
    ensures !(HasAt(msg, t, RECEIVED) && HasAt(msg, t, REACHED))
    ensures !(HasAt(msg, t, RECEIVED) && HasAt(msg, t, ELIGIBLE))
    ensures !(HasAt(msg, t, REACHED) && HasAt(msg, t, ELIGIBLE))
  {
    assert RECEIVED[0] == ' ' && REACHED[0] == ' ' && ELIGIBLE[0] == '.';
    assert RECEIVED[7] == 'c' && REACHED[7] == 'a';
    HasAtChar(msg, t, RECEIVED, 0);
    HasAtChar(msg, t, REACHED, 0);
    HasAtChar(msg, t, ELIGIBLE, 0);
    HasAtChar(msg, t, RECEIVED, 7);
    HasAtChar(msg, t, REACHED, 7);
  }

  lemma ReceivedPointsSound(msg: string, t: int)
    requires ReceivedPoints(msg, t).Some?
    ensures ReceivedShape(msg, t, ReceivedPoints(msg, t).value)
  {
    NumberBeforeCorrect(msg, t + |RECEIVED|, GIVING, "");
  }

  lemma ReceivedPointsComplete(msg: string, t: int, x: string)
    requires ReceivedShape(msg, t, x)
    ensures ReceivedPoints(msg, t) == Some(x)
  {
    NumberBeforeCorrect(msg, t + |RECEIVED|, GIVING, x);
    assert NumberBefore(msg, t + |RECEIVED|, GIVING) == Some(x);
  }

  /** `ReceivedPoints` is the `points` group: the number after " and received " exactly when that alternative matches. */
  lemma ReceivedPointsCorrect(msg: string, t: int, g: Option<string>)
    ensures ReceivedGroup(msg, t, g) <==> ReceivedPoints(msg, t) == g
  {
    if ReceivedPoints(msg, t).Some? {
      ReceivedPointsSound(msg, t);
    }
    match g
    case Some(x) =>
      if ReceivedShape(msg, t, x) {
        ReceivedPointsComplete(msg, t, x);
      }
    case None =>
      forall x | ReceivedShape(msg, t, x)
        ensures ReceivedPoints(msg, t) == Some(x)
      {
        ReceivedPointsComplete(msg, t, x);
      }
  }

  lemma MaximumPointsSound(msg: string, t: int)
    requires MaximumPoints(msg, t).Some?
    ensures MaximumShape(msg, t, MaximumPoints(msg, t).value)
  {
    NumberBeforeCorrect(msg, t + |REACHED|, ")", "");
  }

  lemma MaximumPointsComplete(msg: string, t: int, x: string)
    requires MaximumShape(msg, t, x)
    ensures MaximumPoints(msg, t) == Some(x)
  {
    AlternativesExclusive(msg, t);
    assert !HasAt(msg, t, RECEIVED) && !HasAt(msg, t, ELIGIBLE);
    assert ReceivedPoints(msg, t).None?;
    NumberBeforeCorrect(msg, t + |REACHED|, ")", x);
    assert NumberBefore(msg, t + |REACHED|, ")") == Some(x);
  }

  /** `MaximumPoints` is the `points2` group: the number inside "(…)" exactly when the third alternative matches. */
  lemma MaximumPointsCorrect(msg: string, t: int, g: Option<string>)
    ensures MaximumGroup(msg, t, g) <==> MaximumPoints(msg, t) == g
  {
    if MaximumPoints(msg, t).Some? {
      MaximumPointsSound(msg, t);
    }
    match g
    case Some(x) =>
      if MaximumShape(msg, t, x) {
        MaximumPointsComplete(msg, t, x);
      }
    case None =>
      forall x | MaximumShape(msg, t, x)
        ensures MaximumPoints(msg, t) == Some(x)
      {
        MaximumPointsComplete(msg, t, x);
      }
  }

  /** A line matches SLAYER_COMPLETE_REGEX up to "task" at `p` with task count `count`. */
  ghost predicate HeadShape(msg: string, p: int, count: string) {
    && HasAt(msg, p, COMPLETED)
    && var c := Skip(msg, p + |COMPLETED|, AT_LEAST);
       && IsNumber(count) && HasAt(msg, c, count)
       && HasAt(msg, c + |count|, " ")
       && HasAt(msg, Skip(msg, c + |count| + 1, WILDERNESS), "task")
  }

  /** A line matches SLAYER_COMPLETE_REGEX at `p` with the groups of `m`. */
  ghost predicate CompleteShape(msg: string, p: int, m: CompleteMatch) {
    && HeadShape(msg, p, m.taskCount)
    && ReceivedGroup(msg, TailStart(msg, p, m.taskCount), m.points)
    && MaximumGroup(msg, TailStart(msg, p, m.taskCount), m.points2)
  }

  /** A number found before a terminator is a non-empty run of digits and commas, and conversely. */
  lemma NumberBeforeCorrect(msg: string, i: int, after: string, v: string)
    requires |after| >= 1 && !IsDigitOrComma(after[0])
    ensures NumberBefore(msg, i, after).Some? ==>
      var n := NumberBefore(msg, i, after).value;
      |n| >= 1 && AllDigitsOrCommas(n) && HasAt(msg, i, n) && HasAt(msg, i + |n|, after)
    ensures |v| >= 1 && AllDigitsOrCommas(v) && HasAt(msg, i, v) && HasAt(msg, i + |v|, after) ==> NumberBefore(msg, i, after) == Some(v)
  {
    if NumberBefore(msg, i, after).Some? {
      var e := RunEnd(msg, i, IsDigitOrComma);
      var n := msg[i..e];
      forall k | 0 <= k < |n|
        ensures IsDigitOrComma(n[k])
      {
        assert n[k] == msg[i + k];
      }
    }
    if |v| >= 1 && AllDigitsOrCommas(v) && HasAt(msg, i, v) && HasAt(msg, i + |v|, after) {
      assert msg[i + |v|] == after[0];
      RunEndOf(msg, i, v, IsDigitOrComma);
    }
  }

  lemma TaskCountAtSound(msg: string, p: int)
    requires TaskCountAt(msg, p).Some?
    ensures HeadShape(msg, p, TaskCountAt(msg, p).value)
  {
    var c := Skip(msg, p + |COMPLETED|, AT_LEAST);
    assert TaskCountAt(msg, p).value == NumberBefore(msg, c, " ").value;
    NumberBeforeCorrect(msg, c, " ", "");
  }

  lemma TaskCountAtComplete(msg: string, p: int, count: string)
    requires HeadShape(msg, p, count)
    ensures TaskCountAt(msg, p) == Some(count)
  {
    var c := Skip(msg, p + |COMPLETED|, AT_LEAST);
    NumberBeforeCorrect(msg, c, " ", count);
    assert NumberBefore(msg, c, " ") == Some(count);
  }

  lemma CompleteAtSound(msg: string, p: int)
    requires CompleteAt(msg, p).Some?
    ensures CompleteShape(msg, p, CompleteAt(msg, p).value)
  {
    var count := TaskCountAt(msg, p).value;
    var t := TailStart(msg, p, count);
    TaskCountAtSound(msg, p);
    assert CompleteAt(msg, p).value == CompleteMatch(count, ReceivedPoints(msg, t), MaximumPoints(msg, t));
    ReceivedPointsCorrect(msg, t, ReceivedPoints(msg, t));
    MaximumPointsCorrect(msg, t, MaximumPoints(msg, t));
  }

  lemma CompleteAtComplete(msg: string, p: int, m: CompleteMatch)
    requires CompleteShape(msg, p, m)
    ensures CompleteAt(msg, p) == Some(m)
  {
    var t := TailStart(msg, p, m.taskCount);
    TaskCountAtComplete(msg, p, m.taskCount);
    ReceivedPointsCorrect(msg, t, m.points);
    MaximumPointsCorrect(msg, t, m.points2);
  }

  /** The recogniser finds a match exactly when the line has the pattern's layout somewhere, and its groups are that layout's. */
  lemma MatchCompleteCorrect(msg: string)
    ensures MatchComplete(msg).Some? ==> exists p :: 0 <= p <= |msg| && CompleteShape(msg, p, MatchComplete(msg).value)
    ensures (exists p, m :: CompleteShape(msg, p, m)) ==> MatchComplete(msg).Some?
  {
    if MatchComplete(msg).Some? {
      var p := LeftmostAt(0, |msg|, CompleteStarts(msg));
      CompleteAtSound(msg, p);
    }
    if p, m :| CompleteShape(msg, p, m) {
      CompleteAtComplete(msg, p, m);
      assert 0 <= p <= |msg| && CompleteStarts(msg)(p).Some?;
    }
  }

  /** The points a completion line reports: the `points` group, else `points2`, else "0". */
  function PointsOf(m: CompleteMatch): (r: string)
    ensures m.points.Some? ==> r == m.points.value
    ensures m.points.None? && m.points2.Some? ==> r == m.points2.value
    ensures m.points.None? && m.points2.None? ==> r == "0"
    ensures m.WellFormed() ==> IsNumber(r)
  {
    m.points.GetOr(m.points2.GetOr("0"))
  }

  // ---------------------------------------------------------------------------------------------
  // The label

  const BOSS_SUFFIX := " boss"

  /** A boss-task name without a trailing " boss". */
  function StripBossSuffix(name: string): (r: string)
    ensures EndsWith(name, BOSS_SUFFIX) ==> r + BOSS_SUFFIX == name
    ensures !EndsWith(name, BOSS_SUFFIX) ==> r == name
  {
    if EndsWith(name, BOSS_SUFFIX) then name[..|name| - |BOSS_SUFFIX|] else name
  }

  /**
   * The task line's update of the label: the task itself when no label is pending, otherwise the
   * task's text up to its first space, a space, and the pending label (`String.format("%s %s", ...)`).
   */
  function Splice(task: string, pending: string): (r: string)
    requires ' ' in task
    ensures r != ""
    ensures pending != "" ==> EndsWith(r, " " + pending)
  {
    if pending == "" then task else task[..IndexOf(task, ' ')] + " " + pending
  }

  /** For a matched task line, the text before the first space is exactly the kill count. */
  lemma SpliceKeepsCount(m: TaskMatch, pending: string)
    requires AllDigitsOrCommas(m.count)
    ensures ' ' in m.Task()
    ensures Splice(m.Task(), pending) == if pending == "" then m.Task() else m.count + " " + pending
  {
    var task := m.Task();
    assert task[|m.count|] == ' ';
    forall k | 0 <= k < |m.count|
      ensures task[k] != ' '
    {
      assert task[k] == m.count[k] && IsDigitOrComma(m.count[k]);
    }
    var i := IndexOf(task, ' ');
    assert i == |m.count|;
    assert task[..i] == m.count;
  }

  // ---------------------------------------------------------------------------------------------
  // The notifier's state and its transitions

  /** SlayerNotificationData */
  datatype SlayerNotification = SlayerNotification(task: string, taskCount: string, points: string)

  /** What a completion line led to. */
  datatype Outcome =
    | NotHandled                               // handleNotify did not run, or returned at once
    | BelowThreshold                           // handled, without a notification
    | Notified(notification: SlayerNotification)
    | NumberFormatError                        // parseInt threw: nothing was reset

  /** What the notifier holds: the label (empty when nothing is pending) and `badTicks`. */
  datatype SlayerState = SlayerState(slayerTask: string, badTicks: int) {

    /** At most one tick has passed with a pending label, and none without one. */
    predicate Valid() {
      0 <= badTicks <= 1 && (slayerTask == "" ==> badTicks == 0)
    }
  }

  /** The state `reset` leaves behind. */
  const Idle := SlayerState("", 0)

  /**
   * The threshold gate: no threshold, or the points without their commas read as an `int` reach
   * it. None when that reading throws.
   */
  function MeetsThreshold(points: string, threshold: int32): (r: Option<bool>)
    ensures threshold <= 0 ==> r == Some(true)
    ensures threshold > 0 ==> (r.Some? <==> ParseInt(Remove(points, ',')).Some?)
    ensures threshold > 0 && r.Some? ==> (r.value <==> ParseInt(Remove(points, ',')).value >= threshold)
  {
    if threshold <= 0 then Some(true)
    else
      match ParseInt(Remove(points, ','))
      case None => None
      case Some(v) => Some(v >= threshold)
  }

  /** handleNotify: returns at once on an empty part; otherwise reports if the gate allows, and resets either way. */
  function HandleStep(s: SlayerState, points: string, taskCount: string, threshold: int32): (SlayerState, Outcome) {
    if s.slayerTask == "" || points == "" || taskCount == "" then (s, NotHandled)
    else
      match MeetsThreshold(points, threshold)
      case None => (s, NumberFormatError)
      case Some(true) => (Idle, Notified(SlayerNotification(s.slayerTask, taskCount, points)))
      case Some(false) => (Idle, BelowThreshold)
  }

  /**
   * onChatMessage once the three patterns have been tried on the line: a boss match starts a label
   * when none is pending; a task match starts or extends it; a completion match, once a label is
   * pending, is handed to handleNotify.
   */
  function ChatOn(s: SlayerState, boss: Option<string>, task: Option<TaskMatch>, complete: Option<CompleteMatch>, threshold: int32): (SlayerState, Outcome) {
    if s.slayerTask == "" && boss.Some? then (s.(slayerTask := StripBossSuffix(boss.value)), NotHandled)
    else if task.Some? then (s.(slayerTask := Splice(task.value.Task(), s.slayerTask)), NotHandled)
    else if s.slayerTask == "" then (s, NotHandled)
    else
      match complete
      case None => (s, NotHandled)
      case Some(m) => HandleStep(s, PointsOf(m), m.taskCount, threshold)
  }

  /** onChatMessage: nothing while disabled; otherwise the line's matches decide. */
  function ChatStep(s: SlayerState, msg: string, enabled: bool, threshold: int32): (SlayerState, Outcome) {
    if !enabled then (s, NotHandled)
    else ChatOn(s, MatchBoss(msg), MatchTask(msg), MatchComplete(msg), threshold)
  }

  /** onTick: a pending label uses up a tick, and the state is reset once more than one has passed. */
  function TickStep(s: SlayerState): SlayerState {
    var b := if s.slayerTask != "" then s.badTicks + 1 else s.badTicks;
    if b > 1 then Idle else s.(badTicks := b)
  }

  // ---------------------------------------------------------------------------------------------
  // Properties of the transitions

  /** Whatever the patterns found on a line, handling it keeps the state consistent. */
  lemma ChatPreservesValid(s: SlayerState, boss: Option<string>, task: Option<TaskMatch>, complete: Option<CompleteMatch>, threshold: int32)
    requires s.Valid()
    ensures ChatOn(s, boss, task, complete, threshold).0.Valid()
  {
  }

  lemma TickPreservesValid(s: SlayerState)
    requires s.Valid()
    ensures TickStep(s).Valid()
  {
  }

  /** The points line must arrive within a tick, as a pending label is dropped on the second tick. */
  lemma PartialLabelDropped(s: SlayerState)
    requires s.Valid() && s.slayerTask != ""
    ensures TickStep(TickStep(s)) == Idle
    ensures s.badTicks == 0 ==> TickStep(s) == s.(badTicks := 1)
  {
  }

  /** With nothing pending, ticks change nothing. */
  lemma IdleTicks(s: SlayerState)
    requires s.Valid() && s.slayerTask == ""
    ensures TickStep(s) == s
  {
  }

  /** A boss line starts the label only when none is pending, and without its " boss" suffix. */
  lemma BossLineStartsLabel(s: SlayerState, msg: string, threshold: int32)
    requires s.slayerTask == "" && MatchBoss(msg).Some?
    ensures ChatStep(s, msg, true, threshold) == (s.(slayerTask := StripBossSuffix(MatchBoss(msg).value)), NotHandled)
  {
  }

  /** A pending label is left alone by a line that is neither a task nor a completion line, a boss line included. */
  lemma PendingLabelKept(s: SlayerState, msg: string, threshold: int32)
    requires s.slayerTask != "" && MatchTask(msg).None? && MatchComplete(msg).None?
    ensures ChatStep(s, msg, true, threshold) == (s, NotHandled)
  {
  }

  /** A task line seeds an empty label with the task, and otherwise puts its kill count in front of the label. */
  lemma TaskLineSplices(s: SlayerState, msg: string, threshold: int32)
    requires !(s.slayerTask == "" && MatchBoss(msg).Some?) && MatchTask(msg).Some?
    ensures var m := MatchTask(msg).value;
      ChatStep(s, msg, true, threshold).0.slayerTask == if s.slayerTask == "" then m.Task() else m.count + " " + s.slayerTask
  {
    SpliceKeepsCount(MatchTask(msg).value, s.slayerTask);
  }

  /** Without a pending label, a line that is neither a boss nor a task line changes nothing. */
  lemma CompletionIgnoredWithoutLabel(s: SlayerState, msg: string, enabled: bool, threshold: int32)
    requires s.slayerTask == "" && MatchBoss(msg).None? && MatchTask(msg).None?
    ensures ChatStep(s, msg, enabled, threshold) == (s, NotHandled)
  {
  }

  /**
   * handleNotify returns at once, changing nothing, when the label, the points or the count is
   * empty; otherwise it notifies exactly when the threshold is off or met, and resets the state
   * whether or not it notified, unless reading the points threw.
   */
  lemma HandleNotifyResets(s: SlayerState, points: string, taskCount: string, threshold: int32)
    ensures s.slayerTask == "" || points == "" || taskCount == "" ==> HandleStep(s, points, taskCount, threshold) == (s, NotHandled)
    ensures s.slayerTask != "" && points != "" && taskCount != "" ==>
      var (s2, out) := HandleStep(s, points, taskCount, threshold);
      && (out == NumberFormatError <==> threshold > 0 && ParseInt(Remove(points, ',')).None?)
      && (out.Notified? <==> threshold <= 0 || (ParseInt(Remove(points, ',')).Some? && ParseInt(Remove(points, ',')).value >= threshold))
      && (out.Notified? ==> out.notification == SlayerNotification(s.slayerTask, taskCount, points))
      && (s2 == if out == NumberFormatError then s else Idle)
  {
  }

  /**
   * A completion match that reaches handleNotify notifies exactly when the threshold is off or met,
   * and resets the state unless parsing the points threw.
   */
  lemma CompletionGateOn(s: SlayerState, boss: Option<string>, m: CompleteMatch, threshold: int32)
    requires s.slayerTask != "" && m.WellFormed()
    ensures var (s2, out) := ChatOn(s, boss, None, Some(m), threshold);
            && (out.Notified? <==> MeetsThreshold(PointsOf(m), threshold) == Some(true))
            && (out.Notified? ==> out.notification == SlayerNotification(s.slayerTask, m.taskCount, PointsOf(m)))
            && (out != NumberFormatError ==> s2 == Idle)
            && (out == NumberFormatError ==> s2 == s && threshold > 0)
  {
    assert ChatOn(s, boss, None, Some(m), threshold) == HandleStep(s, PointsOf(m), m.taskCount, threshold);
    assert PointsOf(m) != "" && m.taskCount != "";
  }

  /** The same gate for a whole line that matches the completion pattern and not the task pattern. */
  lemma CompletionGate(s: SlayerState, msg: string, threshold: int32)
    requires s.slayerTask != "" && MatchTask(msg).None? && MatchComplete(msg).Some?
    ensures var m := MatchComplete(msg).value;
            var (s2, out) := ChatStep(s, msg, true, threshold);
            && (out.Notified? <==> MeetsThreshold(PointsOf(m), threshold) == Some(true))
            && (out.Notified? ==> out.notification == SlayerNotification(s.slayerTask, m.taskCount, PointsOf(m)))
            && (out != NumberFormatError ==> s2 == Idle)
            && (out == NumberFormatError ==> s2 == s && threshold > 0)
  {
    var boss := MatchBoss(msg);
    var m := MatchComplete(msg).value;
    assert ChatStep(s, msg, true, threshold) == ChatOn(s, boss, None, Some(m), threshold);
    CompletionGateOn(s, boss, m, threshold);
  }

  // ---------------------------------------------------------------------------------------------

  /** SlayerNotifier's own state: the label under construction and the bad-tick counter. */
  class SlayerNotifier {
    var slayerTask: string
    var badTicks: int

    function State(): SlayerState
      reads this
    {
      SlayerState(slayerTask, badTicks)
    }

    constructor()
      ensures State() == Idle
    {
      slayerTask := "";
      badTicks := 0;
    }

    /** reset */
    method Reset()
      modifies this
      ensures State() == Idle
    {
      slayerTask := "";
      badTicks := 0;
    }

    /** handleNotify, with slayerPointThreshold as a parameter. */
    method HandleNotify(slayerPoints: string, slayerCompleted: string, threshold: int32) returns (outcome: Outcome)
      modifies this
      ensures (State(), outcome) == HandleStep(old(State()), slayerPoints, slayerCompleted, threshold)
    {
      var task := slayerTask;
      if task == "" || slayerPoints == "" || slayerCompleted == "" {
        return NotHandled;
      }
      if threshold > 0 {
        var value := ParseInt(Remove(slayerPoints, ','));
        if value.None? {
          return NumberFormatError;
        }
        outcome := if value.value >= threshold then Notified(SlayerNotification(task, slayerCompleted, slayerPoints)) else BelowThreshold;
      } else {
        outcome := Notified(SlayerNotification(task, slayerCompleted, slayerPoints));
      }
      Reset();
    }

    /** onChatMessage, with `isEnabled()` and the threshold as parameters. */
    method OnChatMessage(chatMessage: string, enabled: bool, threshold: int32) returns (outcome: Outcome)
      modifies this
      ensures (State(), outcome) == ChatStep(old(State()), chatMessage, enabled, threshold)
    {
      outcome := NotHandled;
      if !enabled {
        return;
      }
      if slayerTask == "" {
        var boss := MatchBoss(chatMessage);
        if boss.Some? {
          slayerTask := StripBossSuffix(boss.value);
          return;
        }
      }
      var taskMatch := MatchTask(chatMessage);
      if taskMatch.Some? {
        var task := taskMatch.value.Task();
        slayerTask := Splice(task, slayerTask);
        return;
      }
      if slayerTask == "" {
        return;
      }
      var pointsMatch := MatchComplete(chatMessage);
      if pointsMatch.Some? {
        outcome := HandleNotify(PointsOf(pointsMatch.value), pointsMatch.value.taskCount, threshold);
      }
    }

    /** onTick */
    method OnTick()
      modifies this
      ensures State() == TickStep(old(State()))
    {
      if slayerTask != "" {
        badTicks := badTicks + 1;
      }
      if badTicks > 1 {
        Reset();
      }
    }
  }
}
