/**
 * KillCountNotifier: pairs a "boss kill count" chat line with a fight-duration line that may come
 * before it or in the same tick, and reports the kill once, at tick end, if the interval gate allows.
 */
module KillCount {
  import opened Wrappers
  import opened Text

  /** Ticks a duration may wait for its boss name before it is dropped. */
  const MAX_BAD_TICKS: int := 10

  /**
   * BossNotificationData: a partial or complete kill record; every field may be absent.
   * `time` holds the duration token the TIME pattern matched (its conversion to a Duration is not modelled).
   */
  datatype BossData = BossData(
    boss: Option<string>,
    count: Option<int32>,
    gameMessage: Option<string>,
    time: Option<string>,
    personalBest: Option<bool>)

  /** The configuration the notifier reads: killCountNotifyBestTime, killCountNotifyInitial, killCountInterval. */
  datatype Config = Config(notifyBestTime: bool, notifyInitial: bool, interval: int)

  // ---------------------------------------------------------------------------------------------
  // PRIMARY_REGEX: "Your (?<key>.+)\s(?<type>kill|chest|completion)\s?count is: (?<value>\d+)\b"

  const YOUR := "Your "
  const COUNT_IS := "count is: "
  const KINDS: seq<string> := ["kill", "chest", "completion"]

  datatype PrimaryMatch = PrimaryMatch(key: string, kind: string, value: string)

  /** `(?<type>kill|chest|completion)` at `i`, alternatives tried in order. */
  function KindAt(msg: string, i: int): (r: Option<string>)
    ensures r.Some? ==> r.value in KINDS && HasAt(msg, i, r.value)
  {
    if HasAt(msg, i, "kill") then Some("kill")
    else if HasAt(msg, i, "chest") then Some("chest")
    else if HasAt(msg, i, "completion") then Some("completion")
    else None
  }

  /** `\s?` at `c`: one whitespace character is taken when there is one. */
  function OptionalSpace(msg: string, c: int): int {
    if 0 <= c < |msg| && IsSpace(msg[c]) then c + 1 else c
  }

  /** `(?<value>\d+)\b`: `v` is a digit string at `e` followed by a non-word character or the end. */
  ghost predicate CountShape(msg: string, e: int, v: string) {
    |v| >= 1 && AllDigits(v) && HasAt(msg, e, v) && (e + |v| == |msg| || !IsWordChar(msg[e + |v|]))
  }

  function CountAt(msg: string, e: int): (r: Option<string>)
    requires 0 <= e <= |msg|
  {
    var f := RunEnd(msg, e, IsDigit);
    if f == e || (f < |msg| && IsWordChar(msg[f])) then None else Some(msg[e..f])
  }

  lemma CountAtSound(msg: string, e: int)
    requires 0 <= e <= |msg| && CountAt(msg, e).Some?
    ensures CountShape(msg, e, CountAt(msg, e).value)
  {
    var f := RunEnd(msg, e, IsDigit);
    assert CountAt(msg, e).value == msg[e..f];
  }

  lemma CountAtComplete(msg: string, e: int, v: string)
    requires 0 <= e <= |msg| && CountShape(msg, e, v)
    ensures CountAt(msg, e) == Some(v)
  {
    RunEndOf(msg, e, v, IsDigit);
  }

  /** The layout PRIMARY_REGEX demands once its key ends at `i`. */
  ghost predicate PrimaryTailShape(msg: string, i: int, kind: string, value: string) {
    && 0 <= i < |msg| && IsSpace(msg[i])
    && kind in KINDS && HasAt(msg, i + 1, kind)
    && var d := OptionalSpace(msg, i + 1 + |kind|);
       HasAt(msg, d, COUNT_IS) && CountShape(msg, d + |COUNT_IS|, value)
  }

  /** A line matches PRIMARY_REGEX at `p` with groups `m`. */
  ghost predicate PrimaryShape(msg: string, p: int, m: PrimaryMatch) {
    && HasAt(msg, p, YOUR)
    && |m.key| >= 1 && HasAt(msg, p + |YOUR|, m.key) && NoTerminators(m.key)
    && PrimaryTailShape(msg, p + |YOUR| + |m.key|, m.kind, m.value)
  }

  /** What follows the type word `kind` ending at `k`: an optional space, "count is: " and the count. */
  function CountAfter(msg: string, k: int): Option<string> {
    var d := OptionalSpace(msg, k);
    if !HasAt(msg, d, COUNT_IS) then None else CountAt(msg, d + |COUNT_IS|)
  }

  function PrimaryTail(msg: string, i: int): Option<(string, string)> {
    if !(0 <= i < |msg| && IsSpace(msg[i])) then None
    else match KindAt(msg, i + 1)
      case None => None
      case Some(kind) =>
        match CountAfter(msg, i + 1 + |kind|)
        case None => None
        case Some(value) => Some((kind, value))
  }

  /** Only one of the three types can start at a given index. */
  lemma KindsExclusive(msg: string, i: int, kind: string)
    requires kind in KINDS && HasAt(msg, i, kind)
    ensures KindAt(msg, i) == Some(kind)
  {
    HasAtChar(msg, i, kind, 0);
    HasAtChar(msg, i, "kill", 0);
    if kind != "kill" {
      HasAtChar(msg, i, kind, 1);
      HasAtChar(msg, i, "chest", 1);
    }
  }

  /** A whitespace character, a type word and what CountAfter accepts after it make up the tail's layout. */
  lemma TailShapeOf(msg: string, i: int, kind: string, value: string)
    requires 0 <= i < |msg| && IsSpace(msg[i]) && kind in KINDS && HasAt(msg, i + 1, kind)
    requires CountAfter(msg, i + 1 + |kind|) == Some(value)
    ensures PrimaryTailShape(msg, i, kind, value)
  {
    var d := OptionalSpace(msg, i + 1 + |kind|);
    assert HasAt(msg, d, COUNT_IS);
    CountAtSound(msg, d + |COUNT_IS|);
  }

  lemma PrimaryTailSound(msg: string, i: int, kind: string, value: string)
    requires PrimaryTail(msg, i) == Some((kind, value))
    ensures PrimaryTailShape(msg, i, kind, value)
  {
    assert 0 <= i < |msg| && IsSpace(msg[i]);
    assert KindAt(msg, i + 1) == Some(kind) && CountAfter(msg, i + 1 + |kind|) == Some(value);
    TailShapeOf(msg, i, kind, value);
  }

  lemma PrimaryTailComplete(msg: string, i: int, kind: string, value: string)
    requires PrimaryTailShape(msg, i, kind, value)
    ensures PrimaryTail(msg, i).Some?
  {
    var d := OptionalSpace(msg, i + 1 + |kind|);
    CountAtComplete(msg, d + |COUNT_IS|, value);
    assert CountAfter(msg, i + 1 + |kind|) == Some(value);
    KindsExclusive(msg, i + 1, kind);
  }

  /** The match that ends the key at `i`, if the rest of the pattern fits there. */
  function PrimaryCandidate(msg: string, p: int, i: int): Option<PrimaryMatch> {
    var a := p + |YOUR|;
    if !(0 <= p && a < i <= |msg|) then None
    else match PrimaryTail(msg, i)
      case None => None
      case Some(t) => Some(PrimaryMatch(msg[a..i], t.0, t.1))
  }

  function PrimaryCandidates(msg: string, p: int): int -> Option<PrimaryMatch> {
    i => PrimaryCandidate(msg, p, i)
  }

  /** PRIMARY_REGEX tried at `p`: the key `.+` is greedy, so the longest key that lets the rest fit wins. */
  function PrimaryAt(msg: string, p: int): Option<PrimaryMatch> {
    if !HasAt(msg, p, YOUR) then None
    else Greedy(p + |YOUR| + 1, LineEnd(msg, p + |YOUR|), PrimaryCandidates(msg, p))
  }

  function PrimaryStarts(msg: string): int -> Option<PrimaryMatch> {
    p => PrimaryAt(msg, p)
  }

  /** `PRIMARY_REGEX.matcher(msg).find()` with its three groups. */
  function MatchPrimary(msg: string): Option<PrimaryMatch> {
    Leftmost(0, |msg|, PrimaryStarts(msg))
  }

  /** A key on one line, then the tail's layout, is PRIMARY_REGEX's layout. */
  lemma PrimaryShapeOf(msg: string, p: int, i: int, kind: string, value: string)
    requires HasAt(msg, p, YOUR) && p + |YOUR| < i <= LineEnd(msg, p + |YOUR|)
    requires PrimaryTailShape(msg, i, kind, value)
    ensures PrimaryShape(msg, p, PrimaryMatch(msg[p + |YOUR|..i], kind, value))
  {
    var a := p + |YOUR|;
    var key := msg[a..i];
    assert a + |key| == i;
    NoTerminatorsPrefix(msg, a, i, LineEnd(msg, a));
    assert HasAt(msg, a, key);
  }

  lemma PrimaryCandidateSound(msg: string, p: int, i: int)
    requires HasAt(msg, p, YOUR) && i <= LineEnd(msg, p + |YOUR|)
    requires PrimaryCandidate(msg, p, i).Some?
    ensures PrimaryShape(msg, p, PrimaryCandidate(msg, p, i).value)
  {
    var a := p + |YOUR|;
    var m := PrimaryCandidate(msg, p, i).value;
    assert a < i && m == PrimaryMatch(msg[a..i], m.kind, m.value) && PrimaryTail(msg, i) == Some((m.kind, m.value));
    PrimaryTailSound(msg, i, m.kind, m.value);
    PrimaryShapeOf(msg, p, i, m.kind, m.value);
  }

  lemma PrimaryAtSound(msg: string, p: int)
    requires PrimaryAt(msg, p).Some?
    ensures PrimaryShape(msg, p, PrimaryAt(msg, p).value)
  {
    var i := GreedyAt(p + |YOUR| + 1, LineEnd(msg, p + |YOUR|), PrimaryCandidates(msg, p));
    PrimaryCandidateSound(msg, p, i);
  }

  lemma PrimaryAtComplete(msg: string, p: int, m: PrimaryMatch)
    requires PrimaryShape(msg, p, m)
    ensures PrimaryAt(msg, p).Some?
  {
    var a := p + |YOUR|;
    var i := a + |m.key|;
    assert msg[a..i] == m.key;
    LineEndBounds(msg, a, i);
    PrimaryTailComplete(msg, i, m.kind, m.value);
    assert PrimaryCandidates(msg, p)(i).Some?;
  }

  /** The recogniser finds a match exactly when the line has the pattern's layout somewhere. */
  lemma MatchPrimaryCorrect(msg: string)
    ensures MatchPrimary(msg).Some? ==> exists p :: 0 <= p <= |msg| && PrimaryShape(msg, p, MatchPrimary(msg).value)
    ensures (exists p, m :: PrimaryShape(msg, p, m)) ==> MatchPrimary(msg).Some?
  {
    if MatchPrimary(msg).Some? {
      var p := LeftmostAt(0, |msg|, PrimaryStarts(msg));
      PrimaryAtSound(msg, p);
    }
    if p, m :| PrimaryShape(msg, p, m) {
      PrimaryAtComplete(msg, p, m);
      assert 0 <= p <= |msg| && PrimaryStarts(msg)(p).Some?;
    }
  }

  // ---------------------------------------------------------------------------------------------
  // SECONDARY_REGEX: "Your (?:completed|subdued) (?<key>.+) count is: (?<value>\d+)\b"

  const SPACE_COUNT_IS := " count is: "

  datatype SecondaryMatch = SecondaryMatch(key: string, value: string)

  /** `(?:completed|subdued) ` at `a`: where the key starts, or -1. */
  function VerbEnd(msg: string, a: int): int {
    if HasAt(msg, a, "completed ") then a + |"completed "|
    else if HasAt(msg, a, "subdued ") then a + |"subdued "|
    else -1
  }

  /** A line matches SECONDARY_REGEX at `p` with groups `m`. */
  ghost predicate SecondaryShape(msg: string, p: int, m: SecondaryMatch) {
    && HasAt(msg, p, YOUR)
    && var b := VerbEnd(msg, p + |YOUR|);
       && b >= 0
       && |m.key| >= 1 && HasAt(msg, b, m.key) && NoTerminators(m.key)
       && HasAt(msg, b + |m.key|, SPACE_COUNT_IS)
       && CountShape(msg, b + |m.key| + |SPACE_COUNT_IS|, m.value)
  }

  function SecondaryCandidate(msg: string, b: int, i: int): Option<SecondaryMatch> {
    if !(0 <= b < i && HasAt(msg, i, SPACE_COUNT_IS)) then None
    else match CountAt(msg, i + |SPACE_COUNT_IS|)
      case None => None
      case Some(value) => Some(SecondaryMatch(msg[b..i], value))
  }

  function SecondaryCandidates(msg: string, b: int): int -> Option<SecondaryMatch> {
    i => SecondaryCandidate(msg, b, i)
  }

  /** SECONDARY_REGEX tried at `p`, its greedy key giving back characters from the end of the line. */
  function SecondaryAt(msg: string, p: int): Option<SecondaryMatch> {
    if !HasAt(msg, p, YOUR) then None
    else
      var b := VerbEnd(msg, p + |YOUR|);
      if b < 0 then None
      else Greedy(b + 1, LineEnd(msg, b), SecondaryCandidates(msg, b))
  }

  function SecondaryStarts(msg: string): int -> Option<SecondaryMatch> {
    p => SecondaryAt(msg, p)
  }

  /** `SECONDARY_REGEX.matcher(msg).find()` with its two groups. */
  function MatchSecondary(msg: string): Option<SecondaryMatch> {
    Leftmost(0, |msg|, SecondaryStarts(msg))
  }

  lemma SecondaryCandidateSound(msg: string, p: int, i: int)
    requires HasAt(msg, p, YOUR)
    requires VerbEnd(msg, p + |YOUR|) >= 0 && i <= LineEnd(msg, VerbEnd(msg, p + |YOUR|))
    requires SecondaryCandidate(msg, VerbEnd(msg, p + |YOUR|), i).Some?
    ensures SecondaryShape(msg, p, SecondaryCandidate(msg, VerbEnd(msg, p + |YOUR|), i).value)
  {
    var b := VerbEnd(msg, p + |YOUR|);
    var m := SecondaryCandidate(msg, b, i).value;
    NoTerminatorsPrefix(msg, b, i, LineEnd(msg, b));
    CountAtSound(msg, i + |SPACE_COUNT_IS|);
    assert HasAt(msg, b, m.key);
  }

  lemma SecondaryAtSound(msg: string, p: int)
    requires SecondaryAt(msg, p).Some?
    ensures SecondaryShape(msg, p, SecondaryAt(msg, p).value)
  {
    var b := VerbEnd(msg, p + |YOUR|);
    var i := GreedyAt(b + 1, LineEnd(msg, b), SecondaryCandidates(msg, b));
    SecondaryCandidateSound(msg, p, i);
  }

  lemma SecondaryAtComplete(msg: string, p: int, m: SecondaryMatch)
    requires SecondaryShape(msg, p, m)
    ensures SecondaryAt(msg, p).Some?
  {
    var b := VerbEnd(msg, p + |YOUR|);
    var i := b + |m.key|;
    assert msg[b..i] == m.key;
    LineEndBounds(msg, b, i);
    CountAtComplete(msg, i + |SPACE_COUNT_IS|, m.value);
    assert SecondaryCandidates(msg, b)(i).Some?;
  }

  /** The recogniser finds a match exactly when the line has the pattern's layout somewhere. */
  lemma MatchSecondaryCorrect(msg: string)
    ensures MatchSecondary(msg).Some? ==> exists p :: 0 <= p <= |msg| && SecondaryShape(msg, p, MatchSecondary(msg).value)
    ensures (exists p, m :: SecondaryShape(msg, p, m)) ==> MatchSecondary(msg).Some?
  {
    if MatchSecondary(msg).Some? {
      var p := LeftmostAt(0, |msg|, SecondaryStarts(msg));
      SecondaryAtSound(msg, p);
    }
    if p, m :| SecondaryShape(msg, p, m) {
      SecondaryAtComplete(msg, p, m);
      assert 0 <= p <= |msg| && SecondaryStarts(msg)(p).Some?;
    }
  }

  // ---------------------------------------------------------------------------------------------
  // TIME_REGEX, case-insensitive: "(?:Duration|time|Subdued in):? (?<time>[\d:]+(.\d+)?)\.?"

  /** `(?:Duration|time|Subdued in)` at `p`, ignoring ASCII case: where the keyword ends, or -1. */
  function TimeKeywordEnd(msg: string, p: int): int {
    if HasAtIgnoreCase(msg, p, "duration") then p + |"duration"|
    else if HasAtIgnoreCase(msg, p, "time") then p + |"time"|
    else if HasAtIgnoreCase(msg, p, "subdued in") then p + |"subdued in"|
    else -1
  }

  /** `:? `: where the space is expected after the keyword ends at `j`. */
  function OptionalColon(msg: string, j: int): int {
    if 0 <= j < |msg| && msg[j] == ':' then j + 1 else j
  }

  /** `[\d:]+(.\d+)?` at `t`: the longest run of digits and colons, then one character and digits if they follow. */
  function TimeTokenEnd(msg: string, t: int): (f: int)
    requires 0 <= t <= |msg|
    ensures t <= f <= |msg|
  {
    var e := RunEnd(msg, t, IsDigitOrColon);
    if e + 1 < |msg| && !IsLineTerminator(msg[e]) && IsDigit(msg[e + 1]) then RunEnd(msg, e + 1, IsDigit) else e
  }

  /** TIME_REGEX tried at `p`; the trailing `\.?` always succeeds. */
  function TimeAt(msg: string, p: int): Option<string> {
    var t := TokenStart(msg, p);
    if t < 0 then None else Some(msg[t..TimeTokenEnd(msg, t)])
  }

  /** Where TIME_REGEX's token starts when the pattern is tried at `p`: after the keyword, `:?` and the space, or -1. */
  function TokenStart(msg: string, p: int): (t: int)
    ensures t < 0 || (0 <= t < |msg| && IsDigitOrColon(msg[t]))
  {
    var j := TimeKeywordEnd(msg, p);
    if j < 0 then -1
    else
      var k := OptionalColon(msg, j);
      if HasAt(msg, k, " ") && k + 1 < |msg| && IsDigitOrColon(msg[k + 1]) then k + 1 else -1
  }

  function TimeStarts(msg: string): int -> Option<string> {
    p => TimeAt(msg, p)
  }

  /** `TIME_REGEX.matcher(msg).find()` and its `time` group. */
  function MatchTime(msg: string): Option<string> {
    Leftmost(0, |msg|, TimeStarts(msg))
  }

  /**
   * `[\d:]+(.\d+)?` at `t` reads `run + frac`: `run` is the longest run of digits and colons; then,
   * exactly when a character other than a line terminator and a digit follow the run, `frac` is
   * that character and the longest run of digits after it, and otherwise it is empty.
   */
  ghost predicate TokenShape(msg: string, t: int, run: string, frac: string) {
    && MaximalRun(msg, t, run, IsDigitOrColon)
    && var e := t + |run|;
       && (frac == [] <==> !(e + 1 < |msg| && !IsLineTerminator(msg[e]) && IsDigit(msg[e + 1])))
       && (frac != [] ==> HasAt(msg, e, frac[..1]) && MaximalRun(msg, e + 1, frac[1..], IsDigit))
  }

  /** A line matches TIME_REGEX at `p` with a `time` group of `run + frac`: the keyword, an optional colon, a space and the token. */
  ghost predicate TimeShape(msg: string, p: int, run: string, frac: string) {
    && TimeKeywordEnd(msg, p) >= 0
    && var k := OptionalColon(msg, TimeKeywordEnd(msg, p));
       && HasAt(msg, k, " ")
       && TokenShape(msg, k + 1, run, frac)
  }

  lemma TokenSound(msg: string, t: int) returns (run: string, frac: string)
    requires 0 <= t < |msg| && IsDigitOrColon(msg[t])
    ensures TokenShape(msg, t, run, frac) && msg[t..TimeTokenEnd(msg, t)] == run + frac
  {
    var e := RunEnd(msg, t, IsDigitOrColon);
    var f := TimeTokenEnd(msg, t);
    run := msg[t..e];
    forall n | 0 <= n < |run|
      ensures IsDigitOrColon(run[n])
    {
      assert run[n] == msg[t + n];
    }
    assert MaximalRun(msg, t, run, IsDigitOrColon);
    frac := msg[e..f];
    if e + 1 < |msg| && !IsLineTerminator(msg[e]) && IsDigit(msg[e + 1]) {
      var digits := msg[e + 1..f];
      forall n | 0 <= n < |digits|
        ensures IsDigit(digits[n])
      {
        assert digits[n] == msg[e + 1 + n];
      }
      assert frac[1..] == digits && frac[..1] == msg[e..e + 1];
    }
    assert msg[t..f] == run + frac;
  }

  lemma TokenComplete(msg: string, t: int, run: string, frac: string)
    requires TokenShape(msg, t, run, frac)
    ensures 0 <= t < |msg| && IsDigitOrColon(msg[t])
    ensures TimeTokenEnd(msg, t) == t + |run| + |frac| && msg[t..t + |run| + |frac|] == run + frac
  {
    var e := t + |run|;
    RunEndOf(msg, t, run, IsDigitOrColon);
    HasAtChar(msg, t, run, 0);
    assert msg[t..e] == run;
    if frac != [] {
      RunEndOf(msg, e + 1, frac[1..], IsDigit);
      HasAtChar(msg, e, frac[..1], 0);
      assert msg[e..e + |frac|] == frac[..1] + frac[1..] == frac;
    }
    assert msg[t..e + |frac|] == msg[t..e] + msg[e..e + |frac|];
  }

  lemma TimeAtSound(msg: string, p: int)
    requires TimeAt(msg, p).Some?
    ensures exists run, frac :: TimeShape(msg, p, run, frac) && TimeAt(msg, p).value == run + frac
  {
    var t := TokenStart(msg, p);
    var k := OptionalColon(msg, TimeKeywordEnd(msg, p));
    assert t == k + 1 && HasAt(msg, k, " ");
    var run, frac := TokenSound(msg, t);
    assert TimeShape(msg, p, run, frac);
  }

  lemma TimeAtComplete(msg: string, p: int, run: string, frac: string)
    requires TimeShape(msg, p, run, frac)
    ensures TimeAt(msg, p) == Some(run + frac)
  {
    var k := OptionalColon(msg, TimeKeywordEnd(msg, p));
    TokenComplete(msg, k + 1, run, frac);
    assert TokenStart(msg, p) == k + 1;
  }

  /** The recogniser finds a match exactly when the line has the pattern's layout somewhere, and its `time` group is that layout's token. */
  lemma MatchTimeCorrect(msg: string)
    ensures MatchTime(msg).Some? ==>
      exists p, run, frac :: 0 <= p <= |msg| && TimeShape(msg, p, run, frac) && MatchTime(msg).value == run + frac
    ensures (exists p, run, frac :: TimeShape(msg, p, run, frac)) ==> MatchTime(msg).Some?
  {
    if MatchTime(msg).Some? {
      var p := LeftmostAt(0, |msg|, TimeStarts(msg));
      TimeAtSound(msg, p);
    }
    if p, run, frac :| TimeShape(msg, p, run, frac) {
      TimeAtComplete(msg, p, run, frac);
      assert 0 <= p <= |msg| && TimeStarts(msg)(p).Some?;
    }
  }

  // ---------------------------------------------------------------------------------------------
  // parsePrimaryBoss, parseSecondary, result, parseBoss, parseTime, parse

  /**
   * parsePrimaryBoss: a kill count keeps its name, a chest count only Barrows's, and a completion
   * count only the two Gauntlets', which are renamed after their bosses.
   */
  function ParsePrimaryBoss(boss: string, kind: string): (r: Option<string>)
    ensures r.Some? <==> || kind == "kill"
                         || (kind == "chest" && EqualsIgnoreCase(boss, "Barrows"))
                         || (kind == "completion" && (EqualsIgnoreCase(boss, "Gauntlet") || EqualsIgnoreCase(boss, "Corrupted Gauntlet")))
    ensures r.Some? && kind != "completion" ==> r.value == boss
    ensures kind == "completion" && EqualsIgnoreCase(boss, "Gauntlet") ==> r == Some("Crystalline Hunllef")
    ensures kind == "completion" && EqualsIgnoreCase(boss, "Corrupted Gauntlet") ==> r == Some("Corrupted Hunllef")
  {
    if kind == "chest" then
      if EqualsIgnoreCase("Barrows", boss) then Some(boss) else None
    else if kind == "completion" then
      if EqualsIgnoreCase("Gauntlet", boss) then Some("Crystalline Hunllef")
      else if EqualsIgnoreCase("Corrupted Gauntlet", boss) then Some("Corrupted Hunllef")
      else None
    else if kind == "kill" then Some(boss)
    else None
  }

  /** The raids whose counts arrive in the secondary form. */
  const RAIDS: seq<string> := ["Theatre of Blood", "Tombs of Amascut", "Chambers of Xeric", "Chambers of Xeric Challenge Mode"]

  /** The raid part of a secondary key: what precedes its last ':', unless that ':' opens the key. */
  function RaidName(boss: string): string {
    var sep := LastIndexOf(boss, ':');
    if sep > 0 then boss[..sep] else boss
  }

  predicate IsListedRaid(raid: string) {
    exists k :: 0 <= k < |RAIDS| && EqualsIgnoreCase(raid, RAIDS[k])
  }

  /** parseSecondary: Wintertodt and the listed raids (in any mode) pass unchanged; anything else is rejected. */
  function ParseSecondary(boss: string): (r: Option<string>)
    ensures r.Some? <==> EqualsIgnoreCase(boss, "Wintertodt") || IsListedRaid(RaidName(boss))
    ensures r.Some? ==> r.value == boss
  {
    if EqualsIgnoreCase("Wintertodt", boss) then Some(boss)
    else
      var raid := RaidName(boss);
      if EqualsIgnoreCase(raid, RAIDS[0]) || EqualsIgnoreCase(raid, RAIDS[1])
        || EqualsIgnoreCase(raid, RAIDS[2]) || EqualsIgnoreCase(raid, RAIDS[3])
      then Some(boss)
      else None
  }

  /** result: a name and a count, present only when the name was accepted and the count parses as an `int`. */
  function ResultOf(boss: Option<string>, count: string): (r: Option<(string, int32)>)
    ensures r.Some? <==> boss.Some? && ParseInt(count).Some?
    ensures r.Some? ==> r.value.0 == boss.value && r.value.1 >= 0 && ParseInt(count) == Some(r.value.1)
  {
    match boss
    case None => None
    case Some(b) => match ParseInt(count) { case None => None case Some(n) => Some((b, n)) }
  }

  /**
   * parseBoss: the primary form when the line holds it (even if its name is then rejected),
   * otherwise the secondary form.
   */
  function ParseBoss(msg: string): Option<(string, int32)> {
    match MatchPrimary(msg)
    case Some(m) => ResultOf(ParsePrimaryBoss(m.key, m.kind), m.value)
    case None =>
      match MatchSecondary(msg)
      case Some(m) => ResultOf(ParseSecondary(m.key), m.value)
      case None => None
  }

  const PB_MARK := "(new personal best)"

  /** parseTime: the duration token, and whether the line, in lower case, mentions a new personal best. */
  function ParseTime(msg: string): (r: Option<(string, bool)>)
    ensures r.Some? <==> MatchTime(msg).Some?
    ensures r.Some? ==> r.value.1 == Contains(Lower(msg), PB_MARK)
  {
    match MatchTime(msg)
    case None => None
    case Some(t) => Some((t, Contains(Lower(msg), PB_MARK)))
  }

  /** A partial record made from a boss line: name, count and the line, nothing about timing. */
  predicate IsBossPartial(d: BossData) {
    d.boss.Some? && d.count.Some? && d.gameMessage.Some? && d.time.None? && d.personalBest.None?
  }

  /** A partial record made from a timing line: duration and personal-best flag, nothing about the boss. */
  predicate IsTimePartial(d: BossData) {
    d.boss.None? && d.count.None? && d.gameMessage.None? && d.time.Some? && d.personalBest.Some?
  }

  /** parse: a boss line wins over a timing line; each yields its own kind of partial record. */
  function Parse(msg: string): (r: Option<BossData>)
    ensures ParseBoss(msg).Some? ==>
      && r.Some? && IsBossPartial(r.value)
      && r.value.boss == Some(ParseBoss(msg).value.0) && r.value.count == Some(ParseBoss(msg).value.1)
      && r.value.gameMessage == Some(msg)
    ensures ParseBoss(msg).None? ==> (r.Some? <==> ParseTime(msg).Some?)
    ensures ParseBoss(msg).None? && r.Some? ==>
      && IsTimePartial(r.value)
      && r.value.time == Some(ParseTime(msg).value.0) && r.value.personalBest == Some(ParseTime(msg).value.1)
  {
    match ParseBoss(msg)
    case Some(b) => Some(BossData(Some(b.0), Some(b.1), Some(msg), None, None))
    case None =>
      match ParseTime(msg)
      case Some(t) => Some(BossData(None, None, None, Some(t.0), Some(t.1)))
      case None => None
  }

  /** Every name a boss line can produce: a kill's own name, Barrows, a Hunllef, Wintertodt or a listed raid. */
  lemma ParseBossNames(msg: string)
    requires ParseBoss(msg).Some?
    ensures var name := ParseBoss(msg).value.0;
      || (MatchPrimary(msg).Some? && MatchPrimary(msg).value.kind == "kill" && name == MatchPrimary(msg).value.key)
      || EqualsIgnoreCase(name, "Barrows")
      || name == "Crystalline Hunllef" || name == "Corrupted Hunllef"
      || EqualsIgnoreCase(name, "Wintertodt") || IsListedRaid(RaidName(name))
  {
  }

  // ---------------------------------------------------------------------------------------------
  // updateData, checkKillInterval, handleKill

  /**
   * updateData's merge: each field takes the update's value when it has one and keeps the pending
   * value otherwise; with nothing pending the update is taken as it is.
   */
  function Merge(pending: Option<BossData>, u: BossData): (r: BossData)
    ensures pending.None? ==> r == u
    ensures u.boss.Some? ==> r.boss == u.boss
    ensures u.count.Some? ==> r.count == u.count
    ensures u.gameMessage.Some? ==> r.gameMessage == u.gameMessage
    ensures u.time.Some? ==> r.time == u.time
    ensures u.personalBest.Some? ==> r.personalBest == u.personalBest
    ensures pending.Some? && u.boss.None? ==> r.boss == pending.value.boss
    ensures pending.Some? && u.count.None? ==> r.count == pending.value.count
    ensures pending.Some? && u.gameMessage.None? ==> r.gameMessage == pending.value.gameMessage
    ensures pending.Some? && u.time.None? ==> r.time == pending.value.time
    ensures pending.Some? && u.personalBest.None? ==> r.personalBest == pending.value.personalBest
  {
    match pending
    case None => u
    case Some(p) =>
      BossData(
        u.boss.Or(p.boss), u.count.Or(p.count), u.gameMessage.Or(p.gameMessage),
        u.time.Or(p.time), u.personalBest.Or(p.personalBest))
  }

  /** Every field that `d` knows, `e` knows too. */
  predicate KnowsAll(e: BossData, d: BossData) {
    && (d.boss.Some? ==> e.boss.Some?)
    && (d.count.Some? ==> e.count.Some?)
    && (d.gameMessage.Some? ==> e.gameMessage.Some?)
    && (d.time.Some? ==> e.time.Some?)
    && (d.personalBest.Some? ==> e.personalBest.Some?)
  }

  /** A merge never forgets a field: what the pending record or the update knew, the result knows. */
  lemma MergeNeverForgets(pending: BossData, u: BossData)
    ensures KnowsAll(Merge(Some(pending), u), pending) && KnowsAll(Merge(Some(pending), u), u)
  {
  }

  /**
   * A boss line and a timing line merge into the same record whichever arrives first, and that
   * record holds every field of both.
   */
  lemma MergeOrderIndependent(b: BossData, t: BossData)
    requires IsBossPartial(b) && IsTimePartial(t)
    ensures Merge(Some(b), t) == Merge(Some(t), b)
    ensures Merge(Some(b), t) == BossData(b.boss, b.count, b.gameMessage, t.time, t.personalBest)
  {
  }

  /** checkKillInterval: a new personal best or a first kill when so configured, or a count on the interval. */
  function CheckKillInterval(killCount: int32, pb: Option<bool>, cfg: Config): (r: bool)
    ensures r <==> || (pb == Some(true) && cfg.notifyBestTime)
                   || (killCount == 1 && cfg.notifyInitial)
                   || cfg.interval <= 1
                   || (cfg.interval >= 2 && JavaRem(killCount, cfg.interval) == 0)
  {
    if pb == Some(true) && cfg.notifyBestTime then true
    else if killCount == 1 && cfg.notifyInitial then true
    else cfg.interval <= 1 || JavaRem(killCount, cfg.interval) == 0
  }

  /** For the non-negative counts that reach the gate, Java's remainder is the mathematical one. */
  lemma IntervalGateOnCounts(killCount: int32, pb: Option<bool>, cfg: Config)
    requires killCount >= 0 && cfg.interval >= 2
    requires !(pb == Some(true) && cfg.notifyBestTime) && !(killCount == 1 && cfg.notifyInitial)
    ensures CheckKillInterval(killCount, pb, cfg) <==> killCount % cfg.interval == 0
  {
  }

  /**
   * handleKill's gating: the record to notify about, present only when both the boss and the
   * count are known and the interval gate lets the count through.
   */
  function HandleKill(d: BossData, cfg: Config): (r: Option<BossData>)
    ensures r.Some? <==> d.boss.Some? && d.count.Some?
                         && CheckKillInterval(d.count.value, d.personalBest, cfg)
    ensures r.Some? ==> r.value == d
  {
    if d.boss.None? || d.count.None? then None
    else if !CheckKillInterval(d.count.value, d.personalBest, cfg) then None
    else Some(d)
  }

  // ---------------------------------------------------------------------------------------------
  // The notifier's state over ticks

  /** What the notifier holds between events: the pending record (`data`, null when absent) and `badTicks`. */
  datatype KcState = KcState(data: Option<BossData>, badTicks: int) {

    /** The counter stays within its budget, and is zero while nothing is pending. */
    predicate Valid() {
      0 <= badTicks <= MAX_BAD_TICKS && (data.None? ==> badTicks == 0)
    }
  }

  /** The state `reset` leaves behind. */
  const Idle := KcState(None, 0)

  /** updateData: the update merged into whatever is pending; the counter is left alone. */
  function Update(s: KcState, u: BossData): KcState {
    KcState(Some(Merge(s.data, u)), s.badTicks)
  }

  /** onGameMessage: a line that parses, while the notifier is enabled, is merged in; any other line changes nothing. */
  function OnMessage(s: KcState, msg: string, enabled: bool): KcState {
    if enabled && Parse(msg).Some? then Update(s, Parse(msg).value) else s
  }

  /**
   * onTick: a pending record with a boss name is handed to handleKill and the state reset; a
   * pending record without one uses up a tick of its budget and is dropped once it overruns it.
   */
  function Tick(s: KcState, cfg: Config): (KcState, Option<BossData>) {
    match s.data
    case None => (s, None)
    case Some(d) =>
      if d.boss.Some? then (Idle, HandleKill(d, cfg))
      else if s.badTicks + 1 > MAX_BAD_TICKS then (Idle, None)
      else (s.(badTicks := s.badTicks + 1), None)
  }

  /** `n` ticks with no chat line in between: the final state and the records notified about, in order. */
  function Ticks(s: KcState, cfg: Config, n: nat): (KcState, seq<BossData>)
    decreases n
  {
    if n == 0 then (s, [])
    else
      var first := Tick(s, cfg);
      var rest := Ticks(first.0, cfg, n - 1);
      (rest.0, Emitted(first.1) + rest.1)
  }

  /** A tick's notification as a sequence of zero or one records. */
  function Emitted(e: Option<BossData>): seq<BossData> {
    if e.Some? then [e.value] else []
  }

  /** Parsing a line, merging it in and ticking all keep the state consistent. */
  lemma StepsPreserveValid(s: KcState, msg: string, enabled: bool, cfg: Config)
    requires s.Valid()
    ensures OnMessage(s, msg, enabled).Valid()
    ensures Tick(s, cfg).0.Valid()
  {
  }

  /**
   * A tick notifies only about a pending record with a boss name and a count, exactly as pending,
   * and a tick that finds a boss name always ends in the reset state.
   */
  lemma TickEmitsOnlyNamedKills(s: KcState, cfg: Config)
    ensures Tick(s, cfg).1.Some? ==>
      && s.data.Some? && s.data.value.boss.Some? && s.data.value.count.Some?
      && Tick(s, cfg).1.value == s.data.value
      && CheckKillInterval(s.data.value.count.value, s.data.value.personalBest, cfg)
    ensures s.data.Some? && s.data.value.boss.Some? ==> Tick(s, cfg).0 == Idle
  {
  }

  /**
   * A duration without a boss name waits: for as many ticks as its budget allows it stays pending,
   * unchanged but for the counter, and nothing is notified.
   */
  lemma {:induction false} DurationOnlyWaits(s: KcState, cfg: Config, n: nat)
    requires s.Valid() && s.data.Some? && s.data.value.boss.None?
    requires s.badTicks + n <= MAX_BAD_TICKS
    ensures Ticks(s, cfg, n) == (s.(badTicks := s.badTicks + n), [])
    decreases n
  {
    if n > 0 {
      var s1 := s.(badTicks := s.badTicks + 1);
      assert Tick(s, cfg) == (s1, None);
      DurationOnlyWaits(s1, cfg, n - 1);
      assert Ticks(s, cfg, n) == (Ticks(s1, cfg, n - 1).0, Emitted(None) + Ticks(s1, cfg, n - 1).1);
      assert Emitted(None) + Ticks(s1, cfg, n - 1).1 == [];
      assert s1.(badTicks := s1.badTicks + (n - 1)) == s.(badTicks := s.badTicks + n);
    }
  }

  /** ... and on the tick that overruns the budget it is dropped, still without any notification. */
  lemma DurationOnlyDropped(s: KcState, cfg: Config)
    requires s.Valid() && s.data.Some? && s.data.value.boss.None?
    ensures Ticks(s, cfg, MAX_BAD_TICKS + 1 - s.badTicks) == (Idle, [])
  {
    var n := MAX_BAD_TICKS - s.badTicks;
    var s1 := s.(badTicks := MAX_BAD_TICKS);
    DurationOnlyWaits(s, cfg, n);
    assert Tick(s1, cfg) == (Idle, None);
    assert Ticks(s1, cfg, 1) == (Ticks(Idle, cfg, 0).0, Emitted(None) + Ticks(Idle, cfg, 0).1);
    TicksSplit(s, cfg, n, 1);
  }

  /** Ticking `m` then `n` times is ticking `m + n` times. */
  lemma {:induction false} TicksSplit(s: KcState, cfg: Config, m: nat, n: nat)
    ensures Ticks(s, cfg, m + n)
         == (Ticks(Ticks(s, cfg, m).0, cfg, n).0, Ticks(s, cfg, m).1 + Ticks(Ticks(s, cfg, m).0, cfg, n).1)
    decreases m
  {
    if m > 0 {
      var first := Tick(s, cfg);
      var e := Emitted(first.1);
      TicksSplit(first.0, cfg, m - 1, n);
      assert Ticks(s, cfg, m) == (Ticks(first.0, cfg, m - 1).0, e + Ticks(first.0, cfg, m - 1).1);
      assert Ticks(s, cfg, m + n) == (Ticks(first.0, cfg, (m - 1) + n).0, e + Ticks(first.0, cfg, (m - 1) + n).1);
      var a := Ticks(first.0, cfg, m - 1).1;
      var b := Ticks(Ticks(first.0, cfg, m - 1).0, cfg, n).1;
      assert e + (a + b) == (e + a) + b;
    } else {
      assert Ticks(s, cfg, 0).1 + Ticks(s, cfg, n).1 == Ticks(s, cfg, n).1;
    }
  }

  /**
   * A duration line followed, up to MAX_BAD_TICKS ticks later, by a boss line: the next tick
   * notifies (when the gate allows) about one record that carries the boss, its count, the boss
   * line, the duration and the personal-best flag.
   */
  lemma DurationThenBoss(timeLine: string, bossLine: string, k: nat, cfg: Config)
    requires ParseBoss(timeLine).None? && ParseTime(timeLine).Some? && ParseBoss(bossLine).Some?
    requires k <= MAX_BAD_TICKS
    ensures var s1 := OnMessage(Idle, timeLine, true);
            var s2 := OnMessage(Ticks(s1, cfg, k).0, bossLine, true);
            && Ticks(s1, cfg, k).1 == []
            && Tick(s2, cfg) == (Idle, HandleKill(BossData(
                 Some(ParseBoss(bossLine).value.0), Some(ParseBoss(bossLine).value.1), Some(bossLine),
                 Some(ParseTime(timeLine).value.0), Some(ParseTime(timeLine).value.1)), cfg))
  {
    var s1 := OnMessage(Idle, timeLine, true);
    DurationOnlyWaits(s1, cfg, k);
    MergeOrderIndependent(Parse(bossLine).value, Parse(timeLine).value);
  }

  /** A boss line and a duration line in the same tick give the same notification in either order. */
  lemma SameTickOrderIndependent(s: KcState, timeLine: string, bossLine: string, cfg: Config)
    requires ParseBoss(timeLine).None? && ParseTime(timeLine).Some? && ParseBoss(bossLine).Some?
    ensures OnMessage(OnMessage(s, timeLine, true), bossLine, true) == OnMessage(OnMessage(s, bossLine, true), timeLine, true)
  {
    MergeOrderIndependent(Parse(bossLine).value, Parse(timeLine).value);
  }

  // ---------------------------------------------------------------------------------------------

  /** The prefix of the friends-chat line that carries a Chambers of Xeric duration. */
  const RAID_COMPLETE := "Congratulations - your raid is complete!"

  /** KillCountNotifier's own state: the pending record and the bad-tick counter. */
  class KillCountNotifier {
    var data: Option<BossData>
    var badTicks: int

    function State(): KcState
      reads this
    {
      KcState(data, badTicks)
    }

    constructor()
      ensures State() == Idle
    {
      data := None;
      badTicks := 0;
    }

    /** reset */
    method Reset()
      modifies this
      ensures State() == Idle
    {
      data := None;
      badTicks := 0;
    }

    /** updateData */
    method UpdateData(updated: BossData)
      modifies this
      ensures State() == Update(old(State()), updated)
    {
      data := Some(Merge(data, updated));
    }

    /** onGameMessage, with `isEnabled()` as a parameter. */
    method OnGameMessage(message: string, enabled: bool)
      modifies this
      ensures State() == OnMessage(old(State()), message, enabled)
    {
      if enabled {
        var parsed := Parse(message);
        if parsed.Some? {
          UpdateData(parsed.value);
        }
      }
    }

    /** onFriendsChatNotification: only the raid-completion line is read, as a game message. */
    method OnFriendsChatNotification(message: string, enabled: bool)
      modifies this
      ensures StartsWith(message, RAID_COMPLETE) ==> State() == OnMessage(old(State()), message, enabled)
      ensures !StartsWith(message, RAID_COMPLETE) ==> State() == old(State())
    {
      if StartsWith(message, RAID_COMPLETE) {
        OnGameMessage(message, enabled);
      }
    }

    /** onTick: returns the record handleKill would notify about, if any. */
    method OnTick(cfg: Config) returns (emitted: Option<BossData>)
      modifies this
      ensures (State(), emitted) == Tick(old(State()), cfg)
    {
      emitted := None;
      if data.Some? {
        if data.value.boss.Some? {
          emitted := HandleKill(data.value, cfg);
          Reset();
        } else {
          badTicks := badTicks + 1;
          if badTicks > MAX_BAD_TICKS {
            Reset();
          }
        }
      }
    }
  }
}
