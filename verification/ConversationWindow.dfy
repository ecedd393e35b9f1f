/** The rolling conversation history (boundedAt, loadHistory and remember in internal/secretary/service.go).

    A turn's contents are characters (runes); instants are integers. */
module ConversationWindow {
  import opened Common

  const MAX_AGE := 2 * 3600 * 1_000_000_000
  const MAX_TURNS := 20
  const MAX_RUNES := 12000

  type Instant = int

  /** Turns of old histories may have no time. */
  datatype Stamp = Never | At(instant: Instant)

  datatype Turn = Turn(role: string, content: string, at: Stamp)

  // ----- boundedAt -----

  predicate Recent(turn: Turn, cutoff: Instant) {
    turn.at == Never || turn.at.instant >= cutoff
  }

  function Eligible(turns: seq<Turn>, cutoff: Instant): seq<Turn> {
    if turns == [] then []
    else
      var n := |turns| - 1;
      Eligible(turns[..n], cutoff) + if Recent(turns[n], cutoff) then [turns[n]] else []
  }

  function Runes(turns: seq<Turn>): nat {
    if turns == [] then 0 else Runes(turns[..|turns| - 1]) + |turns[|turns| - 1].content|
  }

  /** The pairs taken from the end, while no more than `pairs` pairs and `runes` runes are used up. */
  function Trim(turns: seq<Turn>, pairs: nat, runes: nat): seq<Turn> {
    if |turns| < 2 || pairs == 0 then []
    else
      var n := |turns| - 2;
      var size := |turns[n].content| + |turns[n + 1].content|;
      if size > runes then [] else Trim(turns[..n], pairs - 1, runes - size) + [turns[n], turns[n + 1]]
  }

  /** The history that `boundedAt` keeps. */
  function Bounded(messages: seq<Turn>, now: Instant): seq<Turn> {
    Trim(Eligible(messages, now - MAX_AGE), MAX_TURNS / 2, MAX_RUNES)
  }

  /** The first half of `boundedAt`. */
  method EligibleTurns(messages: seq<Turn>, cutoff: Instant) returns (eligible: seq<Turn>)
    ensures eligible == Eligible(messages, cutoff)
  {
    eligible := [];
    for i := 0 to |messages|
      invariant eligible == Eligible(messages[..i], cutoff)
    {
      assert messages[..i + 1][..i] == messages[..i];
      if messages[i].at == Never || !(messages[i].at.instant < cutoff) {
        eligible := eligible + [messages[i]];
      }
    }
    assert messages[..|messages|] == messages;
  }

  method BoundedAt(messages: seq<Turn>, now: Instant) returns (kept: seq<Turn>)
    ensures kept == Bounded(messages, now)
  {
    var eligible := EligibleTurns(messages, now - MAX_AGE);
    var n := 0;
    var start := |eligible|;
    ghost var pairs := MAX_TURNS / 2;
    assert eligible[..start] == eligible && eligible[start..] == [];
    assert LeftToTrim(eligible, start, pairs, MAX_RUNES, Bounded(messages, now));
    hide LeftToTrim, Bounded;
    while start >= 2 && |eligible| - start < MAX_TURNS
      invariant 0 <= start <= |eligible| && |eligible| - start == MAX_TURNS - 2 * pairs
      invariant pairs >= 0 && n <= MAX_RUNES
      invariant LeftToTrim(eligible, start, pairs, MAX_RUNES - n, Bounded(messages, now))
    {
      var size := |eligible[start - 2].content| + |eligible[start - 1].content|;
      TrimRound(eligible, start, pairs, MAX_RUNES - n, Bounded(messages, now));
      if n + size > MAX_RUNES {
        return eligible[start..];
      }
      n := n + size;
      start := start - 2;
      pairs := pairs - 1;
    }
    NothingToTrim(eligible, start, pairs, MAX_RUNES - n, Bounded(messages, now));
    kept := eligible[start..];
  }

  /** `result` is what trimming gives, when everything from `start` on is kept already. */
  ghost predicate LeftToTrim(turns: seq<Turn>, start: nat, pairs: nat, runes: nat, result: seq<Turn>) {
    start <= |turns| && result == Trim(turns[..start], pairs, runes) + turns[start..]
  }

  /** One round of the loop, from the end of the eligible turns. */
  lemma TrimRound(turns: seq<Turn>, start: nat, pairs: nat, runes: nat, result: seq<Turn>)
    requires 2 <= start <= |turns| && pairs > 0 && LeftToTrim(turns, start, pairs, runes, result)
    ensures var size := |turns[start - 2].content| + |turns[start - 1].content|;
      if size > runes then result == turns[start..]
      else LeftToTrim(turns, start - 2, pairs - 1, runes - size, result)
  {
    assert turns[..start][..start - 2] == turns[..start - 2];
    assert turns[start - 2..] == [turns[start - 2], turns[start - 1]] + turns[start..];
    assert [] + turns[start..] == turns[start..];
  }

  lemma NothingToTrim(turns: seq<Turn>, start: nat, pairs: nat, runes: nat, result: seq<Turn>)
    requires (start < 2 || pairs == 0) && LeftToTrim(turns, start, pairs, runes, result)
    ensures result == turns[start..]
  {
    assert [] + turns[start..] == turns[start..];
  }

  // ----- what is kept is the longest window -----

  /** The last `m` pairs of turns make a window: at most `pairs` of them, with at most `runes` runes. */
  ghost predicate Fits(turns: seq<Turn>, m: nat, pairs: nat, runes: nat) {
    2 * m <= |turns| && m <= pairs && Runes(turns[|turns| - 2 * m..]) <= runes
  }

  /** The longest window has `m` pairs. */
  ghost predicate LongestWindow(turns: seq<Turn>, m: nat, pairs: nat, runes: nat) {
    Fits(turns, m, pairs, runes) && forall more: nat :: m < more ==> !Fits(turns, more, pairs, runes)
  }

  /** The last pair, and the ones before it. */
  lemma FitsWithPair(turns: seq<Turn>, m: nat, pairs: nat, runes: nat)
    requires |turns| >= 2 && m > 0 && pairs > 0
    ensures var n := |turns| - 2;
      var size := |turns[n].content| + |turns[n + 1].content|;
      Fits(turns, m, pairs, runes) <==> size <= runes && Fits(turns[..n], m - 1, pairs - 1, runes - size)
  {
    if 2 * m <= |turns| {
      var n, k := |turns| - 2, |turns| - 2 * m;
      var s := turns[k..];
      var t := s[..|s| - 1];
      assert Runes(s) == Runes(t) + |turns[n + 1].content|;
      assert t[..|t| - 1] == turns[..n][k..] && t[|t| - 1] == turns[n];
      assert Runes(t) == Runes(turns[..n][k..]) + |turns[n].content|;
    }
  }

  lemma LongestWithPair(turns: seq<Turn>, m: nat, pairs: nat, runes: nat)
    requires |turns| >= 2 && pairs > 0
    requires var n := |turns| - 2;
      var size := |turns[n].content| + |turns[n + 1].content|;
      size <= runes && LongestWindow(turns[..n], m, pairs - 1, runes - size)
    ensures LongestWindow(turns, m + 1, pairs, runes)
  {
    FitsWithPair(turns, m + 1, pairs, runes);
    forall more: nat | m + 1 < more ensures !Fits(turns, more, pairs, runes) {
      FitsWithPair(turns, more, pairs, runes);
    }
  }

  lemma LongestIsEmpty(turns: seq<Turn>, pairs: nat, runes: nat)
    requires |turns| < 2 || pairs == 0 || |turns[|turns| - 2].content| + |turns[|turns| - 1].content| > runes
    ensures LongestWindow(turns, 0, pairs, runes)
  {
    forall more: nat | 0 < more ensures !Fits(turns, more, pairs, runes) {
      if |turns| >= 2 && pairs > 0 {
        FitsWithPair(turns, more, pairs, runes);
      }
    }
  }

  /** Whatever the turns are, trimming keeps the longest window that fits. */
  lemma {:induction false} TrimIsLongestWindow(turns: seq<Turn>, pairs: nat, runes: nat) returns (m: nat)
    ensures 2 * m <= |turns| && Trim(turns, pairs, runes) == turns[|turns| - 2 * m..]
    ensures LongestWindow(turns, m, pairs, runes)
    decreases |turns|
  {
    hide LongestWindow, Runes, Trim;
    var n := |turns| - 2;
    if n < 0 || pairs == 0 || |turns[n].content| + |turns[n + 1].content| > runes {
      m := 0;
      TrimmedToNothing(turns, pairs, runes);
      LongestIsEmpty(turns, pairs, runes);
    } else {
      var left := runes - |turns[n].content| - |turns[n + 1].content|;
      m := TrimIsLongestWindow(turns[..n], pairs - 1, left);
      LongestWithPair(turns, m, pairs, runes);
      TrimmedWithPair(turns, pairs, runes);
      EndWithPair(turns, m);
      m := m + 1;
    }
  }

  lemma TrimmedToNothing(turns: seq<Turn>, pairs: nat, runes: nat)
    requires |turns| < 2 || pairs == 0 || |turns[|turns| - 2].content| + |turns[|turns| - 1].content| > runes
    ensures Trim(turns, pairs, runes) == turns[|turns|..]
  {
  }

  lemma TrimmedWithPair(turns: seq<Turn>, pairs: nat, runes: nat)
    requires |turns| >= 2 && pairs > 0
    requires |turns[|turns| - 2].content| + |turns[|turns| - 1].content| <= runes
    ensures var n := |turns| - 2;
      Trim(turns, pairs, runes) ==
        Trim(turns[..n], pairs - 1, runes - |turns[n].content| - |turns[n + 1].content|) + [turns[n], turns[n + 1]]
  {
  }

  lemma EndWithPair(turns: seq<Turn>, m: nat)
    requires 2 * m + 2 <= |turns|
    ensures var n := |turns| - 2;
      turns[n - 2 * m..] == turns[..n][n - 2 * m..] + [turns[n], turns[n + 1]]
  {
  }

  /** `boundedAt` keeps the longest window of recent pairs with at most 20 turns and 12000 runes. */
  lemma BoundedIsLongestWindow(messages: seq<Turn>, now: Instant) returns (m: nat)
    ensures var eligible := Eligible(messages, now - 2 * 3_600_000_000_000);
      && 2 * m <= |eligible| && Bounded(messages, now) == eligible[|eligible| - 2 * m..]
      && LongestWindow(eligible, m, 10, 12_000)
  {
    m := TrimIsLongestWindow(Eligible(messages, now - MAX_AGE), MAX_TURNS / 2, MAX_RUNES);
  }

  // ----- the log of a conversation -----

  /** A question and its answer. */
  datatype Exchange = Exchange(user: string, assistant: string, at: Instant)
  {
    function Size(): nat {
      |user| + |assistant|
    }
  }

  datatype Log = Empty | Then(earlier: Log, x: Exchange)
  {
    function Turns(): seq<Turn> {
      match this
      case Empty => []
      case Then(earlier, x) =>
        earlier.Turns() + [Turn("user", x.user, At(x.at)), Turn("assistant", x.assistant, At(x.at))]
    }

    /** Times do not go back, and are not after `now`. */
    ghost predicate UpTo(now: Instant) {
      Then? ==> x.at <= now && earlier.UpTo(x.at)
    }

    /** The last exchanges, as long as they are recent and within the limits. */
    function Last(count: nat, runes: nat, cutoff: Instant): Log {
      if Empty? || count == 0 || x.at < cutoff || x.Size() > runes then Empty
      else Then(earlier.Last(count - 1, runes - x.Size(), cutoff), x)
    }

    /** What is kept of a whole log that is trimmed just once: ten exchanges of at most 12000 characters, which
        are no more than two hours old. */
    function Kept(now: Instant): Log {
      Last(10, 12_000, now - 2 * 3_600_000_000_000)
    }
  }

  /** Of what was kept under looser limits, the same is kept as of the whole log. */
  lemma {:induction false} LastOfLast(log: Log, count: nat, runes: nat, cutoff: Instant,
                                      count': nat, runes': nat, cutoff': Instant)
    requires count' <= count && runes' <= runes && cutoff <= cutoff'
    ensures log.Last(count, runes, cutoff).Last(count', runes', cutoff') == log.Last(count', runes', cutoff')
  {
    if log.Then? && count' > 0 && log.x.at >= cutoff' && log.x.Size() <= runes' {
      var size := log.x.Size();
      LastOfLast(log.earlier, count - 1, runes - size, cutoff, count' - 1, runes' - size, cutoff');
    }
  }

  /** Adding an exchange to what was kept, and trimming, keeps what trimming the whole log would keep. */
  lemma RememberKeepsLogWindow(log: Log, x: Exchange, earlier: Instant, now: Instant)
    requires earlier <= now
    ensures Then(log.Kept(earlier), x).Kept(now) == Then(log, x).Kept(now)
  {
    if x.Size() <= MAX_RUNES && x.at >= now - MAX_AGE {
      LastOfLast(log, MAX_TURNS / 2, MAX_RUNES, earlier - MAX_AGE,
                 MAX_TURNS / 2 - 1, MAX_RUNES - x.Size(), now - MAX_AGE);
    }
  }

  /** Trimming again later keeps what trimming the whole log then would keep. */
  lemma ReloadKeepsLogWindow(log: Log, earlier: Instant, now: Instant)
    requires earlier <= now
    ensures log.Kept(earlier).Kept(now) == log.Kept(now)
  {
    LastOfLast(log, MAX_TURNS / 2, MAX_RUNES, earlier - MAX_AGE, MAX_TURNS / 2, MAX_RUNES, now - MAX_AGE);
  }

  lemma {:induction false} LastUpTo(log: Log, count: nat, runes: nat, cutoff: Instant, now: Instant)
    requires log.UpTo(now)
    ensures log.Last(count, runes, cutoff).UpTo(now)
  {
    if log.Then? && count > 0 && log.x.Size() <= runes {
      LastUpTo(log.earlier, count - 1, runes - log.x.Size(), cutoff, log.x.at);
    }
  }

  // ----- boundedAt, on the turns of a log -----

  lemma EligibleOfPair(turns: seq<Turn>, a: Turn, b: Turn, cutoff: Instant)
    ensures Eligible(turns + [a, b], cutoff)
         == Eligible(turns, cutoff) + (if Recent(a, cutoff) then [a] else []) + (if Recent(b, cutoff) then [b] else [])
  {
    assert (turns + [a, b])[..|turns| + 1] == turns + [a];
    assert (turns + [a])[..|turns|] == turns;
  }

  lemma {:induction false} NoneEligible(log: Log, now: Instant, cutoff: Instant)
    requires log.UpTo(now) && now < cutoff
    ensures Eligible(log.Turns(), cutoff) == []
  {
    if log.Then? {
      var x := log.x;
      NoneEligible(log.earlier, x.at, cutoff);
      var a, b := Turn("user", x.user, At(x.at)), Turn("assistant", x.assistant, At(x.at));
      EligibleOfPair(log.earlier.Turns(), a, b, cutoff);
    }
  }

  lemma {:induction false} TrimOfLog(log: Log, now: Instant, count: nat, runes: nat, cutoff: Instant)
    requires log.UpTo(now)
    ensures Trim(Eligible(log.Turns(), cutoff), count, runes) == log.Last(count, runes, cutoff).Turns()
  {
    hide Eligible, Trim;
    NothingTrimmed(count, runes, cutoff);
    if log.Then? {
      var x := log.x;
      if x.at < cutoff {
        NoneEligible(log, x.at, cutoff);
      } else {
        var a, b := Turn("user", x.user, At(x.at)), Turn("assistant", x.assistant, At(x.at));
        EligibleOfPair(log.earlier.Turns(), a, b, cutoff);
        TrimWithPair(Eligible(log.earlier.Turns(), cutoff), a, b, count, runes);
        if count > 0 && x.Size() <= runes {
          TrimOfLog(log.earlier, x.at, count - 1, runes - x.Size(), cutoff);
        }
      }
    }
  }

  lemma NothingTrimmed(pairs: nat, runes: nat, cutoff: Instant)
    ensures Trim([], pairs, runes) == [] && Eligible([], cutoff) == []
  {
  }

  lemma TrimWithPair(turns: seq<Turn>, a: Turn, b: Turn, pairs: nat, runes: nat)
    ensures var size := |a.content| + |b.content|;
      Trim(turns + [a] + [b], pairs, runes) ==
        if pairs == 0 || size > runes then [] else Trim(turns, pairs - 1, runes - size) + [a, b]
  {
    assert (turns + [a] + [b])[..|turns|] == turns;
  }

  /** On a log, `boundedAt` keeps the turns of the last exchanges that are recent and within the limits. */
  lemma BoundedOfLog(log: Log, now: Instant)
    requires log.UpTo(now)
    ensures Bounded(log.Turns(), now) == log.Kept(now).Turns()
  {
    TrimOfLog(log, now, MAX_TURNS / 2, MAX_RUNES, now - MAX_AGE);
  }

  /** The turns of a log alternate, from the user's to the assistant's. */
  lemma {:induction false} TurnsAlternate(log: Log, i: nat)
    requires i < |log.Turns()|
    ensures |log.Turns()| % 2 == 0 && log.Turns()[i].role == if i % 2 == 0 then "user" else "assistant"
  {
    if i < |log.earlier.Turns()| {
      TurnsAlternate(log.earlier, i);
    } else if log.earlier.Turns() != [] {
      TurnsAlternate(log.earlier, 0);
    }
  }

  // ----- the histories of the service -----

  /** `turns` is what trimming the whole log at some moment up to `clock` keeps. */
  ghost predicate IsWindowOf(turns: seq<Turn>, log: Log, clock: Instant) {
    exists t: Instant :: t <= clock && turns == log.Kept(t).Turns()
  }

  lemma {:induction false} TurnsAreStamped(log: Log)
    ensures forall i :: 0 <= i < |log.Turns()| ==> log.Turns()[i].at != Never
  {
    if log.Then? {
      TurnsAreStamped(log.earlier);
    }
  }

  lemma NothingYet(now: Instant)
    ensures IsWindowOf([], Empty, now)
  {
    assert Empty.Kept(now).Turns() == [];
  }

  lemma TrimmedAgain(turns: seq<Turn>, log: Log, clock: Instant, now: Instant)
    requires IsWindowOf(turns, log, clock) && clock <= now && log.UpTo(now)
    ensures Bounded(turns, now) == Bounded(log.Turns(), now) && IsWindowOf(Bounded(turns, now), log, now)
    ensures forall i :: 0 <= i < |turns| ==> turns[i].at != Never
  {
    var t: Instant :| t <= clock && turns == log.Kept(t).Turns();
    LastUpTo(log, MAX_TURNS / 2, MAX_RUNES, t - MAX_AGE, now);
    BoundedOfLog(log.Kept(t), now);
    BoundedOfLog(log, now);
    ReloadKeepsLogWindow(log, t, now);
    TurnsAreStamped(log.Kept(t));
  }

  lemma OneMoreExchange(turns: seq<Turn>, log: Log, x: Exchange, clock: Instant, now: Instant)
    requires IsWindowOf(turns, log, clock) && clock <= now && log.UpTo(now) && x.at == now
    ensures var next := turns + [Turn("user", x.user, At(x.at)), Turn("assistant", x.assistant, At(x.at))];
      && Bounded(next, now) == Bounded(Then(log, x).Turns(), now)
      && IsWindowOf(Bounded(next, now), Then(log, x), now)
      && Then(log, x).UpTo(now)
  {
    var t: Instant :| t <= clock && turns == log.Kept(t).Turns();
    LastUpTo(log, MAX_TURNS / 2, MAX_RUNES, t - MAX_AGE, now);
    BoundedOfLog(Then(log.Kept(t), x), now);
    BoundedOfLog(Then(log, x), now);
    RememberKeepsLogWindow(log, x, t, now);
  }

  lemma LogGrows(log: Log, x: Exchange, now: Instant)
    requires log.UpTo(now) && x.at == now
    ensures Then(log, x).UpTo(now)
  {
  }

  datatype Outcome = Done | CannotPersistMemory | CannotPersistHistory | CannotReadHistory

  ghost function LogIn(logs: map<string, Log>, key: string): Log {
    if key in logs then logs[key] else Empty
  }

  ghost predicate AllUpTo(logs: map<string, Log>, clock: Instant) {
    forall key :: key in logs ==> logs[key].UpTo(clock)
  }

  ghost predicate AllWindows(logs: map<string, Log>, histories: map<string, seq<Turn>>, foreign: set<string>,
                             clock: Instant)
  {
    forall key :: key in histories && key !in foreign ==> IsWindowOf(histories[key], LogIn(logs, key), clock)
  }

  /** A turn without a time gets the time of the load. */
  function StampedTurn(turn: Turn, now: Instant): Turn {
    if turn.at == Never then turn.(at := At(now)) else turn
  }

  function StampedTurns(turns: seq<Turn>, now: Instant): seq<Turn> {
    seq(|turns|, i requires 0 <= i < |turns| => StampedTurn(turns[i], now))
  }

  lemma WindowReplaced(logs: map<string, Log>, histories: map<string, seq<Turn>>, foreign: set<string>, clock: Instant,
                       key: string, log: Log, turns: seq<Turn>)
    requires AllWindows(logs, histories, foreign, clock) && (key !in foreign ==> IsWindowOf(turns, log, clock))
    ensures AllWindows(logs[key := log], histories[key := turns], foreign, clock)
  {
    hide IsWindowOf;
  }

  class Histories {
    /** The histories in memory, and the files they are saved to. */
    var history: map<string, seq<Turn>>
    var files: map<string, seq<Turn>>
    /** All exchanges of each conversation since it was begun, and when its file was last written. */
    ghost var logs: map<string, Log>
    ghost var clock: Instant
    /** File operations do not fail. Otherwise each of them may. */
    const reliable: bool
    /** The conversations whose files were there before, with turns of any kind. */
    ghost const foreign: set<string>

    ghost function LogOf(key: string): Log
      reads this
    {
      LogIn(logs, key)
    }

    ghost predicate Valid()
      reads this
    {
      && AllUpTo(logs, clock)
      && AllWindows(logs, history, foreign, clock)
      && AllWindows(logs, files, foreign, clock)
      && (forall key :: key !in files ==> LogOf(key) == Empty)
    }

    /** Begins with the files that there are, whatever is in them. */
    constructor (files: map<string, seq<Turn>>, reliable: bool)
      ensures this.reliable == reliable
      ensures Valid() && logs == map[] && history == map[] && this.files == files && foreign == files.Keys
    {
      this.reliable := reliable;
      history, this.files, logs, clock, foreign := map[], files, map[], 0, files.Keys;
    }

    /** Makes sure that the history of a conversation is in memory; a history that is read from its file
        is trimmed, and is what trimming the whole log now keeps if its file was begun here. */
    method LoadHistory(key: string, now: Instant) returns (outcome: Outcome)
      requires Valid() && clock <= now
      modifies this
      ensures Valid() && clock == now && logs == old(logs) && files == old(files)
      ensures outcome == Done ==> key in history
      ensures outcome == Done && key !in old(history) ==>
                history == old(history)[key := Bounded(StampedTurns(if key in files then files[key] else [], now), now)]
      ensures outcome == Done && key !in old(history) && key !in foreign ==>
                history[key] == Bounded(LogOf(key).Turns(), now)
      ensures outcome != Done || key in old(history) ==> history == old(history)
      ensures outcome in {Done, CannotReadHistory} && (reliable ==> outcome == Done)
    {
      hide IsWindowOf, Bounded, Log.Turns, Log.UpTo;
      Later(now);
      if key !in history {
        var failed := Fails(reliable);
        if failed {
          return CannotReadHistory;
        }
        var turns: seq<Turn> := if key in files then files[key] else [];
        var stamped := Stamped(turns, now);
        var kept := BoundedAt(stamped, now);
        if key !in foreign {
          NothingYet(now);
          TrimmedAgain(turns, LogOf(key), now, now);
          assert stamped == turns;
        }
        history := history[key := kept];
      }
      return Done;
    }

    method Stamped(turns: seq<Turn>, now: Instant) returns (stamped: seq<Turn>)
      ensures stamped == StampedTurns(turns, now)
    {
      stamped := turns;
      for i := 0 to |turns|
        invariant |stamped| == |turns|
        invariant forall j :: 0 <= j < |turns| ==>
                    stamped[j] == if j < i then StampedTurn(turns[j], now) else turns[j]
      {
        if stamped[i].at == Never {
          stamped := stamped[i := stamped[i].(at := At(now))];
        }
      }
    }

    /** Adds an exchange: what is kept then is what trimming the whole log once would keep. */
    method Remember(key: string, text: string, answer: string, now: Instant) returns (outcome: Outcome)
      requires Valid() && clock <= now && key in history
      modifies this
      ensures Valid() && clock == now
      ensures outcome == Done ==>
                && logs == old(logs)[key := Then(old(LogOf(key)), Exchange(text, answer, now))]
                && history == old(history)[key := Bounded(
                     old(history[key]) + [Turn("user", text, At(now)), Turn("assistant", answer, At(now))], now)]
                && files == old(files)[key := history[key]]
      ensures outcome == Done && key !in foreign ==> history[key] == Bounded(LogOf(key).Turns(), now)
      ensures outcome != Done ==> logs == old(logs) && history == old(history) && files == old(files)
      ensures outcome != CannotReadHistory && (reliable ==> outcome == Done)
    {
      hide IsWindowOf, Bounded, Log.Turns, Log.UpTo;
      Later(now);
      var pair := [Turn("user", text, At(now)), Turn("assistant", answer, At(now))];
      var next := BoundedAt(history[key] + pair, now);
      var failed := Fails(reliable);
      if failed {
        return CannotPersistMemory;
      }
      failed := Fails(reliable);
      if failed {
        return CannotPersistHistory;
      }
      if key !in foreign {
        OneMoreExchange(history[key], LogOf(key), Exchange(text, answer, now), now, now);
      }
      ghost var log := Then(LogOf(key), Exchange(text, answer, now));
      LogGrows(LogOf(key), Exchange(text, answer, now), now);
      WindowReplaced(logs, history, foreign, now, key, log, next);
      WindowReplaced(logs, files, foreign, now, key, log, next);
      hide AllWindows;
      logs := logs[key := log];
      files := files[key := next];
      history := history[key := next];
      return Done;
    }

    /** A new process, with an empty memory. */
    method Restart()
      requires Valid()
      modifies `history
      ensures Valid() && history == map[]
    {
      history := map[];
    }

    ghost method Later(now: Instant)
      requires Valid() && clock <= now
      modifies `clock
      ensures Valid() && clock == now
    {
      clock := now;
    }
  }
}
