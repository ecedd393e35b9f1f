/** The compaction of prompts that are too large for the local model (internal/codexlocalgateway/server.go).

    Strings are bytes. What depends on white space and on lists of phrases is the library's
    (`Library`): trimming, the search for the objective and the workspace, and the line predicates. */
module PromptCompaction {
  import LineSplitting

  const COMPACTED_MARK := "Compacted previous context"
  const OBJECTIVE_BYTES := 280
  const WORKSPACE_BYTES := 180
  const LINE_BYTES := 180
  const MAX_CONSTRAINTS := 4
  const MAX_CHANGES := 3
  const MAX_FAILURES := 3

  datatype ToolCall = ToolCall(name: string, arguments: string)

  datatype Message = Message(role: string, content: string, toolCalls: seq<ToolCall>)

  datatype Library = Library(
    trimSpace: string -> string,
    latestObjective: seq<Message> -> string,
    latestWorkspace: seq<Message> -> string,
    isConstraint: string -> bool,
    isChange: string -> bool,
    isFailure: string -> bool)
  {
    /** Trimming only takes away. */
    ghost predicate Sane() {
      forall s :: |trimSpace(s)| <= |s|
    }

    /** A value of at most `max` bytes stays; of a longer one so many are kept, trimmed and with an ellipsis. */
    function TruncateInline(value: string, max: int): (r: string)
      ensures max <= 0 ==> r == value
      ensures |value| <= max ==> r == value
      ensures 0 < max < |value| ==> r == trimSpace(value[..max]) + "..."
    {
      if max <= 0 || |value| <= max then value else trimSpace(value[..max]) + "..."
    }

    function FirstNonEmpty(value: string, fallback: string): (r: string)
      ensures trimSpace(value) != "" ==> r == trimSpace(value)
      ensures trimSpace(value) == "" ==> r == trimSpace(fallback)
    {
      if trimSpace(value) != "" then trimSpace(value) else trimSpace(fallback)
    }

    /** The lines of a text that are signals, cut to size. */
    function SignalsIn(lines: seq<string>, keep: string -> bool): seq<string> {
      if lines == [] then []
      else
        var line := TruncateInline(trimSpace(lines[0]), LINE_BYTES);
        (if line != "" && keep(line) then [line] else []) + SignalsIn(lines[1..], keep)
    }

    /** All signals of a transcript: the newest message first, and in a message from top to bottom. */
    function AllSignals(messages: seq<Message>, keep: string -> bool): seq<string> {
      if messages == [] then []
      else
        var n := |messages| - 1;
        SignalsIn(SplitLines(messages[n].content), keep) + AllSignals(messages[..n], keep)
    }
  }

  /** strings.Split(s, "\n"). */
  function SplitLines(s: string): seq<string> {
    LineSplitting.Cut(s).complete + [LineSplitting.Cut(s).rest]
  }

  // ----- collecting signals -----

  /** `items` and the new ones among `signals`, as long as there are fewer than `limit`. */
  function Collected(items: seq<string>, signals: seq<string>, limit: nat): seq<string>
    decreases |signals|
  {
    if |items| >= limit || signals == [] then items
    else Collected(if signals[0] in items then items else items + [signals[0]], signals[1..], limit)
  }

  /** Where a signal is first seen. */
  function FirstIndex(signals: seq<string>, s: string): nat
    requires s in signals
  {
    if signals[0] == s then 0 else 1 + FirstIndex(signals[1..], s)
  }

  ghost predicate Distinct(items: seq<string>) {
    forall i, j :: 0 <= i < j < |items| ==> items[i] != items[j]
  }

  /** The collected items are different, no more than `limit`, and all signals if there are fewer. */
  lemma {:induction false} CollectedIsComplete(items: seq<string>, signals: seq<string>, limit: nat)
    requires Distinct(items) && |items| <= limit
    ensures var r := Collected(items, signals, limit);
      && items <= r && Distinct(r) && |r| <= limit
      && (forall s :: s in r ==> s in items || s in signals)
      && (|r| < limit ==> forall s :: s in signals ==> s in r)
    decreases |signals|
  {
    if |items| < limit && signals != [] {
      var next := if signals[0] in items then items else items + [signals[0]];
      CollectedIsComplete(next, signals[1..], limit);
      var r := Collected(next, signals[1..], limit);
      assert r == Collected(items, signals, limit) && signals[0] in next;
      hide Collected;
      assert forall s :: s in signals <==> s == signals[0] || s in signals[1..];
    }
  }

  /** Newer signals win: whatever was collected was seen before anything that was left out. */
  lemma {:induction false} CollectedIsNewest(items: seq<string>, signals: seq<string>, limit: nat, s: string, t: string)
    requires s in signals && t in signals && |items| <= limit
    requires s in Collected(items, signals, limit) && s !in items && t !in Collected(items, signals, limit)
    ensures FirstIndex(signals, s) < FirstIndex(signals, t)
    decreases |signals|
  {
    CollectedKeeps(items, signals, limit);
    if |items| < limit {
      var next := if signals[0] in items then items else items + [signals[0]];
      CollectedKeeps(next, signals[1..], limit);
      assert signals == [signals[0]] + signals[1..];
      assert signals[0] in next && t != signals[0];
      if signals[0] != s {
        assert s in signals[1..] && t in signals[1..] && s !in next;
        CollectedIsNewest(next, signals[1..], limit, s, t);
      }
    }
  }

  lemma {:induction false} CollectedKeeps(items: seq<string>, signals: seq<string>, limit: nat)
    ensures items <= Collected(items, signals, limit)
    decreases |signals|
  {
    if |items| < limit && signals != [] {
      CollectedKeeps(if signals[0] in items then items else items + [signals[0]], signals[1..], limit);
    }
  }

  lemma {:induction false} CollectedInParts(items: seq<string>, a: seq<string>, b: seq<string>, limit: nat)
    ensures Collected(items, a + b, limit) == Collected(Collected(items, a, limit), b, limit)
    decreases |a|
  {
    if a == [] {
      assert a + b == b;
    } else if |items| < limit {
      assert (a + b)[1..] == a[1..] + b;
      CollectedInParts(if a[0] in items then items else items + [a[0]], a[1..], b, limit);
    }
  }

  method CollectSignals(lib: Library, messages: seq<Message>, keep: string -> bool, limit: nat)
    returns (items: seq<string>)
    requires limit > 0
    ensures items == Signals(lib, messages, keep, limit)
  {
    var seen: set<string> := {};
    items := [];
    var i := |messages| - 1;
    assert messages[..|messages|] == messages;
    while i >= 0 && |items| < limit
      invariant -1 <= i < |messages| && |items| <= limit
      invariant seen == set s | s in items
      invariant Collected([], lib.AllSignals(messages, keep), limit)
             == Collected(items, lib.AllSignals(messages[..i + 1], keep), limit)
    {
      var lines := SplitLines(messages[i].content);
      ghost var before := items;
      ghost var older := lib.AllSignals(messages[..i], keep);
      assert messages[..i + 1][..i] == messages[..i];
      CollectedInParts(items, lib.SignalsIn(lines, keep), older, limit);
      items, seen := CollectLines(lib, lines, keep, limit, items, seen);
      i := i - 1;
    }
  }

  /** The inner loop of `CollectSignals`. */
  method CollectLines(lib: Library, lines: seq<string>, keep: string -> bool, limit: nat,
                      before: seq<string>, known: set<string>)
    returns (items: seq<string>, seen: set<string>)
    requires |before| < limit && known == set s | s in before
    ensures items == Collected(before, lib.SignalsIn(lines, keep), limit) && |items| <= limit
    ensures seen == set s | s in items
  {
    items, seen := before, known;
    assert lines[0..] == lines;
    for j := 0 to |lines|
      invariant |items| < limit && seen == set s | s in items
      invariant Collected(before, lib.SignalsIn(lines, keep), limit)
             == Collected(items, lib.SignalsIn(lines[j..], keep), limit)
    {
      ghost var rest := lines[j..];
      assert rest[0] == lines[j] && rest[1..] == lines[j + 1..];
      var line := lib.TruncateInline(lib.trimSpace(lines[j]), LINE_BYTES);
      ghost var later := lib.SignalsIn(lines[j + 1..], keep);
      if line == "" || !keep(line) {
        assert [] + later == later;
        continue;
      }
      assert ([line] + later)[1..] == later;
      if line in seen {
        continue;
      }
      seen := seen + {line};
      items := items + [line];
      if |items| == limit {
        break;
      }
    }
  }

  /** A signal of a message: a line of its text, trimmed and cut to 180 bytes, that is to be kept. */
  ghost predicate IsSignalOf(lib: Library, m: Message, keep: string -> bool, s: string) {
    && s != "" && keep(s)
    && exists line :: line in SplitLines(m.content) && s == lib.TruncateInline(lib.trimSpace(line), 180)
  }

  lemma {:induction false} SignalsInMean(lib: Library, lines: seq<string>, keep: string -> bool, s: string)
    ensures s in lib.SignalsIn(lines, keep) <==>
              && s != "" && keep(s)
              && exists line :: line in lines && s == lib.TruncateInline(lib.trimSpace(line), 180)
  {
    hide Library.TruncateInline;
    if lines != [] {
      SignalsInMean(lib, lines[1..], keep, s);
      assert lines == [lines[0]] + lines[1..];
    }
  }

  /** What is collected are signals, no more than `limit` and no two alike; and when a signal of some message is
      left out, they are `limit`, and each is one of that message or of a newer one. */
  lemma SignalsMean(lib: Library, messages: seq<Message>, keep: string -> bool, limit: nat)
    ensures var items := Signals(lib, messages, keep, limit);
      && |items| <= limit && Distinct(items)
      && (forall s :: s in items ==> exists j :: 0 <= j < |messages| && IsSignalOf(lib, messages[j], keep, s))
      && (forall i, t :: 0 <= i < |messages| && IsSignalOf(lib, messages[i], keep, t) && t !in items ==>
            && |items| == limit
            && forall s :: s in items ==> exists j :: i <= j < |messages| && IsSignalOf(lib, messages[j], keep, s))
  {
    var items := Signals(lib, messages, keep, limit);
    CollectedIsComplete([], lib.AllSignals(messages, keep), limit);
    hide IsSignalOf;
    forall s | s in items ensures FromMessage(lib, messages, keep, s, 0) {
      SignalIsOfMessage(lib, messages, keep, s);
    }
    forall i, t | 0 <= i < |messages| && IsSignalOf(lib, messages[i], keep, t) && t !in items
      ensures |items| == limit && forall s :: s in items ==> FromMessage(lib, messages, keep, s, i)
    {
      NewestSignalsWin([], lib, messages, keep, limit, i, t);
    }
  }

  /** A signal of the message at `i`, or of a newer one. */
  ghost predicate FromMessage(lib: Library, messages: seq<Message>, keep: string -> bool, s: string, i: int) {
    exists j :: i <= j < |messages| && 0 <= j && IsSignalOf(lib, messages[j], keep, s)
  }

  lemma {:induction false} SignalIsOfMessage(lib: Library, messages: seq<Message>, keep: string -> bool, s: string)
    requires s in lib.AllSignals(messages, keep)
    ensures FromMessage(lib, messages, keep, s, 0)
  {
    var n := |messages| - 1;
    SignalsInMean(lib, SplitLines(messages[n].content), keep, s);
    if s !in lib.SignalsIn(SplitLines(messages[n].content), keep) {
      SignalIsOfMessage(lib, messages[..n], keep, s);
      FromFront(lib, messages, keep, s, 0);
    }
  }

  lemma FromFront(lib: Library, messages: seq<Message>, keep: string -> bool, s: string, i: int)
    requires messages != [] && FromMessage(lib, messages[..|messages| - 1], keep, s, i)
    ensures FromMessage(lib, messages, keep, s, i)
  {
    hide IsSignalOf;
    var n := |messages| - 1;
    var j :| i <= j < n && 0 <= j && IsSignalOf(lib, messages[..n][j], keep, s);
    assert messages[j] == messages[..n][j];
  }

  lemma {:induction false} NewestSignalsWin(
    items: seq<string>, lib: Library, messages: seq<Message>, keep: string -> bool, limit: nat, i: nat, t: string)
    requires Distinct(items) && |items| <= limit && i < |messages| && IsSignalOf(lib, messages[i], keep, t)
    requires t !in Collected(items, lib.AllSignals(messages, keep), limit)
    ensures var r := Collected(items, lib.AllSignals(messages, keep), limit);
      |r| == limit && forall s :: s in r ==> s in items || FromMessage(lib, messages, keep, s, i)
    decreases |messages|
  {
    var n := |messages| - 1;
    var last, older := lib.SignalsIn(SplitLines(messages[n].content), keep), lib.AllSignals(messages[..n], keep);
    assert lib.AllSignals(messages, keep) == last + older;
    hide Collected, Distinct, IsSignalOf, FromMessage, Library.AllSignals, Library.SignalsIn;
    CollectedInParts(items, last, older, limit);
    FirstCollected(items, last, older, limit);
    LastIsNewest(lib, messages, keep, i);
    AllFromFront(lib, messages, keep, i);
    if i == n {
      LastSays(lib, messages, keep, t);
    } else {
      SignalOfFront(lib, messages, keep, t, i);
      var front := messages[..n];
      NewestSignalsWin(Collected(items, last, limit), lib, front, keep, limit, i, t);
    }
  }

  /** What the first of two lists leaves. */
  lemma FirstCollected(items: seq<string>, last: seq<string>, older: seq<string>, limit: nat)
    requires Distinct(items) && |items| <= limit
    ensures var first := Collected(items, last, limit);
      && Distinct(first) && |first| <= limit
      && (forall s :: s in first ==> s in items || s in last)
      && forall t :: t in last && t !in Collected(first, older, limit) ==>
           Collected(first, older, limit) == first && |first| == limit
  {
    var first := Collected(items, last, limit);
    CollectedIsComplete(items, last, limit);
    CollectedIsComplete(first, older, limit);
    hide Collected, Distinct;
    var r := Collected(first, older, limit);
    if |first| == limit {
      assert first <= r && |r| <= limit;
      assert r == first;
    } else {
      assert forall s :: s in last ==> s in first;
      assert forall s :: s in first ==> s in r;
    }
  }

  lemma SignalOfFront(lib: Library, messages: seq<Message>, keep: string -> bool, t: string, i: nat)
    requires i < |messages| - 1 && IsSignalOf(lib, messages[i], keep, t)
    ensures IsSignalOf(lib, messages[..|messages| - 1][i], keep, t)
  {
  }

  lemma AllFromFront(lib: Library, messages: seq<Message>, keep: string -> bool, i: nat)
    requires messages != []
    ensures forall s :: FromMessage(lib, messages[..|messages| - 1], keep, s, i) ==>
              FromMessage(lib, messages, keep, s, i)
  {
    forall s | FromMessage(lib, messages[..|messages| - 1], keep, s, i) ensures FromMessage(lib, messages, keep, s, i) {
      FromFront(lib, messages, keep, s, i);
    }
  }

  lemma LastSays(lib: Library, messages: seq<Message>, keep: string -> bool, t: string)
    requires messages != [] && IsSignalOf(lib, messages[|messages| - 1], keep, t)
    ensures t in lib.SignalsIn(SplitLines(messages[|messages| - 1].content), keep)
  {
    SignalsInMean(lib, SplitLines(messages[|messages| - 1].content), keep, t);
  }

  lemma LastIsNewest(lib: Library, messages: seq<Message>, keep: string -> bool, i: nat)
    requires i < |messages|
    ensures forall s :: s in lib.SignalsIn(SplitLines(messages[|messages| - 1].content), keep) ==>
              FromMessage(lib, messages, keep, s, i)
  {
    var n := |messages| - 1;
    forall s | s in lib.SignalsIn(SplitLines(messages[n].content), keep)
      ensures FromMessage(lib, messages, keep, s, i)
    {
      SignalsInMean(lib, SplitLines(messages[n].content), keep, s);
      assert IsSignalOf(lib, messages[n], keep, s);
    }
  }

  // ----- the summary -----

  function Join(items: seq<string>, separator: string): string {
    if items == [] then ""
    else if |items| == 1 then items[0]
    else items[0] + separator + Join(items[1..], separator)
  }

  /** A line of the summary that is there only when there is something to say. */
  function Listed(heading: string, items: seq<string>): seq<string> {
    if items == [] then [] else [heading + Join(items, " | ")]
  }

  function OpeningLines(lib: Library, objective: string, workspace: string): seq<string> {
    [ "Compacted previous context for local lab model.",
      "Preserve these facts as authoritative:",
      "- Objective: " + lib.TruncateInline(objective, OBJECTIVE_BYTES),
      "- Workspace: " + lib.TruncateInline(workspace, WORKSPACE_BYTES) ]
  }

  function ClosingLines(): seq<string> {
    ["Older transcript was discarded to stay within context. Keep the same repo, objective, and constraints."]
  }

  /** At most `limit` different signals of a transcript, the newest ones. */
  function Signals(lib: Library, messages: seq<Message>, keep: string -> bool, limit: nat): seq<string> {
    Collected([], lib.AllSignals(messages, keep), limit)
  }

  function SummaryLines(lib: Library, messages: seq<Message>): seq<string> {
    OpeningLines(lib, lib.FirstNonEmpty(lib.latestObjective(messages), "unknown"),
                 lib.FirstNonEmpty(lib.latestWorkspace(messages), "unknown"))
    + Listed("- Constraints: ", Signals(lib, messages, lib.isConstraint, MAX_CONSTRAINTS))
    + Listed("- Recent changes: ", Signals(lib, messages, lib.isChange, MAX_CHANGES))
    + Listed("- Recent validation errors: ", Signals(lib, messages, lib.isFailure, MAX_FAILURES))
    + ClosingLines()
  }

  /** What the summary says of the objective and the workspace. */
  lemma SummaryOpens(lib: Library, objective: string, workspace: string)
    ensures "- Objective: " + lib.TruncateInline(objective, 280) in OpeningLines(lib, objective, workspace)
    ensures "- Workspace: " + lib.TruncateInline(workspace, 180) in OpeningLines(lib, objective, workspace)
  {
    hide Library.TruncateInline;
  }

  lemma ListsUnder(heading: string, items: seq<string>)
    ensures items != [] ==> heading + Join(items, " | ") in Listed(heading, items)
  {
    hide Join;
  }

  /** What it lists under which heading: at most four constraints, three changes and three failures. */
  lemma SummaryLists(lib: Library, messages: seq<Message>)
    ensures var lines := SummaryLines(lib, messages);
      && (forall l :: l in Listed("- Constraints: ", Signals(lib, messages, lib.isConstraint, 4)) ==> l in lines)
      && (forall l :: l in Listed("- Recent changes: ", Signals(lib, messages, lib.isChange, 3)) ==> l in lines)
      && (forall l :: l in Listed("- Recent validation errors: ", Signals(lib, messages, lib.isFailure, 3)) ==>
            l in lines)
  {
    hide Listed, OpeningLines, ClosingLines, Signals, Library.FirstNonEmpty;
  }

  function Summary(lib: Library, messages: seq<Message>): Message {
    Message("system", Join(SummaryLines(lib, messages), "\n"), [])
  }

  method BuildCompactionSummary(lib: Library, messages: seq<Message>) returns (summary: Message)
    ensures summary == Summary(lib, messages)
  {
    hide Join, Signals, OpeningLines, ClosingLines;
    var objective := lib.FirstNonEmpty(lib.latestObjective(messages), "unknown");
    var workspace := lib.FirstNonEmpty(lib.latestWorkspace(messages), "unknown");
    var constraints := CollectSignals(lib, messages, lib.isConstraint, MAX_CONSTRAINTS);
    var changes := CollectSignals(lib, messages, lib.isChange, MAX_CHANGES);
    var errors := CollectSignals(lib, messages, lib.isFailure, MAX_FAILURES);
    var lines := OpeningLines(lib, objective, workspace);
    lines := AddListed(lines, "- Constraints: ", constraints);
    lines := AddListed(lines, "- Recent changes: ", changes);
    lines := AddListed(lines, "- Recent validation errors: ", errors);
    lines := lines + ClosingLines();
    summary := Message("system", Join(lines, "\n"), []);
  }

  method AddListed(lines: seq<string>, heading: string, items: seq<string>) returns (r: seq<string>)
    ensures r == lines + Listed(heading, items)
  {
    r := lines;
    if |items| > 0 {
      r := r + [heading + Join(items, " | ")];
    }
  }

  /** The bytes of some lines, each with a separator of `extra` bytes after it. */
  function Total(lines: seq<string>, extra: nat): nat {
    if lines == [] then 0 else |lines[0]| + extra + Total(lines[1..], extra)
  }

  lemma {:induction false} JoinLength(items: seq<string>, separator: string)
    ensures items != [] ==> |Join(items, separator)| + |separator| == Total(items, |separator|)
  {
    if |items| > 1 {
      JoinLength(items[1..], separator);
    } else if |items| == 1 {
      assert items[1..] == [];
    }
  }

  lemma {:induction false} TotalConcat(a: seq<string>, b: seq<string>, extra: nat)
    ensures Total(a + b, extra) == Total(a, extra) + Total(b, extra)
  {
    if a == [] {
      assert a + b == b;
    } else {
      TotalConcat(a[1..], b, extra);
      assert (a + b)[1..] == a[1..] + b;
    }
  }

  lemma {:induction false} TotalBounded(items: seq<string>, extra: nat, each: nat)
    requires forall s :: s in items ==> |s| + extra <= each
    ensures Total(items, extra) <= |items| * each
  {
    if items != [] {
      TotalBounded(items[1..], extra, each);
      OneMore(|items|, each);
    }
  }

  lemma OneMore(n: nat, each: nat)
    requires n > 0
    ensures n * each == (n - 1) * each + each
  {
  }

  lemma TruncatedBounded(lib: Library, value: string, max: nat)
    requires lib.Sane() && max > 0
    ensures |lib.TruncateInline(value, max)| <= max + 3
  {
    if |value| > max {
      assert |lib.trimSpace(value[..max])| <= max;
    }
  }

  lemma {:induction false} SignalsInBounded(lib: Library, lines: seq<string>, keep: string -> bool)
    requires lib.Sane()
    ensures forall s :: s in lib.SignalsIn(lines, keep) ==> |s| <= LINE_BYTES + 3
  {
    if lines != [] {
      TruncatedBounded(lib, lib.trimSpace(lines[0]), LINE_BYTES);
      SignalsInBounded(lib, lines[1..], keep);
    }
  }

  lemma {:induction false} AllSignalsBounded(lib: Library, messages: seq<Message>, keep: string -> bool)
    requires lib.Sane()
    ensures forall s :: s in lib.AllSignals(messages, keep) ==> |s| <= LINE_BYTES + 3
  {
    if messages != [] {
      var n := |messages| - 1;
      SignalsInBounded(lib, SplitLines(messages[n].content), keep);
      AllSignalsBounded(lib, messages[..n], keep);
    }
  }

  lemma SignalsBounded(lib: Library, messages: seq<Message>, keep: string -> bool, limit: nat)
    requires lib.Sane()
    ensures var items := Signals(lib, messages, keep, limit);
      |items| <= limit && forall s :: s in items ==> |s| <= LINE_BYTES + 3
  {
    AllSignalsBounded(lib, messages, keep);
    CollectedIsComplete([], lib.AllSignals(messages, keep), limit);
  }

  /** One listed line, with its newline. */
  lemma ListedBounded(heading: string, items: seq<string>, limit: nat)
    requires |items| <= limit && limit > 0 && forall s :: s in items ==> |s| <= LINE_BYTES + 3
    ensures Total(Listed(heading, items), 1) <= |heading| + limit * (LINE_BYTES + 6) - 2
  {
    TotalBounded(items, 3, LINE_BYTES + 6);
    JoinLength(items, " | ");
    if items != [] {
      TotalOfOne(heading + Join(items, " | "));
    }
  }

  /** The summary is short, whatever the transcript. */
  lemma SummaryBounded(lib: Library, messages: seq<Message>)
    requires lib.Sane()
    ensures |Summary(lib, messages).content| <= 2598
  {
    SummaryTotal(lib, messages);
    hide SummaryLines, Total;
    JoinLength(SummaryLines(lib, messages), "\n");
  }

  lemma SummaryTotal(lib: Library, messages: seq<Message>)
    requires lib.Sane()
    ensures SummaryLines(lib, messages) != [] && Total(SummaryLines(lib, messages), 1) <= 2599
  {
    hide Total, Listed, Signals, OpeningLines, ClosingLines, Library.FirstNonEmpty;
    var objective := lib.FirstNonEmpty(lib.latestObjective(messages), "unknown");
    var workspace := lib.FirstNonEmpty(lib.latestWorkspace(messages), "unknown");
    var constraints := Signals(lib, messages, lib.isConstraint, MAX_CONSTRAINTS);
    var changes := Signals(lib, messages, lib.isChange, MAX_CHANGES);
    var errors := Signals(lib, messages, lib.isFailure, MAX_FAILURES);
    var a, z := OpeningLines(lib, objective, workspace), ClosingLines();
    var c, d := Listed("- Constraints: ", constraints), Listed("- Recent changes: ", changes);
    var e := Listed("- Recent validation errors: ", errors);
    SignalsBounded(lib, messages, lib.isConstraint, MAX_CONSTRAINTS);
    SignalsBounded(lib, messages, lib.isChange, MAX_CHANGES);
    SignalsBounded(lib, messages, lib.isFailure, MAX_FAILURES);
    ListedBounded("- Constraints: ", constraints, MAX_CONSTRAINTS);
    ListedBounded("- Recent changes: ", changes, MAX_CHANGES);
    ListedBounded("- Recent validation errors: ", errors, MAX_FAILURES);
    OpeningBounded(lib, objective, workspace);
    ClosingBounded();
    TotalConcat(a, c, 1);
    TotalConcat(a + c, d, 1);
    TotalConcat(a + c + d, e, 1);
    TotalConcat(a + c + d + e, z, 1);
  }

  lemma OpeningBounded(lib: Library, objective: string, workspace: string)
    requires lib.Sane()
    ensures Total(OpeningLines(lib, objective, workspace), 1) <= 581
  {
    var a, b := "Compacted previous context for local lab model.", "Preserve these facts as authoritative:";
    var c := "- Objective: " + lib.TruncateInline(objective, OBJECTIVE_BYTES);
    var d := "- Workspace: " + lib.TruncateInline(workspace, WORKSPACE_BYTES);
    TruncatedBounded(lib, objective, OBJECTIVE_BYTES);
    TruncatedBounded(lib, workspace, WORKSPACE_BYTES);
    TotalOfFour(a, b, c, d);
    assert OpeningLines(lib, objective, workspace) == [a, b, c, d];
  }

  lemma ClosingBounded()
    ensures ClosingLines() != [] && Total(ClosingLines(), 1) == 103
  {
    TotalOfOne(ClosingLines()[0]);
  }

  lemma TotalOfOne(a: string)
    ensures Total([a], 1) == |a| + 1
  {
    assert [a][1..] == [];
  }

  lemma TotalOfFour(a: string, b: string, c: string, d: string)
    ensures Total([a, b, c, d], 1) == |a| + |b| + |c| + |d| + 4
  {
    TotalOfOne(d);
    assert [c, d][1..] == [d];
    assert Total([c, d], 1) == |c| + |d| + 2;
    assert [b, c, d][1..] == [c, d];
    assert Total([b, c, d], 1) == |b| + |c| + |d| + 3;
    assert [a, b, c, d][1..] == [b, c, d];
  }

  // ----- compaction -----

  function CallBytes(calls: seq<ToolCall>): nat {
    if calls == [] then 0 else |calls[0].name| + |calls[0].arguments| + CallBytes(calls[1..])
  }

  function Size(m: Message): nat {
    |m.content| + CallBytes(m.toolCalls)
  }

  /** The size of a prompt: its texts, and the names and arguments of its tool calls. */
  function ChatPromptChars(messages: seq<Message>): nat {
    if messages == [] then 0 else Size(messages[0]) + ChatPromptChars(messages[1..])
  }

  lemma {:induction false} CallBytesAdd(a: seq<ToolCall>, b: seq<ToolCall>)
    ensures CallBytes(a + b) == CallBytes(a) + CallBytes(b)
  {
    if a == [] {
      assert a + b == b;
    } else {
      CallBytesAdd(a[1..], b);
      assert (a + b)[1..] == a[1..] + b;
    }
  }

  /** The size of a prompt is that of its parts. */
  lemma {:induction false} PromptCharsAdd(a: seq<Message>, b: seq<Message>)
    ensures ChatPromptChars(a + b) == ChatPromptChars(a) + ChatPromptChars(b)
  {
    if a == [] {
      assert a + b == b;
    } else {
      PromptCharsAdd(a[1..], b);
      assert (a + b)[1..] == a[1..] + b;
    }
  }

  /** A message without calls has the size of its text, and each call more adds its name and its arguments. */
  lemma PromptCharsOfMessage(m: Message, c: ToolCall)
    ensures m.toolCalls == [] ==> ChatPromptChars([m]) == |m.content|
    ensures ChatPromptChars([m.(toolCalls := m.toolCalls + [c])]) == ChatPromptChars([m]) + |c.name| + |c.arguments|
  {
    CallBytesAdd(m.toolCalls, [c]);
    assert [c][1..] == [];
    assert [m][1..] == [];
    assert [m.(toolCalls := m.toolCalls + [c])][1..] == [];
  }

  lemma {:induction false} CallCounts(calls: seq<ToolCall>, c: ToolCall)
    requires c in calls
    ensures |c.name| + |c.arguments| <= CallBytes(calls)
  {
    if calls[0] != c {
      CallCounts(calls[1..], c);
    }
  }

  lemma {:induction false} MessageCounts(messages: seq<Message>, m: Message)
    requires m in messages
    ensures |m.content| <= ChatPromptChars(messages)
    ensures forall c :: c in m.toolCalls ==> |m.content| + |c.name| + |c.arguments| <= ChatPromptChars(messages)
  {
    forall c | c in m.toolCalls ensures |c.name| + |c.arguments| <= CallBytes(m.toolCalls) {
      CallCounts(m.toolCalls, c);
    }
    if messages[0] != m {
      MessageCounts(messages[1..], m);
    }
  }

  /** The loops of `chatPromptChars`. */
  method CountPromptChars(messages: seq<Message>) returns (total: nat)
    ensures total == ChatPromptChars(messages)
  {
    total := 0;
    for i := 0 to |messages|
      invariant total == ChatPromptChars(messages[..i])
    {
      var m := messages[i];
      PromptCharsAdd(messages[..i], [m]);
      assert messages[..i + 1] == messages[..i] + [m] && [m][1..] == [];
      total := total + |m.content|;
      for j := 0 to |m.toolCalls|
        invariant total == ChatPromptChars(messages[..i]) + |m.content| + CallBytes(m.toolCalls[..j])
      {
        var call := m.toolCalls[j];
        CallBytesAdd(m.toolCalls[..j], [call]);
        assert m.toolCalls[..j + 1] == m.toolCalls[..j] + [call] && [call][1..] == [];
        total := total + |call.name| + |call.arguments|;
      }
      assert m.toolCalls[..|m.toolCalls|] == m.toolCalls;
    }
    assert messages[..|messages|] == messages;
  }

  predicate FoundAt(s: string, part: string, i: nat) {
    i + |part| <= |s| && s[i..i + |part|] == part
  }

  predicate Contains(s: string, part: string) {
    exists i: nat | i <= |s| :: FoundAt(s, part, i)
  }

  /** What may be kept besides the summary: the leading system message, unless it is itself a summary,
      and the last two messages. */
  function Keepable(messages: seq<Message>): seq<Message>
    requires |messages| >= 2
  {
    var first := messages[0];
    (if first.role == "system" && !Contains(first.content, COMPACTED_MARK) then [first] else [])
    + messages[|messages| - 2..]
  }

  /** `kept` is the summary and the longest end of `keepable` that fits with it, if any fits. */
  ghost predicate KeepsLongestEnd(summary: Message, keepable: seq<Message>, limit: int, kept: seq<Message>) {
    exists k: nat :: StartsAt(summary, keepable, limit, kept, k)
  }

  ghost predicate StartsAt(summary: Message, keepable: seq<Message>, limit: int, kept: seq<Message>, k: nat) {
    && k <= |keepable| && kept == [summary] + keepable[k..]
    && (ChatPromptChars(kept) <= limit || k == |keepable|)
    && forall j: nat :: j < k ==> ChatPromptChars([summary] + keepable[j..]) > limit
  }

  method CompactMessages(lib: Library, messages: seq<Message>, limit: int) returns (compacted: seq<Message>)
    ensures |messages| <= 2 ==> compacted == messages
    ensures |messages| > 2 ==> KeepsLongestEnd(Summary(lib, messages), Keepable(messages), limit, compacted)
  {
    hide Contains, ChatPromptChars, Summary;
    if |messages| <= 2 {
      return messages;
    }
    var first := messages[0];
    var summary := BuildCompactionSummary(lib, messages);
    var tail := messages[|messages| - 2..];
    compacted := [summary];
    if first.role == "system" && !Contains(first.content, COMPACTED_MARK) {
      compacted := compacted + [first];
    }
    compacted := compacted + tail;
    ghost var keepable := Keepable(messages);
    ghost var k := 0;
    assert compacted == [summary] + keepable[0..];
    var total := CountPromptChars(compacted);
    while total > limit && |compacted| > 1
      invariant total == ChatPromptChars(compacted)
      invariant 0 <= k <= |keepable| && compacted == [summary] + keepable[k..]
      invariant forall j: nat :: j < k ==> ChatPromptChars([summary] + keepable[j..]) > limit
      decreases |compacted|
    {
      assert compacted[..1] + compacted[2..] == [summary] + keepable[k + 1..];
      compacted := compacted[..1] + compacted[2..];
      total := CountPromptChars(compacted);
      k := k + 1;
    }
    assert StartsAt(summary, keepable, limit, compacted, k);
  }

  datatype PromptCheck = Accepted | TooLarge(total: nat, limit: int, afterCompaction: bool)

  class ChatRequest {
    var messages: seq<Message>

    constructor (messages: seq<Message>)
      ensures this.messages == messages
    {
      this.messages := messages;
    }
  }

  class Server {
    const lib: Library
    const maxPromptChars: int
    var compactions: nat

    constructor (lib: Library, maxPromptChars: int)
      ensures this.lib == lib && this.maxPromptChars == maxPromptChars && compactions == 0
    {
      this.lib, this.maxPromptChars, compactions := lib, maxPromptChars, 0;
    }

    /** Makes a prompt fit the limit. Without a limit, or within it, nothing is done. */
    method CompactChatPrompt(req: ChatRequest) returns (r: PromptCheck)
      modifies req, `compactions
      ensures r == Accepted && maxPromptChars > 0 ==> ChatPromptChars(req.messages) <= maxPromptChars
      ensures r == Accepted && maxPromptChars > 0 ==> forall m :: m in req.messages ==>
                && |m.content| <= maxPromptChars
                && forall c :: c in m.toolCalls ==> |m.content| + |c.name| + |c.arguments| <= maxPromptChars
      ensures maxPromptChars <= 0 || ChatPromptChars(old(req.messages)) <= maxPromptChars ==>
                r == Accepted && req.messages == old(req.messages) && compactions == old(compactions)
      ensures maxPromptChars > 0 && ChatPromptChars(old(req.messages)) > maxPromptChars ==>
                if |old(req.messages)| < 3 then
                  && r == TooLarge(ChatPromptChars(old(req.messages)), maxPromptChars, false)
                  && req.messages == old(req.messages)
                else
                  && KeepsLongestEnd(Summary(lib, old(req.messages)), Keepable(old(req.messages)), maxPromptChars,
                                     req.messages)
                  && r == (if ChatPromptChars(req.messages) <= maxPromptChars then Accepted
                           else TooLarge(ChatPromptChars(req.messages), maxPromptChars, true))
      ensures compactions == old(compactions)
                           + if r == Accepted && maxPromptChars > 0
                                && ChatPromptChars(old(req.messages)) > maxPromptChars
                             then 1 else 0
    {
      hide KeepsLongestEnd, ChatPromptChars, Summary, Keepable;
      if maxPromptChars <= 0 {
        return Accepted;
      }
      var total := CountPromptChars(req.messages);
      if total <= maxPromptChars {
        forall m | m in req.messages { MessageCounts(req.messages, m); }
        return Accepted;
      }
      if |req.messages| < 3 {
        return TooLarge(total, maxPromptChars, false);
      }
      var compacted := CompactMessages(lib, req.messages, maxPromptChars);
      req.messages := compacted;
      var after := CountPromptChars(req.messages);
      if after > maxPromptChars {
        return TooLarge(after, maxPromptChars, true);
      }
      compactions := compactions + 1;
      forall m | m in req.messages { MessageCounts(req.messages, m); }
      return Accepted;
    }
  }

  /** Compaction fails just when not even the summary fits. */
  lemma CompactionFailsIffSummaryTooLong(summary: Message, keepable: seq<Message>, limit: int, compacted: seq<Message>)
    requires KeepsLongestEnd(summary, keepable, limit, compacted) && summary.toolCalls == []
    ensures ChatPromptChars(compacted) > limit <==> |summary.content| > limit
  {
    var k: nat :| StartsAt(summary, keepable, limit, compacted, k);
    assert compacted[1..] == keepable[k..];
    assert ChatPromptChars(compacted) == |summary.content| + ChatPromptChars(keepable[k..]);
  }

  /** With at least three messages, and a limit that has room for the longest summary there can be,
      compaction never fails: in the worst case the summary alone is left. */
  lemma CompactionFits(lib: Library, messages: seq<Message>, limit: int, compacted: seq<Message>)
    requires lib.Sane() && |messages| >= 3 && limit >= 2598
    requires KeepsLongestEnd(Summary(lib, messages), Keepable(messages), limit, compacted)
    ensures ChatPromptChars(compacted) <= limit
  {
    hide Keepable, KeepsLongestEnd, ChatPromptChars, SummaryLines, Join;
    SummaryBounded(lib, messages);
    CompactionFailsIffSummaryTooLong(Summary(lib, messages), Keepable(messages), limit, compacted);
  }

  /** A prompt that fits keeps everything that may be kept: nothing is dropped without need. */
  lemma NothingDroppedWithoutNeed(summary: Message, keepable: seq<Message>, limit: int, compacted: seq<Message>)
    requires KeepsLongestEnd(summary, keepable, limit, compacted)
    requires ChatPromptChars([summary] + keepable) <= limit
    ensures compacted == [summary] + keepable
  {
    var k: nat :| StartsAt(summary, keepable, limit, compacted, k);
    assert keepable[0..] == keepable;
  }

  /** A summary is recognized when its prompt is compacted again: only the new one is kept. */
  lemma OldSummaryIsReplaced(lib: Library, messages: seq<Message>, later: seq<Message>)
    requires |later| >= 2 && later[0] == Summary(lib, messages)
    ensures Keepable(later) == later[|later| - 2..]
  {
    SummaryStartsWithMark(lib, messages);
    hide Summary;
    assert FoundAt(later[0].content, COMPACTED_MARK, 0);
  }

  lemma SummaryStartsWithMark(lib: Library, messages: seq<Message>)
    ensures COMPACTED_MARK <= Summary(lib, messages).content
  {
    var objective := lib.FirstNonEmpty(lib.latestObjective(messages), "unknown");
    var workspace := lib.FirstNonEmpty(lib.latestWorkspace(messages), "unknown");
    var opening, lines := OpeningLines(lib, objective, workspace), SummaryLines(lib, messages);
    OpensWithMark(lib, objective, workspace);
    hide OpeningLines, ClosingLines, Listed, Signals;
    assert |lines| > 1 && lines[0] == opening[0];
    JoinStarts(lines);
  }

  lemma OpensWithMark(lib: Library, objective: string, workspace: string)
    ensures var opening := OpeningLines(lib, objective, workspace);
      |opening| > 1 && COMPACTED_MARK <= opening[0]
  {
  }

  lemma JoinStarts(lines: seq<string>)
    requires |lines| > 1
    ensures lines[0] <= Join(lines, "\n")
  {
    var rest := Join(lines[1..], "\n");
    assert Join(lines, "\n") == lines[0] + "\n" + rest;
    hide Join;
    assert (lines[0] + "\n" + rest)[..|lines[0]|] == lines[0];
  }
}
