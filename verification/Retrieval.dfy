/** The selection of retrieval hits (internal/orchestratorgo/memory/retrieval.go): a stable sort by
    score, and a greedy choice under two caps. Scores are reals. */
module Retrieval {
  import opened Common
  import opened Text
  import Sorting

  const DEFAULT_PRECEDENT_LIMIT := 5
  const DEFAULT_PER_CLASS_LIMIT := 2
  const DEFAULT_CHUNK_SUMMARY_CHARS := 180

  datatype MemoryClass =
    | RepoSpecific | TechnologySimilar | PatternSimilar | NegativeGuardrail | RecentExecution | PlanningContext
  {
    function Name(): string {
      match this
      case RepoSpecific => "repo_specific"
      case TechnologySimilar => "technology_similar"
      case PatternSimilar => "pattern_similar"
      case NegativeGuardrail => "negative_guardrail"
      case RecentExecution => "recent_execution"
      case PlanningContext => "planning_context"
    }

    function Priority(): int {
      match this
      case RepoSpecific => 0
      case RecentExecution => 1
      case PatternSimilar => 2
      case TechnologySimilar => 3
      case PlanningContext => 4
      case NegativeGuardrail => 10
    }
  }

  /** Any name that is not a class stands for the repository's own. */
  function NormalizeMemoryClass(raw: string): MemoryClass {
    var name := TrimSpace(raw);
    if name == "technology_similar" then TechnologySimilar
    else if name == "pattern_similar" then PatternSimilar
    else if name == "negative_guardrail" then NegativeGuardrail
    else if name == "recent_execution" then RecentExecution
    else if name == "planning_context" then PlanningContext
    else RepoSpecific
  }

  /** A text that fits is kept; of a longer one a beginning is, with an ellipsis where there is room for it. */
  function CompactText(raw: string, max: int): (r: string)
    ensures var text, m := TrimSpace(raw), if max <= 0 then 180 else max;
      && |r| <= m
      && (|text| <= m ==> r == text)
      && (|text| > m && m <= 3 ==> |r| == m && r <= text)
      && (|text| > m > 3 ==>
            && |r| >= 3 && r[|r| - 3..] == "..." && r[..|r| - 3] <= text
            && forall i :: |r| - 3 <= i < m - 3 ==> IsSpace(text[i]))
  {
    var text := TrimSpace(raw);
    var maxChars := if max <= 0 then DEFAULT_CHUNK_SUMMARY_CHARS else max;
    if |text| <= maxChars then text
    else if maxChars <= 3 then text[..maxChars]
    else
      TrimmedBeginning(raw, maxChars - 3);
      TrimSpace(text[..maxChars - 3]) + "..."
  }

  /** What is trimmed off a beginning of a trimmed text is at its end. */
  lemma TrimmedBeginning(raw: string, n: nat)
    requires 0 < n <= |TrimSpace(raw)|
    ensures TrimSpace(TrimSpace(raw)[..n]) <= TrimSpace(raw) && |TrimSpace(TrimSpace(raw)[..n])| <= n
    ensures forall i :: |TrimSpace(TrimSpace(raw)[..n])| <= i < n ==> IsSpace(TrimSpace(raw)[i])
  {
    TrimLeftTrims(raw);
    TrimRightTrims(TrimLeft(raw));
    hide IsSpace;
    var start := TrimSpace(raw)[..n];
    assert TrimLeft(start) == start;
    TrimRightBegins(start);
  }

  lemma {:induction false} TrimRightBegins(s: string)
    ensures TrimRight(s) <= s && forall i :: |TrimRight(s)| <= i < |s| ==> IsSpace(s[i])
  {
    if s != "" && IsSpace(s[|s| - 1]) {
      TrimRightBegins(s[..|s| - 1]);
    }
  }

  // ----- chunks and hits -----

  /** A value in a chunk's metadata. */
  datatype Value = Text(s: string) | Other

  datatype Chunk = Chunk(
    sourceRef: string, sourceType: string, sourceId: string, contentText: string,
    score: Option<real>, memoryClass: string, metadata: Option<map<string, Value>>,
    initiativeId: Option<string>, taskId: Option<string>, artifactId: Option<string>)
  {
    function Class(): MemoryClass {
      NormalizeMemoryClass(
        if memoryClass == "" && metadata.Some? then TrimSpace(AsString(metadata.value, "memory_class"))
        else memoryClass)
    }

    /** What tells sources apart. A chunk without any reference has the reference ":". */
    function Ref(): string {
      var ref := TrimSpace(sourceRef);
      if ref == "" then TrimSpace(sourceType) + ":" + TrimSpace(sourceId) else ref
    }

    /** The score that chunks are ranked by. */
    function Rank(): real {
      if score.Some? then score.value else -1.0
    }
  }

  function AsString(metadata: map<string, Value>, key: string): string {
    if key in metadata && metadata[key].Text? then metadata[key].s else ""
  }

  datatype Hit = Hit(
    sourceRef: string, sourceType: string, sourceId: string, score: Option<real>, memoryClass: MemoryClass,
    initiativeId: Option<string>, taskId: Option<string>, artifactId: Option<string>, summary: string, reason: string)

  function SummaryOf(c: Chunk): string {
    CompactText(c.contentText, DEFAULT_CHUNK_SUMMARY_CHARS)
  }

  function Spaced(s: string): string {
    seq(|s|, i requires 0 <= i < |s| => if s[i] == '_' then ' ' else s[i])
  }

  /** Why a hit was selected; `format` prints a score. */
  function SelectionReason(format: real -> string, class_: MemoryClass, score: Option<real>): string {
    var reason := "selected as " + Spaced(class_.Name()) + " evidence";
    if score.Some? then reason + " (score " + format(score.value) + ")" else reason
  }

  function HitOf(format: real -> string, c: Chunk): Hit {
    Hit(c.Ref(), TrimSpace(c.sourceType), TrimSpace(c.sourceId), c.score, c.Class(),
        c.initiativeId, c.taskId, c.artifactId, SummaryOf(c), SelectionReason(format, c.Class(), c.score))
  }

  function HitsOf(format: real -> string, picked: seq<Chunk>): (hits: seq<Hit>)
    ensures |hits| == |picked|
  {
    if picked == [] then [] else HitsOf(format, picked[..|picked| - 1]) + [HitOf(format, picked[|picked| - 1])]
  }

  /** The explanations that go with the hits. */
  function WhyOf(hits: seq<Hit>): seq<string> {
    seq(|hits|, i requires 0 <= i < |hits| => hits[i].sourceRef + ": " + hits[i].reason)
  }

  /** For each class that is among the hits, the summary of its first hit. */
  function FirstSummaries(picked: seq<Chunk>): map<MemoryClass, string> {
    if picked == [] then map[]
    else
      var before, last := FirstSummaries(picked[..|picked| - 1]), picked[|picked| - 1];
      if last.Class() in before then before else before[last.Class() := SummaryOf(last)]
  }

  // ----- the selection -----

  /** Guardrails are never evidence. */
  const IS_CANDIDATE := (c: Chunk) => c.Class() != NegativeGuardrail

  function Candidates(chunks: seq<Chunk>): seq<Chunk> {
    Sorting.Filter(IS_CANDIDATE, chunks)
  }

  predicate Before(a: Chunk, b: Chunk) {
    if a.Rank() != b.Rank() then a.Rank() > b.Rank()
    else if a.Class().Priority() != b.Class().Priority() then a.Class().Priority() < b.Class().Priority()
    else StringBefore(TrimSpace(a.sourceRef), TrimSpace(b.sourceRef))
  }

  function Ranked(chunks: seq<Chunk>): seq<Chunk> {
    Sorting.StableSort(Before, Candidates(chunks))
  }

  function CountClass(picked: seq<Chunk>, class_: MemoryClass): nat {
    if picked == [] then 0
    else CountClass(picked[..|picked| - 1], class_) + if picked[|picked| - 1].Class() == class_ then 1 else 0
  }

  function Refs(picked: seq<Chunk>): set<string> {
    set c | c in picked :: c.Ref()
  }

  /** There is still room for `c` among the picked. */
  predicate Takes(picked: seq<Chunk>, c: Chunk, limit: nat, perClass: nat) {
    && |picked| < limit && c.Ref() != ":" && c.Ref() !in Refs(picked)
    && CountClass(picked, c.Class()) < perClass
  }

  /** The greedy choice: in the order of the list, everything that there is still room for. */
  function Greedy(ranked: seq<Chunk>, limit: nat, perClass: nat): seq<Chunk> {
    if ranked == [] then []
    else
      var picked, c := Greedy(ranked[..|ranked| - 1], limit, perClass), ranked[|ranked| - 1];
      if Takes(picked, c, limit, perClass) then picked + [c] else picked
  }

  method SelectRetrievalHits(format: real -> string, chunks: seq<Chunk>, maxHits: int, maxPerClass: int)
    returns (hits: seq<Hit>, summaries: map<MemoryClass, string>, why: seq<string>)
    ensures var picked := Greedy(Ranked(chunks), if maxHits <= 0 then 5 else maxHits,
                                 if maxPerClass <= 0 then 2 else maxPerClass);
      hits == HitsOf(format, picked) && summaries == FirstSummaries(picked) && why == WhyOf(hits)
  {
    var limit := if maxHits <= 0 then DEFAULT_PRECEDENT_LIMIT else maxHits;
    var perClassLimit := if maxPerClass <= 0 then DEFAULT_PER_CLASS_LIMIT else maxPerClass;
    var candidates := SelectCandidates(chunks);
    var ranked := Sorting.StableSort(Before, candidates);
    hits, summaries, why := PickGreedily(format, ranked, limit, perClassLimit);
  }

  /** The second loop of `SelectRetrievalHits`. */
  method PickGreedily(format: real -> string, ranked: seq<Chunk>, limit: nat, perClassLimit: nat)
    returns (hits: seq<Hit>, summaries: map<MemoryClass, string>, why: seq<string>)
    requires limit > 0
    ensures hits == HitsOf(format, Greedy(ranked, limit, perClassLimit)) && why == WhyOf(hits)
    ensures summaries == FirstSummaries(Greedy(ranked, limit, perClassLimit))
  {
    var perClass: map<MemoryClass, nat> := map[];
    var seenRefs: set<string> := {};
    ghost var picked: seq<Chunk> := [];
    hits, summaries, why := [], map[], [];
    hide HitsOf, FirstSummaries, Refs, HitOf, SummaryOf, WhyOf;
    hide Greedy, Takes, Chunk.Class, Chunk.Ref, CountClass, Tracks;
    NothingPicked(format, ranked, limit, perClassLimit);
    for i := 0 to |ranked|
      invariant picked == Greedy(ranked[..i], limit, perClassLimit) && |picked| < limit
      invariant Tracks(format, picked, hits, summaries, seenRefs, perClass) && why == WhyOf(hits)
    {
      var item := ranked[i];
      GreedyStep(ranked, i, limit, perClassLimit);
      TakesIff(format, picked, hits, summaries, seenRefs, perClass, item, limit, perClassLimit);
      var class_ := item.Class();
      var sourceRef := item.Ref();
      var count := if class_ in perClass then perClass[class_] else 0;
      if sourceRef == ":" || sourceRef in seenRefs || count >= perClassLimit {
        continue;
      }
      hits, summaries, why, seenRefs, perClass :=
        AddHit(format, item, hits, summaries, why, seenRefs, perClass, picked);
      picked := picked + [item];
      if |hits| >= limit {
        FullStaysFull(ranked, i + 1, limit, perClassLimit);
        return;
      }
    }
    assert ranked[..|ranked|] == ranked;
    TracksMeans(format, picked, hits, summaries, seenRefs, perClass);
  }

  /** The second half of the loop's body: the chunk is picked. */
  method AddHit(format: real -> string, item: Chunk, hits: seq<Hit>, summaries: map<MemoryClass, string>,
                why: seq<string>, seenRefs: set<string>, perClass: map<MemoryClass, nat>, ghost picked: seq<Chunk>)
    returns (hits': seq<Hit>, summaries': map<MemoryClass, string>, why': seq<string>,
             seenRefs': set<string>, perClass': map<MemoryClass, nat>)
    requires Tracks(format, picked, hits, summaries, seenRefs, perClass) && why == WhyOf(hits)
    ensures Tracks(format, picked + [item], hits', summaries', seenRefs', perClass') && why' == WhyOf(hits')
    ensures hits' == HitsOf(format, picked + [item]) && summaries' == FirstSummaries(picked + [item])
  {
    hide HitsOf, FirstSummaries, Refs, HitOf, SummaryOf, WhyOf, Chunk.Class, Chunk.Ref, CountClass, Tracks;
    TracksOneMore(format, picked, hits, summaries, seenRefs, perClass, item);
    WhyOneMore(hits, HitOf(format, item));
    var class_, hit := item.Class(), HitOf(format, item);
    hits' := hits + [hit];
    perClass' := perClass[class_ := (if class_ in perClass then perClass[class_] else 0) + 1];
    seenRefs' := seenRefs + {item.Ref()};
    summaries' := if class_ in summaries then summaries else summaries[class_ := SummaryOf(item)];
    why' := why + [hit.sourceRef + ": " + hit.reason];
    TracksMeans(format, picked + [item], hits', summaries', seenRefs', perClass');
  }

  /** The variables of the loop say what has been picked. */
  ghost predicate Tracks(format: real -> string, picked: seq<Chunk>, hits: seq<Hit>,
                         summaries: map<MemoryClass, string>, seenRefs: set<string>, perClass: map<MemoryClass, nat>)
  {
    && hits == HitsOf(format, picked) && summaries == FirstSummaries(picked) && seenRefs == Refs(picked)
    && forall k :: (if k in perClass then perClass[k] else 0) == CountClass(picked, k)
  }

  lemma NothingPicked(format: real -> string, ranked: seq<Chunk>, limit: nat, perClass: nat)
    ensures Greedy(ranked[..0], limit, perClass) == [] && Tracks(format, [], [], map[], {}, map[]) && WhyOf([]) == []
  {
  }

  lemma TracksMeans(format: real -> string, picked: seq<Chunk>, hits: seq<Hit>, summaries: map<MemoryClass, string>,
                    seenRefs: set<string>, perClass: map<MemoryClass, nat>)
    requires Tracks(format, picked, hits, summaries, seenRefs, perClass)
    ensures hits == HitsOf(format, picked) && summaries == FirstSummaries(picked) && |hits| == |picked|
  {
  }

  lemma TakesIff(format: real -> string, picked: seq<Chunk>, hits: seq<Hit>, summaries: map<MemoryClass, string>,
                 seenRefs: set<string>, perClass: map<MemoryClass, nat>, c: Chunk, limit: nat, perClassLimit: nat)
    requires Tracks(format, picked, hits, summaries, seenRefs, perClass) && |picked| < limit
    ensures Takes(picked, c, limit, perClassLimit) <==>
              && c.Ref() != ":" && c.Ref() !in seenRefs
              && (if c.Class() in perClass then perClass[c.Class()] else 0) < perClassLimit
  {
    hide HitsOf, FirstSummaries, Refs, CountClass, Chunk.Class, Chunk.Ref;
  }

  lemma TracksOneMore(format: real -> string, picked: seq<Chunk>, hits: seq<Hit>, summaries: map<MemoryClass, string>,
                      seenRefs: set<string>, perClass: map<MemoryClass, nat>, c: Chunk)
    requires Tracks(format, picked, hits, summaries, seenRefs, perClass)
    ensures Tracks(format, picked + [c], hits + [HitOf(format, c)],
                   if c.Class() in summaries then summaries else summaries[c.Class() := SummaryOf(c)],
                   seenRefs + {c.Ref()},
                   perClass[c.Class() := (if c.Class() in perClass then perClass[c.Class()] else 0) + 1])
  {
    HitsOneMore(format, picked, c);
    SummariesOneMore(picked, c);
    RefsOneMore(picked, c);
    forall k ensures CountClass(picked + [c], k) == CountClass(picked, k) + if c.Class() == k then 1 else 0 {
      CountOneMore(picked, c, k);
    }
    hide HitsOf, HitOf, SummaryOf, FirstSummaries, Refs, CountClass, Chunk.Class, Chunk.Ref;
  }

  lemma HitsOneMore(format: real -> string, picked: seq<Chunk>, c: Chunk)
    ensures HitsOf(format, picked + [c]) == HitsOf(format, picked) + [HitOf(format, c)]
  {
    hide HitOf;
    assert (picked + [c])[..|picked|] == picked;
  }

  lemma WhyOneMore(hits: seq<Hit>, hit: Hit)
    ensures WhyOf(hits + [hit]) == WhyOf(hits) + [hit.sourceRef + ": " + hit.reason]
  {
  }

  lemma SummariesOneMore(picked: seq<Chunk>, c: Chunk)
    ensures var before := FirstSummaries(picked);
      FirstSummaries(picked + [c]) == if c.Class() in before then before else before[c.Class() := SummaryOf(c)]
  {
    hide SummaryOf, Chunk.Class;
    assert (picked + [c])[..|picked|] == picked;
  }

  lemma CountOneMore(picked: seq<Chunk>, c: Chunk, k: MemoryClass)
    ensures CountClass(picked + [c], k) == CountClass(picked, k) + if c.Class() == k then 1 else 0
  {
    hide Chunk.Class;
    assert (picked + [c])[..|picked|] == picked;
  }

  lemma RefsOneMore(picked: seq<Chunk>, c: Chunk)
    ensures Refs(picked + [c]) == Refs(picked) + {c.Ref()}
  {
    hide Chunk.Ref;
  }

  lemma GreedyStep(ranked: seq<Chunk>, i: nat, limit: nat, perClass: nat)
    requires i < |ranked|
    ensures var picked := Greedy(ranked[..i], limit, perClass);
      Greedy(ranked[..i + 1], limit, perClass) ==
        if Takes(picked, ranked[i], limit, perClass) then picked + [ranked[i]] else picked
  {
    assert ranked[..i + 1][..i] == ranked[..i];
  }

  /** The first loop of `SelectRetrievalHits`. */
  method SelectCandidates(chunks: seq<Chunk>) returns (candidates: seq<Chunk>)
    ensures candidates == Candidates(chunks)
  {
    hide Chunk.Class, Sorting.Filter;
    Sorting.FilterOfAll(IS_CANDIDATE, chunks);
    candidates := [];
    for i := 0 to |chunks|
      invariant candidates == Candidates(chunks[..i])
    {
      Sorting.FilterNext(IS_CANDIDATE, chunks, i);
      if chunks[i].Class() == NegativeGuardrail {
        continue;
      }
      candidates := candidates + [chunks[i]];
    }
  }

  lemma {:induction false} FullStaysFull(ranked: seq<Chunk>, n: nat, limit: nat, perClass: nat)
    requires n <= |ranked| && |Greedy(ranked[..n], limit, perClass)| >= limit
    ensures Greedy(ranked, limit, perClass) == Greedy(ranked[..n], limit, perClass)
  {
    if n == |ranked| {
      assert ranked[..n] == ranked;
    } else {
      var front := ranked[..|ranked| - 1];
      assert front[..n] == ranked[..n];
      FullStaysFull(front, n, limit, perClass);
    }
  }

  // ----- the selection obeys the caps -----

  ghost predicate DistinctRefs(s: seq<Chunk>) {
    forall i, j :: 0 <= i < j < |s| ==> s[i].Ref() != s[j].Ref()
  }

  /** What a selection must obey, in whatever order it is given. */
  ghost predicate Feasible(s: seq<Chunk>, limit: nat, perClass: nat) {
    && |s| <= limit && DistinctRefs(s)
    && (forall c :: c in s ==> c.Ref() != ":")
    && (forall k :: CountClass(s, k) <= perClass)
  }

  /** The greedy choice is made from the list, and obeys the caps. */
  lemma {:induction false} GreedyIsFeasible(ranked: seq<Chunk>, limit: nat, perClass: nat)
    ensures Feasible(Greedy(ranked, limit, perClass), limit, perClass)
    ensures multiset(Greedy(ranked, limit, perClass)) <= multiset(ranked)
  {
    hide Chunk.Ref, Chunk.Class;
    if ranked != [] {
      var front, c := ranked[..|ranked| - 1], ranked[|ranked| - 1];
      GreedyIsFeasible(front, limit, perClass);
      assert ranked == front + [c];
      var picked := Greedy(front, limit, perClass);
      if Takes(picked, c, limit, perClass) {
        FeasibleOneMore(picked, c, limit, perClass);
      }
    }
  }

  lemma FeasibleOneMore(picked: seq<Chunk>, c: Chunk, limit: nat, perClass: nat)
    requires Feasible(picked, limit, perClass) && Takes(picked, c, limit, perClass)
    ensures Feasible(picked + [c], limit, perClass)
  {
    hide Chunk.Ref, Chunk.Class;
    forall i | 0 <= i < |picked| ensures picked[i].Ref() != c.Ref() {
      assert picked[i] in picked;
    }
    forall k ensures CountClass(picked + [c], k) <= perClass {
      CountOneMore(picked, c, k);
    }
  }

  // ----- the selection is best -----

  /** Two chunks that are told apart by their class only. */
  predicate Clash(c: Chunk, d: Chunk) {
    && c.Ref() == d.Ref() != ":" && c.Class() != d.Class()
    && c.Class() != NegativeGuardrail && d.Class() != NegativeGuardrail
  }

  /** The references of a class. */
  function RefsOf(pool: seq<Chunk>, k: MemoryClass): set<string> {
    set c | c in pool && c.Class() == k && c.Ref() != ":" :: c.Ref()
  }

  /** No class that has more references than its cap admits shares one of them with another class. */
  ghost predicate CapsApart(pool: seq<Chunk>, perClass: nat) {
    forall c, d :: c in pool && d in pool && Clash(c, d) ==> |RefsOf(pool, c.Class())| <= perClass
  }

  ghost predicate Stands(pool: seq<Chunk>, c: Chunk) {
    exists d :: d in pool && d.Ref() == c.Ref() && d.Class() == c.Class()
  }

  /** The chunks have references and classes of the pool; their scores and texts may be others. */
  ghost predicate Drawn(chunks: seq<Chunk>, pool: seq<Chunk>) {
    forall c :: c in chunks ==> Stands(pool, c)
  }

  ghost predicate NoGuardrails(chunks: seq<Chunk>) {
    forall c :: c in chunks ==> c.Class() != NegativeGuardrail
  }

  ghost predicate Full(picked: seq<Chunk>, c: Chunk, limit: nat, perClass: nat) {
    |picked| >= limit || c.Ref() == ":" || c.Ref() in Refs(picked) || CountClass(picked, c.Class()) >= perClass
  }

  /** Whatever was not picked could not be added at the end either. */
  lemma {:induction false} GreedyIsSaturated(ranked: seq<Chunk>, limit: nat, perClass: nat, c: Chunk)
    requires c in ranked
    ensures Full(Greedy(ranked, limit, perClass), c, limit, perClass)
  {
    hide Chunk.Ref, Chunk.Class;
    var front, last := ranked[..|ranked| - 1], ranked[|ranked| - 1];
    var picked := Greedy(front, limit, perClass);
    if c in front {
      GreedyIsSaturated(front, limit, perClass, c);
    } else {
      assert c == last;
    }
    RefsOneMore(picked, last);
    CountOneMore(picked, last, c.Class());
  }

  /** The references, and the number, of the chunks of some classes. */
  function OfClasses(s: seq<Chunk>, ks: set<MemoryClass>): set<string> {
    set c | c in s && c.Class() in ks :: c.Ref()
  }

  function CountIn(s: seq<Chunk>, ks: set<MemoryClass>): nat {
    if s == [] then 0 else CountIn(s[..|s| - 1], ks) + if s[|s| - 1].Class() in ks then 1 else 0
  }

  lemma {:induction false} CountInOne(s: seq<Chunk>, k: MemoryClass)
    ensures CountIn(s, {k}) == CountClass(s, k)
  {
    hide Chunk.Class;
    if s != [] {
      CountInOne(s[..|s| - 1], k);
    }
  }

  /** With distinct references, classes have as many references as chunks. */
  lemma {:induction false} ClassesCounted(s: seq<Chunk>, ks: set<MemoryClass>)
    requires DistinctRefs(s)
    ensures |OfClasses(s, ks)| == CountIn(s, ks)
  {
    if s == [] {
      assert OfClasses(s, ks) == {};
    } else {
      var front, last := s[..|s| - 1], s[|s| - 1];
      LastIsDistinct(front, last, s);
      assert last.Ref() !in OfClasses(front, ks);
      hide Chunk.Ref, Chunk.Class, OfClasses, DistinctRefs;
      ClassesCounted(front, ks);
      OfClassesOneMore(front, last, ks);
    }
  }

  lemma LastIsDistinct(front: seq<Chunk>, last: Chunk, s: seq<Chunk>)
    requires s != [] && front == s[..|s| - 1] && last == s[|s| - 1] && DistinctRefs(s)
    ensures s == front + [last] && DistinctRefs(front) && forall c :: c in front ==> c.Ref() != last.Ref()
  {
    hide Chunk.Ref;
    forall c | c in front ensures c.Ref() != last.Ref() {
      var i :| 0 <= i < |front| && front[i] == c;
      assert s[i] == c;
    }
  }

  lemma OfClassesOneMore(front: seq<Chunk>, last: Chunk, ks: set<MemoryClass>)
    requires last.Ref() !in OfClasses(front, ks)
    ensures |OfClasses(front + [last], ks)| == |OfClasses(front, ks)| + if last.Class() in ks then 1 else 0
  {
    hide Chunk.Ref, Chunk.Class;
    var before, after := OfClasses(front, ks), OfClasses(front + [last], ks);
    var added := if last.Class() in ks then {last.Ref()} else {};
    forall r | r in after ensures r in before + added {
      var c :| c in front + [last] && c.Class() in ks && c.Ref() == r;
      assert c in front || c == last;
    }
    forall r | r in before + added ensures r in after {
      if r in before {
        var c :| c in front && c.Class() in ks && c.Ref() == r;
        assert c in front + [last];
      } else {
        assert last in front + [last];
      }
    }
    hide OfClasses;
    assert after == before + added;
  }

  lemma {:induction false} CountInParts(s: seq<Chunk>, a: set<MemoryClass>, b: set<MemoryClass>)
    requires a !! b
    ensures CountIn(s, a + b) == CountIn(s, a) + CountIn(s, b)
    ensures (forall k: MemoryClass :: k in a + b) ==> CountIn(s, a + b) == |s|
  {
    hide Chunk.Class;
    if s != [] {
      CountInParts(s[..|s| - 1], a, b);
    }
  }

  /** What is not larger in any class of some is not larger in them together. */
  lemma {:induction false} NotLargerTogether(s: seq<Chunk>, t: seq<Chunk>, ks: set<MemoryClass>)
    requires forall k :: k in ks ==> CountClass(s, k) <= CountClass(t, k)
    ensures CountIn(s, ks) <= CountIn(t, ks)
    decreases |ks|
  {
    hide Chunk.Class;
    if ks == {} {
      CountInParts(s, {}, {});
      CountInParts(t, {}, {});
      assert {} + {} == ks;
    } else {
      var k :| k in ks;
      var rest := ks - {k};
      hide CountIn, CountClass;
      NotLargerTogether(s, t, rest);
      assert {k} + rest == ks;
      CountInParts(s, {k}, rest);
      CountInParts(t, {k}, rest);
      CountInOne(s, k);
      CountInOne(t, k);
    }
  }

  /** The setting of the next lemmas: `s` is a selection from a list, and the greedy one is not full as a whole. */
  ghost predicate Rival(pool: seq<Chunk>, ranked: seq<Chunk>, limit: nat, perClass: nat, s: seq<Chunk>) {
    && CapsApart(pool, perClass) && Drawn(ranked, pool) && NoGuardrails(ranked)
    && Feasible(s, limit, perClass) && multiset(s) <= multiset(ranked)
  }

  /** What was picked in the place of a chunk is of its class, or both classes are small. */
  lemma PickedInstead(pool: seq<Chunk>, ranked: seq<Chunk>, perClass: nat, c: Chunk, d: Chunk)
    requires CapsApart(pool, perClass) && Drawn(ranked, pool) && NoGuardrails(ranked)
    requires c in ranked && d in ranked && c.Ref() == d.Ref() != ":" && c.Class() != d.Class()
    ensures |RefsOf(pool, c.Class())| <= perClass && |RefsOf(pool, d.Class())| <= perClass
  {
    hide Chunk.Ref, Chunk.Class;
    assert Stands(pool, c) && Stands(pool, d);
    var c' :| c' in pool && c'.Ref() == c.Ref() && c'.Class() == c.Class();
    var d' :| d' in pool && d'.Ref() == d.Ref() && d'.Class() == d.Class();
    assert Clash(c', d') && Clash(d', c');
  }

  /** A class that is full in the selection, and small in the pool, has all its references there. */
  lemma SmallClassIsWhole(pool: seq<Chunk>, ranked: seq<Chunk>, perClass: nat, picked: seq<Chunk>, c: Chunk)
    requires Drawn(ranked, pool) && DistinctRefs(picked) && multiset(picked) <= multiset(ranked)
    requires forall d :: d in picked ==> d.Ref() != ":"
    requires c in ranked && c.Ref() != ":"
    requires |RefsOf(pool, c.Class())| <= perClass <= CountClass(picked, c.Class())
    ensures c.Ref() in OfClasses(picked, {c.Class()})
  {
    var k := c.Class();
    hide Chunk.Ref, Chunk.Class, DistinctRefs;
    ClassesCounted(picked, {k});
    CountInOne(picked, k);
    forall r | r in OfClasses(picked, {k}) ensures r in RefsOf(pool, k) {
      var d :| d in picked && d.Class() == k && d.Ref() == r;
      assert d in multiset(picked) && d in multiset(ranked) && Stands(pool, d);
    }
    SubsetNotLarger(OfClasses(picked, {k}), RefsOf(pool, k));
    assert Stands(pool, c);
  }

  /** The reference of a chunk of another selection was picked, unless its class is large and full. */
  lemma RefWasPicked(pool: seq<Chunk>, ranked: seq<Chunk>, limit: nat, perClass: nat, s: seq<Chunk>, c: Chunk)
    returns (d: Chunk)
    requires Rival(pool, ranked, limit, perClass, s) && |Greedy(ranked, limit, perClass)| < limit && c in s
    requires |RefsOf(pool, c.Class())| <= perClass || CountClass(Greedy(ranked, limit, perClass), c.Class()) < perClass
    ensures d in Greedy(ranked, limit, perClass) && d.Ref() == c.Ref()
    ensures d.Class() == c.Class() ||
            (|RefsOf(pool, c.Class())| <= perClass && |RefsOf(pool, d.Class())| <= perClass)
  {
    var picked := Greedy(ranked, limit, perClass);
    GreedyIsFeasible(ranked, limit, perClass);
    assert c in multiset(s) && c in multiset(ranked);
    GreedyIsSaturated(ranked, limit, perClass, c);
    hide Greedy, Chunk.Ref, Chunk.Class, CountClass, CapsApart, Drawn, NoGuardrails, DistinctRefs, RefsOf;
    if CountClass(picked, c.Class()) >= perClass {
      SmallClassIsWhole(pool, ranked, perClass, picked, c);
    }
    d :| d in picked && d.Ref() == c.Ref();
    assert d in multiset(picked) && d in multiset(ranked);
    if d.Class() != c.Class() {
      PickedInstead(pool, ranked, perClass, c, d);
    }
  }

  function SmallClasses(pool: seq<Chunk>, perClass: nat): set<MemoryClass> {
    set k: MemoryClass | |RefsOf(pool, k)| <= perClass
  }

  /** In each large class the greedy choice is at least as big as any other, unless it is full as a whole. */
  lemma NoLargeClassIsLarger(
    pool: seq<Chunk>, ranked: seq<Chunk>, limit: nat, perClass: nat, s: seq<Chunk>, k: MemoryClass)
    requires Rival(pool, ranked, limit, perClass, s) && |Greedy(ranked, limit, perClass)| < limit
    requires k !in SmallClasses(pool, perClass)
    ensures CountClass(s, k) <= CountClass(Greedy(ranked, limit, perClass), k)
  {
    var picked := Greedy(ranked, limit, perClass);
    if CountClass(picked, k) < perClass {
      GreedyIsFeasible(ranked, limit, perClass);
      ClassesCounted(s, {k});
      ClassesCounted(picked, {k});
      CountInOne(s, k);
      CountInOne(picked, k);
      hide Greedy, Chunk.Ref, Chunk.Class, CountClass, CountIn, CapsApart, Drawn, Feasible;
      forall c | c in s && c.Class() == k ensures c.Ref() in OfClasses(picked, {k}) {
        var d := RefWasPicked(pool, ranked, limit, perClass, s, c);
      }
      SubsetNotLarger(OfClasses(s, {k}), OfClasses(picked, {k}));
    }
  }

  /** ... and so it is in the small classes taken together. */
  lemma SmallClassesAreNotLarger(pool: seq<Chunk>, ranked: seq<Chunk>, limit: nat, perClass: nat, s: seq<Chunk>)
    requires Rival(pool, ranked, limit, perClass, s) && |Greedy(ranked, limit, perClass)| < limit
    ensures var small := SmallClasses(pool, perClass);
      CountIn(s, small) <= CountIn(Greedy(ranked, limit, perClass), small)
  {
    var picked, small := Greedy(ranked, limit, perClass), SmallClasses(pool, perClass);
    GreedyIsFeasible(ranked, limit, perClass);
    ClassesCounted(s, small);
    ClassesCounted(picked, small);
    hide Greedy, Chunk.Ref, Chunk.Class, CountClass, CountIn, CapsApart, Drawn, Feasible;
    forall c | c in s && c.Class() in small ensures c.Ref() in OfClasses(picked, small) {
      var d := RefWasPicked(pool, ranked, limit, perClass, s, c);
    }
    SubsetNotLarger(OfClasses(s, small), OfClasses(picked, small));
  }

  /** No selection that obeys the caps is larger than the greedy one. */
  lemma GreedyIsLargest(pool: seq<Chunk>, ranked: seq<Chunk>, limit: nat, perClass: nat, s: seq<Chunk>)
    requires Rival(pool, ranked, limit, perClass, s)
    ensures |s| <= |Greedy(ranked, limit, perClass)|
  {
    var picked, small := Greedy(ranked, limit, perClass), SmallClasses(pool, perClass);
    if |picked| < limit {
      hide Greedy, CountClass, CountIn, Rival, SmallClasses;
      var large := set k: MemoryClass | k !in small;
      SmallClassesAreNotLarger(pool, ranked, limit, perClass, s);
      forall k | k in large ensures CountClass(s, k) <= CountClass(picked, k) {
        NoLargeClassIsLarger(pool, ranked, limit, perClass, s, k);
      }
      NotLargerTogether(s, picked, large);
      CountInParts(s, small, large);
      CountInParts(picked, small, large);
    } else {
      assert |s| <= limit;
    }
  }

  // ----- ... and of no smaller score -----

  function Total(f: Chunk -> real, s: seq<Chunk>): real {
    if s == [] then 0.0 else f(s[0]) + Total(f, s[1..])
  }

  function Score(s: seq<Chunk>): real {
    Total((c: Chunk) => c.Rank(), s)
  }

  /** One for a chunk that ranks at `sigma` or higher. */
  function AtLeast(sigma: real): Chunk -> real {
    (c: Chunk) => if c.Rank() >= sigma then 1.0 else 0.0
  }

  function Without(s: seq<Chunk>, k: nat): seq<Chunk>
    requires k < |s|
  {
    s[..k] + s[k + 1..]
  }

  lemma {:induction false} TotalWithout(f: Chunk -> real, s: seq<Chunk>, k: nat)
    requires k < |s|
    ensures Total(f, s) == f(s[k]) + Total(f, Without(s, k))
  {
    if k == 0 {
      assert Without(s, 0) == s[1..];
    } else {
      TotalWithout(f, s[1..], k - 1);
      assert Without(s, k)[1..] == Without(s[1..], k - 1) && Without(s, k)[0] == s[0];
    }
  }

  lemma {:induction false} CountIsZero(s: seq<Chunk>, sigma: real)
    requires forall c :: c in s ==> c.Rank() < sigma
    ensures Total(AtLeast(sigma), s) == 0.0
  {
    if s != [] {
      CountIsZero(s[1..], sigma);
    }
  }

  lemma {:induction false} CountIsLength(s: seq<Chunk>, sigma: real)
    requires forall c :: c in s ==> c.Rank() >= sigma
    ensures Total(AtLeast(sigma), s) == |s| as real
  {
    if s != [] {
      CountIsLength(s[1..], sigma);
    }
  }

  lemma {:induction false} CountNonnegative(s: seq<Chunk>, sigma: real)
    ensures Total(AtLeast(sigma), s) >= 0.0
  {
    if s != [] {
      CountNonnegative(s[1..], sigma);
    }
  }

  ghost predicate Descending(s: seq<Chunk>) {
    forall i, j :: 0 <= i < j < |s| ==> s[i].Rank() >= s[j].Rank()
  }

  /** At every score, `a` has at least as many chunks that rank as high. */
  ghost predicate Dominates(a: seq<Chunk>, b: seq<Chunk>) {
    forall sigma: real :: Total(AtLeast(sigma), b) <= Total(AtLeast(sigma), a)
  }

  lemma {:induction false} HighestIndex(s: seq<Chunk>) returns (k: nat)
    requires s != []
    ensures k < |s| && forall c :: c in s ==> c.Rank() <= s[k].Rank()
  {
    if |s| == 1 {
      k := 0;
    } else {
      k := HighestIndex(s[1..]);
      assert s == [s[0]] + s[1..];
      k := if s[0].Rank() > s[1..][k].Rank() then 0 else k + 1;
    }
  }

  /** A descending list that dominates another is at least as long, and its first chunks score at least as high. */
  lemma {:induction false} DominatingScoresHigher(a: seq<Chunk>, b: seq<Chunk>)
    requires Descending(a) && Dominates(a, b)
    ensures |b| <= |a| && Score(b) <= Score(a[..|b|])
    decreases |b|
  {
    hide Chunk.Rank;
    if b != [] {
      var k := HighestIndex(b);
      var top := b[k].Rank();
      FirstRanksHigher(a, b, k);
      var b' := Without(b, k);
      DominatesRest(a, b, k);
      DominatingScoresHigher(a[1..], b');
      TotalWithout((c: Chunk) => c.Rank(), b, k);
      assert a[..|b|][1..] == a[1..][..|b| - 1];
    } else {
      assert a[..0] == [];
    }
  }

  lemma FirstRanksHigher(a: seq<Chunk>, b: seq<Chunk>, k: nat)
    requires Descending(a) && Dominates(a, b) && k < |b|
    ensures a != [] && a[0].Rank() >= b[k].Rank()
  {
    var top := b[k].Rank();
    TotalWithout(AtLeast(top), b, k);
    CountNonnegative(Without(b, k), top);
    assert Total(AtLeast(top), b) >= 1.0;
    if a == [] || a[0].Rank() < top {
      CountIsZero(a, top);
      assert false;
    }
  }

  lemma DominatesRest(a: seq<Chunk>, b: seq<Chunk>, k: nat)
    requires a != [] && Dominates(a, b) && k < |b| && a[0].Rank() >= b[k].Rank()
    requires forall c :: c in b ==> c.Rank() <= b[k].Rank()
    ensures Dominates(a[1..], Without(b, k))
  {
    forall sigma: real ensures Total(AtLeast(sigma), Without(b, k)) <= Total(AtLeast(sigma), a[1..]) {
      if sigma <= b[k].Rank() {
        TotalWithout(AtLeast(sigma), b, k);
      } else {
        forall c | c in Without(b, k) ensures c.Rank() < sigma {
          assert c in b;
        }
        CountIsZero(Without(b, k), sigma);
        CountNonnegative(a[1..], sigma);
      }
    }
  }

  /** The chunks that rank at `sigma` or higher. */
  function High(s: seq<Chunk>, sigma: real): seq<Chunk> {
    Sorting.Filter((c: Chunk) => c.Rank() >= sigma, s)
  }

  lemma HighMembers(s: seq<Chunk>, sigma: real, c: Chunk)
    ensures multiset(High(s, sigma))[c] == if c.Rank() >= sigma then multiset(s)[c] else 0
  {
    Sorting.FilterCounts((c: Chunk) => c.Rank() >= sigma, s, c);
    hide Chunk.Rank, Sorting.Filter;
  }

  lemma {:induction false} HighCounted(s: seq<Chunk>, sigma: real)
    ensures |High(s, sigma)| as real == Total(AtLeast(sigma), s)
  {
    hide Chunk.Rank;
    if s != [] {
      HighCounted(s[..|s| - 1], sigma);
      TotalWithout(AtLeast(sigma), s, |s| - 1);
      assert Without(s, |s| - 1) == s[..|s| - 1];
    }
  }

  lemma {:induction false} HighClasses(s: seq<Chunk>, sigma: real, k: MemoryClass)
    ensures CountClass(High(s, sigma), k) <= CountClass(s, k)
  {
    hide Chunk.Rank, Chunk.Class;
    if s != [] {
      var front, last := s[..|s| - 1], s[|s| - 1];
      HighClasses(front, sigma, k);
      CountOneMore(High(front, sigma), last, k);
      assert High(front, sigma) + [] == High(front, sigma);
    }
  }

  lemma {:induction false} HighDistinct(s: seq<Chunk>, sigma: real)
    requires DistinctRefs(s)
    ensures DistinctRefs(High(s, sigma)) && |High(s, sigma)| <= |s|
    ensures forall c :: c in High(s, sigma) ==> c in s
  {
    hide Chunk.Rank, Chunk.Ref;
    if s != [] {
      var front, last := s[..|s| - 1], s[|s| - 1];
      HighDistinct(front, sigma);
      assert s == front + [last];
      forall c | c in High(front, sigma) ensures c.Ref() != last.Ref() {
        var i :| 0 <= i < |front| && front[i] == c;
        assert s[i] == c;
      }
    }
  }

  /** The high part of a selection is a selection, too. */
  lemma HighPart(s: seq<Chunk>, limit: nat, perClass: nat, sigma: real)
    requires Feasible(s, limit, perClass)
    ensures Feasible(High(s, sigma), limit, perClass)
  {
    HighDistinct(s, sigma);
    hide High, DistinctRefs, Chunk.Ref, CountClass;
    forall k ensures CountClass(High(s, sigma), k) <= perClass {
      HighClasses(s, sigma, k);
    }
  }

  // ----- the best selection -----

  lemma {:induction false} HighPrefix(ranked: seq<Chunk>, sigma: real) returns (n: nat)
    requires Descending(ranked)
    ensures n <= |ranked|
    ensures forall i :: 0 <= i < |ranked| ==> (ranked[i].Rank() >= sigma <==> i < n)
  {
    hide Chunk.Rank;
    if ranked == [] || ranked[|ranked| - 1].Rank() >= sigma {
      n := |ranked|;
    } else {
      n := HighPrefix(ranked[..|ranked| - 1], sigma);
    }
  }

  lemma {:induction false} GreedyGrows(ranked: seq<Chunk>, n: nat, limit: nat, perClass: nat)
    requires n <= |ranked|
    ensures Greedy(ranked[..n], limit, perClass) <= Greedy(ranked, limit, perClass)
  {
    hide Chunk.Class, Chunk.Ref, CountClass;
    if n == |ranked| {
      assert ranked[..n] == ranked;
    } else {
      var front := ranked[..|ranked| - 1];
      assert front[..n] == ranked[..n];
      GreedyGrows(front, n, limit, perClass);
    }
  }

  lemma {:induction false} TotalConcat(f: Chunk -> real, a: seq<Chunk>, b: seq<Chunk>)
    ensures Total(f, a + b) == Total(f, a) + Total(f, b)
  {
    if a == [] {
      assert a + b == b;
    } else {
      TotalConcat(f, a[1..], b);
      assert (a + b)[1..] == a[1..] + b;
    }
  }

  /** What another selection has at `sigma` or higher is in the part of the list that ranks as high. */
  lemma HighPartInPrefix(ranked: seq<Chunk>, n: nat, s: seq<Chunk>, sigma: real)
    requires n <= |ranked| && multiset(s) <= multiset(ranked)
    requires forall i :: 0 <= i < |ranked| ==> (ranked[i].Rank() >= sigma <==> i < n)
    ensures multiset(High(s, sigma)) <= multiset(ranked[..n])
  {
    hide Chunk.Rank, High;
    assert ranked == ranked[..n] + ranked[n..];
    forall c | c in ranked[n..] ensures c.Rank() < sigma {
      var i :| 0 <= i < |ranked| - n && ranked[n..][i] == c;
      assert ranked[n + i] == c;
    }
    forall c ensures multiset(High(s, sigma))[c] <= multiset(ranked[..n])[c] {
      HighMembers(s, sigma, c);
      assert c !in ranked[n..] ==> multiset(ranked[n..])[c] == 0;
    }
  }

  lemma GreedyDominatesAt(pool: seq<Chunk>, ranked: seq<Chunk>, limit: nat, perClass: nat, s: seq<Chunk>, sigma: real)
    requires Descending(ranked) && Rival(pool, ranked, limit, perClass, s)
    ensures Total(AtLeast(sigma), s) <= Total(AtLeast(sigma), Greedy(ranked, limit, perClass))
  {
    var n := HighPrefix(ranked, sigma);
    var prefix, picked := ranked[..n], Greedy(ranked, limit, perClass);
    var first := Greedy(prefix, limit, perClass);
    HighPart(s, limit, perClass, sigma);
    HighPartInPrefix(ranked, n, s, sigma);
    GreedyIsFeasible(prefix, limit, perClass);
    assert Rival(pool, prefix, limit, perClass, High(s, sigma)) by {
      hide Greedy, Feasible, CapsApart, High, Chunk.Rank, Stands, Chunk.Class, Chunk.Ref;
    }
    hide Greedy, Feasible, Rival, High, Chunk.Rank;
    GreedyIsLargest(pool, prefix, limit, perClass, High(s, sigma));
    HighCounted(s, sigma);
    GreedyGrows(ranked, n, limit, perClass);
    HighMeansCounted(prefix, first, picked, sigma);
  }

  /** A list that starts with chunks of the high part counts at least those. */
  lemma HighMeansCounted(prefix: seq<Chunk>, first: seq<Chunk>, picked: seq<Chunk>, sigma: real)
    requires forall i :: 0 <= i < |prefix| ==> prefix[i].Rank() >= sigma
    requires multiset(first) <= multiset(prefix) && first <= picked
    ensures |first| as real <= Total(AtLeast(sigma), picked)
  {
    hide Chunk.Rank;
    forall c | c in first ensures c.Rank() >= sigma {
      assert c in multiset(first) && c in multiset(prefix);
      var i :| 0 <= i < |prefix| && prefix[i] == c;
    }
    CountIsLength(first, sigma);
    assert picked == first + picked[|first|..];
    TotalConcat(AtLeast(sigma), first, picked[|first|..]);
    CountNonnegative(picked[|first|..], sigma);
  }

  lemma {:induction false} GreedyDescends(ranked: seq<Chunk>, limit: nat, perClass: nat)
    requires Descending(ranked)
    ensures Descending(Greedy(ranked, limit, perClass))
  {
    hide Chunk.Rank, Chunk.Class, Chunk.Ref, CountClass;
    if ranked != [] {
      var front, last := ranked[..|ranked| - 1], ranked[|ranked| - 1];
      var picked := Greedy(front, limit, perClass);
      GreedyDescends(front, limit, perClass);
      GreedyIsFeasible(front, limit, perClass);
      forall i | 0 <= i < |picked| ensures picked[i].Rank() >= last.Rank() {
        assert picked[i] in multiset(picked) && picked[i] in multiset(front);
        var j :| 0 <= j < |front| && front[j] == picked[i];
        assert ranked[j] == front[j];
      }
    }
  }

  /** Of a list in descending order, the greedy choice is at least as large as any selection that obeys
      the caps, and its first chunks score at least as high as any selection of their number. */
  lemma GreedyIsOptimal(pool: seq<Chunk>, ranked: seq<Chunk>, limit: nat, perClass: nat, s: seq<Chunk>)
    requires Descending(ranked) && Rival(pool, ranked, limit, perClass, s)
    ensures var picked := Greedy(ranked, limit, perClass);
      |s| <= |picked| && Score(s) <= Score(picked[..|s|])
  {
    var picked := Greedy(ranked, limit, perClass);
    forall sigma: real ensures Total(AtLeast(sigma), s) <= Total(AtLeast(sigma), picked) {
      GreedyDominatesAt(pool, ranked, limit, perClass, s, sigma);
    }
    GreedyDescends(ranked, limit, perClass);
    hide Greedy, Rival;
    DominatingScoresHigher(picked, s);
  }

  lemma BeforeIsStrictWeakOrder()
    ensures Sorting.StrictWeakOrder(Before)
  {
    hide Chunk.Rank, Chunk.Class, MemoryClass.Priority, TrimSpace;
    forall x, y, z | Before(x, y) && Before(y, z) ensures Before(x, z) {
      BeforeTransitive(x, y, z);
    }
    forall x, y, z | !Before(x, y) && !Before(y, z) ensures !Before(x, z) {
      NotBeforeTransitive(x, y, z);
    }
    forall x ensures !Before(x, x) {
      NothingBeforeItself(TrimSpace(x.sourceRef));
    }
  }

  lemma BeforeTransitive(x: Chunk, y: Chunk, z: Chunk)
    requires Before(x, y) && Before(y, z)
    ensures Before(x, z)
  {
    hide Chunk.Rank, Chunk.Class, MemoryClass.Priority, TrimSpace, StringBefore;
    var a, b, c := TrimSpace(x.sourceRef), TrimSpace(y.sourceRef), TrimSpace(z.sourceRef);
    if StringBefore(a, b) && StringBefore(b, c) {
      StringsTransitive(a, b, c);
    }
  }

  lemma NotBeforeTransitive(x: Chunk, y: Chunk, z: Chunk)
    requires !Before(x, y) && !Before(y, z)
    ensures !Before(x, z)
  {
    hide Chunk.Rank, Chunk.Class, MemoryClass.Priority, TrimSpace, StringBefore;
    var a, b, c := TrimSpace(x.sourceRef), TrimSpace(y.sourceRef), TrimSpace(z.sourceRef);
    StringsConnected(a, b);
    StringsConnected(b, c);
    StringsAsymmetric(a, c);
    if StringBefore(b, a) && StringBefore(c, b) {
      StringsTransitive(c, b, a);
    }
    if StringBefore(a, c) && StringBefore(b, a) {
      StringsTransitive(b, a, c);
    }
    if StringBefore(a, c) && StringBefore(c, b) {
      StringsTransitive(a, c, b);
    }
  }

  lemma CandidatesAreTheRest(chunks: seq<Chunk>, c: Chunk)
    ensures multiset(Candidates(chunks))[c] == if c.Class() == NegativeGuardrail then 0 else multiset(chunks)[c]
  {
    Sorting.FilterCounts(IS_CANDIDATE, chunks, c);
    hide Chunk.Class, Sorting.Filter;
  }

  /** The ranking holds the chunks that are no guardrails, by descending score. */
  lemma RankedDescends(chunks: seq<Chunk>)
    ensures Descending(Ranked(chunks)) && multiset(Ranked(chunks)) == multiset(Candidates(chunks))
  {
    BeforeIsStrictWeakOrder();
    Sorting.StableSortSorts(Before, Candidates(chunks));
    var ranked := Ranked(chunks);
    hide Ranked, Candidates, Chunk.Rank, Chunk.Class;
    forall i, j | 0 <= i < j < |ranked| ensures ranked[i].Rank() >= ranked[j].Rank() {
      assert !Before(ranked[j], ranked[i]);
    }
  }

  /** A selection that `SelectRetrievalHits` could make of the chunks: it obeys both caps, has distinct
      references and no guardrail. */
  ghost predicate Selectable(chunks: seq<Chunk>, limit: nat, perClass: nat, s: seq<Chunk>) {
    Feasible(s, limit, perClass) && multiset(s) <= multiset(chunks) && NoGuardrails(s)
  }

  /** When the caps are apart in the pool that the chunks are drawn from (as when chunks with the same
      reference are of the same class), no other selection is larger than the hits, or scores higher than
      as many of the first hits. */
  lemma SelectionIsOptimal(pool: seq<Chunk>, chunks: seq<Chunk>, limit: nat, perClass: nat, s: seq<Chunk>)
    requires CapsApart(pool, perClass) && Drawn(chunks, pool) && Selectable(chunks, limit, perClass, s)
    ensures var picked := Greedy(Ranked(chunks), limit, perClass);
      |s| <= |picked| && Score(s) <= Score(picked[..|s|])
  {
    RankedDescends(chunks);
    RankedIsRival(pool, chunks, limit, perClass, s);
    GreedyIsOptimal(pool, Ranked(chunks), limit, perClass, s);
  }

  lemma CountInRanked(chunks: seq<Chunk>, s: seq<Chunk>, c: Chunk)
    requires multiset(s) <= multiset(chunks) && NoGuardrails(s)
    ensures multiset(Ranked(chunks))[c] <= multiset(chunks)[c] && multiset(s)[c] <= multiset(Ranked(chunks))[c]
    ensures c in Ranked(chunks) ==> c.Class() != NegativeGuardrail
  {
    RankedDescends(chunks);
    CandidatesAreTheRest(chunks, c);
    hide Ranked, Candidates, Chunk.Class;
    assert c !in s ==> multiset(s)[c] == 0;
    assert c in Ranked(chunks) ==> c in multiset(Ranked(chunks));
  }

  lemma RankedIsRival(pool: seq<Chunk>, chunks: seq<Chunk>, limit: nat, perClass: nat, s: seq<Chunk>)
    requires CapsApart(pool, perClass) && Drawn(chunks, pool) && Selectable(chunks, limit, perClass, s)
    ensures Rival(pool, Ranked(chunks), limit, perClass, s)
  {
    var ranked := Ranked(chunks);
    hide CapsApart, Feasible, Stands;
    forall c { CountInRanked(chunks, s, c); }
    hide Ranked, Chunk.Class;
    forall c | c in ranked ensures c in chunks {
      assert multiset(ranked)[c] > 0;
      assert c in multiset(chunks);
    }
  }

  lemma SelectionIsFeasible(chunks: seq<Chunk>, limit: nat, perClass: nat)
    ensures var picked := Greedy(Ranked(chunks), limit, perClass);
      && Feasible(picked, limit, perClass) && multiset(picked) <= multiset(chunks)
      && forall c :: c in picked ==> c.Class() != NegativeGuardrail
  {
    var picked := Greedy(Ranked(chunks), limit, perClass);
    RankedDescends(chunks);
    GreedyIsFeasible(Ranked(chunks), limit, perClass);
    hide Ranked, Candidates, Feasible, Greedy, Chunk.Class;
    forall c ensures multiset(picked)[c] <= multiset(chunks)[c] && (c in picked ==> c.Class() != NegativeGuardrail) {
      CandidatesAreTheRest(chunks, c);
      assert c in picked ==> c in multiset(picked);
    }
  }

  // ----- when greed is best -----

  /** With this cap for each class, whatever chunks of the pool there are, however they score, and
      whatever the limit: no selection is larger than the hits. */
  ghost predicate AlwaysLargest(pool: seq<Chunk>, perClass: nat) {
    forall chunks: seq<Chunk>, limit: nat, s: seq<Chunk> ::
      Drawn(chunks, pool) && Selectable(chunks, limit, perClass, s) ==>
        |s| <= |Greedy(Ranked(chunks), limit, perClass)|
  }

  /** ... nor scores higher than as many of the first hits. */
  ghost predicate AlwaysBest(pool: seq<Chunk>, perClass: nat) {
    forall chunks: seq<Chunk>, limit: nat, s: seq<Chunk> ::
      Drawn(chunks, pool) && Selectable(chunks, limit, perClass, s) ==>
        var picked := Greedy(Ranked(chunks), limit, perClass);
        |s| <= |picked| && Score(s) <= Score(picked[..|s|])
  }

  /** The hits are always the largest selection, and always the best, if and only if no class with more
      references than its cap admits shares one of them with another class. */
  lemma GreedIsBestIff(pool: seq<Chunk>, perClass: nat)
    requires perClass >= 1
    ensures AlwaysLargest(pool, perClass) <==> CapsApart(pool, perClass)
    ensures AlwaysBest(pool, perClass) <==> CapsApart(pool, perClass)
  {
    if CapsApart(pool, perClass) {
      forall chunks: seq<Chunk>, limit: nat, s: seq<Chunk>
        | Drawn(chunks, pool) && Selectable(chunks, limit, perClass, s)
        ensures var picked := Greedy(Ranked(chunks), limit, perClass);
          |s| <= |picked| && Score(s) <= Score(picked[..|s|])
      {
        SelectionIsOptimal(pool, chunks, limit, perClass, s);
      }
    } else {
      var c, d :| c in pool && d in pool && Clash(c, d) && |RefsOf(pool, c.Class())| > perClass;
      var chunks, s := GreedCanLose(pool, perClass, c, d);
    }
  }

  /** `count` chunks of a class with different ones of some references. */
  lemma {:induction false} OthersOfClass(pool: seq<Chunk>, k: MemoryClass, refs: set<string>, count: nat)
    returns (others: seq<Chunk>)
    requires refs <= RefsOf(pool, k) && count <= |refs|
    ensures |others| == count && DistinctRefs(others)
    ensures forall c :: c in others ==> c in pool && c.Class() == k && c.Ref() in refs && c.Ref() != ":"
    decreases count
  {
    if count == 0 {
      others := [];
      NoneDistinct();
    } else {
      hide Chunk.Ref, Chunk.Class;
      var r :| r in refs;
      assert r in RefsOf(pool, k);
      var c :| c in pool && c.Class() == k && c.Ref() == r && r != ":";
      hide RefsOf, DistinctRefs;
      var rest := OthersOfClass(pool, k, refs - {r}, count - 1);
      others := rest + [c];
      OneDistinctMore(rest, c);
    }
  }

  lemma NoneDistinct()
    ensures DistinctRefs([])
  {
  }

  lemma OneDistinctMore(rest: seq<Chunk>, c: Chunk)
    requires DistinctRefs(rest) && forall d :: d in rest ==> d.Ref() != c.Ref()
    ensures DistinctRefs(rest + [c])
  {
    hide Chunk.Ref;
    forall i | 0 <= i < |rest| ensures rest[i].Ref() != c.Ref() {
      assert rest[i] in rest;
    }
  }

  function Scored(c: Chunk, place: nat): Chunk {
    c.(score := Some(-(place as real)))
  }

  /** The same chunks, with scores that rank them in their order, from some place on. */
  function Rescored(chunks: seq<Chunk>, place: nat): (r: seq<Chunk>)
    ensures |r| == |chunks|
  {
    seq(|chunks|, i requires 0 <= i < |chunks| => Scored(chunks[i], place + i))
  }

  lemma ScoredMeans(c: Chunk, place: nat)
    ensures Scored(c, place).Ref() == c.Ref() && Scored(c, place).Class() == c.Class()
    ensures Scored(c, place).Rank() == -(place as real)
  {
  }

  lemma {:induction false} CandidatesAreAll(chunks: seq<Chunk>)
    requires NoGuardrails(chunks)
    ensures Candidates(chunks) == chunks
  {
    hide Chunk.Class;
    if chunks != [] {
      var front, last := chunks[..|chunks| - 1], chunks[|chunks| - 1];
      assert last in chunks && chunks == front + [last];
      assert Candidates(chunks) == Candidates(front) + [last];
      hide Candidates;
      CandidatesAreAll(front);
    }
  }

  /** A list that scores strictly less from chunk to chunk is ranked already. */
  lemma RankedAlready(chunks: seq<Chunk>)
    requires NoGuardrails(chunks) && forall i, j :: 0 <= i < j < |chunks| ==> chunks[i].Rank() > chunks[j].Rank()
    ensures Ranked(chunks) == chunks
  {
    hide Chunk.Rank, Chunk.Class;
    CandidatesAreAll(chunks);
    Sorting.SortedStays(Before, chunks);
  }

  lemma RescoredIsRanked(chunks: seq<Chunk>)
    requires NoGuardrails(chunks)
    ensures Ranked(Rescored(chunks, 0)) == Rescored(chunks, 0)
  {
    var rescored := Rescored(chunks, 0);
    forall i | 0 <= i < |chunks|
      ensures rescored[i].Class() != NegativeGuardrail && rescored[i].Rank() == -(i as real)
    {
      ScoredMeans(chunks[i], i);
      assert chunks[i] in chunks;
    }
    hide Chunk.Rank, Chunk.Class, Rescored, Ranked;
    RankedAlready(rescored);
  }

  /** A chunk, `perClass` others of its class, and one of another class with its reference. */
  ghost predicate Trap(a: Chunk, others: seq<Chunk>, b: Chunk, perClass: nat) {
    && |others| == perClass >= 1
    && Clash(a, b) && DistinctRefs(others)
    && forall o :: o in others ==> o.Class() == a.Class() && o.Ref() != a.Ref() && o.Ref() != ":"
  }

  function TrapList(a: Chunk, others: seq<Chunk>, b: Chunk): seq<Chunk> {
    [a] + (others + [b])
  }

  /** A chunk that clashes with one of a large class has its turn last, after that one has taken its
      reference, and with it a place of the class that another of the class could have had. */
  lemma GreedCanLose(pool: seq<Chunk>, perClass: nat, a: Chunk, b: Chunk) returns (chunks: seq<Chunk>, s: seq<Chunk>)
    requires perClass >= 1 && a in pool && b in pool && Clash(a, b) && |RefsOf(pool, a.Class())| > perClass
    ensures Drawn(chunks, pool) && Selectable(chunks, perClass + 1, perClass, s)
    ensures |Greedy(Ranked(chunks), perClass + 1, perClass)| < |s|
  {
    var refs := RefsOf(pool, a.Class()) - {a.Ref()};
    var others := OthersOfClass(pool, a.Class(), refs, perClass);
    var base := TrapList(a, others, b);
    assert Trap(a, others, b, perClass) by {
      hide Chunk.Class, Chunk.Ref, DistinctRefs;
    }
    hide Trap, RefsOf, Clash, Greedy, Ranked, Selectable, Chunk.Class, Chunk.Ref;
    chunks := Rescored(base, 0);
    RescoredIsDrawn(base, pool);
    TrapHasNoGuardrails(a, others, b, perClass);
    RescoredIsRanked(base);
    var a', others', b' := RescoredTrap(a, others, b, perClass);
    s := others' + [b'];
    TrapIsSelectable(a', others', b', perClass);
    TrapCatchesGreed(a', others', b', perClass);
  }

  lemma RescoredTrap(a: Chunk, others: seq<Chunk>, b: Chunk, perClass: nat)
    returns (a': Chunk, others': seq<Chunk>, b': Chunk)
    requires Trap(a, others, b, perClass)
    ensures Trap(a', others', b', perClass) && Rescored(TrapList(a, others, b), 0) == TrapList(a', others', b')
  {
    hide Rescored, Scored, Chunk.Ref, Chunk.Class, TrapList, DistinctRefs;
    a', others', b' := Scored(a, 0), Rescored(others, 1), Scored(b, perClass + 1);
    RescoredList(a, others, b);
    ScoredMeans(a, 0);
    ScoredMeans(b, perClass + 1);
    RescoredMeans(others, 1);
    OthersAlike(a, others, a', others');
  }

  lemma RescoredMeans(chunks: seq<Chunk>, place: nat)
    ensures forall i :: 0 <= i < |chunks| ==>
              && Rescored(chunks, place)[i].Ref() == chunks[i].Ref()
              && Rescored(chunks, place)[i].Class() == chunks[i].Class()
  {
    forall i | 0 <= i < |chunks|
      ensures Rescored(chunks, place)[i].Ref() == chunks[i].Ref()
      ensures Rescored(chunks, place)[i].Class() == chunks[i].Class()
    {
      ScoredMeans(chunks[i], place + i);
    }
  }

  lemma RescoredList(a: Chunk, others: seq<Chunk>, b: Chunk)
    ensures Rescored(TrapList(a, others, b), 0) == TrapList(Scored(a, 0), Rescored(others, 1), Scored(b, |others| + 1))
  {
    hide Scored;
  }

  lemma OthersAlike(a: Chunk, others: seq<Chunk>, a': Chunk, others': seq<Chunk>)
    requires a'.Ref() == a.Ref() && a'.Class() == a.Class() && |others'| == |others| && DistinctRefs(others)
    requires forall i :: 0 <= i < |others| ==>
               others'[i].Ref() == others[i].Ref() && others'[i].Class() == others[i].Class()
    requires forall o :: o in others ==> o.Class() == a.Class() && o.Ref() != a.Ref() && o.Ref() != ":"
    ensures DistinctRefs(others')
    ensures forall o :: o in others' ==> o.Class() == a'.Class() && o.Ref() != a'.Ref() && o.Ref() != ":"
  {
    hide Chunk.Ref, Chunk.Class;
    forall o | o in others' ensures o.Class() == a'.Class() && o.Ref() != a'.Ref() && o.Ref() != ":" {
      var i :| 0 <= i < |others'| && others'[i] == o;
      assert others[i] in others;
    }
    forall i, j | 0 <= i < j < |others'| ensures others'[i].Ref() != others'[j].Ref() {
      assert others[i].Ref() != others[j].Ref();
    }
  }

  lemma TrapHasNoGuardrails(a: Chunk, others: seq<Chunk>, b: Chunk, perClass: nat)
    requires Trap(a, others, b, perClass)
    ensures NoGuardrails(TrapList(a, others, b))
  {
    hide Chunk.Ref, Chunk.Class, DistinctRefs;
  }

  lemma RescoredIsDrawn(base: seq<Chunk>, pool: seq<Chunk>)
    requires forall b :: b in base ==> b in pool
    ensures Drawn(Rescored(base, 0), pool)
  {
    forall e | e in Rescored(base, 0) ensures Stands(pool, e) {
      var i :| 0 <= i < |base| && Rescored(base, 0)[i] == e;
      ScoredMeans(base[i], i);
      assert base[i] in base;
    }
  }

  lemma {:induction false} CountAtMostAll(s: seq<Chunk>, k: MemoryClass)
    ensures CountClass(s, k) <= |s|
    ensures (forall c :: c in s ==> c.Class() == k) ==> CountClass(s, k) == |s|
    ensures (forall c :: c in s ==> c.Class() != k) ==> CountClass(s, k) == 0
  {
    hide Chunk.Class;
    if s != [] {
      var front, last := s[..|s| - 1], s[|s| - 1];
      FrontAndLast(s);
      assert CountClass(s, k) == CountClass(front, k) + if last.Class() == k then 1 else 0;
      hide CountClass;
      CountAtMostAll(front, k);
    }
  }

  lemma TrapIsSelectable(a: Chunk, others: seq<Chunk>, b: Chunk, perClass: nat)
    requires Trap(a, others, b, perClass)
    ensures Selectable(TrapList(a, others, b), perClass + 1, perClass, others + [b])
  {
    hide Chunk.Class, Chunk.Ref, DistinctRefs, CountClass;
    forall k ensures CountClass(others, k) <= perClass {
      CountAtMostAll(others, k);
    }
    CountAtMostAll(others, b.Class());
    assert Takes(others, b, perClass + 1, perClass);
    FeasibleOneMore(others, b, perClass + 1, perClass);
    TrapHasNoGuardrails(a, others, b, perClass);
  }

  lemma SameRefSame(s: seq<Chunk>, c: Chunk, d: Chunk)
    requires DistinctRefs(s) && c in s && d in s && c.Ref() == d.Ref()
    ensures c == d
  {
    hide Chunk.Ref;
    var i :| 0 <= i < |s| && s[i] == c;
    var j :| 0 <= j < |s| && s[j] == d;
  }

  lemma TrapCatchesGreed(a: Chunk, others: seq<Chunk>, b: Chunk, perClass: nat)
    requires Trap(a, others, b, perClass)
    ensures |Greedy(TrapList(a, others, b), perClass + 1, perClass)| <= perClass
  {
    hide Greedy, Chunk.Class, Chunk.Ref, DistinctRefs, CountClass;
    var chunks := TrapList(a, others, b);
    var picked := Greedy(chunks, perClass + 1, perClass);
    GreedyIsFeasible(chunks, perClass + 1, perClass);
    GreedyGrows(chunks, 1, perClass + 1, perClass);
    FirstIsPicked(a, perClass);
    assert Greedy(chunks[..1], perClass + 1, perClass) == Greedy([a], perClass + 1, perClass) by {
      assert chunks[..1] == [a];
    }
    assert picked[0] == a && CountClass(picked, a.Class()) <= perClass;
    forall e | e in picked ensures e.Class() == a.Class() {
      PickedIsOfClass(a, others, b, perClass, picked, e);
    }
    CountAtMostAll(picked, a.Class());
  }

  lemma PickedIsOfClass(a: Chunk, others: seq<Chunk>, b: Chunk, perClass: nat, picked: seq<Chunk>, e: Chunk)
    requires Trap(a, others, b, perClass) && DistinctRefs(picked)
    requires multiset(picked) <= multiset(TrapList(a, others, b)) && a in picked && e in picked
    ensures e.Class() == a.Class()
  {
    hide Chunk.Class, Chunk.Ref, DistinctRefs;
    assert e in multiset(picked) && e in multiset(TrapList(a, others, b));
    if e == b {
      SameRefSame(picked, a, b);
    }
  }

  lemma FirstIsPicked(c: Chunk, perClass: nat)
    requires perClass >= 1 && c.Ref() != ":"
    ensures Greedy([c], perClass + 1, perClass) == [c]
  {
    hide Chunk.Class, Chunk.Ref;
    assert [c][..0] == [];
  }

  /** A chunk that says nothing but its reference, score and class. */
  function Bare(ref: string, score: real, class_: MemoryClass): (c: Chunk) {
    Chunk(ref, "", "", "", Some(score), class_.Name(), None, None, None, None)
  }

  lemma BareMeans(r: char, score: real, class_: MemoryClass)
    requires !IsSpace(r) && (class_ == RecentExecution || class_ == PlanningContext)
    ensures var c := Bare([r], score, class_); c.Ref() == [r] && c.Class() == class_ && c.Rank() == score
  {
    hide IsSpace;
    assert TrimLeft([r]) == [r] && TrimRight([r]) == [r];
    NameIsTrimmed(class_);
  }

  lemma NameIsTrimmed(class_: MemoryClass)
    ensures TrimSpace(class_.Name()) == class_.Name()
  {
    var name := class_.Name();
    assert !IsSpace(name[0]) && !IsSpace(name[|name| - 1]);
  }

  /** Three chunks of which two share a reference: two of them could be hits, but one is. */
  lemma SharedRefsCanMakeGreedSmaller() returns (chunks: seq<Chunk>, s: seq<Chunk>)
    ensures !CapsApart(chunks, 1) && Selectable(chunks, 5, 1, s) && |s| == 2
    ensures |Greedy(Ranked(chunks), 5, 1)| == 1
  {
    hide Bare, Chunk.Class, Chunk.Ref, Chunk.Rank, Greedy, TrimSpace, Ranked, Trap, Selectable, CapsApart;
    var a, b, c := Bare("r", 3.0, RecentExecution), Bare("r", 1.0, PlanningContext), Bare("s", 2.0, RecentExecution);
    BareMeans('r', 3.0, RecentExecution);
    BareMeans('r', 1.0, PlanningContext);
    BareMeans('s', 2.0, RecentExecution);
    chunks, s := [a, c, b], [c, b];
    ThreeAreTrap(a, c, b);
    assert chunks == TrapList(a, [c], b) && s == [c] + [b];
    TrapIsSelectable(a, [c], b, 1);
    LimitMayBeLarger(chunks, s);
    RankedAlready(chunks);
    GreedyIsStuck(a, c, b);
    ThreeClash(a, c, b);
  }

  lemma ThreeAreTrap(a: Chunk, c: Chunk, b: Chunk)
    requires a.Class() == c.Class() != b.Class() && a.Ref() == b.Ref() != c.Ref() && a.Ref() != ":" && c.Ref() != ":"
    requires a.Class() != NegativeGuardrail && b.Class() != NegativeGuardrail
    ensures Trap(a, [c], b, 1) && NoGuardrails([a, c, b])
  {
    hide Chunk.Class, Chunk.Ref;
  }

  lemma LimitMayBeLarger(chunks: seq<Chunk>, s: seq<Chunk>)
    requires Selectable(chunks, 2, 1, s)
    ensures Selectable(chunks, 5, 1, s)
  {
    hide Chunk.Class, Chunk.Ref, CountClass;
  }

  lemma ThreeClash(a: Chunk, c: Chunk, b: Chunk)
    requires a.Class() == c.Class() != b.Class() && a.Ref() == b.Ref() != c.Ref() && a.Ref() != ":" && c.Ref() != ":"
    requires a.Class() != NegativeGuardrail && b.Class() != NegativeGuardrail
    ensures !CapsApart([a, c, b], 1)
  {
    hide Chunk.Class, Chunk.Ref;
    var chunks := [a, c, b];
    assert a in chunks && c in chunks && b in chunks && Clash(a, b);
    assert a.Ref() in RefsOf(chunks, a.Class()) && c.Ref() in RefsOf(chunks, a.Class());
    SubsetNotLarger({a.Ref(), c.Ref()}, RefsOf(chunks, a.Class()));
  }

  lemma GreedyIsStuck(a: Chunk, c: Chunk, b: Chunk)
    requires a.Ref() == b.Ref() && a.Class() == c.Class() && a.Ref() != ":"
    ensures Greedy([a, c, b], 5, 1) == [a]
  {
    hide Chunk.Class, Chunk.Ref;
    assert [a, c, b][..2] == [a, c] && [a, c][..1] == [a] && [a][..0] == [];
    assert Greedy([a], 5, 1) == [a];
    assert a in [a];
    assert CountClass([a], c.Class()) == 1;
  }

  // ----- the hits in the terms of the chunks -----

  /** The texts that stand for classes; every other text stands for the repository's own. */
  lemma ClassesByName(raw: string)
    ensures NormalizeMemoryClass(raw) == TechnologySimilar <==> TrimSpace(raw) == "technology_similar"
    ensures NormalizeMemoryClass(raw) == PatternSimilar <==> TrimSpace(raw) == "pattern_similar"
    ensures NormalizeMemoryClass(raw) == NegativeGuardrail <==> TrimSpace(raw) == "negative_guardrail"
    ensures NormalizeMemoryClass(raw) == RecentExecution <==> TrimSpace(raw) == "recent_execution"
    ensures NormalizeMemoryClass(raw) == PlanningContext <==> TrimSpace(raw) == "planning_context"
  {
    hide TrimSpace;
  }

  /** Each class is read back from its name. */
  lemma NamesReadBack(k: MemoryClass)
    ensures NormalizeMemoryClass(k.Name()) == k
  {
    NameIsTrimmed(k);
    hide TrimSpace;
  }

  /** The class that a chunk names: in its field or, when that is empty, in its metadata. */
  ghost predicate Says(c: Chunk, name: string) {
    if c.memoryClass != "" then TrimSpace(c.memoryClass) == name
    else
      && c.metadata.Some? && "memory_class" in c.metadata.value && c.metadata.value["memory_class"].Text?
      && TrimSpace(c.metadata.value["memory_class"].s) == name
  }

  lemma EmptyIsTrimmed()
    ensures TrimSpace("") == ""
  {
  }

  lemma ClassIsSaid(c: Chunk)
    ensures c.Class() == TechnologySimilar <==> Says(c, "technology_similar")
    ensures c.Class() == PatternSimilar <==> Says(c, "pattern_similar")
    ensures c.Class() == NegativeGuardrail <==> Says(c, "negative_guardrail")
    ensures c.Class() == RecentExecution <==> Says(c, "recent_execution")
    ensures c.Class() == PlanningContext <==> Says(c, "planning_context")
  {
    EmptyIsTrimmed();
    if c.memoryClass != "" {
      ClassesByName(c.memoryClass);
    } else if c.metadata.Some? {
      var text := AsString(c.metadata.value, "memory_class");
      TrimmedIsTrimmed(text);
      ClassesByName(TrimSpace(text));
    } else {
      ClassesByName("");
    }
    hide TrimSpace, NormalizeMemoryClass;
  }

  /** A guardrail is never a hit, and whatever is none is one unless there is no room for it. */
  lemma GuardrailIsNeverPicked(chunks: seq<Chunk>, limit: nat, perClass: nat, c: Chunk)
    ensures var picked := Greedy(Ranked(chunks), limit, perClass);
      && (Says(c, "negative_guardrail") ==> c !in picked)
      && (c in chunks && !Says(c, "negative_guardrail") ==> Full(picked, c, limit, perClass))
  {
    var ranked := Ranked(chunks);
    ClassIsSaid(c);
    RankedDescends(chunks);
    CandidatesAreTheRest(chunks, c);
    GreedyIsFeasible(ranked, limit, perClass);
    hide Ranked, Candidates, Says, Greedy, Feasible, Full, Chunk.Class;
    assert c in Greedy(ranked, limit, perClass) ==> multiset(ranked)[c] > 0;
    if c in chunks && c.Class() != NegativeGuardrail {
      assert multiset(ranked)[c] > 0;
      GreedyIsSaturated(ranked, limit, perClass, c);
    }
  }

  /** Among equal scores, the classes come in this order. */
  const TIE_ORDER := [RepoSpecific, RecentExecution, PatternSimilar, TechnologySimilar, PlanningContext]

  ghost predicate InTieOrder(a: MemoryClass, b: MemoryClass) {
    exists p, q :: 0 <= p <= q < |TIE_ORDER| && TIE_ORDER[p] == a && TIE_ORDER[q] == b
  }

  lemma PrioritiesAreTieOrder(a: MemoryClass, b: MemoryClass)
    requires a != NegativeGuardrail && b != NegativeGuardrail && a.Priority() <= b.Priority()
    ensures InTieOrder(a, b)
  {
    assert TIE_ORDER[a.Priority()] == a && TIE_ORDER[b.Priority()] == b;
  }

  /** What comes first: the higher score, where none counts as -1; then the class; then the reference. */
  ghost predicate ComesFirst(a: Chunk, b: Chunk) {
    && (a.score.Some? && b.score.Some? ==> a.score.value >= b.score.value)
    && (a.score.None? && b.score.Some? ==> b.score.value <= -1.0)
    && (a.score.Some? && b.score.None? ==> a.score.value >= -1.0)
    && (a.score == b.score ==> InTieOrder(a.Class(), b.Class()))
    && (a.score == b.score && a.Class() == b.Class() ==>
          !StringBefore(TrimSpace(b.sourceRef), TrimSpace(a.sourceRef)))
  }

  lemma NotBeforeComesFirst(a: Chunk, b: Chunk)
    requires !Before(b, a) && a.Class() != NegativeGuardrail && b.Class() != NegativeGuardrail
    ensures ComesFirst(a, b)
  {
    hide Chunk.Class, MemoryClass.Priority, StringBefore, TrimSpace, InTieOrder;
    if a.score == b.score {
      PrioritiesAreTieOrder(a.Class(), b.Class());
    }
  }

  lemma {:induction false} GreedyStaysSorted(ranked: seq<Chunk>, limit: nat, perClass: nat)
    requires Sorting.Sorted(Before, ranked)
    ensures Sorting.Sorted(Before, Greedy(ranked, limit, perClass))
  {
    if ranked != [] {
      var front, last := ranked[..|ranked| - 1], ranked[|ranked| - 1];
      var picked := Greedy(front, limit, perClass);
      assert Greedy(ranked, limit, perClass) ==
             if Takes(picked, last, limit, perClass) then picked + [last] else picked;
      Sorting.SortedFront(Before, ranked);
      GreedyStaysSorted(front, limit, perClass);
      GreedyIsFeasible(front, limit, perClass);
      hide Greedy, Before, Takes, Feasible, Sorting.Sorted;
      forall c | c in picked ensures c in front {
        assert multiset(picked)[c] > 0;
        assert c in multiset(front);
      }
      Sorting.SortedOneMore(Before, picked, last);
    }
  }

  /** The hits come in this order. */
  lemma HitsInOrder(chunks: seq<Chunk>, limit: nat, perClass: nat, i: nat, j: nat)
    requires i < j < |Greedy(Ranked(chunks), limit, perClass)|
    ensures var picked := Greedy(Ranked(chunks), limit, perClass); ComesFirst(picked[i], picked[j])
  {
    var picked := Greedy(Ranked(chunks), limit, perClass);
    BeforeIsStrictWeakOrder();
    Sorting.StableSortSorts(Before, Candidates(chunks));
    GreedyStaysSorted(Ranked(chunks), limit, perClass);
    SelectionIsFeasible(chunks, limit, perClass);
    hide Greedy, Ranked, Before, Chunk.Class;
    NotBeforeComesFirst(picked[i], picked[j]);
  }

  function Words(k: MemoryClass): string {
    match k
    case RepoSpecific => "repo specific"
    case TechnologySimilar => "technology similar"
    case PatternSimilar => "pattern similar"
    case NegativeGuardrail => "negative guardrail"
    case RecentExecution => "recent execution"
    case PlanningContext => "planning context"
  }

  lemma NameSpaced(k: MemoryClass)
    ensures Spaced(k.Name()) == Words(k)
  {
    match k
    case RepoSpecific => assert Spaced("repo_specific") == "repo specific";
    case TechnologySimilar => assert Spaced("technology_similar") == "technology similar";
    case PatternSimilar => assert Spaced("pattern_similar") == "pattern similar";
    case NegativeGuardrail => assert Spaced("negative_guardrail") == "negative guardrail";
    case RecentExecution => assert Spaced("recent_execution") == "recent execution";
    case PlanningContext => assert Spaced("planning_context") == "planning context";
  }

  lemma ElementOf<T>(s: seq<T>, x: T, k: nat)
    requires k <= |s|
    ensures (s + [x])[k] == if k < |s| then s[k] else x
  {
  }

  lemma {:induction false} HitOfEach(format: real -> string, picked: seq<Chunk>, k: nat)
    requires k < |picked|
    ensures HitsOf(format, picked)[k] == HitOf(format, picked[k])
  {
    var n := |picked| - 1;
    hide HitOf;
    ElementOf(HitsOf(format, picked[..n]), HitOf(format, picked[n]), k);
    if k < n {
      HitOfEach(format, picked[..n], k);
    }
  }

  /** What a hit says of its chunk. */
  lemma HitsSay(format: real -> string, picked: seq<Chunk>, k: nat)
    requires k < |picked|
    ensures var hits, c := HitsOf(format, picked), picked[k];
      && hits[k].sourceRef == (if TrimSpace(c.sourceRef) != "" then TrimSpace(c.sourceRef)
                               else TrimSpace(c.sourceType) + ":" + TrimSpace(c.sourceId))
      && hits[k].sourceType == TrimSpace(c.sourceType) && hits[k].sourceId == TrimSpace(c.sourceId)
      && hits[k].score == c.score && hits[k].memoryClass == c.Class() && hits[k].initiativeId == c.initiativeId
      && hits[k].taskId == c.taskId && hits[k].artifactId == c.artifactId
      && hits[k].summary == CompactText(c.contentText, 180)
      && hits[k].reason == "selected as " + Words(c.Class()) + " evidence" +
                           (if c.score.Some? then " (score " + format(c.score.value) + ")" else "")
      && WhyOf(hits)[k] == hits[k].sourceRef + ": " + hits[k].reason
  {
    HitOfEach(format, picked, k);
    ReasonSays(format, picked[k].Class(), picked[k].score);
    hide HitsOf, SelectionReason, Words, Chunk.Class, TrimSpace, CompactText;
  }

  lemma ReasonSays(format: real -> string, k: MemoryClass, score: Option<real>)
    ensures SelectionReason(format, k, score) == "selected as " + Words(k) + " evidence" +
              (if score.Some? then " (score " + format(score.value) + ")" else "")
  {
    NameSpaced(k);
    hide Spaced, Words, MemoryClass.Name;
    var reason := "selected as " + Words(k) + " evidence";
    if score.Some? {
      var text := format(score.value);
      assert reason + " (score " + text + ")" == reason + (" (score " + text + ")");
    } else {
      assert reason + "" == reason;
    }
  }

  /** The summaries are those of the first hit of each class that has one. */
  lemma {:induction false} SummariesSay(picked: seq<Chunk>, class_: MemoryClass)
    ensures class_ in FirstSummaries(picked) <==> exists i :: 0 <= i < |picked| && picked[i].Class() == class_
    ensures forall i :: 0 <= i < |picked| && picked[i].Class() == class_
                        && (forall j :: 0 <= j < i ==> picked[j].Class() != class_) ==>
              class_ in FirstSummaries(picked) && FirstSummaries(picked)[class_] == SummaryOf(picked[i])
  {
    hide Chunk.Class, SummaryOf;
    if picked != [] {
      var n := |picked| - 1;
      SummariesSay(picked[..n], class_);
      assert forall i :: 0 <= i < n ==> picked[..n][i] == picked[i];
      var before := FirstSummaries(picked[..n]);
      assert FirstSummaries(picked) ==
             if picked[n].Class() in before then before else before[picked[n].Class() := SummaryOf(picked[n])];
      hide FirstSummaries;
    }
  }
}
