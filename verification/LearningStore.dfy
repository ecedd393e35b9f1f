/** The learning store over its day files (internal/secretary/learning_store.go), and the feedback and the
    reviews that write to it (internal/secretary/learning_feedback.go). File operations may fail. */
module LearningStore {
  import opened Common
  import opened DayFiles
  import opened LearningLog
  import opened LearningRuns
  import opened Text
  import Sorting

  datatype Error =
    | InvalidIdentity | InvalidTrace | InvalidFeedback | InvalidItem | InvalidRetention | InvalidOperator
    | CannotPersist | CannotPrune | CannotForget
    | ContextUnavailable | UnknownLabel | TooLong | ReasonRequired | CannotFindInteraction
    | NoPreviousInteraction | SaveFailed | CandidateFailed
    | ReviewUnavailable | UnknownAction | CannotLoad | CandidateNotFound

  // ----- conditions -----

  predicate ValidTrace(t: Trace) {
    t.operatorId > 0 && t.at != ZERO_TIME && !Blank(t.channel) && !Blank(t.conversation)
  }

  predicate ValidFeedback(f: Feedback) {
    f.operatorId > 0 && f.at != ZERO_TIME && !Blank(f.interactionId) && !f.feedback.OtherLabel?
  }

  predicate ValidItem(k: Knowledge) {
    k.operatorId > 0 && !Blank(k.value) && !k.status.OtherStatus?
  }

  /** What saving an item has seen to. */
  ghost predicate AllSaved(log: seq<Knowledge>) {
    forall k :: k in log ==> ValidItem(k) && k.createdAt != ZERO_TIME
  }

  /** What is saved: an item without an id or times is given them. */
  function Completed(k: Knowledge, freshId: string, now: Instant): Knowledge {
    var createdAt := if k.createdAt == ZERO_TIME then now else k.createdAt;
    k.(id := if k.id == "" then freshId else k.id,
       createdAt := createdAt,
       updatedAt := if k.updatedAt == ZERO_TIME then createdAt else k.updatedAt)
  }

  predicate Matches(t: Trace, operatorId: int, channel: string, conversation: string) {
    t.operatorId == operatorId && t.channel == channel && t.conversation == conversation
  }

  /** The trace that a scan ends up with: a later one replaces an earlier one, one of the same time does not. */
  function Latest(s: seq<Trace>, operatorId: int, channel: string, conversation: string): Option<Trace> {
    if s == [] then None
    else
      var before, last := Latest(s[..|s| - 1], operatorId, channel, conversation), s[|s| - 1];
      if Matches(last, operatorId, channel, conversation) && (before.None? || last.at > before.value.at)
      then Some(last) else before
  }

  lemma LatestOneMore(s: seq<Trace>, t: Trace, operatorId: int, channel: string, conversation: string)
    ensures var before := Latest(s, operatorId, channel, conversation);
      Latest(s + [t], operatorId, channel, conversation) ==
        if Matches(t, operatorId, channel, conversation) && (before.None? || t.at > before.value.at)
        then Some(t) else before
  {
    assert (s + [t])[..|s|] == s;
  }

  /** The trace is the first among the latest of the conversation. */
  lemma {:induction false} LatestMeans(s: seq<Trace>, operatorId: int, channel: string, conversation: string)
    returns (k: int)
    ensures var latest := Latest(s, operatorId, channel, conversation);
      && (latest.None? ==> forall t :: t in s ==> !Matches(t, operatorId, channel, conversation))
      && (latest.Some? ==>
            && 0 <= k < |s| && s[k] == latest.value && Matches(s[k], operatorId, channel, conversation)
            && (forall i :: 0 <= i < |s| && Matches(s[i], operatorId, channel, conversation) ==>
                  s[i].at <= s[k].at && (i < k ==> s[i].at < s[k].at)))
  {
    k := 0;
    if s != [] {
      var front, last := s[..|s| - 1], s[|s| - 1];
      k := LatestMeans(front, operatorId, channel, conversation);
      assert s == front + [last];
      if Latest(s, operatorId, channel, conversation) != Latest(front, operatorId, channel, conversation) {
        k := |s| - 1;
      } else if Latest(front, operatorId, channel, conversation) == Some(last) {
        assert 0 <= k < |front|;
      }
    }
  }

  // ----- the store -----

  class JSONLLearningStore {
    var traces: Files<Trace>
    var feedback: Files<Feedback>
    var knowledge: Files<Knowledge>
    /** File operations do not fail. Otherwise each of them may. */
    const reliable: bool
    /** What has been done under the lock so far. */
    ghost var run: Run

    ghost predicate Valid()
      reads this
    {
      && run.Legal()
      && Holds(traces, TRACE_PATH, run.After().traces)
      && Holds(feedback, FEEDBACK_PATH, run.After().feedback)
      && Holds(knowledge, KNOWLEDGE_PATH, run.After().knowledge)
      && AllSaved(run.After().knowledge)
    }

    constructor (reliable: bool)
      ensures Valid() && run == Start && this.reliable == reliable
    {
      this.reliable := reliable;
      traces, feedback, knowledge := map[], map[], map[];
      run := Start;
    }

    /** Something was read under the lock. */
    ghost method Note(op: Op)
      requires Valid() && (op.FoundTrace? || op.ListedCandidate?) && Enabled(run.After(), op)
      modifies `run
      ensures Valid() && run == Then(old(run), op) && run.After() == old(run.After())
    {
      hide Holds, AllSaved;
      run := Then(run, op);
    }

    /** Appends a line to the file of its day. A failure can come before the line is written or after. */
    static method AppendRecord<T>(files: Files<T>, operatorId: int, at: Instant, value: T, reliable: bool)
      returns (after: Files<T>, error: Option<Error>, ghost written: bool)
      ensures reliable ==> error != Some(CannotPersist)
      ensures error == Some(InvalidIdentity) <==> operatorId <= 0 || at == ZERO_TIME
      ensures error in {None, Some(InvalidIdentity), Some(CannotPersist)}
      ensures (error == None ==> written) && (error == Some(InvalidIdentity) ==> !written)
      ensures after == if written then Append(files, Path(operatorId, at / 86_400_000_000_000), value) else files
    {
      if operatorId <= 0 || at == ZERO_TIME {
        return files, Some(InvalidIdentity), false;
      }
      var failed := Fails(reliable);
      if failed {
        return files, Some(CannotPersist), false;
      }
      after := Append(files, Path(operatorId, DayOf(at)), value);
      written := true;
      failed := Fails(reliable);
      if failed {
        return after, Some(CannotPersist), written;
      }
      error := None;
    }

    method AppendTrace(trace: Trace, freshId: string) returns (error: Option<Error>)
      requires Valid()
      modifies this
      ensures Valid()
      ensures error == Some(InvalidTrace) <==> !ValidTrace(trace)
      ensures error in {None, Some(InvalidTrace), Some(CannotPersist)} && (reliable ==> error != Some(CannotPersist))
      ensures var after := Then(old(run), Op.AppendTrace(if trace.id == "" then trace.(id := freshId) else trace));
        if error.None? then run == after else run == old(run) || (error == Some(CannotPersist) && run == after)
    {
      hide Holds, AllSaved;
      if trace.operatorId <= 0 || trace.at == ZERO_TIME || Blank(trace.channel) || Blank(trace.conversation) {
        return Some(InvalidTrace);
      }
      var saved := if trace.id == "" then trace.(id := freshId) else trace;
      ghost var written;
      AppendHolds(traces, TRACE_PATH, run.After().traces, saved);
      traces, error, written := AppendRecord(traces, saved.operatorId, saved.at, saved, reliable);
      if written {
        run := Then(run, Op.AppendTrace(saved));
      }
    }

    method AppendFeedback(event: Feedback, freshId: string) returns (error: Option<Error>)
      requires Valid()
      modifies this
      ensures Valid()
      ensures error == Some(InvalidFeedback) <==> !ValidFeedback(event)
      ensures error in {None, Some(InvalidFeedback), Some(CannotPersist)} && (reliable ==> error != Some(CannotPersist))
      ensures var after := Then(old(run), Op.AppendFeedback(if event.id == "" then event.(id := freshId) else event));
        if error.None? then run == after else run == old(run) || (error == Some(CannotPersist) && run == after)
    {
      hide Holds, AllSaved;
      if event.operatorId <= 0 || event.at == ZERO_TIME || Blank(event.interactionId) || event.feedback.OtherLabel? {
        return Some(InvalidFeedback);
      }
      var saved := if event.id == "" then event.(id := freshId) else event;
      ghost var written;
      AppendHolds(feedback, FEEDBACK_PATH, run.After().feedback, saved);
      feedback, error, written := AppendRecord(feedback, saved.operatorId, saved.at, saved, reliable);
      if written {
        run := Then(run, Op.AppendFeedback(saved));
      }
    }

    method SaveKnowledge(item: Knowledge, freshId: string, now: Instant) returns (error: Option<Error>)
      requires Valid() && now != ZERO_TIME
      modifies this
      ensures Valid()
      ensures error == Some(InvalidItem) <==> !ValidItem(item)
      ensures error in {None, Some(InvalidItem), Some(CannotPersist)} && (reliable ==> error != Some(CannotPersist))
      ensures var after := Then(old(run), Op.SaveKnowledge(Completed(item, freshId, now)));
        if error.None? then run == after else run == old(run) || (error == Some(CannotPersist) && run == after)
    {
      hide Holds, AllSaved, Blank;
      if item.operatorId <= 0 || Blank(item.value) || item.status.OtherStatus? {
        return Some(InvalidItem);
      }
      var saved := item;
      if saved.id == "" {
        saved := saved.(id := freshId);
      }
      if saved.createdAt == ZERO_TIME {
        saved := saved.(createdAt := now);
      }
      if saved.updatedAt == ZERO_TIME {
        saved := saved.(updatedAt := saved.createdAt);
      }
      ghost var written;
      AppendHolds(knowledge, KNOWLEDGE_PATH, run.After().knowledge, saved);
      SavedOneMore(run.After().knowledge, saved);
      knowledge, error, written := AppendRecord(knowledge, saved.operatorId, saved.createdAt, saved, reliable);
      if written {
        run := Then(run, Op.SaveKnowledge(saved));
      }
    }

    /** The first among the latest traces of a conversation, unless a file cannot be read. */
    method LastTrace(operatorId: int, channel: string, conversation: string)
      returns (latest: Option<Trace>, ok: bool, ghost days: seq<int>)
      ensures reliable ==> ok
      ensures ok ==> Lists(days, DaysOf(traces, operatorId))
      ensures ok ==> latest == Latest(Scan(traces, operatorId, days), operatorId, channel, conversation)
    {
      hide Scan;
      NothingScanned(traces, operatorId, channel, conversation);
      var paths := JsonlFiles(traces, operatorId);
      days := paths;
      latest := None;
      assert paths[..0] == [];
      for i := 0 to |paths|
        invariant latest == Latest(Scan(traces, operatorId, paths[..i]), operatorId, channel, conversation)
      {
        var failed := Fails(reliable);
        if failed {
          return None, false, days;
        }
        latest := LaterOf(latest, At(traces, Path(operatorId, paths[i])), operatorId, channel, conversation,
                          Scan(traces, operatorId, paths[..i]));
        ScanOneMore(traces, operatorId, paths, i);
      }
      assert paths[..|paths|] == paths;
      ok := true;
    }

    /** The listing; without a status it is of all items. When items keep their time of creation, going
        through the files lists what replaying the log would. */
    method ListKnowledge(operatorId: int, status: Option<Status>)
      returns (items: seq<Knowledge>, ok: bool, ghost days: seq<int>)
      ensures reliable ==> ok
      ensures ok ==> Lists(days, DaysOf(knowledge, operatorId))
      ensures ok ==> Listing(items, Scan(knowledge, operatorId, days), operatorId, status)
      ensures ok && Valid() && CreatedOnce(run.After().knowledge) ==>
                Listing(items, run.After().knowledge, operatorId, status)
    {
      var paths := JsonlFiles(knowledge, operatorId);
      days := paths;
      var latestById: map<string, Knowledge> := map[];
      for i := 0 to |paths|
        invariant Newest(latestById, Scan(knowledge, operatorId, paths[..i]), operatorId)
      {
        var failed := Fails(reliable);
        if failed {
          return [], false, days;
        }
        var records := At(knowledge, Path(operatorId, paths[i]));
        latestById := ReadOver(latestById, records, operatorId, Scan(knowledge, operatorId, paths[..i]));
        ScanOneMore(knowledge, operatorId, paths, i);
      }
      assert paths[..|paths|] == paths;
      NewestHaveTheirIds(latestById, Scan(knowledge, operatorId, paths), operatorId);
      items := Collect(latestById, status);
      SortedIsListing(latestById, items, Scan(knowledge, operatorId, paths), operatorId, status);
      hide Listing, Newest;
      items := Sorting.StableSort(CreatedBefore, items);
      ok := true;
      if Valid() && CreatedOnce(run.After().knowledge) {
        ListsReplay(knowledge, run.After().knowledge, items, operatorId, days, status);
      }
    }

    /** Rewrites the files, unless one of them cannot be read or rewritten. `left` says what was written. */
    method Prune(now: Instant, traceDays: int, candidateDays: int) returns (error: Option<Error>, ghost left: Left)
      requires Valid()
      modifies this
      ensures Valid()
      ensures error == Some(InvalidRetention) <==> traceDays <= 0 || candidateDays <= 0
      ensures error in {None, Some(InvalidRetention), Some(CannotPrune)}
      ensures error == Some(InvalidRetention) ==> run == old(run)
      ensures error != Some(InvalidRetention) ==> run == Then(old(run), Op.Prune(now, traceDays, candidateDays, left))
      ensures error == None ==> Finished(old(run.After()), left)
      ensures reliable ==> error != Some(CannotPrune)
      ensures reliable && error == None ==>
                && WrittenWhole(old(run.After()), now, traceDays, candidateDays, left)
                && run.After() == PrunedLogs(old(run.After()), now, traceDays, candidateDays)
    {
      left := Left(map[], map[], map[]);
      if traceDays <= 0 || candidateDays <= 0 {
        return Some(InvalidRetention), left;
      }
      hide Rewritten, Holds, AllSaved, Covered, Sorting.Filter;
      ghost var l := run.After();
      var traceCutoff, candidateCutoff := Cutoff(now, traceDays), Cutoff(now, candidateDays);
      var activeTraceIds, ignored, ok;
      ghost var leftTraces, leftFeedback, leftKnowledge: map<Path, nat> := map[], map[], map[];
      ghost var before := traces;
      traces, activeTraceIds, ok, leftTraces := PruneLearningFiles(traces, KeepTrace(traceCutoff), TRACE_ID, reliable);
      RewrittenHolds(before, traces, TRACE_PATH, KeepTrace(traceCutoff), l.traces, leftTraces, ok);
      NothingRewritten(l, now, traceDays, candidateDays);
      if !ok {
        left := Left(leftTraces, map[], map[]);
        SavedAfterPrune(l, now, traceDays, candidateDays, left);
        run := Then(run, Op.Prune(now, traceDays, candidateDays, left));
        return Some(CannotPrune), left;
      }
      ActiveIds(before, l.traces, KeepTrace(traceCutoff), activeTraceIds);
      ghost var earlier := feedback;
      feedback, ignored, ok, leftFeedback := PruneLearningFiles(
        feedback, KeepFeedback(traceCutoff, activeTraceIds), (f: Feedback) => f.id, reliable);
      RewrittenHolds(earlier, feedback, FEEDBACK_PATH, KeepFeedback(traceCutoff, activeTraceIds), l.feedback,
                     leftFeedback, ok);
      if !ok {
        left := Left(leftTraces, leftFeedback, map[]);
        SavedAfterPrune(l, now, traceDays, candidateDays, left);
        run := Then(run, Op.Prune(now, traceDays, candidateDays, left));
        return Some(CannotPrune), left;
      }
      ghost var unpruned := knowledge;
      knowledge, ignored, ok, leftKnowledge := PruneLearningFiles(
        knowledge, KeepKnowledge(now, candidateCutoff), (k: Knowledge) => k.id, reliable);
      RewrittenHolds(unpruned, knowledge, KNOWLEDGE_PATH, KeepKnowledge(now, candidateCutoff), l.knowledge,
                     leftKnowledge, ok);
      left := Left(leftTraces, leftFeedback, leftKnowledge);
      SavedAfterPrune(l, now, traceDays, candidateDays, left);
      if reliable {
        WholeHere(before, TRACE_PATH, KeepTrace(traceCutoff), l.traces, leftTraces);
        WholeHere(earlier, FEEDBACK_PATH, KeepFeedback(traceCutoff, activeTraceIds), l.feedback, leftFeedback);
        WholeHere(unpruned, KNOWLEDGE_PATH, KeepKnowledge(now, candidateCutoff), l.knowledge, leftKnowledge);
        FinishedPruneIsRightIff(l, now, traceDays, candidateDays, left);
      }
      hide PruneLeaves, PrunedLogs, Finished, WrittenWhole;
      run := Then(run, Op.Prune(now, traceDays, candidateDays, left));
      error := if ok then None else Some(CannotPrune);
    }

    /** Removes the files of an operator, class by class, unless some cannot be removed. `gone` has those that
        were. */
    method Forget(operatorId: int) returns (error: Option<Error>, ghost gone: Gone)
      requires Valid()
      modifies this
      ensures Valid()
      ensures error == Some(InvalidOperator) <==> operatorId <= 0
      ensures error in {None, Some(InvalidOperator), Some(CannotForget)}
      ensures error == Some(InvalidOperator) ==> run == old(run)
      ensures error != Some(InvalidOperator) ==> run == Then(old(run), Op.Forget(operatorId, gone))
      ensures error == None ==> ForgetFinished(old(run.After()), operatorId, gone)
      ensures reliable ==> error != Some(CannotForget)
    {
      gone := Gone({}, {}, {});
      if operatorId <= 0 {
        return Some(InvalidOperator), gone;
      }
      hide Holds, AllSaved, AllGone, Sorting.Filter;
      ghost var l := run.After();
      NothingGone(l);
      var ok;
      ghost var goneTraces, goneFeedback, goneKnowledge: set<Path> := {}, {}, {};
      ghost var before := traces;
      traces, ok, goneTraces := RemoveAll(traces, operatorId, reliable);
      GoneHolds(before, traces, TRACE_PATH, l.traces, operatorId, goneTraces, ok);
      if !ok {
        gone := Gone(goneTraces, {}, {});
        SavedAfterForget(l, gone);
        run := Then(run, Op.Forget(operatorId, gone));
        return Some(CannotForget), gone;
      }
      ghost var earlier := feedback;
      feedback, ok, goneFeedback := RemoveAll(feedback, operatorId, reliable);
      GoneHolds(earlier, feedback, FEEDBACK_PATH, l.feedback, operatorId, goneFeedback, ok);
      if !ok {
        gone := Gone(goneTraces, goneFeedback, {});
        SavedAfterForget(l, gone);
        run := Then(run, Op.Forget(operatorId, gone));
        return Some(CannotForget), gone;
      }
      ghost var kept := knowledge;
      knowledge, ok, goneKnowledge := RemoveAll(knowledge, operatorId, reliable);
      GoneHolds(kept, knowledge, KNOWLEDGE_PATH, l.knowledge, operatorId, goneKnowledge, ok);
      gone := Gone(goneTraces, goneFeedback, goneKnowledge);
      SavedAfterForget(l, gone);
      run := Then(run, Op.Forget(operatorId, gone));
      error := if ok then None else Some(CannotForget);
    }
  }

  lemma NothingScanned(files: Files<Trace>, operatorId: int, channel: string, conversation: string)
    ensures Latest(Scan(files, operatorId, []), operatorId, channel, conversation) == None
  {
  }

  /** The inner loop of `LastTrace`. */
  method LaterOf(before: Option<Trace>, records: seq<Trace>, operatorId: int, channel: string, conversation: string,
                 ghost scanned: seq<Trace>) returns (latest: Option<Trace>)
    requires before == Latest(scanned, operatorId, channel, conversation)
    ensures latest == Latest(scanned + records, operatorId, channel, conversation)
  {
    hide Latest;
    latest := before;
    assert scanned + records[..0] == scanned;
    for j := 0 to |records|
      invariant latest == Latest(scanned + records[..j], operatorId, channel, conversation)
    {
      LatestOneMore(scanned + records[..j], records[j], operatorId, channel, conversation);
      assert scanned + records[..j + 1] == scanned + records[..j] + [records[j]];
      if Matches(records[j], operatorId, channel, conversation) && (latest.None? || records[j].at > latest.value.at) {
        latest := Some(records[j]);
      }
    }
    assert records[..|records|] == records;
  }

  // ----- listing -----

  predicate Fits(k: Knowledge, status: Option<Status>) {
    status.None? || k.status == status.value
  }

  predicate CreatedBefore(a: Knowledge, b: Knowledge) {
    a.createdAt < b.createdAt
  }

  lemma CreatedBeforeIsStrictWeakOrder()
    ensures Sorting.StrictWeakOrder(CreatedBefore)
  {
  }

  /** The last record of each id, once, by the time of creation. */
  ghost predicate Listing(items: seq<Knowledge>, s: seq<Knowledge>, operatorId: int, status: Option<Status>) {
    && (forall k :: multiset(items)[k] ==
          if Current(s, operatorId, k.id) == Some(k) && (status == None || status == Some(k.status)) then 1 else 0)
    && (forall i, j :: 0 <= i < j < |items| ==> items[i].createdAt <= items[j].createdAt)
  }

  lemma ListsReplay(files: Files<Knowledge>, log: seq<Knowledge>, items: seq<Knowledge>, operatorId: int,
                    days: seq<int>, status: Option<Status>)
    requires Holds(files, KNOWLEDGE_PATH, log) && CreatedOnce(log) && Lists(days, DaysOf(files, operatorId))
    requires Listing(items, Scan(files, operatorId, days), operatorId, status)
    ensures Listing(items, log, operatorId, status)
  {
    forall id: string ensures Current(Scan(files, operatorId, days), operatorId, id) == Current(log, operatorId, id) {
      ListingIsReplay(files, log, operatorId, days, id);
    }
    hide Current, CreatedOnce;
  }

  /** The items of the map, sorted, are the listing. */
  lemma SortedIsListing(m: map<string, Knowledge>, items: seq<Knowledge>, s: seq<Knowledge>, operatorId: int,
                        status: Option<Status>)
    requires Newest(m, s, operatorId) && forall id :: id in m ==> m[id].id == id
    requires forall k :: multiset(items)[k] == if k.id in m && m[k.id] == k && Fits(k, status) then 1 else 0
    ensures Listing(Sorting.StableSort(CreatedBefore, items), s, operatorId, status)
  {
    CreatedBeforeIsStrictWeakOrder();
    Sorting.StableSortSorts(CreatedBefore, items);
    forall k: Knowledge { IsListedIff(m, s, operatorId, status, k); }
    InOrderOfCreation(Sorting.StableSort(CreatedBefore, items));
    hide Sorting.StableSort, Sorting.Sorted, Current, Newest, Fits;
  }

  lemma IsListedIff(m: map<string, Knowledge>, s: seq<Knowledge>, operatorId: int, status: Option<Status>, k: Knowledge)
    requires Newest(m, s, operatorId)
    ensures k.id in m && m[k.id] == k && Fits(k, status) <==>
            Current(s, operatorId, k.id) == Some(k) && (status == None || status == Some(k.status))
  {
    hide Current;
    assert Current(s, operatorId, k.id) == if k.id in m then Some(m[k.id]) else None;
  }

  lemma InOrderOfCreation(items: seq<Knowledge>)
    requires Sorting.Sorted(CreatedBefore, items)
    ensures forall i, j :: 0 <= i < j < |items| ==> items[i].createdAt <= items[j].createdAt
  {
  }

  ghost predicate Newest(m: map<string, Knowledge>, s: seq<Knowledge>, operatorId: int) {
    forall id :: Current(s, operatorId, id) == if id in m then Some(m[id]) else None
  }

  method ReadOver(before: map<string, Knowledge>, records: seq<Knowledge>, operatorId: int,
                  ghost scanned: seq<Knowledge>)
    returns (latestById: map<string, Knowledge>)
    requires Newest(before, scanned, operatorId)
    ensures Newest(latestById, scanned + records, operatorId)
  {
    latestById := before;
    assert scanned + records[..0] == scanned;
    for j := 0 to |records|
      invariant Newest(latestById, scanned + records[..j], operatorId)
    {
      NewestOneMore(latestById, scanned + records[..j], operatorId, records[j]);
      assert scanned + records[..j + 1] == scanned + records[..j] + [records[j]];
      if records[j].operatorId == operatorId {
        latestById := latestById[records[j].id := records[j]];
      }
    }
    assert records[..|records|] == records;
  }

  lemma NewestOneMore(m: map<string, Knowledge>, s: seq<Knowledge>, operatorId: int, k: Knowledge)
    requires Newest(m, s, operatorId)
    ensures Newest(if k.operatorId == operatorId then m[k.id := k] else m, s + [k], operatorId)
  {
    forall id ensures Current(s + [k], operatorId, id) ==
                      if HasId(operatorId, id)(k) then Some(k) else Current(s, operatorId, id)
    {
      LastWithConcat(HasId(operatorId, id), s, [k]);
      assert [k][..0] == [];
    }
    hide Current;
  }

  lemma NewestHaveTheirIds(m: map<string, Knowledge>, s: seq<Knowledge>, operatorId: int)
    requires Newest(m, s, operatorId)
    ensures forall id :: id in m ==> m[id].id == id && m[id].operatorId == operatorId
  {
    forall id | id in m ensures m[id].id == id && m[id].operatorId == operatorId {
      assert Current(s, operatorId, id) == Some(m[id]);
      LastWithMeans(HasId(operatorId, id), s);
    }
  }

  /** The items of the map, in some order. */
  method Collect(latestById: map<string, Knowledge>, status: Option<Status>) returns (items: seq<Knowledge>)
    requires forall id :: id in latestById ==> latestById[id].id == id
    ensures forall k :: multiset(items)[k] ==
              if k.id in latestById && latestById[k.id] == k && Fits(k, status) then 1 else 0
  {
    items := [];
    var rest := latestById.Keys;
    while rest != {}
      invariant rest <= latestById.Keys
      invariant forall k :: multiset(items)[k] ==
                  if k.id in latestById && k.id !in rest && latestById[k.id] == k && Fits(k, status) then 1 else 0
      decreases |rest|
    {
      var id :| id in rest;
      rest := rest - {id};
      if Fits(latestById[id], status) {
        items := items + [latestById[id]];
      }
    }
  }

  // ----- pruning -----

  method FilterRecords<T>(records: seq<T>, keep: T -> bool, id: T -> string) returns (kept: seq<T>, ids: set<string>)
    ensures kept == Sorting.Filter(keep, records)
    ensures forall i :: i in ids <==> exists x :: x in kept && id(x) == i
  {
    kept, ids := [], {};
    for j := 0 to |records|
      invariant kept == Sorting.Filter(keep, records[..j])
      invariant forall i :: i in ids <==> exists x :: x in kept && id(x) == i
    {
      Sorting.FilterOneMore(keep, records[..j], records[j]);
      assert records[..j + 1] == records[..j] + [records[j]];
      if keep(records[j]) {
        kept := kept + [records[j]];
        ids := ids + {id(records[j])};
      }
    }
    assert records[..|records|] == records;
  }

  /** What is in a file after a pruning that has written so much to those in `left`. */
  function FileAfter<T>(files: Files<T>, keep: T -> bool, left: map<Path, nat>, p: Path): seq<T> {
    if p in left then Take(Sorting.Filter(keep, At(files, p)), left[p]) else At(files, p)
  }

  ghost predicate PrunedBy<T>(files: Files<T>, pruned: Files<T>, keep: T -> bool, left: map<Path, nat>) {
    left.Keys <= files.Keys && forall p :: At(pruned, p) == FileAfter(files, keep, left, p)
  }

  /** Rewrites one file without what is not kept, and removes it when nothing is. Of a write that fails
      nothing is noticed: what was written by then replaces the file. */
  method RewriteJSONL<T>(files: Files<T>, path: Path, kept: seq<T>, reliable: bool)
    returns (after: Files<T>, ok: bool, ghost written: nat)
    ensures reliable ==> ok && written == |kept|
    ensures !ok ==> after == files
    ensures ok ==> written <= |kept| && forall p :: At(after, p) == if p == path then kept[..written] else At(files, p)
  {
    written := 0;
    var failed := Fails(reliable);
    if failed {
      return files, false, written;
    }
    if |kept| == 0 {
      return files - {path}, true, written;
    }
    var whole: nat :| whole <= |kept| && (reliable ==> whole == |kept|);
    written := whole;
    after, ok := files[path := kept[..whole]], true;
  }

  /** Rewrites the files until one cannot be read or rewritten; the ids are of what is kept of them. */
  method PruneLearningFiles<T>(files: Files<T>, keep: T -> bool, id: T -> string, reliable: bool)
    returns (pruned: Files<T>, ids: set<string>, ok: bool, ghost left: map<Path, nat>)
    ensures reliable ==> ok && AllWritten(files, keep, left)
    ensures PrunedBy(files, pruned, keep, left)
    ensures ok ==> left.Keys == files.Keys && IdsOfKept(ids, files, files.Keys, keep, id)
  {
    pruned, ids, left := files, {}, map[];
    var rest := files.Keys;
    hide Sorting.Filter, IdsOfKept, Take, AllWritten;
    NoIds(files, keep, id);
    NothingWritten(files, keep);
    while rest != {}
      invariant rest <= files.Keys && left.Keys == files.Keys - rest
      invariant PrunedBy(files, pruned, keep, left)
      invariant reliable ==> AllWritten(files, keep, left)
      invariant IdsOfKept(ids, files, files.Keys - rest, keep, id)
      decreases |rest|
    {
      var path :| path in rest;
      var kept, found := FilterRecords(files[path], keep, id);
      var after, rewritten;
      ghost var written;
      after, rewritten, written := RewriteJSONL(pruned, path, kept, reliable);
      if !rewritten {
        return pruned, ids, false, left;
      }
      OneFileMore(files, pruned, after, keep, left, path, written);
      MoreIds(ids, files, files.Keys - rest, keep, id, path, found);
      if reliable {
        OneMoreWritten(files, keep, left, path);
      }
      assert files.Keys - rest + {path} == files.Keys - (rest - {path});
      pruned, ids, left, rest := after, ids + found, left[path := written], rest - {path};
    }
    assert files.Keys - rest == files.Keys;
    ok := true;
  }

  /** Each file was written with all that is kept of it. */
  ghost predicate AllWritten<T>(files: Files<T>, keep: T -> bool, left: map<Path, nat>) {
    forall p :: p in left && p in files ==> left[p] == |Sorting.Filter(keep, files[p])|
  }

  lemma NothingWritten<T>(files: Files<T>, keep: T -> bool)
    ensures AllWritten(files, keep, map[])
  {
  }

  lemma OneMoreWritten<T>(files: Files<T>, keep: T -> bool, left: map<Path, nat>, path: Path)
    requires AllWritten(files, keep, left) && path in files
    ensures AllWritten(files, keep, left[path := |Sorting.Filter(keep, files[path])|])
  {
  }

  lemma WholeHere<T(!new)>(files: Files<T>, path: T -> Path, keep: T -> bool, log: seq<T>, left: map<Path, nat>)
    requires Holds(files, path, log) && left.Keys <= files.Keys && AllWritten(files, keep, left)
    ensures Whole(path, keep, log, left)
  {
    forall p | p in left ensures |Sorting.Filter(Keeping(path, keep, p), log)| <= left[p] {
      FilterTwice(keep, OnPath(path, p), log);
      FilterSame(Both(keep, OnPath(path, p)), Keeping(path, keep, p), log);
      assert At(files, p) == Sorting.Filter(OnPath(path, p), log);
    }
  }

  lemma OneFileMore<T>(files: Files<T>, pruned: Files<T>, after: Files<T>, keep: T -> bool, left: map<Path, nat>,
                       path: Path, written: nat)
    requires PrunedBy(files, pruned, keep, left) && path in files && written <= |Sorting.Filter(keep, files[path])|
    requires forall p :: At(after, p) ==
                         if p == path then Sorting.Filter(keep, files[path])[..written] else At(pruned, p)
    ensures PrunedBy(files, after, keep, left[path := written])
  {
    hide Sorting.Filter;
  }

  ghost predicate IdsOfKept<T>(ids: set<string>, files: Files<T>, paths: set<Path>, keep: T -> bool, id: T -> string) {
    forall i :: i in ids <==>
      exists p, x :: p in paths && p in files && x in Sorting.Filter(keep, files[p]) && id(x) == i
  }

  lemma NoIds<T>(files: Files<T>, keep: T -> bool, id: T -> string)
    ensures IdsOfKept({}, files, files.Keys - files.Keys, keep, id)
  {
  }

  lemma MoreIds<T>(ids: set<string>, files: Files<T>, paths: set<Path>, keep: T -> bool, id: T -> string,
                   path: Path, found: set<string>)
    requires IdsOfKept(ids, files, paths, keep, id) && path in files
    requires forall i :: i in found <==> exists x :: x in Sorting.Filter(keep, files[path]) && id(x) == i
    ensures IdsOfKept(ids + found, files, paths + {path}, keep, id)
  {
    hide Sorting.Filter;
    forall i | i in found
      ensures exists p, x :: p in paths + {path} && p in files && x in Sorting.Filter(keep, files[p]) && id(x) == i
    {
      var x :| x in Sorting.Filter(keep, files[path]) && id(x) == i;
    }
  }

  const TRACE_ID := (t: Trace) => t.id

  lemma ActiveIds(files: Files<Trace>, traces: seq<Trace>, keep: Trace -> bool, active: set<string>)
    requires Holds(files, TRACE_PATH, traces) && IdsOfKept(active, files, files.Keys, keep, TRACE_ID)
    ensures active == Ids(Sorting.Filter(keep, traces))
  {
    FilterMembers(keep, traces);
    forall t | t in traces && keep(t) ensures t.id in active {
      FileOfPath(files, TRACE_PATH, traces, TRACE_PATH(t));
      FilterMembers(keep, At(files, TRACE_PATH(t)));
      assert TRACE_ID(t) == t.id && t in Sorting.Filter(keep, files[TRACE_PATH(t)]);
    }
    forall i | i in active ensures i in Ids(Sorting.Filter(keep, traces)) {
      var p, t :| p in files && t in Sorting.Filter(keep, files[p]) && TRACE_ID(t) == i;
      FileOfPath(files, TRACE_PATH, traces, p);
      FilterMembers(keep, At(files, p));
    }
  }

  /** The files that were pruned hold the log rewritten. */
  lemma RewrittenHolds<T(!new)>(files: Files<T>, pruned: Files<T>, path: T -> Path, keep: T -> bool, log: seq<T>,
                                left: map<Path, nat>, ok: bool)
    requires Holds(files, path, log) && PrunedBy(files, pruned, keep, left)
    requires ok ==> left.Keys == files.Keys
    ensures Holds(pruned, path, Rewritten(path, keep, log, left))
    ensures ok ==> Covered(path, log, left)
  {
    forall p ensures At(pruned, p) == Sorting.Filter(OnPath(path, p), Rewritten(path, keep, log, left)) {
      RewrittenFile(path, keep, log, left, p);
      FilterTwice(keep, OnPath(path, p), log);
      FilterSame(Both(keep, OnPath(path, p)), Keeping(path, keep, p), log);
    }
    forall x | x in log ensures path(x) in files {
      HeldDays(files, path, log, x);
    }
  }

  /** Where no file was rewritten, nothing is changed. */
  lemma NothingRewritten(l: Logs, now: Instant, traceDays: int, candidateDays: int)
    ensures forall left: map<Path, nat> :: left == map[] ==>
              && Rewritten(FEEDBACK_PATH, KeepFeedback(Cutoff(now, traceDays), ActiveTraceIds(l, now, traceDays)),
                           l.feedback, left)
                 == l.feedback
              && Rewritten(KNOWLEDGE_PATH, KeepKnowledge(now, Cutoff(now, candidateDays)), l.knowledge, left)
                 == l.knowledge
  {
    UntouchedLog(FEEDBACK_PATH, KeepFeedback(Cutoff(now, traceDays), ActiveTraceIds(l, now, traceDays)), l.feedback);
    UntouchedLog(KNOWLEDGE_PATH, KeepKnowledge(now, Cutoff(now, candidateDays)), l.knowledge);
  }

  lemma SavedOneMore(log: seq<Knowledge>, k: Knowledge)
    requires AllSaved(log) && ValidItem(k) && k.createdAt != ZERO_TIME
    ensures AllSaved(log + [k])
  {
    hide ValidItem;
  }

  lemma SavedAfterPrune(l: Logs, now: Instant, traceDays: int, candidateDays: int, left: Left)
    requires AllSaved(l.knowledge)
    ensures AllSaved(PruneLeaves(l, now, traceDays, candidateDays, left).knowledge)
  {
    RewrittenMembers(KNOWLEDGE_PATH, KeepKnowledge(now, Cutoff(now, candidateDays)), l.knowledge, left.knowledge);
    hide Rewritten;
  }

  ghost predicate RemovedFrom<T>(files: Files<T>, after: Files<T>, owner: int, gone: set<Path>) {
    && (forall p :: p in gone ==> p.owner == owner)
    && forall p :: At(after, p) == if p in gone then [] else At(files, p)
  }

  /** Removes the directory of an owner; of the files in it any may be left, and even when none is, the
      removal of the directory may fail. */
  method RemoveAll<T>(files: Files<T>, owner: int, reliable: bool)
    returns (after: Files<T>, ok: bool, ghost gone: set<Path>)
    ensures reliable ==> ok
    ensures RemovedFrom(files, after, owner, gone)
    ensures ok ==> forall p :: p in files && p.owner == owner ==> p in gone
  {
    var failed := Fails(reliable);
    after, ok, gone := files, !failed, {};
    var rest := set p | p in files && p.owner == owner;
    while rest != {}
      invariant reliable ==> ok
      invariant forall p :: p in rest ==> p.owner == owner
      invariant RemovedFrom(files, after, owner, gone)
      invariant ok ==> forall p :: p in files && p.owner == owner ==> p in gone || p in rest
      decreases |rest|
    {
      var path :| path in rest;
      failed := Fails(reliable);
      if failed {
        ok := false;
      } else {
        after, gone := after - {path}, gone + {path};
      }
      rest := rest - {path};
    }
  }

  /** The files that are left hold the rest of the log. */
  lemma GoneHolds<T(!new)>(files: Files<T>, after: Files<T>, path: T -> Path, log: seq<T>, owner: int,
                           gone: set<Path>, ok: bool)
    requires Holds(files, path, log) && RemovedFrom(files, after, owner, gone)
    requires ok ==> forall p :: p in files && p.owner == owner ==> p in gone
    ensures Holds(after, path, Sorting.Filter(NotOn(path, gone), log))
    ensures ok ==> AllGone(path, log, owner, gone)
  {
    forall p ensures At(after, p) == Sorting.Filter(OnPath(path, p), Sorting.Filter(NotOn(path, gone), log)) {
      FilterTwice(OnPath(path, p), NotOn(path, gone), log);
      if p in gone {
        FilterNone(Both(OnPath(path, p), NotOn(path, gone)), log);
      } else {
        FilterSame(Both(OnPath(path, p), NotOn(path, gone)), OnPath(path, p), log);
      }
    }
    forall x | x in log ensures path(x) in files {
      HeldDays(files, path, log, x);
    }
  }

  lemma {:induction false} NothingGoneOf<T>(path: T -> Path, log: seq<T>)
    ensures Sorting.Filter(NotOn(path, {}), log) == log
  {
    if log != [] {
      NothingGoneOf(path, log[..|log| - 1]);
    }
  }

  lemma NothingGone(l: Logs)
    ensures Sorting.Filter(NotOn(FEEDBACK_PATH, {}), l.feedback) == l.feedback
    ensures Sorting.Filter(NotOn(KNOWLEDGE_PATH, {}), l.knowledge) == l.knowledge
  {
    NothingGoneOf(FEEDBACK_PATH, l.feedback);
    NothingGoneOf(KNOWLEDGE_PATH, l.knowledge);
  }

  lemma SavedAfterForget(l: Logs, gone: Gone)
    requires AllSaved(l.knowledge)
    ensures AllSaved(ForgetLeaves(l, gone).knowledge)
  {
    FilterMembers(NotOn(KNOWLEDGE_PATH, gone.knowledge), l.knowledge);
    hide Sorting.Filter;
  }

  lemma {:induction false} FilterNone<T(!new)>(p: T -> bool, s: seq<T>)
    requires forall x :: x in s ==> !p(x)
    ensures Sorting.Filter(p, s) == []
  {
    if s != [] {
      FilterNone(p, s[..|s| - 1]);
    }
  }

  lemma ScanOneMore<T>(files: Files<T>, owner: int, days: seq<int>, i: nat)
    requires i < |days|
    ensures Scan(files, owner, days[..i + 1]) == Scan(files, owner, days[..i]) + At(files, Path(owner, days[i]))
  {
    assert days[..i + 1][..i] == days[..i];
  }

  // ----- feedback and reviews -----

  const MAX_CORRECTION := 2000

  /** Every label but those that are content with what was said makes a candidate. */
  lemma CandidateLabels(feedback: Label)
    ensures MakesCandidate(feedback) <==>
              feedback != Correct && feedback != Style && feedback != MissingSource && !feedback.OtherLabel?
  {
  }

  predicate MakesCandidate(feedback: Label) {
    feedback in {MissingFact, WrongEntity, WrongSource, Incorrect}
  }

  /** What is wrong with the input, whatever the store holds. */
  function InputError(operatorId: int, channel: string, conversation: string, feedback: Label, correction: string)
    : Option<Error>
  {
    if operatorId <= 0 || Blank(channel) || Blank(conversation) then Some(ContextUnavailable)
    else if feedback.OtherLabel? then Some(UnknownLabel)
    else if |TrimSpace(correction)| > 2000 then Some(TooLong)
    else if feedback != Correct && Blank(correction) then Some(ReasonRequired)
    else None
  }

  function CandidateFrom(on: Trace, feedback: Label, correction: string, id: string, now: Instant): Knowledge {
    Knowledge(id, on.operatorId, "interacción " + on.id, feedback, correction, on.evidence,
              Candidate, now, now, ZERO_TIME)
  }

  /** What a candidate takes over: it is about its interaction, says what the correction says, and waits for its
      decision. */
  lemma CandidateSays(on: Trace, feedback: Label, correction: string, id: string, now: Instant)
    ensures var k := CandidateFrom(on, feedback, correction, id, now);
      && k.id == id && k.operatorId == on.operatorId && k.subject == "interacción " + on.id && k.about == feedback
      && k.value == correction && k.sources == on.evidence && k.status == Candidate
      && k.createdAt == k.updatedAt == now && k.validUntil == ZERO_TIME
  {
  }

  /** A trace of the conversation that no other is later than. */
  ghost predicate LatestInLog(traces: seq<Trace>, on: Trace, operatorId: int, channel: string, conversation: string) {
    && on in traces && Matches(on, operatorId, channel, conversation)
    && forall t :: t in traces && Matches(t, operatorId, channel, conversation) ==> t.at <= on.at
  }

  lemma LatestOfScan(files: Files<Trace>, traces: seq<Trace>, operatorId: int, days: seq<int>,
                     channel: string, conversation: string)
    requires Holds(files, TRACE_PATH, traces) && Lists(days, DaysOf(files, operatorId))
    ensures var latest := Latest(Scan(files, operatorId, days), operatorId, channel, conversation);
      && (latest.None? ==> forall t :: t in traces ==> !Matches(t, operatorId, channel, conversation))
      && (latest.Some? ==> LatestInLog(traces, latest.value, operatorId, channel, conversation))
  {
    var s := Scan(files, operatorId, days);
    var k := LatestMeans(s, operatorId, channel, conversation);
    forall t: Trace ensures t in s <==> t in traces && t.operatorId == operatorId {
      ScanFindsAll(files, TRACE_PATH, traces, operatorId, days, t);
    }
    hide Scan, Latest, Holds;
  }

  function Decision(action: string): Option<Status> {
    var name := TrimSpace(action);
    if name == "approve" || name == "/aprueba" then Some(Approved)
    else if name == "reject" || name == "/descarta" then Some(Rejected)
    else None
  }

  /** The words that decide, whatever space is around them. */
  lemma DecisionsByName(action: string)
    ensures Decision(action) == Some(Approved) <==> TrimSpace(action) == "approve" || TrimSpace(action) == "/aprueba"
    ensures Decision(action) == Some(Rejected) <==> TrimSpace(action) == "reject" || TrimSpace(action) == "/descarta"
    ensures Decision(action).Some? ==> Decision(action).value in {Approved, Rejected}
  {
    hide TrimSpace;
  }

  lemma ListedIsSaved(files: Files<Knowledge>, log: seq<Knowledge>, operatorId: int, days: seq<int>, item: Knowledge)
    requires Holds(files, KNOWLEDGE_PATH, log) && Lists(days, DaysOf(files, operatorId))
    requires Current(Scan(files, operatorId, days), operatorId, item.id) == Some(item)
    ensures item in log && item.operatorId == operatorId
    ensures CreatedOnce(log) ==> Current(log, operatorId, item.id) == Some(item)
  {
    LastWithMeans(HasId(operatorId, item.id), Scan(files, operatorId, days));
    ScanFindsAll(files, KNOWLEDGE_PATH, log, operatorId, days, item);
    if CreatedOnce(log) {
      ListingIsReplay(files, log, operatorId, days, item.id);
    }
  }

  /** The loop of `ReviewKnowledge`. */
  method FindItem(items: seq<Knowledge>, id: string) returns (found: Option<Knowledge>)
    ensures found.Some? ==> found.value in items && found.value.id == id
    ensures found.None? ==> forall k :: k in items ==> k.id != id
  {
    for i := 0 to |items|
      invariant forall k :: k in items[..i] ==> k.id != id
    {
      if items[i].id == id {
        return Some(items[i]);
      }
    }
    found := None;
  }

  lemma IsListed(items: seq<Knowledge>, s: seq<Knowledge>, operatorId: int, k: Knowledge)
    requires Listing(items, s, operatorId, Some(Candidate)) && k in items
    ensures Current(s, operatorId, k.id) == Some(k) && k.status == Candidate
  {
    assert k in multiset(items);
  }

  lemma NotListed(items: seq<Knowledge>, s: seq<Knowledge>, operatorId: int, id: string)
    requires Listing(items, s, operatorId, Some(Candidate)) && forall k :: k in items ==> k.id != id
    ensures Current(s, operatorId, id).Some? ==> Current(s, operatorId, id).value.status != Candidate
  {
    var current := Current(s, operatorId, id);
    LastWithMeans(HasId(operatorId, id), s);
    assert current.Some? ==> (current.value in items <==> multiset(items)[current.value] > 0);
  }

  // ----- what maintenance may do in between -----

  lemma {:induction false} PrunesKeep(run: Run, earlier: Run)
    requires run.PrunesSince(earlier)
    ensures run.Extends(earlier) && run.Used() == earlier.Used()
    ensures earlier.Served() ==> run.Served()
    ensures forall t :: earlier.Found(t) ==> run.Found(t)
    ensures forall k :: earlier.Listed(k) ==> run.Listed(k)
  {
    if run != earlier {
      PrunesKeep(run.before, earlier);
    }
  }

  lemma {:induction false} PrunesJoin(run: Run, mid: Run, earlier: Run)
    requires run.PrunesSince(mid) && mid.PrunesSince(earlier)
    ensures run.PrunesSince(earlier)
  {
    if run != mid {
      PrunesJoin(run.before, mid, earlier);
    }
  }

  function FeedbackOn(on: Trace, feedback: Label, correction: string, now: Instant, id: string): Feedback {
    Feedback(id, on.id, on.operatorId, now, feedback, correction)
  }

  /** After nothing but prunes, the item was saved. */
  ghost predicate SavedAfter(earlier: Run, run: Run, item: Knowledge) {
    run.Then? && run.op == SaveKnowledge(item) && run.before.PrunesSince(earlier)
  }

  class Service {
    const learning: JSONLLearningStore?
    const digest: (string, string) -> string

    constructor (learning: JSONLLearningStore?, digest: (string, string) -> string)
      ensures this.learning == learning && this.digest == digest
    {
      this.learning, this.digest := learning, digest;
    }

    /** Maintenance runs beside everything else, and prunes whenever the store's lock is free. */
    method Meanwhile(rounds: nat)
      requires learning != null && learning.Valid()
      modifies learning
      ensures learning.Valid() && learning.run.PrunesSince(old(learning.run))
    {
      for i := 0 to rounds
        invariant learning.Valid() && learning.run.PrunesSince(old(learning.run))
      {
        var now: Instant := *;
        var traceDays: int := *;
        var candidateDays: int := *;
        var error, left := learning.Prune(now, traceDays, candidateDays);
      }
    }

    /** The second half of `SubmitFeedback`, once the interaction has been found. Prunes may come before each
        of its steps; `late` is the run when the feedback is appended, and `saved` the run after that. */
    method SaveFeedback(on: Trace, feedback: Label, correction: string, now: Instant, feedbackId: string,
                        itemId: string, rounds: nat)
      returns (error: Option<Error>, ghost late: Run, ghost saved: Run)
      requires learning != null && learning.Valid() && learning.run.Then? && learning.run.op == FoundTrace(on)
      requires now != ZERO_TIME && feedbackId != "" && itemId != ""
      requires on.operatorId > 0 && !feedback.OtherLabel? && (feedback != Correct ==> !Blank(correction))
      modifies learning
      ensures learning.Valid()
      ensures late.PrunesSince(old(learning.run))
      ensures saved == Then(late, AppendFeedback(FeedbackOn(on, feedback, correction, now, feedbackId)))
      ensures error in {None, Some(SaveFailed), Some(CandidateFailed)}
      ensures learning.reliable && !Blank(on.id) ==> error == None
      ensures error == Some(SaveFailed) ==> learning.run == late || learning.run == saved
      ensures error == None && !MakesCandidate(feedback) ==> learning.run == saved
      ensures error == None && MakesCandidate(feedback) ==>
                SavedAfter(saved, learning.run, CandidateFrom(on, feedback, correction, itemId, now))
      ensures error == Some(CandidateFailed) ==>
                && MakesCandidate(feedback)
                && (learning.run.PrunesSince(saved) ||
                    SavedAfter(saved, learning.run, CandidateFrom(on, feedback, correction, itemId, now)))
      ensures old(learning.run).Served() && itemId !in old(learning.run).Used() ==> learning.run.Served()
    {
      hide TrimSpace, Holds, Next, AllSaved, Run.Legal, Run.After;
      ghost var begun := learning.run;
      Meanwhile(rounds);
      late := learning.run;
      PrunesKeep(late, begun);
      var event := FeedbackOn(on, feedback, correction, now, "");
      saved := Then(late, AppendFeedback(event.(id := feedbackId)));
      FeedbackIsServed(begun, late, on, event.(id := feedbackId));
      var failed := learning.AppendFeedback(event, feedbackId);
      if failed.Some? {
        return Some(SaveFailed), late, saved;
      }
      if MakesCandidate(feedback) {
        Meanwhile(rounds);
        PrunesKeep(learning.run, saved);
        var item := CandidateFrom(on, feedback, correction, "", now);
        failed := learning.SaveKnowledge(item.(updatedAt := ZERO_TIME), itemId, now);
        if failed.Some? {
          return Some(CandidateFailed), late, saved;
        }
      }
      error := None;
    }

    /** Feedback goes to the last interaction of the conversation, which is `on`. */
    method SubmitFeedback(operatorId: int, channel: string, conversation: string, feedback: Label, input: string,
                          now: Instant, feedbackId: string, itemId: string, rounds: nat)
      returns (error: Option<Error>, ghost on: Option<Trace>, ghost late: Run, ghost saved: Run)
      requires learning != null ==> learning.Valid()
      requires now != ZERO_TIME && feedbackId != "" && itemId != ""
      modifies learning
      ensures learning == null ==> error == Some(ContextUnavailable)
      ensures learning != null ==> learning.Valid()
      ensures learning != null && InputError(operatorId, channel, conversation, feedback, input).Some? ==>
                && error == InputError(operatorId, channel, conversation, feedback, input)
                && learning.run == old(learning.run)
      ensures learning != null && InputError(operatorId, channel, conversation, feedback, input).None? ==>
                error in {None, Some(CannotFindInteraction), Some(NoPreviousInteraction), Some(SaveFailed),
                          Some(CandidateFailed)}
      ensures learning != null && learning.reliable && error.Some? ==>
                || error == InputError(operatorId, channel, conversation, feedback, input)
                || error == Some(NoPreviousInteraction)
                || (on.Some? && Blank(on.value.id))
      ensures error in {Some(CannotFindInteraction), Some(NoPreviousInteraction)} ==> learning.run == old(learning.run)
      ensures error == Some(NoPreviousInteraction) ==>
                forall t :: t in old(learning.run.After().traces) ==>
                  !Matches(t, operatorId, channel, digest(channel, conversation))
      ensures error in {None, Some(SaveFailed), Some(CandidateFailed)} ==>
                && learning != null && on.Some? && late.PrunesSince(Then(old(learning.run), FoundTrace(on.value)))
                && LatestInLog(old(learning.run.After().traces), on.value, operatorId, channel,
                               digest(channel, conversation))
                && saved == Then(late, AppendFeedback(
                     FeedbackOn(on.value, feedback, TrimSpace(input), now, feedbackId)))
      ensures error == Some(SaveFailed) ==> learning.run == late || learning.run == saved
      ensures error == None && !MakesCandidate(feedback) ==> learning.run == saved
      ensures error == None && MakesCandidate(feedback) ==>
                SavedAfter(saved, learning.run, CandidateFrom(on.value, feedback, TrimSpace(input), itemId, now))
      ensures error == Some(CandidateFailed) ==>
                && MakesCandidate(feedback)
                && (learning.run.PrunesSince(saved) ||
                    SavedAfter(saved, learning.run, CandidateFrom(on.value, feedback, TrimSpace(input), itemId, now)))
      ensures learning != null && old(learning.run).Served() && itemId !in old(learning.run).Used() ==>
                learning.run.Served()
    {
      hide TrimSpace, Latest, Scan, Holds, Next, AllSaved, Run.Legal, SavedAfter, Run.PrunesSince;
      on, late, saved := None, Start, Start;
      if learning == null || operatorId <= 0 || Blank(channel) || Blank(conversation) {
        return Some(ContextUnavailable), on, late, saved;
      }
      if feedback.OtherLabel? {
        return Some(UnknownLabel), on, late, saved;
      }
      var correction := TrimSpace(input);
      if |correction| > MAX_CORRECTION {
        return Some(TooLong), on, late, saved;
      }
      if feedback != Correct && correction == "" {
        return Some(ReasonRequired), on, late, saved;
      }
      var trace, ok, days := learning.LastTrace(operatorId, channel, digest(channel, conversation));
      if !ok {
        return Some(CannotFindInteraction), on, late, saved;
      }
      LatestOfScan(learning.traces, learning.run.After().traces, operatorId, days, channel,
                   digest(channel, conversation));
      if trace.None? {
        return Some(NoPreviousInteraction), on, late, saved;
      }
      on := trace;
      learning.Note(FoundTrace(trace.value));
      TrimmedIsTrimmed(input);
      error, late, saved := SaveFeedback(trace.value, feedback, correction, now, feedbackId, itemId, rounds);
    }

    /** A review decides an item that was listed as a candidate. Between the listing and the saving, prunes
        may come; `late` is the run when the decision is saved. */
    method ReviewKnowledge(operatorId: int, action: string, itemId: string, now: Instant, rounds: nat)
      returns (error: Option<Error>, ghost days: seq<int>, ghost late: Run)
      requires learning != null ==> learning.Valid()
      requires now != ZERO_TIME
      modifies learning
      ensures learning == null || operatorId <= 0 || Blank(itemId) <==> error == Some(ReviewUnavailable)
      ensures learning != null ==> learning.Valid()
      ensures error == Some(UnknownAction) <==>
                learning != null && operatorId > 0 && !Blank(itemId) && Decision(action).None?
      ensures error.Some? ==>
                error.value in {ReviewUnavailable, UnknownAction, CannotLoad, CandidateNotFound, SaveFailed}
      ensures learning != null && learning.reliable ==> error != Some(CannotLoad) && error != Some(SaveFailed)
      ensures learning != null && error.Some? && error != Some(SaveFailed) ==> learning.run == old(learning.run)
      ensures error == Some(CandidateNotFound) ==>
                && Lists(days, DaysOf(old(learning.knowledge), operatorId))
                && var current := Current(Scan(old(learning.knowledge), operatorId, days), operatorId, itemId);
                   current.Some? ==> current.value.status != Candidate
      ensures error in {None, Some(SaveFailed)} ==>
                && learning != null && Decision(action).Some?
                && Lists(days, DaysOf(old(learning.knowledge), operatorId))
                && var current := Current(Scan(old(learning.knowledge), operatorId, days), operatorId, itemId);
                   && current.Some? && current.value.status == Candidate
                   && late.PrunesSince(Then(old(learning.run), ListedCandidate(current.value)))
                   && var saved := Then(late, SaveKnowledge(
                        current.value.(status := Decision(action).value, updatedAt := now)));
                      if error.None? then learning.run == saved else learning.run == late || learning.run == saved
      ensures learning != null && old(learning.run).Served() ==> learning.run.Served()
    {
      hide TrimSpace, Scan, Current, Listing, Holds, Next, Run.Legal;
      days, late := [], Start;
      if learning == null || operatorId <= 0 || Blank(itemId) {
        return Some(ReviewUnavailable), days, late;
      }
      var status := Decision(action);
      if status.None? {
        return Some(UnknownAction), days, late;
      }
      var items, ok, listed := learning.ListKnowledge(operatorId, Some(Candidate));
      days := listed;
      if !ok {
        return Some(CannotLoad), days, late;
      }
      ghost var scanned := Scan(learning.knowledge, operatorId, days);
      var found := FindItem(items, itemId);
      if found.None? {
        NotListed(items, scanned, operatorId, itemId);
        return Some(CandidateNotFound), days, late;
      }
      IsListed(items, scanned, operatorId, found.value);
      ListedIsSaved(learning.knowledge, learning.run.After().knowledge, operatorId, days, found.value);
      var decided := found.value.(status := status.value, updatedAt := now);
      learning.Note(ListedCandidate(found.value));
      ghost var begun := learning.run;
      Meanwhile(rounds);
      late := learning.run;
      DecisionIsServed(begun, late, found.value, decided);
      var failed := learning.SaveKnowledge(decided, "", now);
      error := if failed.Some? then Some(SaveFailed) else None;
    }
  }

  lemma DecisionIsServed(begun: Run, late: Run, k: Knowledge, decided: Knowledge)
    requires begun.Then? && begun.op == ListedCandidate(k) && late.PrunesSince(begun) && IsDecisionOf(decided, k)
    ensures begun.before.Served() ==> late.Served() && Then(late, SaveKnowledge(decided)).Served()
  {
    PrunesKeep(late, begun);
  }

  lemma FeedbackIsServed(begun: Run, late: Run, t: Trace, f: Feedback)
    requires begun.Then? && begun.op == FoundTrace(t) && late.PrunesSince(begun) && IsOn(f, t)
    ensures late.Served() ==> Then(late, AppendFeedback(f)).Served()
    ensures late.Used() == Then(late, AppendFeedback(f)).Used()
  {
    PrunesKeep(late, begun);
  }
}
