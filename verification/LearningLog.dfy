/** What the learning store holds (internal/secretary/learning_store.go, learning_feedback.go), as the logs of
    what was appended: traces of interactions, feedback on them, and knowledge, which starts as a candidate
    and is decided by a review. The files of the store are these logs, filed by operator and day.

    A run is a sequence of what is done under the store's lock. Submitting feedback and reviewing an item
    take the lock more than once, so other steps can come between what they read and what they write. */
module LearningLog {
  import opened Common
  import opened DayFiles
  import Sorting

  /** Nanoseconds, UTC; 0 is the zero time. */
  type Instant = int

  const ZERO_TIME: Instant := 0
  const NANOSECONDS_PER_DAY := 86_400_000_000_000

  datatype Status = Candidate | Approved | Rejected | OtherStatus(name: string)

  datatype Label =
    | Correct | Incorrect | WrongSource | MissingSource | WrongEntity | MissingFact | Style | OtherLabel(name: string)

  datatype Trace = Trace(
    id: string, operatorId: int, at: Instant, channel: string, conversation: string, evidence: seq<string>)

  datatype Feedback = Feedback(
    id: string, interactionId: string, operatorId: int, at: Instant, feedback: Label, correction: string)

  datatype Knowledge = Knowledge(
    id: string, operatorId: int, subject: string, about: Label, value: string, sources: seq<string>,
    status: Status, createdAt: Instant, updatedAt: Instant, validUntil: Instant)

  datatype Logs = Logs(traces: seq<Trace>, feedback: seq<Feedback>, knowledge: seq<Knowledge>)

  // ----- the files -----

  function DayOf(at: Instant): int {
    at / NANOSECONDS_PER_DAY
  }

  const TRACE_PATH := (t: Trace) => Path(t.operatorId, DayOf(t.at))
  const FEEDBACK_PATH := (f: Feedback) => Path(f.operatorId, DayOf(f.at))
  const KNOWLEDGE_PATH := (k: Knowledge) => Path(k.operatorId, DayOf(k.createdAt))

  function HasId(operatorId: int, id: string): Knowledge -> bool {
    (k: Knowledge) => k.operatorId == operatorId && k.id == id
  }

  /** The record of an id that was appended last. */
  function Current(log: seq<Knowledge>, operatorId: int, id: string): Option<Knowledge> {
    LastWith(HasId(operatorId, id), log)
  }

  // ----- pruning -----

  function KeepTrace(cutoff: Instant): Trace -> bool {
    (t: Trace) => t.at >= cutoff
  }

  function KeepFeedback(cutoff: Instant, active: set<string>): Feedback -> bool {
    (f: Feedback) => f.at >= cutoff && f.interactionId in active
  }

  function KeepKnowledge(now: Instant, cutoff: Instant): Knowledge -> bool {
    (k: Knowledge) =>
      if k.status == Candidate then k.createdAt >= cutoff
      else if k.status == Approved && k.validUntil != ZERO_TIME then k.validUntil > now
      else true
  }

  function Ids(traces: seq<Trace>): set<string> {
    set t | t in traces :: t.id
  }

  function Cutoff(now: Instant, days: int): Instant {
    now - days * NANOSECONDS_PER_DAY
  }

  /** What a prune should leave. */
  function PrunedLogs(l: Logs, now: Instant, traceDays: int, candidateDays: int): Logs {
    var traces := Sorting.Filter(KeepTrace(Cutoff(now, traceDays)), l.traces);
    Logs(traces,
         Sorting.Filter(KeepFeedback(Cutoff(now, traceDays), Ids(traces)), l.feedback),
         Sorting.Filter(KeepKnowledge(now, Cutoff(now, candidateDays)), l.knowledge))
  }

  /** The ids of the traces that a prune keeps, whether or not they are then written whole. */
  function ActiveTraceIds(l: Logs, now: Instant, traceDays: int): set<string> {
    Ids(Sorting.Filter(KeepTrace(Cutoff(now, traceDays)), l.traces))
  }

  /** The files that a prune has rewritten, and how many records it has written to each. */
  datatype Left = Left(traces: map<Path, nat>, feedback: map<Path, nat>, knowledge: map<Path, nat>)

  /** What a prune leaves, finished or not, when writes may be cut short. */
  function PruneLeaves(l: Logs, now: Instant, traceDays: int, candidateDays: int, left: Left): Logs {
    var cutoff := Cutoff(now, traceDays);
    Logs(Rewritten(TRACE_PATH, KeepTrace(cutoff), l.traces, left.traces),
         Rewritten(FEEDBACK_PATH, KeepFeedback(cutoff, ActiveTraceIds(l, now, traceDays)), l.feedback, left.feedback),
         Rewritten(KNOWLEDGE_PATH, KeepKnowledge(now, Cutoff(now, candidateDays)), l.knowledge, left.knowledge))
  }

  /** Traces are rewritten first, then feedback, then knowledge. */
  ghost predicate InOrder(l: Logs, left: Left) {
    && (left.feedback != map[] ==> Covered(TRACE_PATH, l.traces, left.traces))
    && (left.knowledge != map[] ==>
          Covered(TRACE_PATH, l.traces, left.traces) && Covered(FEEDBACK_PATH, l.feedback, left.feedback))
  }

  /** The prune has gone through all files, as one that reports success has. */
  ghost predicate Finished(l: Logs, left: Left) {
    && Covered(TRACE_PATH, l.traces, left.traces)
    && Covered(FEEDBACK_PATH, l.feedback, left.feedback)
    && Covered(KNOWLEDGE_PATH, l.knowledge, left.knowledge)
  }

  ghost predicate WrittenWhole(l: Logs, now: Instant, traceDays: int, candidateDays: int, left: Left) {
    var cutoff := Cutoff(now, traceDays);
    && Whole(TRACE_PATH, KeepTrace(cutoff), l.traces, left.traces)
    && Whole(FEEDBACK_PATH, KeepFeedback(cutoff, ActiveTraceIds(l, now, traceDays)), l.feedback, left.feedback)
    && Whole(KNOWLEDGE_PATH, KeepKnowledge(now, Cutoff(now, candidateDays)), l.knowledge, left.knowledge)
  }

  /** A prune that reports success has left what it should if and only if every file was written whole. */
  lemma FinishedPruneIsRightIff(l: Logs, now: Instant, traceDays: int, candidateDays: int, left: Left)
    requires Finished(l, left)
    ensures PruneLeaves(l, now, traceDays, candidateDays, left) == PrunedLogs(l, now, traceDays, candidateDays)
       <==> WrittenWhole(l, now, traceDays, candidateDays, left)
  {
    var cutoff := Cutoff(now, traceDays);
    var keepFeedback := KeepFeedback(cutoff, ActiveTraceIds(l, now, traceDays));
    RewrittenIsFilterIff(TRACE_PATH, KeepTrace(cutoff), l.traces, left.traces);
    RewrittenIsFilterIff(FEEDBACK_PATH, keepFeedback, l.feedback, left.feedback);
    RewrittenIsFilterIff(KNOWLEDGE_PATH, KeepKnowledge(now, Cutoff(now, candidateDays)), l.knowledge, left.knowledge);
    hide Rewritten, Sorting.Filter, Whole, Covered;
  }

  /** A prune that was refused, but wrote whole what it wrote, leaves what it should of the files that it came
      to, and all of the others. */
  lemma RefusedPruneLeaves(l: Logs, now: Instant, traceDays: int, candidateDays: int, left: Left)
    requires WrittenWhole(l, now, traceDays, candidateDays, left)
    ensures var cutoff := Cutoff(now, traceDays);
      var active := ActiveTraceIds(l, now, traceDays);
      var l' := PruneLeaves(l, now, traceDays, candidateDays, left);
      && (forall t :: t in l'.traces <==> t in l.traces && (TRACE_PATH(t) in left.traces ==> KeepTrace(cutoff)(t)))
      && (forall f :: f in l'.feedback <==>
            f in l.feedback && (FEEDBACK_PATH(f) in left.feedback ==> KeepFeedback(cutoff, active)(f)))
      && (forall k :: k in l'.knowledge <==>
            && k in l.knowledge
            && (KNOWLEDGE_PATH(k) in left.knowledge ==> KeepKnowledge(now, Cutoff(now, candidateDays))(k)))
  {
    var cutoff := Cutoff(now, traceDays);
    var keepFeedback := KeepFeedback(cutoff, ActiveTraceIds(l, now, traceDays));
    var keepKnowledge := KeepKnowledge(now, Cutoff(now, candidateDays));
    forall t { WholeKeeps(TRACE_PATH, KeepTrace(cutoff), l.traces, left.traces, t); }
    forall f { WholeKeeps(FEEDBACK_PATH, keepFeedback, l.feedback, left.feedback, f); }
    forall k { WholeKeeps(KNOWLEDGE_PATH, keepKnowledge, l.knowledge, left.knowledge, k); }
    hide Rewritten, Whole;
  }

  /** Whatever a prune that was refused has done, a later one that succeeds and is written whole leaves what
      it would have left without it. */
  lemma RefusedPruneCanBeRepeated(l: Logs, now: Instant, later: Instant, traceDays: int, candidateDays: int, left: Left)
    requires now <= later && WrittenWhole(l, now, traceDays, candidateDays, left)
    ensures PrunedLogs(PruneLeaves(l, now, traceDays, candidateDays, left), later, traceDays, candidateDays)
         == PrunedLogs(l, later, traceDays, candidateDays)
  {
    var cutoff, cutoff' := Cutoff(now, traceDays), Cutoff(later, traceDays);
    var active, active' := ActiveTraceIds(l, now, traceDays), ActiveTraceIds(l, later, traceDays);
    FilterMembers(KeepTrace(cutoff), l.traces);
    FilterMembers(KeepTrace(cutoff'), l.traces);
    assert active' <= active;
    RepeatedRewriting(TRACE_PATH, KeepTrace(cutoff), KeepTrace(cutoff'), l.traces, left.traces);
    RepeatedRewriting(FEEDBACK_PATH, KeepFeedback(cutoff, active), KeepFeedback(cutoff', active'),
                      l.feedback, left.feedback);
    RepeatedRewriting(KNOWLEDGE_PATH, KeepKnowledge(now, Cutoff(now, candidateDays)),
                      KeepKnowledge(later, Cutoff(later, candidateDays)), l.knowledge, left.knowledge);
  }

  // ----- what the logs keep -----

  ghost predicate HangsOn(traces: seq<Trace>, f: Feedback) {
    exists t :: t in traces && t.id == f.interactionId && t.operatorId == f.operatorId
  }

  /** Feedback is on an interaction that is still there, of the same operator. */
  ghost predicate NothingDangles(l: Logs) {
    forall f :: f in l.feedback ==> HangsOn(l.traces, f)
  }

  ghost predicate TracesDiffer(traces: seq<Trace>) {
    forall t, u :: t in traces && u in traces && t.id == u.id ==> t == u
  }

  ghost predicate CreatedOnce(log: seq<Knowledge>) {
    forall j, k :: j in log && k in log && j.id == k.id && j.operatorId == k.operatorId ==> j.createdAt == k.createdAt
  }

  /** Of two records of the same id the first is the candidate, and the second its decision. */
  ghost predicate DecidedOnce(log: seq<Knowledge>) {
    log == [] ||
    var front, last := log[..|log| - 1], log[|log| - 1];
    DecidedOnce(front) && Decides(front, last)
  }

  ghost predicate Decides(front: seq<Knowledge>, last: Knowledge) {
    forall k :: k in front && HasId(last.operatorId, last.id)(k) ==> k.status == Candidate && last.status != Candidate
  }

  /** A record that has another of the same id before it is no candidate. */
  ghost predicate CandidatesFirst(log: seq<Knowledge>) {
    log == [] ||
    var front, last := log[..|log| - 1], log[|log| - 1];
    CandidatesFirst(front) && Follows(front, last)
  }

  ghost predicate Follows(front: seq<Knowledge>, last: Knowledge) {
    (exists k :: k in front && HasId(last.operatorId, last.id)(k)) ==> last.status != Candidate
  }

  lemma {:induction false} DecidedOnceCandidatesFirst(log: seq<Knowledge>)
    requires DecidedOnce(log)
    ensures CandidatesFirst(log)
  {
    if log != [] {
      DecidedOnceCandidatesFirst(log[..|log| - 1]);
    }
  }

  ghost predicate NeverExpires(log: seq<Knowledge>) {
    forall k :: k in log ==> k.validUntil == ZERO_TIME
  }

  lemma {:induction false} DecidedOncePairs(log: seq<Knowledge>, i: nat, j: nat)
    requires DecidedOnce(log) && i < j < |log|
    requires log[i].id == log[j].id && log[i].operatorId == log[j].operatorId
    ensures log[i].status == Candidate && log[j].status != Candidate
  {
    if j < |log| - 1 {
      DecidedOncePairs(log[..|log| - 1], i, j);
    } else {
      assert log[i] in log[..|log| - 1];
    }
  }

  lemma CandidatesFirstOneMore(log: seq<Knowledge>, k: Knowledge)
    ensures CandidatesFirst(log + [k]) <==> CandidatesFirst(log) && Follows(log, k)
  {
    assert (log + [k])[..|log|] == log;
  }

  lemma DecidedOnceOneMore(log: seq<Knowledge>, k: Knowledge)
    ensures DecidedOnce(log + [k]) <==> DecidedOnce(log) && Decides(log, k)
  {
    assert (log + [k])[..|log|] == log;
  }

  /** A candidate that is the last of its id is the only kind of record that the id has. */
  lemma {:induction false} CandidateIsOnlyRecord(log: seq<Knowledge>, operatorId: int, id: string)
    requires CandidatesFirst(log) && Current(log, operatorId, id).Some?
    requires Current(log, operatorId, id).value.status == Candidate
    ensures forall k :: k in log && HasId(operatorId, id)(k) ==> k == Current(log, operatorId, id).value
  {
    var front, last := log[..|log| - 1], log[|log| - 1];
    assert log == front + [last];
    if !HasId(operatorId, id)(last) {
      CandidateIsOnlyRecord(front, operatorId, id);
    } else {
      assert forall k :: k in front ==> !HasId(operatorId, id)(k);
    }
  }

  /** Saving a decision keeps every id decided at most once if and only if the id has not been decided
      already, which nothing checks when another review comes between reading the candidates and saving. */
  lemma SavedDecisionIsOnlyOneIff(log: seq<Knowledge>, decided: Knowledge)
    requires DecidedOnce(log) && decided.status != Candidate
    ensures DecidedOnce(log + [decided]) <==>
            var current := Current(log, decided.operatorId, decided.id);
            current.Some? ==> current.value.status == Candidate
  {
    var p := HasId(decided.operatorId, decided.id);
    DecidedOnceOneMore(log, decided);
    DecidedOnceCandidatesFirst(log);
    LastWithMeans(p, log);
    var current := Current(log, decided.operatorId, decided.id);
    if current.Some? && current.value.status == Candidate {
      CandidateIsOnlyRecord(log, decided.operatorId, decided.id);
    }
  }

  // ----- what a prune removes -----

  /** A prune removes the records that are not kept, and what was current stays so if it is kept. */
  lemma CurrentAfterFilter(keep: Knowledge -> bool, log: seq<Knowledge>, operatorId: int, id: string)
    ensures Current(Sorting.Filter(keep, log), operatorId, id) == LastWith(Both(HasId(operatorId, id), keep), log)
    ensures Current(log, operatorId, id).Some? && keep(Current(log, operatorId, id).value) ==>
              Current(Sorting.Filter(keep, log), operatorId, id) == Current(log, operatorId, id)
  {
    var p := HasId(operatorId, id);
    LastWithFilter(p, keep, log);
    if Current(log, operatorId, id).Some? && keep(Current(log, operatorId, id).value) {
      LastStaysLast(p, keep, log);
    }
  }

  lemma NothingAfterFilter(keep: Knowledge -> bool, log: seq<Knowledge>, operatorId: int, id: string)
    requires forall k :: k in log && HasId(operatorId, id)(k) ==> !keep(k)
    ensures Current(Sorting.Filter(keep, log), operatorId, id) == None
  {
    FilterMembers(keep, log);
    LastWithMeans(HasId(operatorId, id), Sorting.Filter(keep, log));
  }

  /** Of what feedback and reviews have made, a prune takes exactly the undecided candidates from before the cutoff. */
  lemma PruneTakesOldCandidates(log: seq<Knowledge>, now: Instant, cutoff: Instant, operatorId: int, id: string)
    requires CandidatesFirst(log) && NeverExpires(log)
    ensures var current := Current(log, operatorId, id);
      Current(Sorting.Filter(KeepKnowledge(now, cutoff), log), operatorId, id) ==
        if current.Some? && current.value.status == Candidate && current.value.createdAt < cutoff then None else current
  {
    var keep, current := KeepKnowledge(now, cutoff), Current(log, operatorId, id);
    LastWithMeans(HasId(operatorId, id), log);
    if current.Some? && keep(current.value) {
      CurrentAfterFilter(keep, log, operatorId, id);
    } else {
      if current.Some? {
        CandidateIsOnlyRecord(log, operatorId, id);
      }
      NothingAfterFilter(keep, log, operatorId, id);
    }
  }

  /** In general a decided record is a candidate again after a prune if and only if it is approved, its validity
      has ended, and its candidate is kept. */
  lemma DecidedComesBackIff(log: seq<Knowledge>, now: Instant, cutoff: Instant, operatorId: int, id: string)
    requires DecidedOnce(log)
    requires Current(log, operatorId, id).Some? && Current(log, operatorId, id).value.status != Candidate
    ensures var decided := Current(log, operatorId, id).value;
      var after := Current(Sorting.Filter(KeepKnowledge(now, cutoff), log), operatorId, id);
      (after.Some? && after.value.status == Candidate) <==>
        && decided.status == Approved && decided.validUntil != ZERO_TIME && decided.validUntil <= now
        && exists k :: k in log && HasId(operatorId, id)(k) && k.status == Candidate && k.createdAt >= cutoff
  {
    var keep, p := KeepKnowledge(now, cutoff), HasId(operatorId, id);
    var decided := Current(log, operatorId, id).value;
    CurrentAfterFilter(keep, log, operatorId, id);
    LastWithMeans(p, log);
    if !keep(decided) {
      LastWithMeans(p, Sorting.Filter(keep, log));
      FilterMembers(keep, log);
      OthersAreCandidates(log, operatorId, id);
    }
  }

  lemma {:induction false} OthersAreCandidates(log: seq<Knowledge>, operatorId: int, id: string)
    requires DecidedOnce(log) && Current(log, operatorId, id).Some?
    ensures forall k :: k in log && HasId(operatorId, id)(k) && k != Current(log, operatorId, id).value ==>
              k.status == Candidate
  {
    var front, last := log[..|log| - 1], log[|log| - 1];
    assert log == front + [last];
    if !HasId(operatorId, id)(last) {
      OthersAreCandidates(front, operatorId, id);
    }
  }

  /** An approval that has expired, of a candidate that is still recent. */
  lemma ExpiryBringsCandidateBack() returns (candidate: Knowledge, decided: Knowledge)
    ensures var log := [candidate, decided];
      && DecidedOnce(log) && CreatedOnce(log) && Current(log, 1, "k") == Some(decided) && decided.status == Approved
      && Current(Sorting.Filter(KeepKnowledge(30, 5), log), 1, "k") == Some(candidate) && candidate.status == Candidate
  {
    candidate := Knowledge("k", 1, "", MissingFact, "v", [], Candidate, 10, 10, ZERO_TIME);
    decided := candidate.(status := Approved, updatedAt := 15, validUntil := 20);
    var log := [candidate, decided];
    assert log == [candidate] + [decided] && [candidate] == [] + [candidate];
    DecidedOnceOneMore([], candidate);
    DecidedOnceOneMore([candidate], decided);
    Sorting.FilterOneMore(KeepKnowledge(30, 5), [candidate], decided);
    Sorting.FilterOneMore(KeepKnowledge(30, 5), [], candidate);
  }

  // ----- forgetting -----

  /** The files that a forgetting has removed. */
  datatype Gone = Gone(traces: set<Path>, feedback: set<Path>, knowledge: set<Path>)

  function NotOn<T>(path: T -> Path, gone: set<Path>): T -> bool {
    (x: T) => path(x) !in gone
  }

  /** What a forgetting leaves, finished or not. */
  function ForgetLeaves(l: Logs, gone: Gone): Logs {
    Logs(Sorting.Filter(NotOn(TRACE_PATH, gone.traces), l.traces),
         Sorting.Filter(NotOn(FEEDBACK_PATH, gone.feedback), l.feedback),
         Sorting.Filter(NotOn(KNOWLEDGE_PATH, gone.knowledge), l.knowledge))
  }

  function OwnedByOther<T>(path: T -> Path, operatorId: int): T -> bool {
    (x: T) => path(x).owner != operatorId
  }

  /** What a forgetting should leave. */
  function ForgottenLogs(l: Logs, operatorId: int): Logs {
    Logs(Sorting.Filter(OwnedByOther(TRACE_PATH, operatorId), l.traces),
         Sorting.Filter(OwnedByOther(FEEDBACK_PATH, operatorId), l.feedback),
         Sorting.Filter(OwnedByOther(KNOWLEDGE_PATH, operatorId), l.knowledge))
  }

  ghost predicate AllGone<T(!new)>(path: T -> Path, log: seq<T>, operatorId: int, gone: set<Path>) {
    forall x :: x in log && path(x).owner == operatorId ==> path(x) in gone
  }

  /** Only files of the operator are removed: first those of traces, then feedback, then knowledge. */
  ghost predicate ForgetsInOrder(l: Logs, operatorId: int, gone: Gone) {
    && (forall p :: p in gone.traces + gone.feedback + gone.knowledge ==> p.owner == operatorId)
    && (gone.feedback != {} ==> AllGone(TRACE_PATH, l.traces, operatorId, gone.traces))
    && (gone.knowledge != {} ==>
          && AllGone(TRACE_PATH, l.traces, operatorId, gone.traces)
          && AllGone(FEEDBACK_PATH, l.feedback, operatorId, gone.feedback))
  }

  /** The forgetting has gone through all files, as one that reports success has. */
  ghost predicate ForgetFinished(l: Logs, operatorId: int, gone: Gone) {
    && AllGone(TRACE_PATH, l.traces, operatorId, gone.traces)
    && AllGone(FEEDBACK_PATH, l.feedback, operatorId, gone.feedback)
    && AllGone(KNOWLEDGE_PATH, l.knowledge, operatorId, gone.knowledge)
  }

  lemma AllGoneIff<T(!new)>(path: T -> Path, log: seq<T>, operatorId: int, gone: set<Path>)
    requires forall p :: p in gone ==> p.owner == operatorId
    ensures Sorting.Filter(NotOn(path, gone), log) == Sorting.Filter(OwnedByOther(path, operatorId), log)
       <==> AllGone(path, log, operatorId, gone)
  {
    FilterMembers(NotOn(path, gone), log);
    FilterMembers(OwnedByOther(path, operatorId), log);
    if AllGone(path, log, operatorId, gone) {
      FilterSame(NotOn(path, gone), OwnedByOther(path, operatorId), log);
    } else {
      var x :| x in log && path(x).owner == operatorId && path(x) !in gone;
      assert x in Sorting.Filter(NotOn(path, gone), log) && x !in Sorting.Filter(OwnedByOther(path, operatorId), log);
    }
  }

  /** A forgetting takes everything of the operator, and nothing else, if and only if it has gone through all
      files. */
  lemma ForgetIsRightIff(l: Logs, operatorId: int, gone: Gone)
    requires ForgetsInOrder(l, operatorId, gone)
    ensures ForgetLeaves(l, gone) == ForgottenLogs(l, operatorId) <==> ForgetFinished(l, operatorId, gone)
  {
    AllGoneIff(TRACE_PATH, l.traces, operatorId, gone.traces);
    AllGoneIff(FEEDBACK_PATH, l.feedback, operatorId, gone.feedback);
    AllGoneIff(KNOWLEDGE_PATH, l.knowledge, operatorId, gone.knowledge);
    hide AllGone, Sorting.Filter;
  }

  lemma ForgottenTwice<T(!new)>(path: T -> Path, log: seq<T>, operatorId: int, gone: set<Path>)
    requires forall p :: p in gone ==> p.owner == operatorId
    ensures Sorting.Filter(OwnedByOther(path, operatorId), Sorting.Filter(NotOn(path, gone), log))
         == Sorting.Filter(OwnedByOther(path, operatorId), log)
  {
    FilterTwice(OwnedByOther(path, operatorId), NotOn(path, gone), log);
    FilterSame(Both(OwnedByOther(path, operatorId), NotOn(path, gone)), OwnedByOther(path, operatorId), log);
  }

  /** Whatever a forgetting that was refused has done, a later one that succeeds leaves what it would have left
      without it. */
  lemma RefusedForgetCanBeRepeated(l: Logs, operatorId: int, gone: Gone, later: Gone)
    requires ForgetsInOrder(l, operatorId, gone) && ForgetsInOrder(ForgetLeaves(l, gone), operatorId, later)
    requires ForgetFinished(ForgetLeaves(l, gone), operatorId, later)
    ensures ForgetLeaves(ForgetLeaves(l, gone), later) == ForgottenLogs(l, operatorId)
  {
    ForgetIsRightIff(ForgetLeaves(l, gone), operatorId, later);
    ForgottenTwice(TRACE_PATH, l.traces, operatorId, gone.traces);
    ForgottenTwice(FEEDBACK_PATH, l.feedback, operatorId, gone.feedback);
    ForgottenTwice(KNOWLEDGE_PATH, l.knowledge, operatorId, gone.knowledge);
    hide AllGone, Sorting.Filter;
  }

  /** Finished or not, a forgetting takes all of an item or nothing: its records are in one file. */
  lemma ForgetLeavesCurrent(log: seq<Knowledge>, gone: set<Path>, operatorId: int, id: string)
    requires CreatedOnce(log)
    ensures var current := Current(log, operatorId, id);
      Current(Sorting.Filter(NotOn(KNOWLEDGE_PATH, gone), log), operatorId, id) ==
        if current.Some? && KNOWLEDGE_PATH(current.value) in gone then None else current
  {
    var keep, current := NotOn(KNOWLEDGE_PATH, gone), Current(log, operatorId, id);
    LastWithMeans(HasId(operatorId, id), log);
    if current.Some? && keep(current.value) {
      CurrentAfterFilter(keep, log, operatorId, id);
    } else {
      NothingAfterFilter(keep, log, operatorId, id);
    }
  }

  // ----- listing -----

  /** Going through the day files and keeping the last record of each id is the same as replaying everything
      in the order in which it was appended, since an item keeps the time it was created at. */
  lemma ListingIsReplay(files: Files<Knowledge>, log: seq<Knowledge>, operatorId: int, days: seq<int>, id: string)
    requires Holds(files, KNOWLEDGE_PATH, log) && CreatedOnce(log) && Lists(days, DaysOf(files, operatorId))
    ensures Current(Scan(files, operatorId, days), operatorId, id) == Current(log, operatorId, id)
  {
    var p := HasId(operatorId, id);
    LastWithMeans(p, log);
    ScanIsReplayIff(files, KNOWLEDGE_PATH, log, operatorId, days, p);
  }

  /** An item that was saved again with an earlier time of creation is listed as it was before. */
  lemma ListingCanBeStale(k: Knowledge, files: Files<Knowledge>, days: seq<int>)
    requires DayOf(k.createdAt) > 0
    requires Holds(files, KNOWLEDGE_PATH, [k, k.(createdAt := 1, value := k.value + "!")])
    requires Lists(days, DaysOf(files, k.operatorId))
    ensures var again := k.(createdAt := 1, value := k.value + "!");
      && Current([k, again], k.operatorId, k.id) == Some(again)
      && Current(Scan(files, k.operatorId, days), k.operatorId, k.id) != Some(again)
  {
    var again := k.(createdAt := 1, value := k.value + "!");
    var log := [k, again];
    ScanIsReplayIff(files, KNOWLEDGE_PATH, log, k.operatorId, days, HasId(k.operatorId, k.id));
    assert k in log;
  }

  // ----- what a prune leaves -----

  /** Whatever the store holds, a prune should leave exactly the recent feedback whose interaction it leaves. */
  lemma PruneKeepsFeedbackIff(l: Logs, now: Instant, traceDays: int, candidateDays: int, f: Feedback)
    ensures var l' := PrunedLogs(l, now, traceDays, candidateDays);
      f in l'.feedback <==>
        && f in l.feedback && f.at >= now - traceDays * 86_400_000_000_000
        && exists t :: t in l.traces && t.at >= now - traceDays * 86_400_000_000_000 && t.id == f.interactionId
  {
    var l' := PrunedLogs(l, now, traceDays, candidateDays);
    FilterMembers(KeepTrace(Cutoff(now, traceDays)), l.traces);
    FilterMembers(KeepFeedback(Cutoff(now, traceDays), Ids(l'.traces)), l.feedback);
    if f.interactionId in Ids(l'.traces) {
      var t :| t in l'.traces && t.id == f.interactionId;
      assert t in l.traces && t.at >= Cutoff(now, traceDays);
    }
    if t :| t in l.traces && t.at >= now - traceDays * 86_400_000_000_000 && t.id == f.interactionId {
      assert t in l'.traces;
    }
  }

  /** What else it should leave: recent traces; and of knowledge recent candidates, approvals that are still valid,
      and whatever has neither to expire nor to be decided. */
  lemma PruneKeepsTraceIff(l: Logs, now: Instant, traceDays: int, candidateDays: int, t: Trace)
    ensures t in PrunedLogs(l, now, traceDays, candidateDays).traces <==>
              t in l.traces && t.at >= now - traceDays * 86_400_000_000_000
  {
    FilterMembers(KeepTrace(Cutoff(now, traceDays)), l.traces);
  }

  lemma PruneKeepsKnowledgeIff(l: Logs, now: Instant, traceDays: int, candidateDays: int, k: Knowledge)
    ensures k in PrunedLogs(l, now, traceDays, candidateDays).knowledge <==>
              && k in l.knowledge
              && (k.status == Candidate ==> k.createdAt >= now - candidateDays * 86_400_000_000_000)
              && (k.status == Approved && k.validUntil != 0 ==> k.validUntil > now)
  {
    FilterMembers(KeepKnowledge(now, Cutoff(now, candidateDays)), l.knowledge);
  }

  /** Of two places in a list that have a property, how much of the list is there decides which is the last. */
  lemma {:induction false} LastOfTwo<T>(p: T -> bool, s: seq<T>, i: nat, j: nat, n: nat)
    requires i < j < |s| && n <= |s| && p(s[i]) && p(s[j])
    requires forall m :: 0 <= m < |s| && m != i && m != j ==> !p(s[m])
    ensures LastWith(p, s[..n]) == if n <= i then None else if n <= j then Some(s[i]) else Some(s[j])
  {
    if n > 0 {
      assert s[..n][..n - 1] == s[..n - 1];
      LastOfTwo(p, s, i, j, n - 1);
    }
  }

  /** A write that is cut short can bring an item back that was decided: it is a candidate again if and only
      if what was written to its file ends between the candidate and the decision. */
  lemma LostDecisionComesBackIff(log: seq<Knowledge>, keep: Knowledge -> bool, left: map<Path, nat>,
                                 file: Path, i: nat, j: nat)
    requires CreatedOnce(log) && DecidedOnce(log) && file in left
    requires var kept := Sorting.Filter(Keeping(KNOWLEDGE_PATH, keep, file), log);
      i < j < |kept| && kept[i].id == kept[j].id && kept[i].operatorId == kept[j].operatorId
    ensures var kept := Sorting.Filter(Keeping(KNOWLEDGE_PATH, keep, file), log);
      var current := Current(Rewritten(KNOWLEDGE_PATH, keep, log, left), kept[i].operatorId, kept[i].id);
      && kept[i].status == Candidate && kept[j].status != Candidate
      && ((current.Some? && current.value.status == Candidate) <==> i < left[file] <= j)
  {
    var keeping := Keeping(KNOWLEDGE_PATH, keep, file);
    var kept := Sorting.Filter(keeping, log);
    var p, after := HasId(kept[i].operatorId, kept[i].id), Rewritten(KNOWLEDGE_PATH, keep, log, left);
    FilterMembers(keeping, log);
    FilterKeepsDecidedOnce(keeping, log);
    DecidedOncePairs(kept, i, j);
    RewrittenMembers(KNOWLEDGE_PATH, keep, log, left);
    RewrittenFile(KNOWLEDGE_PATH, keep, log, left, file);
    assert kept[i] in kept && KNOWLEDGE_PATH(kept[i]) == file;
    hide Rewritten, Sorting.Filter;
    OneFileOfItem(log, after, kept[i]);
    hide CreatedOnce;
    LastWithFilter(p, OnPath(KNOWLEDGE_PATH, file), after);
    LastWithSame(p, Both(p, OnPath(KNOWLEDGE_PATH, file)), after);
    LastOfTaken(kept, i, j, left[file]);
    hide DecidedOnce, LastWith;
  }

  /** An item has all its records in one file. */
  lemma OneFileOfItem(log: seq<Knowledge>, after: seq<Knowledge>, x: Knowledge)
    requires CreatedOnce(log) && x in log && forall k :: k in after ==> k in log
    ensures forall k :: k in after && HasId(x.operatorId, x.id)(k) ==> KNOWLEDGE_PATH(k) == KNOWLEDGE_PATH(x)
  {
  }

  lemma LastOfTaken(kept: seq<Knowledge>, i: nat, j: nat, n: nat)
    requires DecidedOnce(kept) && i < j < |kept|
    requires kept[i].id == kept[j].id && kept[i].operatorId == kept[j].operatorId
    ensures LastWith(HasId(kept[i].operatorId, kept[i].id), Take(kept, n)) ==
            if n <= i then None else if n <= j then Some(kept[i]) else Some(kept[j])
  {
    var p := HasId(kept[i].operatorId, kept[i].id);
    hide DecidedOnce, LastWith;
    forall m | 0 <= m < |kept| && m != i && m != j ensures !p(kept[m]) {
      NoThird(kept, i, j, m);
    }
    assert Take(kept, n) == kept[..if |kept| <= n then |kept| else n];
    LastOfTwo(p, kept, i, j, if |kept| <= n then |kept| else n);
  }

  lemma NoThird(log: seq<Knowledge>, i: nat, j: nat, m: nat)
    requires DecidedOnce(log) && i < j < |log| && m < |log| && m != i && m != j
    requires log[i].id == log[j].id && log[i].operatorId == log[j].operatorId
    ensures !HasId(log[i].operatorId, log[i].id)(log[m])
  {
    if HasId(log[i].operatorId, log[i].id)(log[m]) {
      DecidedOncePairs(log, i, j);
      if m < j {
        DecidedOncePairs(log, m, j);
      } else {
        DecidedOncePairs(log, j, m);
      }
      if m < i {
        DecidedOncePairs(log, m, i);
      } else {
        DecidedOncePairs(log, i, m);
      }
      assert false;
    }
  }

  lemma {:induction false} LastWithSame<T>(p: T -> bool, q: T -> bool, s: seq<T>)
    requires forall x :: x in s ==> p(x) == q(x)
    ensures LastWith(p, s) == LastWith(q, s)
  {
    if s != [] {
      LastWithSame(p, q, s[..|s| - 1]);
    }
  }

  lemma {:induction false} FilterKeepsDecidedOnce(keep: Knowledge -> bool, log: seq<Knowledge>)
    requires DecidedOnce(log)
    ensures DecidedOnce(Sorting.Filter(keep, log))
  {
    if log != [] {
      var front, last := log[..|log| - 1], log[|log| - 1];
      var rest := Sorting.Filter(keep, front);
      assert Sorting.Filter(keep, log) == rest + if keep(last) then [last] else [];
      assert DecidedOnce(front) && Decides(front, last);
      FilterKeepsDecidedOnce(keep, front);
      FilterMembers(keep, front);
      assert Decides(rest, last);
      hide DecidedOnce, Decides, Sorting.Filter;
      DecidedOnceOneMore(rest, last);
      assert rest + [] == rest;
    }
  }
}
