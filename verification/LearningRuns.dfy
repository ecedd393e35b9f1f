/** Runs of the learning store: any sequence of what is done under its lock (internal/secretary/learning_store.go),
    and what feedback, reviews and maintenance make of it when they overlap (learning_feedback.go, service.go). */
module LearningRuns {
  import opened Common
  import opened DayFiles
  import opened LearningLog
  import Sorting

  // ----- steps -----

  /** What is done while the lock is held once. Feedback begins when its interaction has been found, and a
      review when its item has been listed; what they write comes in later steps. */
  datatype Op =
    | AppendTrace(trace: Trace)
    | FoundTrace(found: Trace)
    | AppendFeedback(feedback: Feedback)
    | SaveKnowledge(item: Knowledge)
    | ListedCandidate(candidate: Knowledge)
    | Prune(now: Instant, traceDays: int, candidateDays: int, left: Left)
    | Forget(operatorId: int, gone: Gone)
  {
    predicate Decides(operatorId: int, id: string) {
      SaveKnowledge? && item.status != Candidate && HasId(operatorId, id)(item)
    }
  }

  ghost predicate Enabled(l: Logs, op: Op) {
    match op
    case FoundTrace(t) => t in l.traces
    case ListedCandidate(k) =>
      && k in l.knowledge && k.status == Candidate
      && (CreatedOnce(l.knowledge) ==> Current(l.knowledge, k.operatorId, k.id) == Some(k))
    case Prune(_, traceDays, candidateDays, left) => traceDays > 0 && candidateDays > 0 && InOrder(l, left)
    case Forget(operatorId, gone) => ForgetsInOrder(l, operatorId, gone)
    case _ => true
  }

  function Next(l: Logs, op: Op): Logs {
    match op
    case AppendTrace(t) => l.(traces := l.traces + [t])
    case AppendFeedback(f) => l.(feedback := l.feedback + [f])
    case SaveKnowledge(k) => l.(knowledge := l.knowledge + [k])
    case Prune(now, traceDays, candidateDays, left) => PruneLeaves(l, now, traceDays, candidateDays, left)
    case Forget(_, gone) => ForgetLeaves(l, gone)
    case _ => l
  }

  datatype Run = Start | Then(before: Run, op: Op)
  {
    function After(): Logs {
      if Start? then Logs([], [], []) else Next(before.After(), op)
    }

    ghost predicate Legal() {
      Then? ==> before.Legal() && Enabled(before.After(), op)
    }

    ghost predicate Extends(earlier: Run) {
      this == earlier || (Then? && before.Extends(earlier))
    }

    /** Nothing but prunes since: maintenance does not wait for anything but the store's own lock. */
    ghost predicate PrunesSince(earlier: Run) {
      this == earlier || (Then? && op.Prune? && before.PrunesSince(earlier))
    }

    /** The ids that traces and candidates have ever had. */
    function Used(): set<string> {
      if Start? then {}
      else before.Used() + IdsGiven(op)
    }

    ghost predicate Appended(t: Trace) {
      Then? && (op == AppendTrace(t) || before.Appended(t))
    }

    ghost predicate Found(t: Trace) {
      Then? && (op == FoundTrace(t) || before.Found(t))
    }

    ghost predicate Saved(k: Knowledge) {
      Then? && (op == SaveKnowledge(k) || before.Saved(k))
    }

    ghost predicate Listed(k: Knowledge) {
      Then? && (op == ListedCandidate(k) || before.Listed(k))
    }

    /** Everything was written by the service, in however overlapping calls: ids are new, feedback is on a
        trace that was found before, and a decision is of a candidate that was listed before. */
    ghost predicate Served() {
      Then? ==>
        && before.Served()
        && (op.AppendTrace? ==> op.trace.id !in before.Used())
        && (op.AppendFeedback? ==> exists t :: before.Found(t) && IsOn(op.feedback, t))
        && (op.SaveKnowledge? && op.item.status == Candidate ==>
              op.item.id !in before.Used() && op.item.validUntil == ZERO_TIME)
        && (op.SaveKnowledge? && op.item.status != Candidate ==>
              exists k :: before.Listed(k) && IsDecisionOf(op.item, k))
    }

    /** How many decisions of an item have been saved. */
    ghost function Decisions(operatorId: int, id: string): nat {
      if Start? then 0
      else before.Decisions(operatorId, id) + if op.Decides(operatorId, id) then 1 else 0
    }

    /** Since the item was last listed as a candidate, a decision of it has been saved. */
    ghost predicate DecidedSinceListed(operatorId: int, id: string) {
      Then? &&
      if op.ListedCandidate? && HasId(operatorId, id)(op.candidate) then false
      else op.Decides(operatorId, id) || before.DecidedSinceListed(operatorId, id)
    }

    /** Some decision of the item was saved when another had been saved after the item was last listed. */
    ghost predicate ReviewsOverlap(operatorId: int, id: string) {
      Then? &&
      (|| (op.Decides(operatorId, id) && before.DecidedSinceListed(operatorId, id))
       || before.ReviewsOverlap(operatorId, id))
    }

    /** A prune has made the item a candidate again after a decision of it had been saved. */
    ghost predicate Revived(operatorId: int, id: string) {
      Then? && (Revives(before, op, operatorId, id) || before.Revived(operatorId, id))
    }

    /** Some decision of the item was saved after it had been revived and listed again. */
    ghost predicate DecidedAgain(operatorId: int, id: string) {
      Then? &&
      (|| (op.Decides(operatorId, id) && before.Revived(operatorId, id) && !before.DecidedSinceListed(operatorId, id))
       || before.DecidedAgain(operatorId, id))
    }

    /** No prune has cut short a file of knowledge. */
    ghost predicate KnowledgeWhole() {
      Then? ==>
        && before.KnowledgeWhole()
        && (op.Prune? ==>
              Whole(KNOWLEDGE_PATH, KeepKnowledge(op.now, Cutoff(op.now, op.candidateDays)),
                    before.After().knowledge, op.left.knowledge))
    }

    /** Every prune has succeeded, and has written its traces whole; every forgetting has succeeded. */
    ghost predicate RemovalsSucceed() {
      Then? ==>
        && before.RemovalsSucceed()
        && (op.Forget? ==> ForgetFinished(before.After(), op.operatorId, op.gone))
        && (op.Prune? ==>
              && Finished(before.After(), op.left)
              && Whole(TRACE_PATH, KeepTrace(Cutoff(op.now, op.traceDays)), before.After().traces, op.left.traces))
    }

    /** A step after `begun` has removed the trace. */
    ghost predicate Removed(begun: Run, t: Trace) {
      this != begun && Then? &&
      (((op.Prune? || op.Forget?) && t in before.After().traces && t !in After().traces) || before.Removed(begun, t))
    }

    /** The feedback was appended when its trace was gone. */
    ghost predicate Late(f: Feedback) {
      Then? && ((op == AppendFeedback(f) && !HangsOn(before.After().traces, f)) || before.Late(f))
    }

    /** A prune or a forgetting took the trace of the feedback and left the feedback. */
    ghost predicate Stranded(f: Feedback) {
      Then? && (Strands(before.After(), op, f) || before.Stranded(f))
    }
  }

  function IdsGiven(op: Op): set<string> {
    if op.AppendTrace? then {op.trace.id}
    else if op.SaveKnowledge? && op.item.status == Candidate then {op.item.id} else {}
  }

  predicate IsOn(f: Feedback, t: Trace) {
    f.interactionId == t.id && f.operatorId == t.operatorId
  }

  predicate IsDecisionOf(decided: Knowledge, k: Knowledge) {
    decided == k.(status := decided.status, updatedAt := decided.updatedAt) && decided.status in {Approved, Rejected}
  }

  ghost predicate Strands(l: Logs, op: Op, f: Feedback) {
    && (op.Prune? || op.Forget?) && f in l.feedback && HangsOn(l.traces, f)
    && f in Next(l, op).feedback && !HangsOn(Next(l, op).traces, f)
  }

  predicate IsCandidate(log: seq<Knowledge>, operatorId: int, id: string) {
    var current := Current(log, operatorId, id);
    current.Some? && current.value.status == Candidate
  }

  ghost predicate Revives(before: Run, op: Op, operatorId: int, id: string) {
    && op.Prune? && before.Decisions(operatorId, id) > 0
    && !IsCandidate(before.After().knowledge, operatorId, id)
    && IsCandidate(Next(before.After(), op).knowledge, operatorId, id)
  }

  // ----- what comes from where -----

  /** Only appending and saving add anything. */
  lemma OnlyAppendingAdds(l: Logs, op: Op)
    ensures forall t :: t in Next(l, op).traces ==> t in l.traces || op == AppendTrace(t)
    ensures forall f :: f in Next(l, op).feedback ==> f in l.feedback || op == AppendFeedback(f)
    ensures forall k :: k in Next(l, op).knowledge ==> k in l.knowledge || op == SaveKnowledge(k)
  {
    match op {
      case Prune(now, traceDays, candidateDays, left) =>
        var cutoff := Cutoff(now, traceDays);
        RewrittenMembers(TRACE_PATH, KeepTrace(cutoff), l.traces, left.traces);
        var active := ActiveTraceIds(l, now, traceDays);
        RewrittenMembers(FEEDBACK_PATH, KeepFeedback(cutoff, active), l.feedback, left.feedback);
        RewrittenMembers(KNOWLEDGE_PATH, KeepKnowledge(now, Cutoff(now, candidateDays)), l.knowledge, left.knowledge);
        hide Rewritten;
      case Forget(operatorId, gone) =>
        FilterMembers(NotOn(TRACE_PATH, gone.traces), l.traces);
        FilterMembers(NotOn(FEEDBACK_PATH, gone.feedback), l.feedback);
        FilterMembers(NotOn(KNOWLEDGE_PATH, gone.knowledge), l.knowledge);
      case _ =>
    }
  }

  lemma {:induction false} TraceWasAppended(run: Run, t: Trace)
    requires run.Legal() && (t in run.After().traces || run.Found(t))
    ensures run.Appended(t) && t.id in run.Used()
  {
    OnlyAppendingAdds(run.before.After(), run.op);
    hide Next;
    if run.op != AppendTrace(t) {
      TraceWasAppended(run.before, t);
    }
  }

  lemma {:induction false} AppendedIsUsed(run: Run, t: Trace)
    requires run.Appended(t)
    ensures t.id in run.Used()
  {
    if run.op != AppendTrace(t) {
      AppendedIsUsed(run.before, t);
    }
  }

  /** No two traces have ever had the same id. */
  lemma {:induction false} TraceIdsDiffer(run: Run, t: Trace, u: Trace)
    requires run.Served() && run.Appended(t) && run.Appended(u) && t.id == u.id
    ensures t == u
  {
    if t != u {
      if run.before.Appended(t) {
        AppendedIsUsed(run.before, t);
      }
      if run.before.Appended(u) {
        AppendedIsUsed(run.before, u);
      }
      TraceIdsDiffer(run.before, t, u);
    }
  }

  lemma TracesOfRunDiffer(run: Run)
    requires run.Legal() && run.Served()
    ensures TracesDiffer(run.After().traces)
  {
    forall t, u | t in run.After().traces && u in run.After().traces && t.id == u.id ensures t == u {
      TraceWasAppended(run, t);
      TraceWasAppended(run, u);
      TraceIdsDiffer(run, t, u);
    }
  }

  lemma {:induction false} ItemWasSaved(run: Run, k: Knowledge)
    requires run.Legal() && (k in run.After().knowledge || run.Listed(k))
    ensures run.Saved(k)
  {
    OnlyAppendingAdds(run.before.After(), run.op);
    hide Next;
    if run.op != SaveKnowledge(k) {
      ItemWasSaved(run.before, k);
    }
  }

  lemma {:induction false} SavedIsUsed(run: Run, k: Knowledge)
    requires run.Legal() && run.Served() && run.Saved(k)
    ensures k.id in run.Used() && k.validUntil == ZERO_TIME
  {
    if run.op != SaveKnowledge(k) {
      SavedIsUsed(run.before, k);
    } else if k.status != Candidate {
      var c :| run.before.Listed(c) && IsDecisionOf(k, c);
      ItemWasSaved(run.before, c);
      SavedIsUsed(run.before, c);
    }
  }

  /** All records that an id has ever had were created at the same time. */
  lemma {:induction false} SavedAlike(run: Run, j: Knowledge, k: Knowledge)
    requires run.Legal() && run.Served() && run.Saved(j) && run.Saved(k) && j.id == k.id && j.operatorId == k.operatorId
    ensures j.createdAt == k.createdAt
  {
    if run.before.Saved(j) && run.before.Saved(k) {
      SavedAlike(run.before, j, k);
    } else if j != k {
      var item, other := run.op.item, if run.op.item == j then k else j;
      SavedIsUsed(run.before, other);
      var c :| run.before.Listed(c) && IsDecisionOf(item, c);
      ItemWasSaved(run.before, c);
      SavedAlike(run.before, c, other);
    }
  }

  lemma {:induction false} RewrittenKeepsOrder(keep: Knowledge -> bool, log: seq<Knowledge>, left: map<Path, nat>)
    requires CandidatesFirst(log)
    ensures CandidatesFirst(Rewritten(KNOWLEDGE_PATH, keep, log, left))
  {
    if log != [] {
      var front, last := log[..|log| - 1], log[|log| - 1];
      var rest := Rewritten(KNOWLEDGE_PATH, keep, front, left);
      RewrittenKeepsOrder(keep, front, left);
      RewrittenMembers(KNOWLEDGE_PATH, keep, front, left);
      CandidatesFirstOneMore(rest, last);
      assert rest + [] == rest;
    }
  }

  lemma {:induction false} FilterKeepsOrder(keep: Knowledge -> bool, log: seq<Knowledge>)
    requires CandidatesFirst(log)
    ensures CandidatesFirst(Sorting.Filter(keep, log))
  {
    if log != [] {
      var front, last := log[..|log| - 1], log[|log| - 1];
      var rest := Sorting.Filter(keep, front);
      FilterKeepsOrder(keep, front);
      FilterMembers(keep, front);
      CandidatesFirstOneMore(rest, last);
      assert rest + [] == rest;
    }
  }

  lemma {:induction false} CandidatesComeFirst(run: Run)
    requires run.Legal() && run.Served()
    ensures CandidatesFirst(run.After().knowledge)
  {
    if run.Then? {
      CandidatesComeFirst(run.before);
      var log := run.before.After().knowledge;
      match run.op {
        case SaveKnowledge(k) =>
          if j :| k.status == Candidate && j in log && HasId(k.operatorId, k.id)(j) {
            ItemWasSaved(run.before, j);
            SavedIsUsed(run.before, j);
            assert false;
          }
          CandidatesFirstOneMore(log, k);
        case Prune(now, _, candidateDays, left) =>
          RewrittenKeepsOrder(KeepKnowledge(now, Cutoff(now, candidateDays)), log, left.knowledge);
        case Forget(_, gone) => FilterKeepsOrder(NotOn(KNOWLEDGE_PATH, gone.knowledge), log);
        case _ =>
      }
    }
  }

  /** In every run, however its calls overlap, an item keeps the time it was created at, is no candidate after
      another record of it, and never expires. */
  lemma KnowledgeStaysSane(run: Run)
    requires run.Legal() && run.Served()
    ensures var log := run.After().knowledge; CreatedOnce(log) && CandidatesFirst(log) && NeverExpires(log)
  {
    var log := run.After().knowledge;
    CandidatesComeFirst(run);
    forall j, k | j in log && k in log && j.id == k.id && j.operatorId == k.operatorId
      ensures j.createdAt == k.createdAt
    {
      ItemWasSaved(run, j);
      ItemWasSaved(run, k);
      SavedAlike(run, j, k);
    }
    forall k | k in log ensures k.validUntil == ZERO_TIME {
      ItemWasSaved(run, k);
      SavedIsUsed(run, k);
    }
  }

  // ----- reviews -----

  lemma {:induction false} DecidedWasSaved(run: Run, operatorId: int, id: string) returns (k: Knowledge)
    requires run.Decisions(operatorId, id) > 0
    ensures run.Saved(k) && HasId(operatorId, id)(k)
  {
    if run.op.Decides(operatorId, id) {
      k := run.op.item;
    } else {
      k := DecidedWasSaved(run.before, operatorId, id);
    }
  }

  lemma DecidedIdIsUsed(run: Run, operatorId: int, id: string)
    requires run.Legal() && run.Served() && run.Decisions(operatorId, id) > 0
    ensures id in run.Used()
  {
    var k := DecidedWasSaved(run, operatorId, id);
    SavedIsUsed(run, k);
  }

  lemma SavedIsCurrent(log: seq<Knowledge>, k: Knowledge, operatorId: int, id: string)
    ensures Current(log + [k], operatorId, id) ==
            if HasId(operatorId, id)(k) then Some(k) else Current(log, operatorId, id)
  {
    LastWithConcat(HasId(operatorId, id), log, [k]);
    assert [k][..0] == [];
  }

  /** An item that is a candidate after a decision of it has been saved was revived. */
  lemma {:induction false} CandidateAgainWasRevived(run: Run, operatorId: int, id: string)
    requires run.Legal() && run.Served() && run.Decisions(operatorId, id) > 0
    requires IsCandidate(run.After().knowledge, operatorId, id)
    ensures run.Revived(operatorId, id)
  {
    var log := run.before.After().knowledge;
    match run.op {
      case SaveKnowledge(k) =>
        SavedIsCurrent(log, k, operatorId, id);
        if run.before.Decisions(operatorId, id) > 0 {
          DecidedIdIsUsed(run.before, operatorId, id);
        }
      case Forget(_, gone) =>
        KnowledgeStaysSane(run.before);
        ForgetLeavesCurrent(log, gone.knowledge, operatorId, id);
      case _ =>
    }
    hide Current, Next;
    if IsCandidate(log, operatorId, id) && run.before.Decisions(operatorId, id) > 0 {
      CandidateAgainWasRevived(run.before, operatorId, id);
    }
  }

  lemma DecidedStaysAfterPrune(log: seq<Knowledge>, keep: Knowledge -> bool, left: map<Path, nat>,
                               operatorId: int, id: string)
    requires Whole(KNOWLEDGE_PATH, keep, log, left) && NeverExpires(log)
    requires forall k: Knowledge :: k.status != Candidate && k.validUntil == ZERO_TIME ==> keep(k)
    requires var current := Current(log, operatorId, id); current.Some? ==> current.value.status != Candidate
    ensures Current(Rewritten(KNOWLEDGE_PATH, keep, log, left), operatorId, id) == Current(log, operatorId, id)
  {
    var kept := KeptBy(KNOWLEDGE_PATH, keep, left);
    WholeIsFilter(KNOWLEDGE_PATH, keep, log, left);
    LastWithMeans(HasId(operatorId, id), log);
    if Current(log, operatorId, id).Some? {
      CurrentAfterFilter(kept, log, operatorId, id);
    } else {
      NothingAfterFilter(kept, log, operatorId, id);
    }
  }

  /** A prune makes a decided item a candidate again if and only if it loses every decision of it, in a write
      that was cut short, and leaves a candidate. */
  lemma PruneRevivesIff(log: seq<Knowledge>, now: Instant, cutoff: Instant, left: map<Path, nat>,
                        operatorId: int, id: string)
    requires CandidatesFirst(log) && NeverExpires(log)
    ensures var keep := KeepKnowledge(now, cutoff);
      var after := Rewritten(KNOWLEDGE_PATH, keep, log, left);
      IsCandidate(after, operatorId, id) <==>
        && (exists c :: c in after && HasId(operatorId, id)(c))
        && (forall k :: k in log && HasId(operatorId, id)(k) && k.status != Candidate ==>
              Lost(KNOWLEDGE_PATH, keep, log, left, k))
  {
    var keep, p := KeepKnowledge(now, cutoff), HasId(operatorId, id);
    var after := Rewritten(KNOWLEDGE_PATH, keep, log, left);
    RewrittenKeepsOrder(keep, log, left);
    RewrittenMembers(KNOWLEDGE_PATH, keep, log, left);
    LastWithMeans(p, after);
    if IsCandidate(after, operatorId, id) {
      CandidateIsOnlyRecord(after, operatorId, id);
    }
    forall k | k in log && p(k) && k.status != Candidate
      ensures Lost(KNOWLEDGE_PATH, keep, log, left, k) <==> k !in after
    {
      if KNOWLEDGE_PATH(k) in left {
        LostIffNotLeft(KNOWLEDGE_PATH, keep, log, left, k);
      }
    }
    hide Lost, Rewritten, Current;
  }

  lemma {:induction false} NothingWasRevived(run: Run, operatorId: int, id: string)
    requires run.Legal() && run.Served() && run.KnowledgeWhole()
    ensures !run.Revived(operatorId, id)
  {
    if run.Then? {
      NothingWasRevived(run.before, operatorId, id);
      if Revives(run.before, run.op, operatorId, id) {
        var log, now, left := run.before.After().knowledge, run.op.now, run.op.left.knowledge;
        KnowledgeStaysSane(run.before);
        DecidedStaysAfterPrune(log, KeepKnowledge(now, Cutoff(now, run.op.candidateDays)), left, operatorId, id);
      }
    }
  }

  /** Once a decision has been saved, the item is never a candidate again, if no prune loses records. */
  lemma ReviewedStaysDecided(run: Run, operatorId: int, id: string)
    requires run.Legal() && run.Served() && run.KnowledgeWhole() && run.Decisions(operatorId, id) > 0
    ensures !IsCandidate(run.After().knowledge, operatorId, id)
  {
    NothingWasRevived(run, operatorId, id);
    if IsCandidate(run.After().knowledge, operatorId, id) {
      CandidateAgainWasRevived(run, operatorId, id);
    }
  }

  /** An item that was listed after its last decision, or not decided at all. */
  lemma {:induction false} ListedAgainWasRevived(run: Run, operatorId: int, id: string)
    requires run.Legal() && run.Served()
    requires run.Decisions(operatorId, id) > 0 && !run.DecidedSinceListed(operatorId, id)
    ensures run.Revived(operatorId, id)
  {
    if run.op.ListedCandidate? && HasId(operatorId, id)(run.op.candidate) {
      KnowledgeStaysSane(run.before);
      CandidateAgainWasRevived(run.before, operatorId, id);
    } else {
      ListedAgainWasRevived(run.before, operatorId, id);
    }
  }

  lemma {:induction false} DecidedWhenRevivedOrSince(run: Run, operatorId: int, id: string)
    ensures run.Revived(operatorId, id) || run.DecidedSinceListed(operatorId, id) ==> run.Decisions(operatorId, id) > 0
  {
    if run.Then? {
      DecidedWhenRevivedOrSince(run.before, operatorId, id);
    }
  }

  /** An item is decided more than once if and only if two reviews of it overlap, one saving its decision
      between the listing and the saving of the other, or a prune makes it a candidate again before it is
      listed and decided again. */
  lemma {:induction false} DecidedTwiceIff(run: Run, operatorId: int, id: string)
    requires run.Legal() && run.Served()
    ensures run.Decisions(operatorId, id) >= 2 <==>
              run.ReviewsOverlap(operatorId, id) || run.DecidedAgain(operatorId, id)
  {
    if run.Then? {
      DecidedTwiceIff(run.before, operatorId, id);
      DecidedWhenRevivedOrSince(run.before, operatorId, id);
      hide Revives, Next, Enabled;
      if run.op.Decides(operatorId, id) && run.before.Decisions(operatorId, id) > 0
         && !run.before.DecidedSinceListed(operatorId, id)
      {
        ListedAgainWasRevived(run.before, operatorId, id);
      }
    }
  }

  lemma {:induction false} NotDecidedAgain(run: Run, operatorId: int, id: string)
    requires !run.Revived(operatorId, id)
    ensures !run.DecidedAgain(operatorId, id)
  {
    if run.Then? {
      NotDecidedAgain(run.before, operatorId, id);
    }
  }

  /** When no prune loses records, only overlapping reviews decide an item more than once. */
  lemma OnlyOverlapDecidesTwice(run: Run, operatorId: int, id: string)
    requires run.Legal() && run.Served() && run.KnowledgeWhole()
    ensures run.Decisions(operatorId, id) >= 2 <==> run.ReviewsOverlap(operatorId, id)
  {
    DecidedTwiceIff(run, operatorId, id);
    NothingWasRevived(run, operatorId, id);
    NotDecidedAgain(run, operatorId, id);
  }

  // ----- feedback -----

  lemma {:induction false} FeedbackWasOnTrace(run: Run, f: Feedback) returns (t: Trace)
    requires run.Legal() && run.Served() && f in run.After().feedback
    ensures run.Appended(t) && IsOn(f, t)
  {
    OnlyAppendingAdds(run.before.After(), run.op);
    hide Next;
    if f in run.before.After().feedback {
      t := FeedbackWasOnTrace(run.before, f);
    } else {
      t :| run.before.Found(t) && IsOn(f, t);
      TraceWasAppended(run.before, t);
    }
  }

  /** What is gone stays gone: ids are not used again. */
  lemma GoneStaysGone(l: Logs, op: Op, f: Feedback)
    requires !HangsOn(l.traces, f) && (op.AppendTrace? ==> op.trace.id != f.interactionId)
    ensures !HangsOn(Next(l, op).traces, f)
  {
    OnlyAppendingAdds(l, op);
    hide Next;
  }

  lemma {:induction false} LateOrStrandedIsGone(run: Run, f: Feedback)
    requires run.Legal() && run.Served() && (run.Late(f) || run.Stranded(f))
    ensures !HangsOn(run.After().traces, f) && f.interactionId in run.Used()
  {
    if run.before.Late(f) || run.before.Stranded(f) {
      LateOrStrandedIsGone(run.before, f);
      GoneStaysGone(run.before.After(), run.op, f);
    } else if run.op == AppendFeedback(f) {
      var t :| run.before.Found(t) && IsOn(f, t);
      TraceWasAppended(run.before, t);
    } else {
      var t := FeedbackWasOnTrace(run.before, f);
      AppendedIsUsed(run.before, t);
    }
  }

  lemma {:induction false} DanglingIsLateOrStranded(run: Run, f: Feedback)
    requires run.Legal() && run.Served() && f in run.After().feedback && !HangsOn(run.After().traces, f)
    ensures run.Late(f) || run.Stranded(f)
  {
    var l := run.before.After();
    OnlyAppendingAdds(l, run.op);
    if f in l.feedback && !HangsOn(l.traces, f) {
      DanglingIsLateOrStranded(run.before, f);
    } else if f in l.feedback {
      var t :| t in l.traces && t.id == f.interactionId && t.operatorId == f.operatorId;
      assert run.op.Prune? || run.op.Forget?;
    }
  }

  /** In every run, feedback that is there is on an interaction that is gone if and only if it was appended
      when that was gone already, or a prune or a forgetting took its interaction and left it. */
  lemma FeedbackDanglesIff(run: Run, f: Feedback)
    requires run.Legal() && run.Served() && f in run.After().feedback
    ensures !HangsOn(run.After().traces, f) <==> run.Late(f) || run.Stranded(f)
  {
    if run.Late(f) || run.Stranded(f) {
      LateOrStrandedIsGone(run, f);
    } else if !HangsOn(run.After().traces, f) {
      DanglingIsLateOrStranded(run, f);
    }
  }

  lemma {:induction false} ExtensionKeeps(run: Run, earlier: Run, t: Trace)
    requires run.Extends(earlier)
    ensures earlier.Found(t) ==> run.Found(t)
    ensures run.Legal() ==> earlier.Legal()
    ensures run.Served() ==> earlier.Served()
  {
    if run != earlier {
      ExtensionKeeps(run.before, earlier, t);
    }
  }

  /** A trace that was found is gone later if and only if a prune or a forgetting in between has removed it. */
  lemma {:induction false} FoundIsGoneIff(begun: Run, run: Run, t: Trace)
    requires run.Legal() && run.Served() && run.Extends(begun) && t in begun.After().traces
    ensures t !in run.After().traces <==> run.Removed(begun, t)
  {
    if run != begun {
      FoundIsGoneIff(begun, run.before, t);
      ExtensionKeeps(run.before, begun, t);
      TraceWasAppended(begun, t);
      UsedGrows(run.before, begun, t.id);
      OnlyAppendingAdds(run.before.After(), run.op);
      hide PruneLeaves, ForgetLeaves;
    }
  }

  lemma {:induction false} UsedGrows(run: Run, earlier: Run, id: string)
    requires run.Extends(earlier) && id in earlier.Used()
    ensures id in run.Used()
  {
    if run != earlier {
      UsedGrows(run.before, earlier, id);
    }
  }

  /** Feedback on an interaction that was found dangles when it is appended if and only if a prune or a
      forgetting has removed the interaction in between. */
  lemma SubmittedFeedbackDanglesIff(begun: Run, run: Run, t: Trace, f: Feedback)
    requires begun.Then? && begun.op == FoundTrace(t) && IsOn(f, t)
    requires run.Then? && run.op == AppendFeedback(f) && run.before.Extends(begun)
    requires run.Legal() && run.Served()
    ensures !HangsOn(run.After().traces, f) <==> run.before.Removed(begun, t)
  {
    var late := run.before;
    ExtensionKeeps(late, begun, t);
    FoundIsGoneIff(begun, late, t);
    TraceWasAppended(late, t);
    forall u | u in late.After().traces && u.id == t.id ensures u == t {
      TraceWasAppended(late, u);
      TraceIdsDiffer(late, t, u);
    }
  }

  lemma LostMeans(keep: Trace -> bool, log: seq<Trace>, left: map<Path, nat>, t: Trace)
    ensures Lost(TRACE_PATH, keep, log, left, t) ==> TRACE_PATH(t) in left && keep(t)
  {
  }

  /** A prune strands feedback if and only if it leaves it, and has either lost its trace in a write that was
      cut short, or taken the trace and been refused before it came to the file of the feedback. */
  lemma PruneStrandsIff(l: Logs, op: Op, f: Feedback, t: Trace)
    requires op.Prune? && Enabled(l, op) && TracesDiffer(l.traces)
    requires f in l.feedback && t in l.traces && IsOn(f, t)
    ensures var keep := KeepTrace(Cutoff(op.now, op.traceDays));
      Strands(l, op, f) <==>
        && f in Next(l, op).feedback
        && (|| Lost(TRACE_PATH, keep, l.traces, op.left.traces, t)
            || (FEEDBACK_PATH(f) !in op.left.feedback && TRACE_PATH(t) in op.left.traces && !keep(t)))
  {
    var cutoff, left := Cutoff(op.now, op.traceDays), op.left;
    var keep, active := KeepTrace(cutoff), ActiveTraceIds(l, op.now, op.traceDays);
    RewrittenMembers(TRACE_PATH, keep, l.traces, left.traces);
    RewrittenMembers(FEEDBACK_PATH, KeepFeedback(cutoff, active), l.feedback, left.feedback);
    FilterMembers(keep, l.traces);
    if TRACE_PATH(t) in left.traces && keep(t) {
      LostIffNotLeft(TRACE_PATH, keep, l.traces, left.traces, t);
    }
    hide Lost;
    LostMeans(keep, l.traces, left.traces, t);
    assert HangsOn(l.traces, f);
    var traces := Next(l, op).traces;
    assert HangsOn(traces, f) <==> t in traces;
    if f in Next(l, op).feedback && FEEDBACK_PATH(f) in left.feedback {
      assert f.interactionId in active;
      assert keep(t) && TRACE_PATH(t) in left.traces;
    }
    hide Rewritten;
  }

  /** So a prune that succeeds and writes its traces whole strands nothing. */
  lemma GoodPruneStrandsNothing(l: Logs, op: Op, f: Feedback)
    requires op.Prune? && Enabled(l, op) && TracesDiffer(l.traces) && Finished(l, op.left)
    requires Whole(TRACE_PATH, KeepTrace(Cutoff(op.now, op.traceDays)), l.traces, op.left.traces)
    ensures !Strands(l, op, f)
  {
    if f in l.feedback && HangsOn(l.traces, f) {
      var t :| t in l.traces && t.id == f.interactionId && t.operatorId == f.operatorId;
      PruneStrandsIff(l, op, f, t);
      WholeKeeps(TRACE_PATH, KeepTrace(Cutoff(op.now, op.traceDays)), l.traces, op.left.traces, t);
      LostMeans(KeepTrace(Cutoff(op.now, op.traceDays)), l.traces, op.left.traces, t);
      if KeepTrace(Cutoff(op.now, op.traceDays))(t) {
        LostIffNotLeft(TRACE_PATH, KeepTrace(Cutoff(op.now, op.traceDays)), l.traces, op.left.traces, t);
      }
    }
  }

  /** A forgetting strands feedback if and only if it removes the file of its trace and not its own. */
  lemma ForgetStrandsIff(l: Logs, op: Op, f: Feedback, t: Trace)
    requires op.Forget? && Enabled(l, op) && TracesDiffer(l.traces)
    requires f in l.feedback && t in l.traces && IsOn(f, t)
    ensures Strands(l, op, f) <==> TRACE_PATH(t) in op.gone.traces && FEEDBACK_PATH(f) !in op.gone.feedback
  {
    FilterMembers(NotOn(TRACE_PATH, op.gone.traces), l.traces);
    FilterMembers(NotOn(FEEDBACK_PATH, op.gone.feedback), l.feedback);
    assert HangsOn(l.traces, f);
    assert HangsOn(Next(l, op).traces, f) <==> t in Next(l, op).traces;
  }

  /** So a forgetting that succeeds strands nothing. */
  lemma FinishedForgetStrandsNothing(l: Logs, op: Op, f: Feedback)
    requires op.Forget? && Enabled(l, op) && TracesDiffer(l.traces) && ForgetFinished(l, op.operatorId, op.gone)
    ensures !Strands(l, op, f)
  {
    if f in l.feedback && HangsOn(l.traces, f) {
      var t :| t in l.traces && t.id == f.interactionId && t.operatorId == f.operatorId;
      ForgetStrandsIff(l, op, f, t);
    }
  }

  lemma {:induction false} NothingWasStranded(run: Run, f: Feedback)
    requires run.Legal() && run.Served() && run.RemovalsSucceed()
    ensures !run.Stranded(f)
  {
    if run.Then? {
      NothingWasStranded(run.before, f);
      TracesOfRunDiffer(run.before);
      if run.op.Prune? {
        GoodPruneStrandsNothing(run.before.After(), run.op, f);
      } else if run.op.Forget? {
        FinishedForgetStrandsNothing(run.before.After(), run.op, f);
      }
    }
  }

  /** When all prunes and forgettings succeed, what dangles was late: a prune or a forgetting came between the
      finding of its interaction and its appending. */
  lemma OnlyLateFeedbackDangles(run: Run, f: Feedback)
    requires run.Legal() && run.Served() && run.RemovalsSucceed() && f in run.After().feedback
    ensures !HangsOn(run.After().traces, f) <==> run.Late(f)
  {
    FeedbackDanglesIff(run, f);
    NothingWasStranded(run, f);
  }

  // ----- runs in which that happens -----

  const SOME_TRACE := Trace("t", 7, 1, "channel", "conversation", [])
  const ITS_FEEDBACK := Feedback("f", "t", 7, 2, Correct, "")
  const ITS_FILE := Path(7, 0)

  /** An interaction has been found, to be given feedback. */
  function Begun(): Run {
    Then(Then(Start, AppendTrace(SOME_TRACE)), FoundTrace(SOME_TRACE))
  }

  lemma BegunMeans()
    ensures Begun().Legal() && Begun().Served() && Begun().Found(SOME_TRACE) && IsOn(ITS_FEEDBACK, SOME_TRACE)
    ensures Begun().After() == Logs([SOME_TRACE], [], [])
    ensures TRACE_PATH(SOME_TRACE) == FEEDBACK_PATH(ITS_FEEDBACK) == ITS_FILE
  {
    assert Start.After().traces + [SOME_TRACE] == [SOME_TRACE];
  }

  const OLD_PRUNE := Prune(2 + 91 * NANOSECONDS_PER_DAY, 90, 30, Left(map[ITS_FILE := 0], map[], map[]))

  /** A prune takes an old interaction, and comes to no other file. */
  lemma OldTraceIsPruned(feedback: seq<Feedback>)
    ensures var l := Logs([SOME_TRACE], feedback, []);
      && Enabled(l, OLD_PRUNE) && Next(l, OLD_PRUNE) == Logs([], feedback, [])
      && WrittenWhole(l, OLD_PRUNE.now, OLD_PRUNE.traceDays, OLD_PRUNE.candidateDays, OLD_PRUNE.left)
      && (feedback == [] ==> Finished(l, OLD_PRUNE.left))
  {
    var l, now := Logs([SOME_TRACE], feedback, []), OLD_PRUNE.now;
    var cutoff := Cutoff(now, 90);
    assert !KeepTrace(cutoff)(SOME_TRACE) && TRACE_PATH(SOME_TRACE) == ITS_FILE;
    RewrittenOne(TRACE_PATH, KeepTrace(cutoff), OLD_PRUNE.left.traces, SOME_TRACE);
    KeepingOne(TRACE_PATH, KeepTrace(cutoff), SOME_TRACE);
    UntouchedLog(FEEDBACK_PATH, KeepFeedback(cutoff, ActiveTraceIds(l, now, 90)), feedback);
    UntouchedLog(KNOWLEDGE_PATH, KeepKnowledge(now, Cutoff(now, 30)), l.knowledge);
    hide Rewritten, Sorting.Filter, KeepTrace, KeepFeedback, KeepKnowledge, ActiveTraceIds, Cutoff;
  }

  /** A prune, written whole, comes between the finding of an old interaction and the feedback on it. */
  lemma FeedbackCanBeLate() returns (run: Run, prune: Op)
    ensures run.Legal() && run.Served() && run == Then(Then(Begun(), prune), AppendFeedback(ITS_FEEDBACK))
    ensures prune.Prune? && Finished(Begun().After(), prune.left)
    ensures WrittenWhole(Begun().After(), prune.now, prune.traceDays, prune.candidateDays, prune.left)
    ensures !NothingDangles(run.After())
  {
    prune := OLD_PRUNE;
    BegunMeans();
    OldTraceIsPruned([]);
    hide Begun, Enabled, Finished, WrittenWhole;
    var pruned := Then(Begun(), prune);
    assert pruned.After() == Logs([], [], []) && pruned.Legal() && pruned.Served();
    run := Then(pruned, AppendFeedback(ITS_FEEDBACK));
    assert Enabled(pruned.After(), AppendFeedback(ITS_FEEDBACK)) by {
      AppendingIsEnabled(pruned.After(), ITS_FEEDBACK);
    }
    assert run.After() == Logs([], [ITS_FEEDBACK], []);
    assert ITS_FEEDBACK in run.After().feedback;
  }

  lemma AppendingIsEnabled(l: Logs, f: Feedback)
    ensures Enabled(l, AppendFeedback(f))
  {
  }

  lemma KeepingOne<T>(path: T -> Path, keep: T -> bool, x: T)
    requires !keep(x)
    ensures forall p :: Sorting.Filter(Keeping(path, keep, p), [x]) == []
  {
    forall p ensures Sorting.Filter(Keeping(path, keep, p), [x]) == [] {
      Sorting.FilterOneMore(Keeping(path, keep, p), [], x);
      assert [] + [x] == [x];
    }
  }

  /** Feedback has been given on an interaction. */
  lemma GivenFeedback() returns (run: Run)
    ensures run == Then(Begun(), AppendFeedback(ITS_FEEDBACK)) && run.Legal() && run.Served()
    ensures run.After() == Logs([SOME_TRACE], [ITS_FEEDBACK], []) && NothingDangles(run.After())
  {
    BegunMeans();
    hide Begun;
    run := Then(Begun(), AppendFeedback(ITS_FEEDBACK));
    assert SOME_TRACE in run.After().traces;
  }

  /** A prune that reports success loses a recent interaction in a write that was cut short, and keeps the feedback. */
  lemma LostTraceStrandsFeedback() returns (run: Run)
    ensures run.Legal() && run.Served() && run.Then? && run.op.Prune? && Finished(run.before.After(), run.op.left)
    ensures NothingDangles(run.before.After()) && !NothingDangles(run.After())
  {
    var given := GivenFeedback();
    BegunMeans();
    var left := Left(map[ITS_FILE := 0], map[ITS_FILE := 1], map[]);
    var cutoff := Cutoff(3, 90);
    RewrittenOne(TRACE_PATH, KeepTrace(cutoff), left.traces, SOME_TRACE);
    assert ActiveTraceIds(given.After(), 3, 90) == {"t"};
    RewrittenOne(FEEDBACK_PATH, KeepFeedback(cutoff, {"t"}), left.feedback, ITS_FEEDBACK);
    run := Then(given, Prune(3, 90, 30, left));
    assert run.After() == Logs([], [ITS_FEEDBACK], []);
    assert ITS_FEEDBACK in run.After().feedback;
  }

  /** A prune takes an old interaction and is refused before it comes to the feedback. */
  lemma RefusedPruneStrandsFeedback() returns (run: Run)
    ensures run.Legal() && run.Served() && run.Then? && run.op.Prune?
    ensures WrittenWhole(run.before.After(), run.op.now, run.op.traceDays, run.op.candidateDays, run.op.left)
    ensures NothingDangles(run.before.After()) && !NothingDangles(run.After())
  {
    var given := GivenFeedback();
    OldTraceIsPruned([ITS_FEEDBACK]);
    hide Begun, Enabled, WrittenWhole;
    run := Then(given, OLD_PRUNE);
    assert run.After() == Logs([], [ITS_FEEDBACK], []);
    assert ITS_FEEDBACK in run.After().feedback;
  }

  /** A forgetting removes the interactions of an operator and is refused before it comes to the feedback. */
  lemma RefusedForgetStrandsFeedback() returns (run: Run)
    ensures run.Legal() && run.Served() && run.Then? && run.op.Forget?
    ensures NothingDangles(run.before.After()) && !NothingDangles(run.After())
  {
    var given := GivenFeedback();
    BegunMeans();
    var gone := Gone({ITS_FILE}, {}, {});
    Sorting.FilterOneMore(NotOn(TRACE_PATH, gone.traces), [], SOME_TRACE);
    Sorting.FilterOneMore(NotOn(FEEDBACK_PATH, gone.feedback), [], ITS_FEEDBACK);
    assert [] + [SOME_TRACE] == [SOME_TRACE] && [] + [ITS_FEEDBACK] == [ITS_FEEDBACK];
    run := Then(given, Op.Forget(7, gone));
    assert run.After() == Logs([], [ITS_FEEDBACK], []);
    assert ITS_FEEDBACK in run.After().feedback;
  }

  const SOME_ITEM := Knowledge("k", 7, "subject", MissingFact, "value", [], Candidate, 1, 1, ZERO_TIME)

  /** A candidate is there, and has been listed. */
  lemma ListedOnce() returns (run: Run)
    ensures run == Then(Then(Start, SaveKnowledge(SOME_ITEM)), ListedCandidate(SOME_ITEM))
    ensures run.Legal() && run.Served() && run.KnowledgeWhole() && run.Listed(SOME_ITEM)
    ensures run.After() == Logs([], [], [SOME_ITEM]) && run.Decisions(7, "k") == 0
    ensures Current([SOME_ITEM], 7, "k") == Some(SOME_ITEM)
  {
    var saved := Then(Start, SaveKnowledge(SOME_ITEM));
    assert saved.After().knowledge == [SOME_ITEM];
    assert saved.Legal() && saved.Served();
    run := Then(saved, ListedCandidate(SOME_ITEM));
  }

  lemma DecisionIsSaved(run: Run, decided: Knowledge)
    requires run.Legal() && run.Served() && run.Listed(SOME_ITEM) && IsDecisionOf(decided, SOME_ITEM)
    ensures var saved := Then(run, SaveKnowledge(decided));
      && saved.Legal() && saved.Served() && saved.Listed(SOME_ITEM) && (run.KnowledgeWhole() ==> saved.KnowledgeWhole())
      && saved.Decisions(7, "k") == run.Decisions(7, "k") + 1
      && saved.After() == run.After().(knowledge := run.After().knowledge + [decided])
  {
  }

  /** Two reviews list the same candidate before either has saved its decision. */
  lemma OverlappingReviewsDecideTwice() returns (run: Run)
    ensures run.Legal() && run.Served() && run.KnowledgeWhole() && run.Decisions(7, "k") == 2
    ensures !DecidedOnce(run.After().knowledge)
  {
    var listed := ListedOnce();
    var approved := SOME_ITEM.(status := Approved, updatedAt := 2);
    var rejected := SOME_ITEM.(status := Rejected, updatedAt := 3);
    var again := Then(listed, ListedCandidate(SOME_ITEM));
    assert again.Legal() && again.Served() && again.KnowledgeWhole();
    hide DecidedOnce;
    DecisionIsSaved(again, approved);
    var first := Then(again, SaveKnowledge(approved));
    DecisionIsSaved(first, rejected);
    run := Then(first, SaveKnowledge(rejected));
    hide Run.Legal, Run.Served, Run.KnowledgeWhole, Run.Decisions;
    assert run.After().knowledge == [SOME_ITEM] + [approved] + [rejected];
    NotDecidedOnce(SOME_ITEM, approved, rejected);
  }

  lemma NotDecidedOnce(k: Knowledge, approved: Knowledge, rejected: Knowledge)
    requires HasId(rejected.operatorId, rejected.id)(approved) && approved.status != Candidate
    ensures !DecidedOnce([k] + [approved] + [rejected])
  {
    DecidedOnceOneMore([k] + [approved], rejected);
    assert approved in [k] + [approved];
    hide DecidedOnce;
  }

  const SOME_DECISION := SOME_ITEM.(status := Approved, updatedAt := 2)
  const CUT_PRUNE := Prune(3, 90, 30, Left(map[], map[], map[ITS_FILE := 1]))

  lemma CutAfterCandidate()
    ensures Rewritten(KNOWLEDGE_PATH, KeepKnowledge(3, Cutoff(3, 30)), [SOME_ITEM, SOME_DECISION], map[ITS_FILE := 1])
         == [SOME_ITEM]
  {
    var left, keep := map[ITS_FILE := 1], KeepKnowledge(3, Cutoff(3, 30));
    assert keep(SOME_ITEM) && keep(SOME_DECISION);
    assert KNOWLEDGE_PATH(SOME_ITEM) == KNOWLEDGE_PATH(SOME_DECISION) == ITS_FILE;
    hide KeepKnowledge, Rewritten, Sorting.Filter;
    RewrittenOne(KNOWLEDGE_PATH, keep, left, SOME_ITEM);
    var kept := Sorting.Filter(Keeping(KNOWLEDGE_PATH, keep, ITS_FILE), [SOME_ITEM]);
    assert |kept| == 1 by {
      Sorting.FilterOneMore(Keeping(KNOWLEDGE_PATH, keep, ITS_FILE), [], SOME_ITEM);
      assert [] + [SOME_ITEM] == [SOME_ITEM];
    }
    RewrittenOneMore(KNOWLEDGE_PATH, keep, [SOME_ITEM], left, SOME_DECISION);
    assert [SOME_ITEM] + [SOME_DECISION] == [SOME_ITEM, SOME_DECISION];
  }

  /** A prune cuts the file of an item short between its candidate and its decision. */
  lemma DecisionIsLost()
    ensures var l := Logs([], [], [SOME_ITEM, SOME_DECISION]);
      Enabled(l, CUT_PRUNE) && Next(l, CUT_PRUNE) == Logs([], [], [SOME_ITEM]) && Finished(l, CUT_PRUNE.left)
  {
    assert KNOWLEDGE_PATH(SOME_ITEM) == KNOWLEDGE_PATH(SOME_DECISION) == ITS_FILE;
    CutAfterCandidate();
    hide KeepKnowledge, Sorting.Filter;
  }

  /** A prune that reports success cuts the file of an item short between its candidate and its decision:
      it can be listed, and decided, once more. */
  lemma LostDecisionCanBeMadeAgain() returns (run: Run)
    ensures run.Legal() && run.Served() && run.Decisions(7, "k") == 1
    ensures run.Then? && run.op == ListedCandidate(SOME_ITEM)
    ensures run.before.Then? && run.before.op.Prune? && Finished(run.before.before.After(), run.before.op.left)
  {
    var listed := ListedOnce();
    DecisionIsSaved(listed, SOME_DECISION);
    var decided := Then(listed, SaveKnowledge(SOME_DECISION));
    assert decided.After().knowledge == [SOME_ITEM] + [SOME_DECISION];
    assert decided.After() == Logs([], [], [SOME_ITEM, SOME_DECISION]);
    DecisionIsLost();
    hide Finished;
    var pruned := PrunedRun(decided);
    run := Then(pruned, ListedCandidate(SOME_ITEM));
  }

  lemma PrunedRun(decided: Run) returns (run: Run)
    requires decided.Legal() && decided.Served() && decided.Decisions(7, "k") == 1
    requires Enabled(decided.After(), CUT_PRUNE) && Next(decided.After(), CUT_PRUNE) == Logs([], [], [SOME_ITEM])
    ensures run == Then(decided, CUT_PRUNE) && run.Legal() && run.Served() && run.Decisions(7, "k") == 1
    ensures run.After() == Logs([], [], [SOME_ITEM])
  {
    hide Next, Enabled;
    run := Then(decided, CUT_PRUNE);
  }

  /** So no reviews need overlap for an item to be decided twice. */
  lemma LostDecisionIsMadeAgain() returns (run: Run)
    ensures run.Legal() && run.Served() && run.Decisions(7, "k") == 2
    ensures !run.ReviewsOverlap(7, "k") && run.DecidedAgain(7, "k")
  {
    var listed := LostDecisionCanBeMadeAgain();
    DecidedTwiceIff(listed, 7, "k");
    var rejected := SOME_ITEM.(status := Rejected, updatedAt := 4);
    assert listed.Listed(SOME_ITEM) && IsDecisionOf(rejected, SOME_ITEM);
    run := Then(listed, SaveKnowledge(rejected));
    DecidedTwiceIff(run, 7, "k");
  }
}
