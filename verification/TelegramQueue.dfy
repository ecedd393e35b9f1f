/** The durable queue of Telegram updates and its worker (internal/secretary/telegram_webhook.go, and
    RunWebhookWorker in telegram.go).

    The two directories are maps from ids to file contents (`QueueFileNames` relates ids and names);
    writing a file is creating a temporary one and renaming it. Every operation that changes the
    directories is recorded in `run`, together with what was handed out. A crash can come after any
    of them, so it leaves some prefix of a run, and the next process continues from there: what is
    proved of all legal runs holds whatever crashes happen. */
module TelegramQueue {
  import opened Common
  import opened QueueFileNames
  import opened Text

  const MAX_PENDING := 128
  const RETENTION := 48 * 3600 * 1_000_000_000
  const TEMP_PREFIX := ".telegram-queue-"

  type Instant = int

  datatype Update = Update(id: Int64, message: string)

  // ----- the directories and the steps that change them -----

  /** `current` is the temporary file of the call in progress; `leftovers` are those of calls that could
      not remove theirs, because of a crash or of an error. */
  datatype Disk = Disk(pending: map<Int64, Update>, completed: map<Int64, Instant>, leftovers: set<string>,
                       current: Option<string>)
  {
    /** The number of entries in the pending directory; temporary files count too. */
    function Entries(): nat {
      |pending| + |leftovers| + if current.Some? then 1 else 0
    }

    ghost predicate Enabled(op: Op) {
      match op
      case CreateTemp(temp) => current.None? && temp !in leftovers && TEMP_PREFIX <= temp && Entries() < MAX_PENDING
      case RemoveTemp => current.Some?
      case Abandon => current.Some?
      case PutPending(u) => current.Some? && 0 < u.id && u.id !in pending && u.id !in completed
      case PutMarker(id, _) => id in pending
      case DropPending(id) => id in pending && id in completed
      case DropMarker(id, now) => id in completed && now - completed[id] > RETENTION
      case Deliver(u) =>
        && u.id in pending && pending[u.id] == u && u.id !in completed
        && forall id :: id in pending ==> u.id <= id
      case Processed(_) => true
    }

    ghost function Apply(op: Op): Disk {
      match op
      case CreateTemp(temp) => this.(current := Some(temp))
      case RemoveTemp => this.(current := None)
      case Abandon => if current.Some? then this.(leftovers := leftovers + {current.value}, current := None) else this
      case PutPending(u) => this.(pending := pending[u.id := u], current := None)
      case PutMarker(id, at) => this.(completed := completed[id := at])
      case DropPending(id) => this.(pending := pending - {id})
      case DropMarker(id, _) => this.(completed := completed - {id})
      case Deliver(_) => this
      case Processed(_) => this
    }
  }

  datatype Op =
    | CreateTemp(temp: string)                 // a temporary file in the pending directory
    | RemoveTemp
    | Abandon                                  // the temporary file is left behind
    | PutPending(u: Update)                    // the rename that accepts an update
    | PutMarker(id: Int64, at: Instant)        // the rename that marks an update completed
    | DropPending(id: Int64)
    | DropMarker(id: Int64, now: Instant)
    | Deliver(u: Update)                       // `Next` returns u
    | Processed(u: Update)                     // the worker has processed u successfully

  type Run = seq<Op>

  ghost function State(run: Run): Disk {
    if run == [] then Disk(map[], map[], {}, None) else State(run[..|run| - 1]).Apply(run[|run| - 1])
  }

  ghost predicate Legal(run: Run) {
    run != [] ==> Legal(run[..|run| - 1]) && State(run[..|run| - 1]).Enabled(run[|run| - 1])
  }

  /** An operation with property `p` came after `base`. */
  ghost predicate Since(base: Run, run: Run, p: Op -> bool) {
    exists i :: |base| <= i < |run| && p(run[i])
  }

  /** Writing a completion marker for `id`. */
  function Marks(id: Int64): Op -> bool {
    (op: Op) => op.PutMarker? && op.id == id
  }

  function Unmarks(id: Int64): Op -> bool {
    (op: Op) => op.DropMarker? && op.id == id
  }

  /** Accepting an update with this id, or handing it out. */
  function Sees(id: Int64): Op -> bool {
    (op: Op) => (op.PutPending? || op.Deliver?) && op.u.id == id
  }

  lemma SinceOneMore(base: Run, run: Run, p: Op -> bool)
    requires base <= run && |base| < |run|
    ensures Since(base, run, p) <==> Since(base, run[..|run| - 1], p) || p(run[|run| - 1])
  {
    var n := |run| - 1;
    if i :| |base| <= i < n && p(run[..n][i]) {
      assert p(run[i]);
    }
    if i :| |base| <= i < |run| && p(run[i]) {
      assert i == n || p(run[..n][i]);
    }
  }

  /** What the clock said after `base`: markers are dated `from` or later, and pruning happens by `upto`. */
  ghost predicate ClockBetween(base: Run, run: Run, from: Instant, upto: Instant) {
    forall i :: |base| <= i < |run| ==>
      (run[i].PutMarker? ==> from <= run[i].at) && (run[i].DropMarker? ==> run[i].now <= upto)
  }

  /** The steps of the worker: an update is handed out, it is processed, and it is marked completed. */
  predicate IsWork(op: Op) {
    op.Deliver? || op.Processed? || op.PutMarker?
  }

  /** What the worker did after `base`, in order. */
  ghost function Worked(base: Run, run: Run): seq<Op> {
    if |run| <= |base| then []
    else
      var front, last := run[..|run| - 1], run[|run| - 1];
      Worked(base, front) + if IsWork(last) then [last] else []
  }

  /** After `base`, an update was marked completed only right after it had been processed. */
  ghost predicate MarksFollowProcessing(base: Run, run: Run) {
    var work := Worked(base, run);
    forall i :: 0 <= i < |work| && work[i].PutMarker? ==>
      i > 0 && work[i - 1].Processed? && work[i - 1].u.id == work[i].id
  }

  // ----- what holds of every run, crashes included -----

  /** What a crash leaves is a legal run, too. */
  lemma {:induction false} CrashIsLegal(run: Run, n: nat)
    requires Legal(run) && n <= |run|
    ensures Legal(run[..n])
    decreases |run| - n
  {
    if n < |run| {
      CrashIsLegal(run, n + 1);
      assert run[..n + 1][..n] == run[..n];
    } else {
      assert run[..n] == run;
    }
  }

  /** An accepted update is never lost: it stays pending, with the same contents, until a completion
      marker for it has been written. */
  lemma {:induction false} NoAcceptedUpdateIsLost(base: Run, run: Run, u: Update)
    requires Legal(run) && base <= run
    requires u.id in State(base).pending && State(base).pending[u.id] == u && u.id !in State(base).completed
    ensures Since(base, run, Marks(u.id)) || (u.id in State(run).pending && State(run).pending[u.id] == u)
    ensures Since(base, run, Marks(u.id)) || u.id !in State(run).completed
  {
    if run != base {
      NoAcceptedUpdateIsLost(base, run[..|run| - 1], u);
      SinceOneMore(base, run, Marks(u.id));
    }
  }

  lemma StepKeepsMarker(d: Disk, op: Op, id: Int64)
    requires d.Enabled(op) && id in d.completed && !Unmarks(id)(op)
    ensures id in d.Apply(op).completed && !Sees(id)(op)
    ensures d.Apply(op).completed[id] == if Marks(id)(op) then op.at else d.completed[id]
  {
  }

  /** While its marker is kept, a completed update is neither accepted nor handed out again. */
  lemma {:induction false} CompletedStaysCompleted(base: Run, run: Run, id: Int64)
    requires Legal(run) && base <= run && id in State(base).completed && !Since(base, run, Unmarks(id))
    ensures id in State(run).completed && !Since(base, run, Sees(id))
  {
    if run != base {
      var before, op := run[..|run| - 1], run[|run| - 1];
      SinceOneMore(base, run, Unmarks(id));
      SinceOneMore(base, run, Sees(id));
      CompletedStaysCompleted(base, before, id);
      StepKeepsMarker(State(before), op, id);
    }
  }

  /** A marker dated `at` or later is kept for 48 hours from `at`. */
  lemma {:induction false} MarkerKeptFor48Hours(base: Run, run: Run, id: Int64, at: Instant)
    requires Legal(run) && base <= run && id in State(base).completed && State(base).completed[id] >= at
    requires ClockBetween(base, run, at, at + 48 * 3_600_000_000_000)
    ensures id in State(run).completed && State(run).completed[id] >= at && !Since(base, run, Unmarks(id))
  {
    if run != base {
      var before, op := run[..|run| - 1], run[|run| - 1];
      assert forall i :: |base| <= i < |before| ==> before[i] == run[i];
      MarkerKeptFor48Hours(base, before, id, at);
      SinceOneMore(base, run, Unmarks(id));
      assert op.DropMarker? ==> op.now <= at + RETENTION;
      assert op.PutMarker? ==> at <= op.at;
      StepKeepsMarker(State(before), op, id);
    }
  }

  /** So for 48 hours after an update is completed it is neither accepted nor handed out again, even
      when the process crashes before it has removed the pending file. */
  lemma CompletedOnceFor48Hours(base: Run, run: Run, id: Int64, at: Instant)
    requires Legal(run) && base <= run && id in State(base).completed && State(base).completed[id] >= at
    requires ClockBetween(base, run, at, at + 48 * 3_600_000_000_000)
    ensures !Since(base, run, Sees(id))
  {
    MarkerKeptFor48Hours(base, run, id, at);
    CompletedStaysCompleted(base, run, id);
  }

  ghost predicate Sane(d: Disk) {
    && d.Entries() <= MAX_PENDING
    && (forall id :: id in d.pending ==> 0 < id && d.pending[id].id == id)
    && (forall id :: id in d.completed ==> 0 < id)
    && (forall t :: t in d.leftovers ==> TEMP_PREFIX <= t)
    && (d.current.Some? ==> TEMP_PREFIX <= d.current.value)
  }

  /** Pending updates and temporary files together are never more than 128, whatever crashes happen; each
      update is in the file of its own positive id. */
  lemma {:induction false} EveryRunIsSane(run: Run)
    requires Legal(run)
    ensures Sane(State(run)) && State(run).Entries() <= 128
  {
    if run != [] {
      EveryRunIsSane(run[..|run| - 1]);
      StepKeepsSane(State(run[..|run| - 1]), run[|run| - 1]);
    }
  }

  lemma StepKeepsSane(d: Disk, op: Op)
    requires Sane(d) && d.Enabled(op)
    ensures Sane(d.Apply(op))
  {
    match op
    case PutPending(u) => AcceptingKeepsSane(d, u);
    case DropPending(id) => DroppingKeepsSane(d, id);
    case _ =>
  }

  lemma AcceptingKeepsSane(d: Disk, u: Update)
    requires Sane(d) && d.current.Some? && 0 < u.id && u.id !in d.pending
    ensures Sane(d.(pending := d.pending[u.id := u], current := None))
  {
    OneMore(d.pending, u.id, u);
  }

  lemma OneMore<K, V>(m: map<K, V>, k: K, v: V)
    requires k !in m
    ensures |m[k := v]| == |m| + 1
  {
    assert (m[k := v]).Keys == m.Keys + {k};
  }

  lemma DroppingKeepsSane(d: Disk, id: Int64)
    requires Sane(d) && id in d.pending
    ensures Sane(d.(pending := d.pending - {id})) && |d.pending - {id}| == |d.pending| - 1
  {
    assert d.pending.Keys == (d.pending - {id}).Keys + {id};
  }

  // ----- temporary files that are left behind -----

  /** What accepting an update answers, when no file operation fails: whether it is new, unless it is
      invalid or there is no room. */
  function Answer(d: Disk, id: Int64, now: Instant): Result<bool> {
    if id <= 0 then Err(InvalidId)
    else if id in d.pending || (id in d.completed && now - d.completed[id] <= RETENTION) then Ok(false)
    else if d.Entries() >= MAX_PENDING then Err(QueueFull)
    else Ok(true)
  }

  predicate IsNew(d: Disk, id: Int64, now: Instant) {
    id > 0 && id !in d.pending && (id in d.completed ==> now - d.completed[id] > RETENTION)
  }

  function Accepts(): Op -> bool {
    (op: Op) => op.PutPending?
  }

  ghost predicate AcceptsLater(base: Run, run: Run) {
    base <= run && Legal(run) && Since(base, run, Accepts())
  }

  /** No operation removes a file that was left behind. */
  lemma {:induction false} LeftoversStay(base: Run, run: Run)
    requires Legal(run) && base <= run
    ensures State(base).leftovers <= State(run).leftovers
  {
    if run != base {
      LeftoversStay(base, run[..|run| - 1]);
    }
  }

  /** Once 128 files are left behind, no update is ever accepted again: every new one is refused. */
  lemma {:induction false} RefusedForever(base: Run, run: Run)
    requires Legal(run) && base <= run && |State(base).leftovers| >= 128
    ensures !Since(base, run, Accepts())
    ensures State(run).pending == map[] && State(run).current == None
    ensures forall id, now :: IsNew(State(run), id, now) ==> Answer(State(run), id, now) == Err(QueueFull)
  {
    EveryRunIsSane(run);
    LeftoversStay(base, run);
    SubsetNotLarger(State(base).leftovers, State(run).leftovers);
    if run != base {
      RefusedForever(base, run[..|run| - 1]);
      SinceOneMore(base, run, Accepts());
    }
  }

  lemma LegalStep(run: Run, op: Op)
    requires Legal(run) && State(run).Enabled(op)
    ensures Legal(run + [op]) && State(run + [op]) == State(run).Apply(op)
  {
    assert (run + [op])[..|run|] == run;
  }

  lemma {:induction false} LongName(names: set<string>) returns (name: string)
    ensures TEMP_PREFIX <= name && forall n :: n in names ==> |n| < |name|
    decreases |names|
  {
    name := TEMP_PREFIX;
    if names != {} {
      var n :| n in names;
      var other := LongName(names - {n});
      name := TEMP_PREFIX + seq(|other| + |n| + 1, _ => '0');
    }
  }

  /** A step, or two, after which fewer entries are there than may be. */
  lemma RoomCanBeMade(base: Run) returns (run: Run)
    requires Legal(base) && |State(base).leftovers| < MAX_PENDING
    ensures Legal(run) && base <= run && State(run).current == None
    ensures State(run).Entries() < MAX_PENDING
  {
    EveryRunIsSane(base);
    if State(base).current.Some? {
      run := base + [RemoveTemp];
      LegalStep(base, RemoveTemp);
    } else if State(base).Entries() < MAX_PENDING {
      run := base;
    } else {
      var id :| id in State(base).pending;
      var marked := base + [PutMarker(id, 0)];
      LegalStep(base, PutMarker(id, 0));
      LegalStep(marked, DropPending(id));
      DroppingKeepsSane(State(base), id);
      run := marked + [DropPending(id)];
    }
  }

  /** The marker of update 1, if there is one, becomes old enough to be dropped. */
  lemma OldMarkerDropped(base: Run) returns (run: Run)
    requires Legal(base) && 1 !in State(base).pending
    ensures Legal(run) && base <= run && 1 !in State(run).completed
    ensures State(run) == State(base).(completed := State(run).completed)
  {
    run := base;
    if 1 in State(base).completed {
      var op := DropMarker(1, State(base).completed[1] + RETENTION + 1);
      LegalStep(base, op);
      run := base + [op];
    }
  }

  /** Update 1, if it is pending, is completed. */
  lemma FirstCompleted(base: Run) returns (run: Run)
    requires Legal(base) && State(base).current == None && State(base).Entries() < MAX_PENDING
    ensures Legal(run) && base <= run && 1 !in State(run).pending
    ensures State(run).current == None && State(run).Entries() < MAX_PENDING
  {
    run := base;
    if 1 in State(base).pending {
      var marked := base + [PutMarker(1, 0)];
      LegalStep(base, PutMarker(1, 0));
      LegalStep(marked, DropPending(1));
      EveryRunIsSane(base);
      DroppingKeepsSane(State(base), 1);
      run := marked + [DropPending(1)];
    }
  }

  lemma AcceptsNow(base: Run, run: Run, u: Update) returns (later: Run)
    requires Legal(run) && base <= run && State(run).current == None && State(run).Entries() < MAX_PENDING
    requires 0 < u.id && u.id !in State(run).pending && u.id !in State(run).completed
    ensures AcceptsLater(base, later)
  {
    var temp := LongName(State(run).leftovers);
    LegalStep(run, CreateTemp(temp));
    var created := run + [CreateTemp(temp)];
    LegalStep(created, PutPending(u));
    later := created + [PutPending(u)];
    assert Accepts()(later[|created|]);
  }

  /** After any run the queue accepts an update at some later time, if its worker and the clock go on,
      exactly when fewer than 128 files have been left behind. */
  lemma AcceptsLaterIff(base: Run)
    requires Legal(base)
    ensures (exists run :: AcceptsLater(base, run)) <==> |State(base).leftovers| < 128
  {
    if |State(base).leftovers| < MAX_PENDING {
      var run := RoomCanBeMade(base);
      run := FirstCompleted(run);
      run := OldMarkerDropped(run);
      var later := AcceptsNow(base, run, Update(1, ""));
    } else if run :| AcceptsLater(base, run) {
      RefusedForever(base, run);
    }
  }

  /** Each crash between the two file operations of accepting an update leaves one more file. */
  lemma {:induction false} CrashesLeaveFiles(n: nat) returns (run: Run)
    requires n <= MAX_PENDING
    ensures Legal(run) && State(run).pending == map[] && State(run).completed == map[]
    ensures |State(run).leftovers| == n && State(run).current == None
  {
    if n == 0 {
      run := [];
    } else {
      var earlier := CrashesLeaveFiles(n - 1);
      var temp := LongName(State(earlier).leftovers);
      LegalStep(earlier, CreateTemp(temp));
      LegalStep(earlier + [CreateTemp(temp)], Abandon);
      run := earlier + [CreateTemp(temp)] + [Abandon];
    }
  }

  /** So 128 crashes, while no update is ever pending, stop the queue for good. */
  lemma LeftoversFillQueue() returns (base: Run)
    ensures Legal(base) && State(base).pending == map[] && State(base).completed == map[]
    ensures forall run :: !AcceptsLater(base, run)
  {
    base := CrashesLeaveFiles(MAX_PENDING);
    AcceptsLaterIff(base);
  }

  // ----- the queue -----

  datatype QueueError = InvalidId | Io | QueueFull | NotPending | BadName | BadFile

  datatype Result<+T> = Ok(value: T) | Err(error: QueueError)

  /** `names` covers the pending files, and holds nothing else but leftovers. */
  ghost predicate Covers(names: set<string>, pending: map<Int64, Update>, leftovers: set<string>) {
    && (forall id :: id in pending ==> PendingName(id) in names)
    && (forall n :: n in names ==> n in leftovers || IsPendingName(pending, n))
  }

  ghost predicate IsPendingName(pending: map<Int64, Update>, name: string) {
    exists id :: id in pending && name == PendingName(id)
  }

  predicate Recognized(name: string) {
    PENDING_PREFIX <= name && HasSuffix(name, SUFFIX)
  }

  lemma NoneLeft(names: set<string>, d: Disk)
    requires Sane(d) && Covers(names, d.pending, d.leftovers) && names == {}
    ensures d.pending == map[]
  {
  }

  lemma LeftoverSkipped(names: set<string>, d: Disk, name: string)
    requires Covers(names, d.pending, d.leftovers) && Sane(d) && !Recognized(name)
    ensures Covers(names - {name}, d.pending, d.leftovers)
  {
    forall id | id in d.pending ensures PendingName(id) != name {
      QueueFileRecognized(id);
    }
  }

  /** The queue file that comes first by name is the one with the smallest id. */
  lemma FirstEntry(names: set<string>, d: Disk, name: string) returns (id: Int64)
    requires Sane(d) && Covers(names, d.pending, d.leftovers)
    requires name in names && forall n :: n in names ==> !StringBefore(n, name)
    requires Recognized(name)
    ensures UpdateId(name, PENDING_PREFIX) == Some(id) && id in d.pending
    ensures forall other :: other in d.pending ==> id <= other
    ensures Covers(names - {name}, d.pending - {id}, d.leftovers)
  {
    assert name !in d.leftovers by {
      assert name[0] == 'p';
    }
    id :| id in d.pending && name == PendingName(id);
    NameParsesBack(PENDING_PREFIX, id);
    forall other | other in d.pending ensures id <= other && (other != id ==> PendingName(other) != name) {
      NamesOrderedAsIds(PENDING_PREFIX, other, id);
    }
    OthersCovered(names, d, id);
  }

  lemma OthersCovered(names: set<string>, d: Disk, id: Int64)
    requires Sane(d) && Covers(names, d.pending, d.leftovers) && id in d.pending
    requires forall other :: other in d.pending && other != id ==> PendingName(other) != PendingName(id)
    ensures Covers(names - {PendingName(id)}, d.pending - {id}, d.leftovers)
  {
    forall n | n in names - {PendingName(id)} && n !in d.leftovers ensures IsPendingName(d.pending - {id}, n) {
      var other :| other in d.pending && n == PendingName(other);
      assert other in d.pending - {id};
    }
  }

  /** The pending update with the smallest id; it is not completed. */
  ghost predicate IsFirst(u: Update, pending: map<Int64, Update>, completed: map<Int64, Instant>) {
    && u.id in pending && pending[u.id] == u && u.id !in completed
    && forall id :: id in pending ==> u.id <= id
  }

  /** The work of a scan is to hand out what it returns. */
  function Handed(r: Result<Option<Update>>): seq<Op> {
    if r.Ok? && r.value.Some? then [Deliver(r.value.value)] else []
  }

  /** Markers were removed only. */
  ghost predicate NoNewMarkers(before: map<Int64, Instant>, after: map<Int64, Instant>) {
    forall id :: id in after ==> id in before && after[id] == before[id]
  }

  /** Of the markers, those in `rest` have not been looked at, and of the others the old ones are gone. */
  ghost predicate PrunedBut(before: map<Int64, Instant>, after: map<Int64, Instant>, rest: set<Int64>, now: Instant) {
    && rest <= before.Keys
    && after == map id | id in before && (id in rest || now - before[id] <= RETENTION) :: before[id]
  }

  lemma NothingPruned(before: map<Int64, Instant>, now: Instant)
    ensures PrunedBut(before, before, before.Keys, now)
  {
  }

  lemma PrunedMeans(before: map<Int64, Instant>, after: map<Int64, Instant>, rest: set<Int64>, now: Instant)
    requires PrunedBut(before, after, rest, now)
    ensures NoNewMarkers(before, after) && rest <= after.Keys
    ensures rest == {} ==>
              after == map id | id in before && now - before[id] <= 48 * 3_600_000_000_000 :: before[id]
  {
  }

  lemma PrunedOneMore(before: map<Int64, Instant>, after: map<Int64, Instant>, rest: set<Int64>, now: Instant,
                      id: Int64)
    requires PrunedBut(before, after, rest, now) && id in rest && id in after
    ensures PrunedBut(before, if now - after[id] > RETENTION then after - {id} else after, rest - {id}, now)
  {
  }

  /** Pending updates were added only. */
  ghost predicate Kept(before: map<Int64, Update>, after: map<Int64, Update>) {
    forall id :: id in before ==> id in after && after[id] == before[id]
  }

  ghost predicate Did(base: Run, run: Run, work: seq<Op>) {
    base <= run && Worked(base, run) == work
  }

  lemma DidNothing(run: Run)
    ensures Did(run, run, [])
  {
  }

  lemma DidOne(run: Run, op: Op)
    ensures Did(run, run + [op], if IsWork(op) then [op] else [])
  {
    assert (run + [op])[..|run|] == run;
  }

  lemma {:induction false} WorkedJoin(a: Run, b: Run, c: Run)
    requires a <= b <= c
    ensures Worked(a, c) == Worked(a, b) + Worked(b, c)
  {
    if |b| < |c| {
      WorkedJoin(a, b, c[..|c| - 1]);
    } else {
      assert b == c;
    }
  }

  lemma DidJoin(a: Run, b: Run, c: Run, first: seq<Op>, then_: seq<Op>)
    requires Did(a, b, first) && Did(b, c, then_)
    ensures Did(a, c, first + then_)
    ensures first + [] == first && [] + then_ == then_
  {
    WorkedJoin(a, b, c);
  }

  /** Pending files are gone only where the update is completed; the others are as they were. */
  ghost predicate Cleared(before: map<Int64, Update>, after: map<Int64, Update>, completed: map<Int64, Instant>) {
    && (forall id :: id in after ==> id in before && after[id] == before[id])
    && (forall id :: id in before && id !in after ==> id in completed)
  }

  // ----- the rounds of the worker -----

  /** How a round of the worker ended: without an update, as the queue had none or failed; after an update was
      handed out that could not be processed; after one was processed that could not be marked completed, or
      could but not be cleared away; or well. */
  datatype Round =
    | NoUpdate
    | QueueFailed(error: QueueError)
    | NotProcessed(u: Update)
    | NotMarked(u: Update, error: QueueError)
    | NotCleared(u: Update, at: Instant, error: QueueError)
    | Done(u: Update, at: Instant)
  {
    function Work(): seq<Op> {
      match this
      case NoUpdate => []
      case QueueFailed(_) => []
      case NotProcessed(u) => [Deliver(u)]
      case NotMarked(u, _) => [Deliver(u), Processed(u)]
      case NotCleared(u, at, _) => [Deliver(u), Processed(u), PutMarker(u.id, at)]
      case Done(u, at) => [Deliver(u), Processed(u), PutMarker(u.id, at)]
    }
  }

  /** Only what can fail does. */
  ghost predicate Fits(reliable: bool, round: Round, succeeds: bool) {
    && (reliable ==> round.NoUpdate? || round.NotProcessed? || round.Done?)
    && (round.NotProcessed? ==> !succeeds)
    && (round.NotMarked? || round.NotCleared? || round.Done? ==> succeeds)
  }

  ghost predicate AllFit(reliable: bool, rounds: seq<Round>, succeeds: nat -> bool) {
    forall i :: 0 <= i < |rounds| ==> Fits(reliable, rounds[i], succeeds(i))
  }

  lemma AllFitOneMore(reliable: bool, rounds: seq<Round>, succeeds: nat -> bool, round: Round)
    requires AllFit(reliable, rounds, succeeds) && Fits(reliable, round, succeeds(|rounds|))
    ensures AllFit(reliable, rounds + [round], succeeds)
  {
    hide Fits;
  }

  function AllWork(rounds: seq<Round>): seq<Op> {
    if rounds == [] then [] else AllWork(rounds[..|rounds| - 1]) + rounds[|rounds| - 1].Work()
  }

  lemma AllWorkOneMore(rounds: seq<Round>, round: Round)
    ensures AllWork(rounds + [round]) == AllWork(rounds) + round.Work()
  {
    assert (rounds + [round])[..|rounds|] == rounds;
  }

  /** An update that was processed is marked completed before anything else is done, unless the round of it
      reports that this has failed. */
  ghost predicate MarkedNext(rounds: seq<Round>, work: seq<Op>, i: nat)
    requires i < |work| && work[i].Processed?
  {
    || (i + 1 < |work| && work[i + 1].PutMarker? && work[i + 1].id == work[i].u.id)
    || exists r :: r in rounds && r.NotMarked? && r.u == work[i].u
  }

  /** A mark comes right after its processing, and this right after the handing out; and what is processed is
      marked next unless a round reports a failure. */
  ghost predicate InTurn(rounds: seq<Round>, work: seq<Op>, i: nat)
    requires i < |work|
  {
    && (work[i].PutMarker? ==> i > 0 && work[i - 1].Processed? && work[i - 1].u.id == work[i].id)
    && (work[i].Processed? ==> i > 0 && work[i - 1] == Deliver(work[i].u) && MarkedNext(rounds, work, i))
  }

  /** So it is with all the work of the rounds. */
  lemma {:induction false} WorkIsInTurn(rounds: seq<Round>, i: nat)
    requires i < |AllWork(rounds)|
    ensures InTurn(rounds, AllWork(rounds), i)
  {
    var front, last := rounds[..|rounds| - 1], rounds[|rounds| - 1];
    assert rounds == front + [last];
    if i < |AllWork(front)| {
      WorkIsInTurn(front, i);
      EarlierInTurn(front, last, i);
    } else {
      LastInTurn(front, last, i);
    }
  }

  lemma EarlierInTurn(front: seq<Round>, last: Round, i: nat)
    requires i < |AllWork(front)| && InTurn(front, AllWork(front), i)
    ensures i < |AllWork(front + [last])| && InTurn(front + [last], AllWork(front + [last]), i)
  {
    AllWorkOneMore(front, last);
    hide AllWork;
    var before, work := AllWork(front), AllWork(front + [last]);
    assert forall k :: 0 <= k < |before| ==> work[k] == before[k];
  }

  lemma LastInTurn(front: seq<Round>, last: Round, i: nat)
    requires |AllWork(front)| <= i < |AllWork(front + [last])|
    ensures InTurn(front + [last], AllWork(front + [last]), i)
  {
    AllWorkOneMore(front, last);
    hide AllWork;
    var n, work := |AllWork(front)|, AllWork(front + [last]);
    assert forall k :: n <= k < |work| ==> work[k] == last.Work()[k - n];
    assert last in front + [last];
  }

  lemma WorkMarksFollow(base: Run, run: Run, rounds: seq<Round>)
    requires Did(base, run, AllWork(rounds))
    ensures MarksFollowProcessing(base, run)
  {
    hide Worked, AllWork, MarkedNext;
    var work := Worked(base, run);
    forall i | 0 <= i < |work| && work[i].PutMarker?
      ensures i > 0 && work[i - 1].Processed? && work[i - 1].u.id == work[i].id
    {
      WorkIsInTurn(rounds, i);
    }
  }

  class FileQueue {
    var pending: map<Int64, Update>
    var completed: map<Int64, Instant>
    /** Temporary files in the pending directory that were left behind. */
    var leftovers: set<string>
    /** File operations do not fail. Otherwise each of them may. */
    const reliable: bool
    ghost var run: Run

    ghost predicate Valid()
      reads this
    {
      Legal(run) && State(run) == Disk(pending, completed, leftovers, None) && Sane(State(run))
    }

    /** Opens a queue on new, empty directories. */
    constructor (reliable: bool)
      ensures Valid() && run == [] && this.reliable == reliable
    {
      this.reliable := reliable;
      pending, completed, leftovers, run := map[], map[], {}, [];
    }

    /** Opens the queue on the directories that an earlier process left after the legal run `before`,
        when it stopped or crashed; the temporary file of the call that a crash stopped is left behind. */
    constructor Reopen(disk: Disk, reliable: bool, ghost before: Run)
      requires Legal(before) && State(before) == disk
      ensures this.reliable == reliable
      ensures Valid() && run == if disk.current.Some? then before + [Abandon] else before
      ensures pending == disk.pending && completed == disk.completed
    {
      this.reliable := reliable;
      pending, completed := disk.pending, disk.completed;
      leftovers := if disk.current.Some? then disk.leftovers + {disk.current.value} else disk.leftovers;
      run := if disk.current.Some? then before + [Abandon] else before;
      new;
      if disk.current.Some? {
        LegalStep(before, Abandon);
      }
      EveryRunIsSane(run);
    }

    ghost method Record(op: Op)
      requires Legal(run) && State(run).Enabled(op) && Sane(State(run))
      modifies `run
      ensures Did(old(run), run, if IsWork(op) then [op] else [])
      ensures run == old(run) + [op] && Legal(run) && State(run) == State(old(run)).Apply(op) && Sane(State(run))
    {
      StepKeepsSane(State(run), op);
      LegalStep(run, op);
      DidOne(run, op);
      run := run + [op];
    }

    /** Accepts an update that is neither pending nor known to be completed. `temp` is the name that
        the operating system picks for the temporary file. */
    method Enqueue(update: Update, now: Instant, temp: string) returns (r: Result<bool>)
      requires Valid() && temp !in leftovers && TEMP_PREFIX <= temp
      modifies this
      ensures Valid() && Did(old(run), run, [])
      ensures update.id <= 0 <==> r == Err(InvalidId)
      ensures r == Err(InvalidId) ==> run == old(run)
      ensures update.id > 0 && r != Err(Io) ==>
                completed == map id | id in old(completed) && now - old(completed)[id] <= 48 * 3_600_000_000_000
                                    :: old(completed)[id]
      ensures r == Ok(true) ==>
                && update.id !in old(pending) && update.id !in completed
                && pending == old(pending)[update.id := update]
                && |old(pending)| + |old(leftovers)| < 128
      ensures r == Ok(false) ==> pending == old(pending) && (update.id in pending || update.id in completed)
      ensures r == Err(QueueFull) ==> pending == old(pending) && update.id !in pending && update.id !in completed
      ensures r == Err(QueueFull) ==> |old(pending)| + |old(leftovers)| >= 128
      ensures leftovers == old(leftovers) || (r == Err(Io) && leftovers == old(leftovers) + {temp})
      ensures r == Err(Io) || r == Answer(old(State(run)), update.id, now)
      ensures reliable ==> r != Err(Io)
      ensures pending == old(pending) || (update.id !in old(pending) && pending == old(pending)[update.id := update])
      ensures NoNewMarkers(old(completed), completed)
    {
      DidNothing(run);
      if update.id <= 0 {
        return Err(InvalidId);
      }
      var pruned := PruneCompleted(now);
      if !pruned {
        return Err(Io);
      }
      ghost var mid := run;
      if update.id in pending {
        return Ok(false);
      }
      if update.id in completed {
        return Ok(false);
      }
      if |pending| + |leftovers| >= MAX_PENDING {
        return Err(QueueFull);
      }
      var written := WritePending(update, temp);
      DidJoin(old(run), mid, run, [], []);
      return if written then Ok(true) else Err(Io);
    }

    /** Writes the file of an update: a temporary file, then the rename that accepts the update. Any
        step may fail; a failure after the rename leaves the update accepted all the same. */
    method WritePending(update: Update, temp: string) returns (ok: bool)
      requires Valid() && temp !in leftovers && TEMP_PREFIX <= temp
      requires 0 < update.id && update.id !in pending && update.id !in completed
      requires |pending| + |leftovers| < MAX_PENDING
      modifies this
      ensures Valid() && Did(old(run), run, []) && completed == old(completed)
      ensures leftovers == old(leftovers) || (!ok && leftovers == old(leftovers) + {temp} && pending == old(pending))
      ensures pending == old(pending) || pending == old(pending)[update.id := update]
      ensures ok ==> pending == old(pending)[update.id := update]
      ensures reliable ==> ok
    {
      hide Did, Sane, Legal, State;
      DidNothing(run);
      var failed := Fails(reliable);
      if failed {
        return false;
      }
      Record(CreateTemp(temp));
      ghost var mid := run;
      failed := Fails(reliable);
      if failed {
        failed := Fails(reliable);
        if failed {
          Record(RemoveTemp);
        } else {
          Record(Abandon);
          leftovers := leftovers + {temp};
        }
        DidJoin(old(run), mid, run, [], []);
        return false;
      }
      Record(PutPending(update));
      DidJoin(old(run), mid, run, [], []);
      pending := pending[update.id := update];
      failed := Fails(reliable);
      if failed {
        return false;
      }
      return true;
    }

    /** Removes the markers that are older than the retention time, and no others. */
    method PruneCompleted(now: Instant) returns (ok: bool)
      requires Valid()
      modifies `completed, `run
      ensures Valid() && Did(old(run), run, []) && NoNewMarkers(old(completed), completed)
      ensures reliable ==> ok
      ensures ok ==>
                completed == map id | id in old(completed) && now - old(completed)[id] <= 48 * 3_600_000_000_000
                                    :: old(completed)[id]
    {
      hide Sane, Legal, Did, NoNewMarkers, PrunedBut;
      DidNothing(run);
      var entries := completed.Keys;
      NothingPruned(completed, now);
      PrunedMeans(completed, completed, entries, now);
      while entries != {}
        invariant Valid() && Did(old(run), run, [])
        invariant PrunedBut(old(completed), completed, entries, now)
        invariant NoNewMarkers(old(completed), completed) && entries <= completed.Keys
      {
        var id :| id in entries;
        var failed := Fails(reliable);
        if failed {
          return false;
        }
        PrunedOneMore(old(completed), completed, entries, now, id);
        if now - completed[id] > RETENTION {
          failed := Fails(reliable);
          if failed {
            return false;
          }
          ghost var mid := run;
          Record(DropMarker(id, now));
          DidJoin(old(run), mid, run, [], []);
          completed := completed - {id};
        }
        entries := entries - {id};
        PrunedMeans(old(completed), completed, entries, now);
      }
      PrunedMeans(old(completed), completed, {}, now);
      return true;
    }

    /** Marks an update completed: first the marker, and only then is the pending file removed. */
    method Complete(id: Int64, now: Instant) returns (r: Result<()>, ghost marked: bool)
      requires Valid()
      modifies this
      ensures Valid() && old(run) <= run && leftovers == old(leftovers)
      ensures id <= 0 <==> r == Err(InvalidId)
      ensures r == Err(NotPending) <==> id > 0 && id !in old(pending) && id !in old(completed)
      ensures id !in old(pending) ==> run == old(run)
      ensures r.Ok? ==> id in completed && id !in pending
      ensures pending == old(pending) || (pending == old(pending) - {id} && id in completed)
      ensures completed == old(completed) || completed == old(completed)[id := now]
      ensures r == Err(InvalidId) || r == Err(NotPending) || r == Err(Io) || r.Ok?
      ensures reliable ==> r != Err(Io)
      ensures Did(old(run), run, if marked then [PutMarker(id, now)] else [])
      ensures marked ==> id in old(pending) && completed == old(completed)[id := now]
      ensures r.Ok? && id in old(pending) ==> marked
      ensures id in old(pending) && r.Ok? ==> pending == old(pending) - {id}
    {
      hide Sane, Legal, Did;
      DidNothing(run);
      marked := false;
      if id <= 0 {
        return Err(InvalidId), marked;
      }
      if id !in pending {
        if id in completed {
          return Ok(()), marked;
        }
        return Err(NotPending), marked;
      }
      var failed := Fails(reliable);
      if failed {
        return Err(Io), marked;
      }
      Record(PutMarker(id, now));
      marked := true;
      completed := completed[id := now];
      ghost var mid := run;
      failed := Fails(reliable);
      if failed {
        return Err(Io), marked;
      }
      Record(DropPending(id));
      DidJoin(old(run), mid, run, [PutMarker(id, now)], []);
      pending := pending - {id};
      failed := Fails(reliable);
      if failed {
        return Err(Io), marked;
      }
      return Ok(()), marked;
    }

    /** The entry that comes first in the order of names. */
    method FirstName(names: set<string>) returns (first: string)
      requires names != {}
      ensures first in names && forall n :: n in names ==> !StringBefore(n, first)
    {
      first :| first in names;
      NothingBeforeItself(first);
      var rest := names - {first};
      while rest != {}
        invariant rest <= names && first in names
        invariant forall n :: n in names && n !in rest ==> !StringBefore(n, first)
        decreases rest
      {
        var name :| name in rest;
        if StringBefore(name, first) {
          forall n | n in names && n !in rest ensures !StringBefore(n, name) {
            if StringBefore(n, name) {
              StringsTransitive(n, name, first);
            }
          }
          first := name;
          NothingBeforeItself(first);
        }
        rest := rest - {name};
      }
    }

    /** One queue file, the first of those that are left: cleared away if its update is completed. */
    method Examine(id: Int64) returns (r: Result<Option<Update>>)
      requires Valid() && id in pending && forall other :: other in pending ==> id <= other
      modifies `pending, `run
      ensures Valid() && Did(old(run), run, Handed(r))
      ensures r == Ok(None) ==> id in completed && pending == old(pending) - {id}
      ensures r != Ok(None) ==> pending == old(pending)
      ensures r.Ok? && r.value.Some? ==> r.value.value == pending[id] && pending[id].id == id && id !in completed
      ensures r.Err? ==> r.error == Io && !reliable
    {
      hide Legal, Did;
      DidNothing(run);
      var failed := Fails(reliable);
      if failed {
        return Err(Io);
      }
      if id in completed {
        failed := Fails(reliable);
        if failed {
          return Err(Io);
        }
        Record(DropPending(id));
        pending := pending - {id};
        return Ok(None);
      }
      failed := Fails(reliable);
      if failed {
        return Err(Io);
      }
      var update := pending[id];
      if update.id != id {
        return Err(BadFile);
      }
      Record(Deliver(update));
      return Ok(Some(update));
    }

    /** One directory entry, the first of those that are left: skipped if it is no queue file. */
    method ExamineEntry(name: string, ghost names: set<string>) returns (r: Result<Option<Update>>)
      requires Valid() && Covers(names, pending, leftovers)
      requires name in names && forall n :: n in names ==> !StringBefore(n, name)
      modifies `pending, `run
      ensures Valid() && Did(old(run), run, Handed(r))
      ensures Cleared(old(pending), pending, completed)
      ensures r == Ok(None) ==> Covers(names - {name}, pending, leftovers)
      ensures r.Ok? && r.value.Some? ==> IsFirst(r.value.value, pending, completed)
      ensures r.Err? ==> r.error == Io && !reliable
    {
      hide Did, Sane, Legal;
      DidNothing(run);
      if !(PENDING_PREFIX <= name) || !HasSuffix(name, SUFFIX) {
        LeftoverSkipped(names, State(run), name);
        return Ok(None);
      }
      ghost var first := FirstEntry(names, State(run), name);
      var parsed := UpdateId(name, PENDING_PREFIX);
      if parsed.None? {
        return Err(BadName);
      }
      r := Examine(parsed.value);
    }

    /** One scan of `Next`, under the lock: the update to process next, if there is one. Pending files
        of completed updates, which a crash may have left, are cleared away and never returned. */
    method Next() returns (r: Result<Option<Update>>)
      requires Valid()
      modifies `pending, `run
      ensures Valid()
      ensures Cleared(old(pending), pending, completed)
      ensures r.Ok? && r.value.Some? ==> IsFirst(r.value.value, pending, completed)
      ensures r.Ok? && r.value.None? ==> pending == map[]
      ensures r.Err? ==> r.error == Io && !reliable
      ensures Did(old(run), run, Handed(r))
    {
      hide Sane, Legal, Did;
      DidNothing(run);
      var names := (set id | id in pending :: PendingName(id)) + leftovers;
      while names != {}
        invariant Valid() && Did(old(run), run, [])
        invariant Cleared(old(pending), pending, completed)
        invariant Covers(names, pending, leftovers)
        decreases names
      {
        var name := FirstName(names);
        ghost var mid := run;
        var examined := ExamineEntry(name, names);
        DidJoin(old(run), mid, run, [], Handed(examined));
        names := names - {name};
        if examined.Err? || examined.value.Some? {
          return examined;
        }
      }
      NoneLeft(names, State(run));
      return Ok(None);
    }

    /** Updates that the webhook accepts, or not, while the worker does something else. */
    method Arrivals(count: nat)
      requires Valid()
      modifies this
      ensures Valid() && Did(old(run), run, [])
      ensures Kept(old(pending), pending) && NoNewMarkers(old(completed), completed)
      ensures count == 0 ==> pending == old(pending) && completed == old(completed)
    {
      hide Sane, Legal, Did;
      DidNothing(run);
      for i := 0 to count
        invariant Valid() && Did(old(run), run, [])
        invariant Kept(old(pending), pending) && NoNewMarkers(old(completed), completed)
        invariant i == 0 ==> pending == old(pending) && completed == old(completed)
      {
        ghost var mid := run;
        var update: Update := *;
        var now: Instant := *;
        var temp: string := *;
        if temp !in leftovers && TEMP_PREFIX <= temp {
          var answer := Enqueue(update, now, temp);
          DidJoin(old(run), mid, run, [], []);
        }
      }
    }

    /** One round of the worker, in which processing succeeds or fails: the next update is processed and then
        marked completed. Between its calls of the queue updates arrive. */
    method WorkerRound(arrivals: nat, succeeds: bool) returns (ghost round: Round)
      requires Valid()
      modifies this
      ensures Valid() && Did(old(run), run, round.Work()) && Fits(reliable, round, succeeds)
      ensures round.NoUpdate? ==> pending == map[]
      ensures round.Done? ==> round.u.id in completed && round.u.id !in pending
      ensures arrivals == 0 ==> Cleared(old(pending), pending, completed) && completed.Keys >= old(completed.Keys)
      ensures arrivals == 0 && round.Done? ==> round.u.id in old(pending)
    {
      hide IsFirst, Cleared, Sane, Legal, Did;
      ghost var start := run;
      Arrivals(arrivals);
      ghost var scanned := pending;
      ghost var mid := run;
      var next := Next();
      DidJoin(start, mid, run, [], Handed(next));
      if next.Err? {
        return QueueFailed(next.error);
      }
      if next.value.None? {
        return NoUpdate;
      }
      var update := next.value.value;
      FirstMeans(update, scanned, pending, completed, run);
      ghost var waiting, marked := pending, completed;
      round := Process(start, update, arrivals, succeeds);
      if arrivals == 0 {
        ClearedJoin(scanned, waiting, pending, marked, completed);
      }
    }

    /** Processes an update that was handed out. */
    method Process(ghost start: Run, update: Update, arrivals: nat, succeeds: bool) returns (ghost round: Round)
      requires Valid() && Did(start, run, [Deliver(update)])
      requires 0 < update.id && update.id in pending && update.id !in completed
      modifies this
      ensures Valid() && Did(start, run, round.Work()) && Fits(reliable, round, succeeds)
      ensures round.NotProcessed? || round.NotMarked? || round.NotCleared? || round.Done?
      ensures round.u == update
      ensures round.Done? ==> update.id in completed && update.id !in pending
      ensures arrivals == 0 ==> Cleared(old(pending), pending, completed) && completed.Keys >= old(completed.Keys)
    {
      hide Sane, Legal, Did;
      ghost var handed := run;
      Arrivals(arrivals);
      DidJoin(start, handed, run, [Deliver(update)], []);
      if !succeeds {
        return NotProcessed(update);
      }
      ghost var before := run;
      Record(Processed(update));
      DidJoin(start, before, run, [Deliver(update)], [Processed(update)]);
      assert [Deliver(update)] + [Processed(update)] == [Deliver(update), Processed(update)];
      round := CompleteProcessed(start, update, arrivals);
    }

    /** Marks the update completed that was processed last, after some arrivals. */
    method CompleteProcessed(ghost start: Run, update: Update, arrivals: nat) returns (ghost round: Round)
      requires Valid() && Did(start, run, [Deliver(update), Processed(update)])
      requires 0 < update.id && update.id in pending && update.id !in completed
      modifies this
      ensures Valid() && Did(start, run, round.Work()) && Fits(reliable, round, true)
      ensures round.NotMarked? || round.NotCleared? || round.Done?
      ensures round.u == update
      ensures round.Done? ==> update.id in completed && update.id !in pending
      ensures arrivals == 0 ==> Cleared(old(pending), pending, completed) && completed.Keys >= old(completed.Keys)
    {
      hide Sane, Legal, Did;
      ghost var before := run;
      Arrivals(arrivals);
      DidJoin(start, before, run, [Deliver(update), Processed(update)], []);
      ghost var mid := run;
      var now: Instant := *;
      var done, marked := Complete(update.id, now);
      ghost var mark := if marked then [PutMarker(update.id, now)] else [];
      DidJoin(start, mid, run, [Deliver(update), Processed(update)], mark);
      assert [Deliver(update), Processed(update)] + [PutMarker(update.id, now)]
          == [Deliver(update), Processed(update), PutMarker(update.id, now)];
      round := if !marked then NotMarked(update, done.error)
               else if done.Err? then NotCleared(update, now, done.error) else Done(update, now);
    }

    /** The worker, until its context is cancelled after `turns` rounds; in round i processing succeeds or fails
        as `succeeds` says. What it does is the work of its rounds, in order: an update that is processed is
        marked completed next, unless its round reports that this failed, and none is marked but those. When
        nothing fails and nothing arrives, all that was pending is completed. */
    method RunWebhookWorker(turns: nat, arrivals: nat, succeeds: nat -> bool) returns (ghost rounds: seq<Round>)
      requires Valid()
      modifies this
      ensures Valid() && Did(old(run), run, AllWork(rounds)) && MarksFollowProcessing(old(run), run)
      ensures |rounds| == turns && AllFit(reliable, rounds, succeeds)
      ensures reliable && arrivals == 0 && (forall i: nat :: i < turns ==> succeeds(i)) && turns >= |old(pending)| ==>
                pending == map[] && forall id :: id in old(pending) ==> id in completed
    {
      hide Did, Sane, Legal, AllWork, MarksFollowProcessing, Cleared, Fits, AllFit;
      rounds := [];
      NothingDone(reliable, succeeds, run, pending, completed);
      ghost var calm := reliable && forall i: nat :: i < turns ==> succeeds(i);
      for turn := 0 to turns
        invariant Valid() && Did(old(run), run, AllWork(rounds))
        invariant |rounds| == turn && AllFit(reliable, rounds, succeeds)
        invariant arrivals == 0 ==> Cleared(old(pending), pending, completed)
        invariant arrivals == 0 && calm ==> Drains(old(pending), pending, turn)
      {
        ghost var mid, was, marked := run, pending, completed;
        ghost var round := WorkerRound(arrivals, succeeds(turn));
        DidJoin(old(run), mid, run, AllWork(rounds), round.Work());
        AllWorkOneMore(rounds, round);
        AllFitOneMore(reliable, rounds, succeeds, round);
        if arrivals == 0 {
          ClearedJoin(old(pending), was, pending, marked, completed);
          if calm {
            RoundDrains(old(pending), was, pending, completed, turn, round);
          }
        }
        rounds := rounds + [round];
      }
      WorkMarksFollow(old(run), run, rounds);
      AllCleared(old(pending), pending, completed);
    }
  }

  /** Each round has taken one update, until none was left. */
  ghost predicate Drains(before: map<Int64, Update>, pending: map<Int64, Update>, turn: nat) {
    pending == map[] || |pending| + turn <= |before|
  }

  lemma RoundDrains(before: map<Int64, Update>, was: map<Int64, Update>, pending: map<Int64, Update>,
                    completed: map<Int64, Instant>, turn: nat, round: Round)
    requires Drains(before, was, turn) && Fits(true, round, true) && Cleared(was, pending, completed)
    requires round.NoUpdate? ==> pending == map[]
    requires round.Done? ==> round.u.id in was && round.u.id !in pending
    ensures Drains(before, pending, turn + 1)
  {
    if round.Done? {
      ClearedIsSmaller(was, pending, completed, round.u.id);
    }
  }

  lemma NothingDone(reliable: bool, succeeds: nat -> bool, run: Run, pending: map<Int64, Update>,
                    completed: map<Int64, Instant>)
    ensures AllFit(reliable, [], succeeds)
    ensures Did(run, run, AllWork([])) && Cleared(pending, pending, completed)
  {
  }

  lemma FirstMeans(u: Update, before: map<Int64, Update>, pending: map<Int64, Update>, completed: map<Int64, Instant>,
                   run: Run)
    requires Sane(State(run)) && State(run).pending == pending && IsFirst(u, pending, completed)
    requires Cleared(before, pending, completed)
    ensures 0 < u.id && u.id in pending && u.id !in completed && u.id in before
  {
  }

  lemma ClearedJoin(a: map<Int64, Update>, b: map<Int64, Update>, c: map<Int64, Update>,
                    first: map<Int64, Instant>, then_: map<Int64, Instant>)
    requires Cleared(a, b, first) && Cleared(b, c, then_) && first.Keys <= then_.Keys
    ensures Cleared(a, c, then_)
  {
  }

  lemma ClearedIsSmaller(before: map<Int64, Update>, after: map<Int64, Update>, completed: map<Int64, Instant>,
                         id: Int64)
    requires Cleared(before, after, completed) && id in before && id !in after
    ensures |after| < |before|
  {
    assert after.Keys <= before.Keys - {id};
    SubsetNotLarger(after.Keys, before.Keys - {id});
  }

  lemma AllCleared(before: map<Int64, Update>, after: map<Int64, Update>, completed: map<Int64, Instant>)
    ensures Cleared(before, after, completed) && after == map[] ==> forall id :: id in before ==> id in completed
  {
  }
}
