/** Records that are appended to one file per owner and day, and read back by going through the days. */
module DayFiles {
  import opened Common
  import Sorting

  datatype Path = Path(owner: int, day: int)

  type Files<T> = map<Path, seq<T>>

  function At<T>(files: Files<T>, p: Path): seq<T> {
    if p in files then files[p] else []
  }

  function Append<T>(files: Files<T>, p: Path, x: T): Files<T> {
    files[p := At(files, p) + [x]]
  }

  /** The files after everything in the log has been appended, in its order. */
  function Filed<T>(path: T -> Path, log: seq<T>): Files<T> {
    if log == [] then map[]
    else Append(Filed(path, log[..|log| - 1]), path(log[|log| - 1]), log[|log| - 1])
  }

  lemma FiledOneMore<T>(path: T -> Path, log: seq<T>, x: T)
    ensures Filed(path, log + [x]) == Append(Filed(path, log), path(x), x)
  {
    assert (log + [x])[..|log|] == log;
  }

  function OnPath<T>(path: T -> Path, p: Path): T -> bool {
    (x: T) => path(x) == p
  }

  function Both<T>(p: T -> bool, q: T -> bool): T -> bool {
    (x: T) => p(x) && q(x)
  }

  /** A file holds what has its path, in the order of the log; there are no empty files. */
  lemma {:induction false} FileHolds<T>(path: T -> Path, log: seq<T>, p: Path)
    ensures At(Filed(path, log), p) == Sorting.Filter(OnPath(path, p), log)
    ensures p in Filed(path, log) <==> At(Filed(path, log), p) != []
  {
    if log != [] {
      FileHolds(path, log[..|log| - 1], p);
    }
  }

  lemma {:induction false} FilterMembers<T>(p: T -> bool, s: seq<T>)
    ensures forall x :: x in Sorting.Filter(p, s) <==> x in s && p(x)
  {
    if s != [] {
      FilterMembers(p, s[..|s| - 1]);
      assert s == s[..|s| - 1] + [s[|s| - 1]];
    }
  }

  lemma {:induction false} FilterTwice<T>(p: T -> bool, q: T -> bool, s: seq<T>)
    ensures Sorting.Filter(p, Sorting.Filter(q, s)) == Sorting.Filter(Both(p, q), s)
  {
    if s != [] {
      var front, last := s[..|s| - 1], s[|s| - 1];
      FilterTwice(p, q, front);
      Sorting.FilterOneMore(p, Sorting.Filter(q, front), last);
      assert Sorting.Filter(q, front) + [] == Sorting.Filter(q, front);
    }
  }

  lemma {:induction false} FilterSame<T>(p: T -> bool, q: T -> bool, s: seq<T>)
    requires forall x :: x in s ==> p(x) == q(x)
    ensures Sorting.Filter(p, s) == Sorting.Filter(q, s)
  {
    if s != [] {
      FilterSame(p, q, s[..|s| - 1]);
    }
  }

  /** Each file holds what has its path, in the order of the log. There may be empty files. */
  ghost predicate Holds<T(!new)>(files: Files<T>, path: T -> Path, log: seq<T>) {
    forall p :: At(files, p) == Sorting.Filter(OnPath(path, p), log)
  }

  lemma FiledHolds<T(!new)>(path: T -> Path, log: seq<T>)
    ensures Holds(Filed(path, log), path, log)
  {
    forall p ensures At(Filed(path, log), p) == Sorting.Filter(OnPath(path, p), log) {
      FileHolds(path, log, p);
    }
  }

  lemma AppendHolds<T(!new)>(files: Files<T>, path: T -> Path, log: seq<T>, x: T)
    requires Holds(files, path, log)
    ensures Holds(Append(files, path(x), x), path, log + [x])
  {
    forall p ensures At(Append(files, path(x), x), p) == Sorting.Filter(OnPath(path, p), log + [x]) {
      Sorting.FilterOneMore(OnPath(path, p), log, x);
      assert At(files, p) == Sorting.Filter(OnPath(path, p), log);
    }
  }

  lemma FileOfPath<T(!new)>(files: Files<T>, path: T -> Path, log: seq<T>, p: Path)
    requires Holds(files, path, log)
    ensures forall x :: x in At(files, p) <==> x in log && path(x) == p
  {
    FilterMembers(OnPath(path, p), log);
  }

  // ----- rewriting files -----

  function Take<T>(s: seq<T>, n: nat): seq<T> {
    if |s| <= n then s else s[..n]
  }

  /** What should be left in a file. */
  function Keeping<T>(path: T -> Path, keep: T -> bool, p: Path): T -> bool {
    Both(OnPath(path, p), keep)
  }

  /** What is left of a log when files are rewritten without what is not kept. `left` has the files that were
      rewritten, and how many records at most were written to each: when fewer than should be left, the
      others are lost. */
  function Rewritten<T>(path: T -> Path, keep: T -> bool, log: seq<T>, left: map<Path, nat>): seq<T> {
    if log == [] then []
    else
      var front, x := log[..|log| - 1], log[|log| - 1];
      Rewritten(path, keep, front, left) + if Stays(path, keep, front, left, x) then [x] else []
  }

  predicate Stays<T>(path: T -> Path, keep: T -> bool, front: seq<T>, left: map<Path, nat>, x: T) {
    path(x) in left ==> keep(x) && |Sorting.Filter(Keeping(path, keep, path(x)), front)| < left[path(x)]
  }

  /** All files of the log were rewritten. */
  ghost predicate Covered<T(!new)>(path: T -> Path, log: seq<T>, left: map<Path, nat>) {
    forall x :: x in log ==> path(x) in left
  }

  /** Every file that was rewritten was written whole. */
  ghost predicate Whole<T>(path: T -> Path, keep: T -> bool, log: seq<T>, left: map<Path, nat>) {
    forall p :: p in left ==> |Sorting.Filter(Keeping(path, keep, p), log)| <= left[p]
  }

  /** A record that should have been left has, wherever it is in the log, at least as many before it that
      should be left in its file as were written. */
  ghost predicate Lost<T>(path: T -> Path, keep: T -> bool, log: seq<T>, left: map<Path, nat>, x: T) {
    && path(x) in left && keep(x)
    && forall i :: 0 <= i < |log| && log[i] == x ==>
         |Sorting.Filter(Keeping(path, keep, path(x)), log[..i])| >= left[path(x)]
  }

  /** A file that was rewritten has the first of the records that should be left in it; the others are as they were. */
  lemma {:induction false} RewrittenFile<T>(
    path: T -> Path, keep: T -> bool, log: seq<T>, left: map<Path, nat>, p: Path)
    ensures Sorting.Filter(OnPath(path, p), Rewritten(path, keep, log, left)) ==
      if p in left then Take(Sorting.Filter(Keeping(path, keep, p), log), left[p])
      else Sorting.Filter(OnPath(path, p), log)
  {
    if log != [] {
      var front, x := log[..|log| - 1], log[|log| - 1];
      var rest, stays := Rewritten(path, keep, front, left), Stays(path, keep, front, left, x);
      assert Rewritten(path, keep, log, left) == rest + if stays then [x] else [];
      RewrittenFile(path, keep, front, left, p);
      var inFront := Sorting.Filter(Keeping(path, keep, p), front);
      assert path(x) == p && p in left ==> (stays <==> keep(x) && |inFront| < left[p]);
      assert path(x) == p && p !in left ==> stays;
      hide Rewritten, Sorting.Filter, Take, Stays;
      FileOneMore(path, keep, front, x, rest, stays, p);
      if p in left {
        TakeOneMore(inFront, x, left[p]);
      }
    }
  }

  /** What one record more is in the file of a path. */
  lemma FileOneMore<T>(path: T -> Path, keep: T -> bool, front: seq<T>, x: T, rest: seq<T>, stays: bool, p: Path)
    ensures Sorting.Filter(OnPath(path, p), rest + if stays then [x] else []) ==
            Sorting.Filter(OnPath(path, p), rest) + if stays && path(x) == p then [x] else []
    ensures Sorting.Filter(OnPath(path, p), front + [x]) ==
            Sorting.Filter(OnPath(path, p), front) + if path(x) == p then [x] else []
    ensures Sorting.Filter(Keeping(path, keep, p), front + [x]) ==
            Sorting.Filter(Keeping(path, keep, p), front) + if path(x) == p && keep(x) then [x] else []
  {
    assert rest + [] == rest;
    Sorting.FilterOneMore(OnPath(path, p), rest, x);
    Sorting.FilterOneMore(OnPath(path, p), front, x);
    Sorting.FilterOneMore(Keeping(path, keep, p), front, x);
    hide Sorting.Filter;
  }

  lemma TakeOneMore<T>(s: seq<T>, x: T, n: nat)
    ensures Take(s + [x], n) == Take(s, n) + if |s| < n then [x] else []
    ensures s + [] == s
  {
  }

  lemma {:induction false} RewrittenMembers<T(!new)>(
    path: T -> Path, keep: T -> bool, log: seq<T>, left: map<Path, nat>)
    ensures forall x :: x in Rewritten(path, keep, log, left) ==> x in log && (path(x) in left ==> keep(x))
    ensures forall x :: x in log && path(x) !in left ==> x in Rewritten(path, keep, log, left)
  {
    if log != [] {
      RewrittenMembers(path, keep, log[..|log| - 1], left);
      assert log == log[..|log| - 1] + [log[|log| - 1]];
    }
  }

  lemma RewrittenOneMore<T>(path: T -> Path, keep: T -> bool, log: seq<T>, left: map<Path, nat>, x: T)
    ensures Rewritten(path, keep, log + [x], left) ==
      Rewritten(path, keep, log, left) + if Stays(path, keep, log, left, x) then [x] else []
  {
    assert (log + [x])[..|log|] == log;
  }

  lemma RewrittenOne<T>(path: T -> Path, keep: T -> bool, left: map<Path, nat>, x: T)
    ensures Rewritten(path, keep, [x], left) == if path(x) in left ==> keep(x) && left[path(x)] > 0 then [x] else []
    ensures Sorting.Filter(keep, [x]) == if keep(x) then [x] else []
  {
    assert [x] == [] + [x];
    RewrittenOneMore(path, keep, [], left, x);
    Sorting.FilterOneMore(keep, [], x);
  }

  /** Where no file was rewritten, nothing is changed. */
  lemma {:induction false} UntouchedLog<T>(path: T -> Path, keep: T -> bool, log: seq<T>)
    ensures Rewritten(path, keep, log, map[]) == log
  {
    if log != [] {
      UntouchedLog(path, keep, log[..|log| - 1]);
    }
  }

  ghost predicate StaysAt<T>(path: T -> Path, keep: T -> bool, log: seq<T>, left: map<Path, nat>, x: T, i: int) {
    0 <= i < |log| && log[i] == x && Stays(path, keep, log[..i], left, x)
  }

  lemma StaysAtFront<T>(path: T -> Path, keep: T -> bool, log: seq<T>, left: map<Path, nat>, x: T, i: int)
    requires log != [] && i < |log| - 1
    ensures StaysAt(path, keep, log[..|log| - 1], left, x, i) == StaysAt(path, keep, log, left, x, i)
  {
    assert 0 <= i ==> log[..|log| - 1][..i] == log[..i];
  }

  /** What is left of a record is decided by its places in the log. */
  lemma {:induction false} LeftByPlace<T(!new)>(
    path: T -> Path, keep: T -> bool, log: seq<T>, left: map<Path, nat>, x: T)
    ensures x in Rewritten(path, keep, log, left) <==> exists i :: StaysAt(path, keep, log, left, x, i)
  {
    if log != [] {
      var n, last := |log| - 1, log[|log| - 1];
      LeftByPlace(path, keep, log[..n], left, x);
      var rest := Rewritten(path, keep, log[..n], left);
      assert Rewritten(path, keep, log, left) == rest + if Stays(path, keep, log[..n], left, last) then [last] else [];
      assert x == last && Stays(path, keep, log[..n], left, last) <==> StaysAt(path, keep, log, left, x, n);
      hide Rewritten, Stays, StaysAt;
      if i :| StaysAt(path, keep, log[..n], left, x, i) {
        PlaceInLog(path, keep, log[..n], left, x, i);
        StaysAtFront(path, keep, log, left, x, i);
      }
      if i :| StaysAt(path, keep, log, left, x, i) && i != n {
        PlaceInLog(path, keep, log, left, x, i);
        StaysAtFront(path, keep, log, left, x, i);
      }
    } else {
      hide Stays;
    }
  }

  lemma PlaceInLog<T>(path: T -> Path, keep: T -> bool, log: seq<T>, left: map<Path, nat>, x: T, i: int)
    requires StaysAt(path, keep, log, left, x, i)
    ensures 0 <= i < |log|
  {
  }

  /** A record that should have been left was not if and only if it is lost. */
  lemma LostIffNotLeft<T(!new)>(path: T -> Path, keep: T -> bool, log: seq<T>, left: map<Path, nat>, x: T)
    requires path(x) in left && keep(x)
    ensures Lost(path, keep, log, left, x) <==> x !in Rewritten(path, keep, log, left)
  {
    LeftByPlace(path, keep, log, left, x);
    hide Rewritten, Sorting.Filter;
    if !Lost(path, keep, log, left, x) {
      var i :| 0 <= i < |log| && log[i] == x
            && |Sorting.Filter(Keeping(path, keep, path(x)), log[..i])| < left[path(x)];
      assert StaysAt(path, keep, log, left, x, i);
    }
  }

  function KeptBy<T>(path: T -> Path, keep: T -> bool, left: map<Path, nat>): T -> bool {
    (x: T) => path(x) in left ==> keep(x)
  }

  lemma WholeOfFront<T>(path: T -> Path, keep: T -> bool, front: seq<T>, x: T, left: map<Path, nat>)
    requires Whole(path, keep, front + [x], left)
    ensures Whole(path, keep, front, left) && Stays(path, keep, front, left, x) == KeptBy(path, keep, left)(x)
  {
    forall p | p in left ensures |Sorting.Filter(Keeping(path, keep, p), front)| <= left[p] {
      Sorting.FilterOneMore(Keeping(path, keep, p), front, x);
    }
    Sorting.FilterOneMore(Keeping(path, keep, path(x)), front, x);
  }

  /** When nothing is lost, rewriting only takes what is not kept. */
  lemma {:induction false} WholeIsFilter<T>(path: T -> Path, keep: T -> bool, log: seq<T>, left: map<Path, nat>)
    requires Whole(path, keep, log, left)
    ensures Rewritten(path, keep, log, left) == Sorting.Filter(KeptBy(path, keep, left), log)
  {
    if log != [] {
      var front, x := log[..|log| - 1], log[|log| - 1];
      assert log == front + [x];
      hide Whole, Stays;
      WholeOfFront(path, keep, front, x, left);
      WholeIsFilter(path, keep, front, left);
    }
  }

  lemma WholeKeeps<T(!new)>(path: T -> Path, keep: T -> bool, log: seq<T>, left: map<Path, nat>, x: T)
    requires Whole(path, keep, log, left)
    ensures x in Rewritten(path, keep, log, left) <==> x in log && (path(x) in left ==> keep(x))
  {
    WholeIsFilter(path, keep, log, left);
    FilterMembers(KeptBy(path, keep, left), log);
  }

  /** Rewriting every file leaves exactly what is kept if and only if every file was written whole. */
  lemma RewrittenIsFilterIff<T(!new)>(path: T -> Path, keep: T -> bool, log: seq<T>, left: map<Path, nat>)
    requires Covered(path, log, left)
    ensures Rewritten(path, keep, log, left) == Sorting.Filter(keep, log) <==> Whole(path, keep, log, left)
  {
    if Whole(path, keep, log, left) {
      WholeIsFilter(path, keep, log, left);
      FilterSame(KeptBy(path, keep, left), keep, log);
    }
    if Rewritten(path, keep, log, left) == Sorting.Filter(keep, log) {
      forall p | p in left ensures |Sorting.Filter(Keeping(path, keep, p), log)| <= left[p] {
        RewrittenFile(path, keep, log, left, p);
        FilterTwice(OnPath(path, p), keep, log);
      }
    }
  }

  /** What will not be kept later either can have gone before: a rewriting that was not finished can be repeated. */
  lemma RepeatedRewriting<T(!new)>(
    path: T -> Path, keep: T -> bool, later: T -> bool, log: seq<T>, left: map<Path, nat>)
    requires Whole(path, keep, log, left) && forall x :: later(x) ==> keep(x)
    ensures Sorting.Filter(later, Rewritten(path, keep, log, left)) == Sorting.Filter(later, log)
  {
    WholeIsFilter(path, keep, log, left);
    FilterTwice(later, KeptBy(path, keep, left), log);
    FilterSame(Both(later, KeptBy(path, keep, left)), later, log);
  }

  // ----- the days of an owner, in order -----

  ghost predicate Ascending(days: seq<int>) {
    forall i, j :: 0 <= i < j < |days| ==> days[i] < days[j]
  }

  lemma {:induction false} LeastExists(s: set<int>)
    requires |s| > 0
    ensures exists m :: m in s && forall d :: d in s ==> m <= d
    decreases |s|
  {
    assert (forall x :: x !in s) ==> s == {};
    var x :| x in s;
    var others := s - {x};
    if others == {} {
      assert forall d :: d in s ==> d == x || d in others;
    } else {
      LeastExists(others);
      var m :| m in others && forall d :: d in others ==> m <= d;
      var least := if x < m then x else m;
      assert forall d :: d in s ==> d == x || d in others;
      assert least in s && forall d :: d in s ==> least <= d;
    }
  }

  function DaysOf<T>(files: Files<T>, owner: int): set<int> {
    set p | p in files && p.owner == owner :: p.day
  }

  ghost predicate Lists(days: seq<int>, s: set<int>) {
    Ascending(days) && forall d :: d in days <==> d in s
  }

  /** The days that the owner has files of, in the order of their names. */
  method JsonlFiles<T>(files: Files<T>, owner: int) returns (days: seq<int>)
    ensures Lists(days, DaysOf(files, owner))
  {
    var rest := DaysOf(files, owner);
    ghost var all := rest;
    days := [];
    while rest != {}
      invariant Ascending(days)
      invariant rest <= all
      invariant forall d :: d in days <==> d in all && d !in rest
      invariant forall d, e :: d in days && e in rest ==> d < e
      decreases |rest|
    {
      LeastExists(rest);
      var least :| least in rest && forall d :: d in rest ==> least <= d;
      forall i | 0 <= i < |days| ensures days[i] < least {
        assert days[i] in days;
      }
      days := days + [least];
      rest := rest - {least};
    }
  }

  function Scan<T>(files: Files<T>, owner: int, days: seq<int>): seq<T> {
    if days == [] then []
    else Scan(files, owner, days[..|days| - 1]) + At(files, Path(owner, days[|days| - 1]))
  }

  lemma {:induction false} ScanMembers<T(!new)>(files: Files<T>, owner: int, days: seq<int>, x: T)
    ensures x in Scan(files, owner, days) <==> exists d :: d in days && x in At(files, Path(owner, d))
  {
    if days != [] {
      var front, last := days[..|days| - 1], days[|days| - 1];
      ScanMembers(files, owner, front, x);
      assert days == front + [last];
    }
  }

  lemma HeldDays<T(!new)>(files: Files<T>, path: T -> Path, log: seq<T>, x: T)
    requires Holds(files, path, log) && x in log
    ensures path(x).day in DaysOf(files, path(x).owner) && x in At(files, path(x))
  {
    FileOfPath(files, path, log, path(x));
  }

  /** Going through all the days of an owner finds everything of theirs that was appended. */
  lemma ScanFindsAll<T(!new)>(files: Files<T>, path: T -> Path, log: seq<T>, owner: int, days: seq<int>, x: T)
    requires Holds(files, path, log) && Lists(days, DaysOf(files, owner))
    ensures x in Scan(files, owner, days) <==> x in log && path(x).owner == owner
  {
    ScanMembers(files, owner, days, x);
    if x in log && path(x).owner == owner {
      HeldDays(files, path, log, x);
      assert path(x) == Path(owner, path(x).day);
    }
    if d :| d in days && x in At(files, Path(owner, d)) {
      FileOfPath(files, path, log, Path(owner, d));
    }
  }

  // ----- the last record -----

  function LastWith<T>(p: T -> bool, s: seq<T>): Option<T> {
    if s == [] then None
    else if p(s[|s| - 1]) then Some(s[|s| - 1])
    else LastWith(p, s[..|s| - 1])
  }

  lemma {:induction false} LastWithConcat<T>(p: T -> bool, a: seq<T>, b: seq<T>)
    ensures LastWith(p, a + b) == if LastWith(p, b).Some? then LastWith(p, b) else LastWith(p, a)
  {
    if b == [] {
      assert a + b == a;
    } else {
      LastWithConcat(p, a, b[..|b| - 1]);
      assert (a + b)[..|a + b| - 1] == a + b[..|b| - 1];
    }
  }

  lemma {:induction false} LastWithMeans<T>(p: T -> bool, s: seq<T>)
    ensures LastWith(p, s).Some? ==> LastWith(p, s).value in s && p(LastWith(p, s).value)
    ensures LastWith(p, s).None? ==> forall x :: x in s ==> !p(x)
  {
    if s != [] {
      LastWithMeans(p, s[..|s| - 1]);
      assert s == s[..|s| - 1] + [s[|s| - 1]];
    }
  }

  lemma {:induction false} LastWithFilter<T>(p: T -> bool, q: T -> bool, s: seq<T>)
    ensures LastWith(p, Sorting.Filter(q, s)) == LastWith(Both(p, q), s)
  {
    if s != [] {
      var front, last := s[..|s| - 1], s[|s| - 1];
      LastWithFilter(p, q, front);
      LastWithConcat(p, Sorting.Filter(q, front), [last]);
      assert Sorting.Filter(q, front) + [] == Sorting.Filter(q, front);
      assert [last][..0] == [];
    }
  }

  lemma {:induction false} LastStaysLast<T>(p: T -> bool, q: T -> bool, s: seq<T>)
    requires LastWith(p, s).Some? && q(LastWith(p, s).value)
    ensures LastWith(Both(p, q), s) == LastWith(p, s)
  {
    if !p(s[|s| - 1]) {
      LastStaysLast(p, q, s[..|s| - 1]);
    }
  }

  /** The last record of a scan is the last of the latest file that has one. */
  lemma {:induction false} LastOfScan<T>(files: Files<T>, owner: int, days: seq<int>, p: T -> bool) returns (day: int)
    requires Ascending(days)
    ensures LastWith(p, Scan(files, owner, days)).None? ==>
              forall d :: d in days ==> LastWith(p, At(files, Path(owner, d))).None?
    ensures LastWith(p, Scan(files, owner, days)).Some? ==>
              && day in days && LastWith(p, Scan(files, owner, days)) == LastWith(p, At(files, Path(owner, day)))
              && forall d :: d in days && d > day ==> LastWith(p, At(files, Path(owner, d))).None?
  {
    day := 0;
    if days != [] {
      var front, last := days[..|days| - 1], days[|days| - 1];
      day := LastOfScan(files, owner, front, p);
      assert days == front + [last];
      LastWithConcat(p, Scan(files, owner, front), At(files, Path(owner, last)));
      hide Scan, LastWith;
      if LastWith(p, At(files, Path(owner, last))).Some? {
        day := last;
      }
    }
  }

  /** Nothing that fits is on a later day than the last one of the log. */
  ghost predicate LastIsLatest<T>(path: T -> Path, log: seq<T>, p: T -> bool) {
    LastWith(p, log).Some? ==> forall x :: x in log && p(x) ==> path(x).day <= path(LastWith(p, log).value).day
  }

  /** Going through the days finds the record that was appended last if and only if
      no record of the kind is on a later day. */
  lemma ScanIsReplayIff<T(!new)>(
    files: Files<T>, path: T -> Path, log: seq<T>, owner: int, days: seq<int>, p: T -> bool)
    requires Holds(files, path, log) && Lists(days, DaysOf(files, owner))
    requires forall x :: x in log && p(x) ==> path(x).owner == owner
    ensures LastWith(p, Scan(files, owner, days)) == LastWith(p, log) <==> LastIsLatest(path, log, p)
  {
    var day := LastOfScan(files, owner, days, p);
    LastWithMeans(p, log);
    var scan, last := Scan(files, owner, days), LastWith(p, log);
    hide Scan, LastWith, Holds;
    forall x | x in log && p(x) ensures path(x).day in days && LastWith(p, At(files, path(x))).Some? {
      HeldDays(files, path, log, x);
      LastWithMeans(p, At(files, path(x)));
    }
    if LastWith(p, scan).Some? {
      FileOfPath(files, path, log, Path(owner, day));
      LastWithMeans(p, At(files, Path(owner, day)));
      var found := LastWith(p, scan).value;
      assert path(found) == Path(owner, day) && found in log && p(found);
      assert forall x :: x in log && p(x) ==> path(x).day <= day;
      if LastIsLatest(path, log, p) {
        assert path(last.value).day == day;
        LastOfLatestFile(files, path, log, p, owner, day);
      }
    }
  }

  lemma LastOfLatestFile<T(!new)>(files: Files<T>, path: T -> Path, log: seq<T>, p: T -> bool, owner: int, day: int)
    requires Holds(files, path, log)
    requires LastWith(p, log).Some? && path(LastWith(p, log).value) == Path(owner, day)
    ensures LastWith(p, At(files, Path(owner, day))) == LastWith(p, log)
  {
    LastWithFilter(p, OnPath(path, Path(owner, day)), log);
    LastStaysLast(p, OnPath(path, Path(owner, day)), log);
  }
}
