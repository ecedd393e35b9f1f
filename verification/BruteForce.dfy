/** The tracker of failed logins (bruteForceTracker in internal/orchestratorgo/httpapi/middleware.go).

    A Go slice is an array and a length. `RecordFailure` filters a source's failures into the front
    of the array that it is reading, and appends to it. */
module BruteForce {

  type Instant = int

  datatype Slice = Slice(buf: array<Instant>, len: nat)

  // ----- failures in a window -----

  /** The instants after the cutoff. */
  function After(times: seq<Instant>, cutoff: Instant): seq<Instant> {
    if times == [] then []
    else
      var n := |times| - 1;
      After(times[..n], cutoff) + if times[n] > cutoff then [times[n]] else []
  }

  /** The failures of a log that fall in the window ending at its last one (which always counts). */
  function InWindow(log: seq<Instant>, window: int): seq<Instant>
    requires log != []
  {
    var n := |log| - 1;
    After(log[..n], log[n] - window) + [log[n]]
  }

  lemma {:induction false} AfterConcat(a: seq<Instant>, b: seq<Instant>, cutoff: Instant)
    ensures After(a + b, cutoff) == After(a, cutoff) + After(b, cutoff)
    decreases |b|
  {
    if b == [] {
      assert a + b == a;
    } else {
      AfterConcat(a, b[..|b| - 1], cutoff);
      assert (a + b)[..|a + b| - 1] == a + b[..|b| - 1];
    }
  }

  /** Filtering what an earlier cutoff left is filtering everything. */
  lemma {:induction false} AfterTwice(times: seq<Instant>, earlier: Instant, cutoff: Instant)
    requires earlier <= cutoff
    ensures After(After(times, earlier), cutoff) == After(times, cutoff)
  {
    if times != [] {
      var n := |times| - 1;
      AfterTwice(times[..n], earlier, cutoff);
      var last := if times[n] > earlier then [times[n]] else [];
      AfterConcat(After(times[..n], earlier), last, cutoff);
      assert times[n] > earlier ==> last[..0] == [];
    }
  }

  lemma InWindowOfNext(log: seq<Instant>, window: int, now: Instant)
    ensures InWindow(log + [now], window) == After(log, now - window) + [now]
  {
    assert (log + [now])[..|log|] == log;
  }

  /** Dropping failures as they fall out of the window loses none that a later window holds. */
  lemma WindowFromWindow(log: seq<Instant>, window: int, now: Instant)
    requires log != [] && log[|log| - 1] <= now
    ensures After(InWindow(log, window), now - window) + [now] == InWindow(log + [now], window)
  {
    hide After;
    var n := |log| - 1;
    var before, last := log[..n], [log[n]];
    InWindowOfNext(log, window, now);
    AfterTwice(before, log[n] - window, now - window);
    AfterConcat(After(before, log[n] - window), last, now - window);
    AfterConcat(before, last, now - window);
    assert log == before + last;
  }

  /** Filtering keeps each failure after the cutoff as often as it happened, and no other. */
  lemma {:induction false} AfterIsFilter(times: seq<Instant>, cutoff: Instant, t: Instant)
    ensures multiset(After(times, cutoff))[t] == if t > cutoff then multiset(times)[t] else 0
  {
    if times != [] {
      var n := |times| - 1;
      AfterIsFilter(times[..n], cutoff, t);
      assert multiset(times) == multiset(times[..n]) + multiset{times[n]} by {
        assert times == times[..n] + [times[n]];
      }
      var rest := After(times[..n], cutoff);
      assert After(times, cutoff) == rest + if times[n] > cutoff then [times[n]] else [];
      hide After;
    }
  }

  // ----- the tracker -----

  /** The slice holds the failures of the log that are in the window ending at its last one. */
  ghost predicate Holds(slice: Slice, times: seq<Instant>, window: int)
    reads slice.buf
  {
    times != [] && slice.len <= slice.buf.Length && slice.buf[..slice.len] == InWindow(times, window)
  }

  class Tracker<Source(==)> {
    const maxAttempts: int
    const window: int
    const block: int
    var failures: map<Source, Slice>
    var blocked: map<Source, Instant>
    /** For each source, all its failures since its last reset or expiry. */
    ghost var log: map<Source, seq<Instant>>

    /** The source that each array belongs to. */
    ghost var owner: map<array<Instant>, Source>

    /** The filtered list of a source is always the part of its whole log that is in the window. */
    ghost predicate Valid()
      reads this, owner.Keys
    {
      && log.Keys == failures.Keys
      && (forall source :: source in failures ==>
            failures[source].buf in owner && owner[failures[source].buf] == source)
      && (forall source :: source in failures ==> Holds(failures[source], log[source], window))
    }

    ghost function LogOf(source: Source): seq<Instant>
      reads this
    {
      if source in log then log[source] else []
    }

    /** The clock has not gone back since the last failure of this source. */
    ghost predicate NotBefore(source: Source, now: Instant)
      reads this
    {
      LogOf(source) != [] ==> LogOf(source)[|LogOf(source)| - 1] <= now
    }

    constructor (maxAttempts: int, window: int, block: int)
      ensures Valid() && log == map[] && blocked == map[]
      ensures this.maxAttempts == maxAttempts && this.window == window && this.block == block
    {
      this.maxAttempts, this.window, this.block := maxAttempts, window, block;
      failures, blocked, log, owner := map[], map[], map[], map[];
    }

    /** Says whether a source is blocked; once a block has expired, its failures are forgotten too. */
    method IsBlocked(source: Source, now: Instant) returns (r: bool)
      requires Valid()
      modifies `failures, `blocked, `log
      ensures Valid()
      ensures r <==> source in old(blocked) && now <= old(blocked)[source]
      ensures var expired := source in old(blocked) && now > old(blocked)[source];
        && blocked == (if expired then old(blocked) - {source} else old(blocked))
        && log == (if expired then old(log) - {source} else old(log))
    {
      if source !in blocked {
        return false;
      }
      if now > blocked[source] {
        blocked := blocked - {source};
        failures := failures - {source};
        log := log - {source};
        return false;
      }
      return true;
    }

    method Reset(source: Source)
      requires Valid()
      modifies `failures, `log
      ensures Valid() && log == old(log) - {source}
    {
      failures := failures - {source};
      log := log - {source};
    }

    /** A failure blocks its source just when, of all failures since the last reset or expiry, at least
        `maxAttempts` fall in the window that ends with it. */
    method RecordFailure(source: Source, now: Instant)
      requires Valid() && NotBefore(source, now)
      modifies this, owner.Keys
      ensures Valid() && fresh(owner.Keys - old(owner.Keys))
      ensures log == old(log)[source := old(LogOf(source)) + [now]]
      ensures blocked == if |InWindow(log[source], window)| >= maxAttempts
                         then old(blocked)[source := now + block] else old(blocked)
    {
      hide After, InWindow, Holds;
      ghost var times := LogOf(source) + [now];
      var current := Filtered(source, now);
      Keep(source, current, times);
      if current.len >= maxAttempts {
        blocked := blocked[source := now + block];
      }
    }

    /** Keeps the slice as that of the source. */
    method Keep(source: Source, current: Slice, ghost times: seq<Instant>)
      requires log.Keys == failures.Keys
      requires forall other :: other in failures ==> failures[other].buf in owner && owner[failures[other].buf] == other
      requires forall other :: other in failures && other != source ==> Holds(failures[other], log[other], window)
      requires Holds(current, times, window) && (current.buf in owner ==> owner[current.buf] == source)
      modifies `failures, `log, `owner
      ensures Valid() && log == old(log)[source := times] && owner == old(owner)[current.buf := source]
    {
      hide Holds;
      owner := owner[current.buf := source];
      failures := failures[source := current];
      log := log[source := times];
    }

    /** The failures of one source, with the new one; those of the others are not touched. */
    method Filtered(source: Source, now: Instant) returns (current: Slice)
      requires Valid() && NotBefore(source, now)
      modifies owner.Keys
      ensures Holds(current, LogOf(source) + [now], window)
      ensures current.len == |InWindow(LogOf(source) + [now], window)|
      ensures fresh(current.buf) || (current.buf in owner && owner[current.buf] == source)
      ensures forall other :: other in failures && other != source ==> Holds(failures[other], log[other], window)
    {
      hide After, InWindow;
      if source in failures {
        current := Recorded(failures[source], log[source], window, now);
      } else {
        current := FirstFailure(window, now);
      }
    }
  }

  /** The part of `RecordFailure` that works on the slice of one source. */
  method Recorded(slice: Slice, ghost times: seq<Instant>, window: int, now: Instant) returns (r: Slice)
    requires Holds(slice, times, window) && times[|times| - 1] <= now
    modifies slice.buf
    ensures Holds(r, times + [now], window) && (r.buf == slice.buf || fresh(r.buf))
    ensures r.len == |InWindow(times + [now], window)|
  {
    WindowFromWindow(times, window, now);
    r := Compact(slice, now - window);
    r := Append(r, now);
  }

  method FirstFailure(window: int, now: Instant) returns (r: Slice)
    ensures Holds(r, [] + [now], window) && fresh(r.buf) && r.len == |InWindow([] + [now], window)|
  {
    InWindowOfNext([], window, now);
    var empty := new Instant[0];
    r := Append(Slice(empty, 0), now);
  }

  /** Filters a slice in place: the write index never passes the read index. */
  method Compact(slice: Slice, cutoff: Instant) returns (r: Slice)
    requires slice.len <= slice.buf.Length
    modifies slice.buf
    ensures r.buf == slice.buf && r.len <= slice.len
    ensures r.buf[..r.len] == After(old(slice.buf[..slice.len]), cutoff)
  {
    ghost var before := slice.buf[..slice.len];
    var w := 0;
    for i := 0 to slice.len
      invariant w <= i
      invariant slice.buf[..w] == After(before[..i], cutoff)
      invariant forall j :: i <= j < slice.len ==> slice.buf[j] == before[j]
    {
      assert before[..i + 1][..i] == before[..i];
      var t := slice.buf[i];
      if t > cutoff {
        slice.buf[w] := t;
        w := w + 1;
      }
    }
    assert before[..slice.len] == before;
    return Slice(slice.buf, w);
  }

  /** Go's append: in place while there is room, otherwise in a bigger array. */
  method Append(slice: Slice, t: Instant) returns (r: Slice)
    requires slice.len <= slice.buf.Length
    modifies slice.buf
    ensures r.buf == slice.buf || fresh(r.buf)
    ensures r.len == slice.len + 1 <= r.buf.Length && r.buf[..r.len] == old(slice.buf[..slice.len]) + [t]
  {
    var buf := slice.buf;
    if slice.len == buf.Length {
      buf := new Instant[2 * slice.len + 1];
      for i := 0 to slice.len
        invariant buf[..i] == slice.buf[..i]
        invariant slice.buf[..] == old(slice.buf[..])
      {
        buf[i] := slice.buf[i];
      }
    }
    buf[slice.len] := t;
    return Slice(buf, slice.len + 1);
  }
}
