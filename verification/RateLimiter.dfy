/**
 `memoryRateLimit`: a fixed-window limiter per client key whose map of windows is cleaned lazily.
 */
module RateLimiter {
  import opened Options

  datatype Window = Window(count: nat, resetAt: int)

  datatype Request = Request(key: string, now: int)

  // ---------------------------------------------------------------- the limiter

  class Limiter {
    const limit: nat
    const windowMs: nat
    var windows: map<string, Window>
    var nextCleanup: int

    constructor (limit: nat, windowMs: nat)
      ensures this.limit == limit && this.windowMs == windowMs
      ensures windows == map[] && nextCleanup == 0
    {
      this.limit := limit;
      this.windowMs := windowMs;
      windows := map[];
      nextCleanup := 0;
    }

    /** One request: drop the windows that ran out, if a cleanup is due, then count the request. */
    method Handle(key: string, now: int) returns (admitted: bool)
      modifies this`windows, this`nextCleanup
      ensures Lazy(windows, nextCleanup) == Handled(Lazy(old(windows), old(nextCleanup)), Request(key, now), windowMs)
      ensures key in windows && (admitted <==> windows[key].count <= limit)
      ensures windows[key] == if key in old(windows) && old(windows)[key].resetAt > now
                              then Window(old(windows)[key].count + 1, old(windows)[key].resetAt)
                              else Window(1, now + windowMs)
      ensures forall k :: k != key ==>
        && (k in windows <==> k in old(windows) && (now < old(nextCleanup) || old(windows)[k].resetAt > now))
        && (k in windows ==> windows[k] == old(windows)[k])
      ensures nextCleanup == if now >= old(nextCleanup) then now + windowMs else old(nextCleanup)
    {
      if now >= nextCleanup {
        nextCleanup := now + windowMs;
        Cleanup(now);
      }
      var entry;
      if key !in windows || windows[key].resetAt <= now {
        entry := Window(1, now + windowMs);
      } else {
        entry := windows[key].(count := windows[key].count + 1);
      }
      windows := windows[key := entry];
      admitted := entry.count <= limit;
    }

    /** Deletes every window that has run out, one by one. */
    method Cleanup(now: int)
      modifies this`windows
      ensures windows == Cleaned(old(windows), now)
    {
      var rest := windows.Keys;
      while rest != {}
        invariant rest <= windows.Keys <= old(windows).Keys
        invariant forall key :: key in windows ==> windows[key] == old(windows)[key]
        invariant forall key :: key in old(windows) && key !in rest ==>
          (key in windows <==> old(windows)[key].resetAt > now)
      {
        var key :| key in rest;
        rest := rest - {key};
        if windows[key].resetAt <= now {
          windows := windows - {key};
        }
      }
    }
  }

  // ---------------------------------------------------------------- specification

  /** The limiter's state: its windows, and when it next cleans them. */
  datatype Lazy = Lazy(windows: map<string, Window>, nextCleanup: int)

  function Cleaned(windows: map<string, Window>, now: int): map<string, Window> {
    map key | key in windows && windows[key].resetAt > now :: windows[key]
  }

  /** The window that a request is counted in, given the window its key had. */
  function Counted(current: Option<Window>, now: int, windowMs: nat): Window {
    if current.None? || current.value.resetAt <= now then Window(1, now + windowMs)
    else current.value.(count := current.value.count + 1)
  }

  function Lookup(windows: map<string, Window>, key: string): Option<Window> {
    if key in windows then Some(windows[key]) else None
  }

  function Handled(s: Lazy, r: Request, windowMs: nat): Lazy {
    var due := r.now >= s.nextCleanup;
    var windows := if due then Cleaned(s.windows, r.now) else s.windows;
    Lazy(windows[r.key := Counted(Lookup(windows, r.key), r.now, windowMs)],
         if due then r.now + windowMs else s.nextCleanup)
  }

  function LazyRun(trace: seq<Request>, windowMs: nat): Lazy {
    if trace == [] then Lazy(map[], 0)
    else Handled(LazyRun(trace[..|trace| - 1], windowMs), trace[|trace| - 1], windowMs)
  }

  /** The limiter's decision on the last request of a trace. */
  predicate LazyAdmits(trace: seq<Request>, windowMs: nat, limit: nat)
    requires trace != []
  {
    LazyRun(trace, windowMs).windows[trace[|trace| - 1].key].count <= limit
  }

  /** A limiter that never deletes: the last window opened for `key`, if any. */
  function Current(trace: seq<Request>, windowMs: nat, key: string): Option<Window> {
    if trace == [] then None
    else
      var before, last := trace[..|trace| - 1], trace[|trace| - 1];
      if last.key == key then Some(Counted(Current(before, windowMs, key), last.now, windowMs))
      else Current(before, windowMs, key)
  }

  predicate Admits(trace: seq<Request>, windowMs: nat, limit: nat)
    requires trace != []
  {
    Current(trace, windowMs, trace[|trace| - 1].key).value.count <= limit
  }

  predicate Ordered(trace: seq<Request>) {
    forall i, j :: 0 <= i < j < |trace| ==> trace[i].now <= trace[j].now
  }

  // ---------------------------------------------------------------- refinement

  /** Whatever the lazy limiter still stores is what the other one stores; whatever it dropped has
      run out. */
  predicate Agrees(windows: map<string, Window>, trace: seq<Request>, windowMs: nat, now: int, key: string) {
    var lazy, full := Lookup(windows, key), Current(trace, windowMs, key);
    lazy == full || (lazy.None? && full.Some? && full.value.resetAt <= now)
  }

  lemma {:induction false} LazyAgrees(trace: seq<Request>, windowMs: nat, key: string)
    requires Ordered(trace) && trace != []
    ensures Agrees(LazyRun(trace, windowMs).windows, trace, windowMs, trace[|trace| - 1].now, key)
  {
    var before, last := trace[..|trace| - 1], trace[|trace| - 1];
    if before != [] {
      assert before[|before| - 1].now <= last.now;
      LazyAgrees(before, windowMs, key);
    }
  }

  /** Lazy cleaning is invisible: on every trace the limiter decides as one that never deletes. */
  lemma CleaningIsInvisible(trace: seq<Request>, windowMs: nat, limit: nat)
    requires Ordered(trace) && trace != [] && 0 < windowMs
    ensures LazyAdmits(trace, windowMs, limit) <==> Admits(trace, windowMs, limit)
  {
    var last := trace[|trace| - 1];
    LazyAgrees(trace, windowMs, last.key);
  }

  // ---------------------------------------------------------------- the bound

  /** How many requests of `key` the limiter admitted at times from `lo` to `hi`. */
  function Admitted(trace: seq<Request>, windowMs: nat, limit: nat, key: string, lo: int, hi: int): nat {
    if trace == [] then 0
    else
      var last := trace[|trace| - 1];
      Admitted(trace[..|trace| - 1], windowMs, limit, key, lo, hi)
      + if last.key == key && lo <= last.now <= hi && LazyAdmits(trace, windowMs, limit) then 1 else 0
  }

  /** The start of the window that `key` is in. */
  function Start(trace: seq<Request>, windowMs: nat, key: string): int
    requires Current(trace, windowMs, key).Some?
  {
    Current(trace, windowMs, key).value.resetAt - windowMs
  }

  lemma {:induction false} NoneOutside(trace: seq<Request>, windowMs: nat, limit: nat, key: string, lo: int, hi: int)
    requires forall i :: 0 <= i < |trace| && trace[i].key == key ==> !(lo <= trace[i].now <= hi)
    ensures Admitted(trace, windowMs, limit, key, lo, hi) == 0
  {
    if trace != [] {
      NoneOutside(trace[..|trace| - 1], windowMs, limit, key, lo, hi);
    }
  }

  lemma {:induction false} Wider(trace: seq<Request>, windowMs: nat, limit: nat, key: string,
                                 lo: int, hi: int, lo': int, hi': int)
    requires lo' <= lo && hi <= hi'
    ensures Admitted(trace, windowMs, limit, key, lo, hi) <= Admitted(trace, windowMs, limit, key, lo', hi')
  {
    if trace != [] {
      Wider(trace[..|trace| - 1], windowMs, limit, key, lo, hi, lo', hi');
    }
  }

  lemma {:induction false} Split(trace: seq<Request>, windowMs: nat, limit: nat, key: string,
                                 lo: int, mid: int, hi: int)
    requires lo <= mid <= hi + 1
    ensures Admitted(trace, windowMs, limit, key, lo, hi) ==
      Admitted(trace, windowMs, limit, key, lo, mid - 1) + Admitted(trace, windowMs, limit, key, mid, hi)
  {
    if trace != [] {
      Split(trace[..|trace| - 1], windowMs, limit, key, lo, mid, hi);
    }
  }

  /** The current window, which holds every request since it opened, has admitted its count, up to the
      limit; the stretch of one window length before it has admitted at most the limit. */
  lemma {:induction false} WindowCounts(trace: seq<Request>, windowMs: nat, limit: nat, key: string, hi: int)
    requires Ordered(trace) && 0 < windowMs && Current(trace, windowMs, key).Some?
    requires forall i :: 0 <= i < |trace| ==> trace[i].now <= hi
    ensures var start, count := Start(trace, windowMs, key), Current(trace, windowMs, key).value.count;
      && start <= hi
      && (forall i :: 0 <= i < |trace| && trace[i].key == key ==> trace[i].now < start + windowMs)
      && Admitted(trace, windowMs, limit, key, start, hi) == (if count <= limit then count else limit)
      && Admitted(trace, windowMs, limit, key, start - windowMs, start - 1) <= limit
  {
    var before, last := trace[..|trace| - 1], trace[|trace| - 1];
    var was := Current(before, windowMs, key);
    CleaningIsInvisible(trace, windowMs, limit);
    if last.key == key {
      if was.None? {
        NeverSeen(before, windowMs, key);
        NoneOutside(before, windowMs, limit, key, last.now, hi);
        NoneOutside(before, windowMs, limit, key, last.now - windowMs, last.now - 1);
      } else {
        WindowCounts(before, windowMs, limit, key, hi);
        if was.value.resetAt <= last.now {
          NoneOutside(before, windowMs, limit, key, last.now, hi);
          var start := Start(before, windowMs, key);
          Wider(before, windowMs, limit, key, last.now - windowMs, last.now - 1, start, hi);
        } else {
          WindowCounts(before, windowMs, limit, key, last.now);
        }
      }
    } else {
      WindowCounts(before, windowMs, limit, key, hi);
    }
  }

  lemma {:induction false} NeverSeen(trace: seq<Request>, windowMs: nat, key: string)
    requires Current(trace, windowMs, key).None?
    ensures forall i :: 0 <= i < |trace| ==> trace[i].key != key
  {
    if trace != [] {
      NeverSeen(trace[..|trace| - 1], windowMs, key);
    }
  }

  /** No stretch of one window length ever admits more than twice the limit for a key. */
  lemma {:induction false} AtMostTwiceTheLimit(trace: seq<Request>, windowMs: nat, limit: nat, key: string, lo: int)
    requires Ordered(trace) && 0 < windowMs
    ensures Admitted(trace, windowMs, limit, key, lo, lo + windowMs) <= 2 * limit
  {
    if trace != [] {
      var before, last := trace[..|trace| - 1], trace[|trace| - 1];
      AtMostTwiceTheLimit(before, windowMs, limit, key, lo);
      if last.key == key && lo <= last.now <= lo + windowMs {
        var hi := last.now;
        WindowCounts(trace, windowMs, limit, key, hi);
        var start := Start(trace, windowMs, key);
        NothingLater(trace, windowMs, limit, key, lo, hi, lo + windowMs);
        Wider(trace, windowMs, limit, key, lo, hi, start - windowMs, hi);
        Split(trace, windowMs, limit, key, start - windowMs, start, hi);
      }
    }
  }

  lemma {:induction false} NothingLater(trace: seq<Request>, windowMs: nat, limit: nat, key: string,
                                        lo: int, hi: int, hi': int)
    requires hi <= hi' && forall i :: 0 <= i < |trace| ==> trace[i].now <= hi
    ensures Admitted(trace, windowMs, limit, key, lo, hi') == Admitted(trace, windowMs, limit, key, lo, hi)
  {
    if trace != [] {
      NothingLater(trace[..|trace| - 1], windowMs, limit, key, lo, hi, hi');
    }
  }
}
