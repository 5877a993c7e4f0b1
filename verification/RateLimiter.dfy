/** The fixed-window rate limiter: sweeping old entries changes no answer, and no window-long interval
    sees twice the limit. */
module RateLimiter {
  import opened Common

  /** The start of a key's current window and the hits counted in it. */
  datatype Window = Window(start: real, count: int)

  datatype Config = Config(limit: int, window: real, maxKeys: int)

  datatype Hit = Hit(time: real, key: string)

  type Hits = map<string, Window>

  predicate Expired(cfg: Config, w: Window, t: real) {
    t - w.start >= cfg.window
  }

  function Swept(cfg: Config, hits: Hits, t: real): Hits {
    map k | k in hits && !Expired(cfg, hits[k], t) :: hits[k]
  }

  /** One hit of a key, without any sweeping: the new window, and whether the hit is allowed. */
  function Count(cfg: Config, w: Option<Window>, t: real): (Option<Window>, bool) {
    if w.None? || Expired(cfg, w.value, t) then (Some(Window(t, 1)), true)
    else if w.value.count >= cfg.limit then (w, false)
    else (Some(Window(w.value.start, w.value.count + 1)), true)
  }

  function Find(hits: Hits, key: string): Option<Window> {
    if key in hits then Some(hits[key]) else None
  }

  function Recorded(cfg: Config, hits: Hits, h: Hit): (Hits, bool) {
    var (w, ok) := Count(cfg, Find(hits, h.key), h.time);
    var base := if h.key !in hits && |hits| >= cfg.maxKeys then Swept(cfg, hits, h.time) else hits;
    (base[h.key := w.value], ok)
  }

  class Limiter {
    const cfg: Config
    var hits: Hits

    constructor (limit: int, window: real, maxKeys: int)
      ensures cfg == Config(limit, window, maxKeys) && hits == map[]
    {
      cfg := Config(limit, window, maxKeys);
      hits := map[];
    }

    method Sweep(t: real)
      modifies this`hits
      ensures hits == Swept(cfg, old(hits), t)
    {
      var oldKeys := set k | k in hits && Expired(cfg, hits[k], t);
      ghost var before := hits;
      while oldKeys != {}
        invariant oldKeys <= hits.Keys <= before.Keys
        invariant forall k :: k in before ==> (k in hits <==> k in oldKeys || !Expired(cfg, before[k], t))
        invariant forall k :: k in hits ==> hits[k] == before[k]
        invariant forall k :: k in oldKeys ==> Expired(cfg, before[k], t)
        decreases oldKeys
      {
        var k :| k in oldKeys;
        hits := hits - {k};
        oldKeys := oldKeys - {k};
      }
    }

    /** Records a hit and reports whether it is within the limit. */
    method Allow(t: real, key: string) returns (ok: bool)
      modifies this`hits
      ensures (hits, ok) == Recorded(cfg, old(hits), Hit(t, key))
    {
      if key !in hits || Expired(cfg, hits[key], t) {
        if key !in hits && |hits| >= cfg.maxKeys {
          Sweep(t);
        }
        hits := hits[key := Window(t, 1)];
        return true;
      }
      var w := hits[key];
      if w.count >= cfg.limit {
        assert hits[key := w] == hits;
        return false;
      }
      hits := hits[key := Window(w.start, w.count + 1)];
      return true;
    }
  }

  // ---- runs ---------------------------------------------------------------------------------------

  /** The clock never goes back. */
  ghost predicate Monotone(trace: seq<Hit>) {
    forall i, j :: 0 <= i < j < |trace| ==> trace[i].time <= trace[j].time
  }

  function Table(cfg: Config, trace: seq<Hit>): Hits {
    if trace == [] then map[] else Recorded(cfg, Table(cfg, trace[..|trace| - 1]), trace[|trace| - 1]).0
  }

  /** The answer to the last hit of a trace. */
  predicate Answer(cfg: Config, trace: seq<Hit>)
    requires trace != []
  {
    Recorded(cfg, Table(cfg, trace[..|trace| - 1]), trace[|trace| - 1]).1
  }

  /** The window that a limiter which never sweeps keeps for a key. */
  function Unswept(cfg: Config, trace: seq<Hit>, key: string): Option<Window> {
    if trace == [] then None
    else
      var w, h := Unswept(cfg, trace[..|trace| - 1], key), trace[|trace| - 1];
      if h.key == key then Count(cfg, w, h.time).0 else w
  }

  /** The swept table lacks only windows that are over; the answers are those of the limiter that keeps all. */
  lemma {:induction false} SweepingChangesNoAnswer(cfg: Config, trace: seq<Hit>)
    requires Monotone(trace)
    ensures forall k :: Find(Table(cfg, trace), k) == Unswept(cfg, trace, k) ||
              (Find(Table(cfg, trace), k) == None && trace != [] && Unswept(cfg, trace, k).Some? &&
               Expired(cfg, Unswept(cfg, trace, k).value, trace[|trace| - 1].time))
    ensures trace != [] ==>
              Answer(cfg, trace) ==
                Count(cfg, Unswept(cfg, trace[..|trace| - 1], trace[|trace| - 1].key), trace[|trace| - 1].time).1
  {
    if trace != [] {
      SweepingChangesNoAnswer(cfg, trace[..|trace| - 1]);
    }
  }

  /** How many hits of a key in the interval [a, a + window) the limiter allows. */
  function Allowed(cfg: Config, trace: seq<Hit>, key: string, a: real): nat {
    if trace == [] then 0
    else
      var h := trace[|trace| - 1];
      Allowed(cfg, trace[..|trace| - 1], key, a) +
      if h.key == key && a <= h.time < a + cfg.window && Answer(cfg, trace) then 1 else 0
  }

  /** Where the interval lies relative to the current window bounds what it has seen. */
  ghost predicate Bounded(cfg: Config, w: Option<Window>, seen: nat, a: real) {
    match w
    case None => seen == 0
    case Some(Window(start, count)) =>
      1 <= count <= cfg.limit &&
      if start + cfg.window <= a then seen == 0
      else if start < a then seen <= count - 1
      else if start == a then seen <= count
      else if start < a + cfg.window then seen <= cfg.limit - 1 + count
      else seen <= 2 * cfg.limit - 1
  }

  lemma {:induction false} WindowBounds(cfg: Config, trace: seq<Hit>, key: string, a: real)
    requires Monotone(trace) && cfg.limit >= 1
    ensures Bounded(cfg, Unswept(cfg, trace, key), Allowed(cfg, trace, key, a), a)
    ensures Unswept(cfg, trace, key).Some? ==>
              trace != [] && Unswept(cfg, trace, key).value.start <= trace[|trace| - 1].time
  {
    if trace != [] {
      WindowBounds(cfg, trace[..|trace| - 1], key, a);
      SweepingChangesNoAnswer(cfg, trace);
    }
  }

  /** A key gets fewer than twice the limit in any half-open interval as long as the window. */
  lemma FewerThanTwiceTheLimit(cfg: Config, trace: seq<Hit>, key: string, a: real)
    requires Monotone(trace) && cfg.limit >= 1
    ensures Allowed(cfg, trace, key, a) <= 2 * cfg.limit - 1
  {
    WindowBounds(cfg, trace, key, a);
  }

  /** One hit at time 0, `early - 1` hits in the middle of the first window, `late` hits where the second starts. */
  function TwoBursts(cfg: Config, key: string, early: nat, late: nat): seq<Hit>
    requires early >= 1
    decreases early + late
  {
    if late > 0 then TwoBursts(cfg, key, early, late - 1) + [Hit(cfg.window, key)]
    else if early > 1 then TwoBursts(cfg, key, early - 1, 0) + [Hit(cfg.window / 2.0, key)]
    else [Hit(0.0, key)]
  }

  lemma {:induction false} BurstsAreAllowed(cfg: Config, key: string, early: nat, late: nat)
    requires cfg.window > 0.0 && 1 <= early <= cfg.limit && late <= cfg.limit
    ensures var trace := TwoBursts(cfg, key, early, late);
            trace != [] && Monotone(trace) &&
            0.0 <= trace[|trace| - 1].time <= (if late > 0 then cfg.window else cfg.window / 2.0)
    ensures var trace := TwoBursts(cfg, key, early, late);
            Unswept(cfg, trace, key) == Some(if late > 0 then Window(cfg.window, late) else Window(0.0, early)) &&
            Allowed(cfg, trace, key, cfg.window / 2.0) == early - 1 + late
    decreases early + late
  {
    hide Unswept, Allowed, Monotone, Count;
    if late > 0 {
      BurstsAreAllowed(cfg, key, early, late - 1);
      OneMoreHit(cfg, TwoBursts(cfg, key, early, late - 1), Hit(cfg.window, key), cfg.window / 2.0);
    } else if early > 1 {
      BurstsAreAllowed(cfg, key, early - 1, 0);
      OneMoreHit(cfg, TwoBursts(cfg, key, early - 1, 0), Hit(cfg.window / 2.0, key), cfg.window / 2.0);
    } else {
      OneMoreHit(cfg, [], Hit(0.0, key), cfg.window / 2.0);
      assert TwoBursts(cfg, key, early, late) == [] + [Hit(0.0, key)];
    }
  }

  lemma OneMoreHit(cfg: Config, front: seq<Hit>, h: Hit, a: real)
    requires front != [] ==> Monotone(front) && front[|front| - 1].time <= h.time
    ensures Monotone(front + [h])
    ensures front == [] ==> Unswept(cfg, front, h.key) == None && Allowed(cfg, front, h.key, a) == 0
    ensures var w := Unswept(cfg, front, h.key);
            var renewed := w.None? || h.time - w.value.start >= cfg.window;
            Unswept(cfg, front + [h], h.key) ==
              (if renewed then Some(Window(h.time, 1))
               else if w.value.count >= cfg.limit then w
               else Some(Window(w.value.start, w.value.count + 1))) &&
            Allowed(cfg, front + [h], h.key, a) == Allowed(cfg, front, h.key, a) +
              if a <= h.time < a + cfg.window && (renewed || w.value.count < cfg.limit) then 1 else 0
  {
    hide Recorded;
    var trace := front + [h];
    assert trace[..|trace| - 1] == front;
    SweepingChangesNoAnswer(cfg, trace);
  }

  /** The bound is exact: for every limit there is a trace that reaches it. */
  lemma TheBoundIsReached(cfg: Config, key: string)
    requires cfg.limit >= 1 && cfg.window > 0.0
    ensures exists trace, a :: Monotone(trace) && Allowed(cfg, trace, key, a) == 2 * cfg.limit - 1
  {
    BurstsAreAllowed(cfg, key, cfg.limit, cfg.limit);
    assert Allowed(cfg, TwoBursts(cfg, key, cfg.limit, cfg.limit), key, cfg.window / 2.0) == 2 * cfg.limit - 1;
  }

  /** What one hit does to the table: a key without a window, or whose window is over, starts a new one and is allowed;
      another is counted up to the limit and refused from there on. Other keys keep their windows, but if the key is new
      and the table full, only those that are not over. */
  lemma HitWrites(cfg: Config, hits: Hits, t: real, key: string)
    ensures var (now, ok) := Recorded(cfg, hits, Hit(t, key));
            var renewed := key !in hits || t - hits[key].start >= cfg.window;
            (ok <==> renewed || hits[key].count < cfg.limit) && key in now &&
            now[key] == (if renewed then Window(t, 1)
                         else if ok then Window(hits[key].start, hits[key].count + 1) else hits[key]) &&
            forall k :: k != key ==>
              (k in now <==>
               k in hits && (key !in hits && |hits| >= cfg.maxKeys ==> t - hits[k].start < cfg.window)) &&
              (k in now ==> now[k] == hits[k])
  {
  }
}
