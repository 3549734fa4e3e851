/** The login rate limiter: a sliding window per client that prunes as it goes.
    Time stamps are real numbers; the lock makes every call one event. */
module RateLimit {
  import opened Sequences


  datatype Config = Config(limit: int, window: real)

  type Stamps = map<string, seq<real>>

  // The calls, in the order in which they take the lock. The clock is read before.
  datatype Event = Enforce(key: string, now: real) | Clear(key: string) | Reset

  // ---------- one call ----------

  // [t for t in stamps if now - t < window]
  function Recent(stamps: seq<real>, now: real, window: real): seq<real> {
    if stamps == [] then []
    else
      var front, last := stamps[..|stamps| - 1], stamps[|stamps| - 1];
      if now - last < window then Recent(front, now, window) + [last] else Recent(front, now, window)
  }

  // Pruning keeps exactly the stamps of the last window, in their order.
  lemma {:induction false} RecentPicks(stamps: seq<real>, now: real, window: real) returns (at: seq<nat>)
    ensures Picks(stamps, Recent(stamps, now, window), at)
    ensures forall i | 0 <= i < |stamps| :: i in at <==> now - stamps[i] < window
    decreases |stamps|
  {
    if stamps == [] {
      at := [];
    } else {
      var front, last := stamps[..|stamps| - 1], stamps[|stamps| - 1];
      var before := RecentPicks(front, now, window);
      assert stamps == front + [last];
      PickedBelow(front, Recent(front, now, window), before, |front|);
      if now - last < window {
        at := before + [|front|];
        PicksTake(front, Recent(front, now, window), before, last);
      } else {
        at := before;
        PicksSkip(front, Recent(front, now, window), before, last);
      }
      hide Picks, Recent;
      assert forall i | 0 <= i < |front| :: stamps[i] == front[i];
      assert forall i :: i in at ==> i in before || i == |front|;
    }
  }

  function StampsOf(attempts: Stamps, key: string): seq<real> {
    if key in attempts then attempts[key] else []
  }

  predicate Admits(cfg: Config, stamps: seq<real>, now: real) {
    |Recent(stamps, now, cfg.window)| < cfg.limit
  }

  function Apply(cfg: Config, attempts: Stamps, e: Event): Stamps {
    match e
    case Enforce(key, now) =>
      var recent := Recent(StampsOf(attempts, key), now, cfg.window);
      attempts[key := if |recent| >= cfg.limit then recent else recent + [now]]
    case Clear(key) => attempts - {key}
    case Reset => map[]
  }

  class Limiter {
    const cfg: Config
    var attempts: Stamps

    constructor (cfg: Config)
      ensures this.cfg == cfg && attempts == map[]
    {
      this.cfg := cfg;
      attempts := map[];
    }

    method ResetRateLimits()
      modifies this
      ensures attempts == map[]
      ensures attempts == Apply(cfg, old(attempts), Reset)
    {
      attempts := map[];
    }

    method ClearClient(key: string)
      modifies this
      ensures attempts == old(attempts) - {key}
      ensures attempts == Apply(cfg, old(attempts), Clear(key))
      ensures StampsOf(attempts, key) == []
    {
      if key in attempts {
        attempts := attempts - {key};
      }
    }

    // Answers 429 (not admitted) when the budget of the window is used up.
    method EnforceLoginRateLimit(key: string, now: real) returns (admitted: bool)
      modifies this
      ensures exists kept: seq<real>, at: seq<nat> ::
                && Picks(StampsOf(old(attempts), key), kept, at)
                && (forall i | 0 <= i < |StampsOf(old(attempts), key)| ::
                      i in at <==> now - StampsOf(old(attempts), key)[i] < cfg.window)
                && (admitted <==> |kept| < cfg.limit)
                && attempts == old(attempts)[key := if admitted then kept + [now] else kept]
      ensures attempts == Apply(cfg, old(attempts), Enforce(key, now))
      ensures admitted <==> Admits(cfg, StampsOf(old(attempts), key), now)
      ensures admitted ==> now in StampsOf(attempts, key)
      ensures forall k | k != key :: StampsOf(attempts, k) == StampsOf(old(attempts), k)
    {
      ghost var at := RecentPicks(StampsOf(attempts, key), now, cfg.window);
      var stamps := Recent(StampsOf(attempts, key), now, cfg.window);
      hide Picks, Recent;
      if |stamps| >= cfg.limit {
        attempts := attempts[key := stamps];
        return false;
      }
      stamps := stamps + [now];
      attempts := attempts[key := stamps];
      return true;
    }
  }

  // ---------- histories ----------

  function Front(h: seq<Event>): seq<Event>
    requires h != []
  {
    h[..|h| - 1]
  }

  function Last(h: seq<Event>): Event
    requires h != []
  {
    h[|h| - 1]
  }

  function After(cfg: Config, h: seq<Event>): Stamps {
    if h == [] then map[] else Apply(cfg, After(cfg, Front(h)), Last(h))
  }

  function Stored(cfg: Config, h: seq<Event>, key: string): seq<real> {
    StampsOf(After(cfg, h), key)
  }

  predicate Clears(e: Event, key: string) {
    e == Clear(key) || e == Reset
  }

  // Every admitted attempt of the client since it was last cleared; nothing is pruned.
  function Admitted(cfg: Config, h: seq<Event>, key: string): seq<real> {
    if h == [] then []
    else
      var before := Admitted(cfg, Front(h), key);
      var e := Last(h);
      if Clears(e, key) then []
      else if e.Enforce? && e.key == key && Admits(cfg, Stored(cfg, Front(h), key), e.now) then before + [e.now]
      else before
  }

  // A limiter that forgets nothing and decides by counting the whole log.
  function Unpruned(cfg: Config, h: seq<Event>, key: string): seq<real> {
    if h == [] then []
    else
      var before := Unpruned(cfg, Front(h), key);
      var e := Last(h);
      if Clears(e, key) then []
      else if e.Enforce? && e.key == key && Admits(cfg, before, e.now) then before + [e.now]
      else before
  }

  // No clock reading lags an earlier one by more than d.
  ghost predicate LagWithin(h: seq<Event>, d: real) {
    forall i, j | 0 <= i < j < |h| && h[i].Enforce? && h[j].Enforce? :: h[i].now <= h[j].now + d
  }

  ghost predicate InOrder(h: seq<Event>) {
    LagWithin(h, 0.0)
  }

  ghost predicate ReadBefore(h: seq<Event>, time: real) {
    forall i | 0 <= i < |h| && h[i].Enforce? :: h[i].now < time
  }

  ghost predicate ReadUpTo(h: seq<Event>, time: real) {
    forall i | 0 <= i < |h| && h[i].Enforce? :: h[i].now <= time
  }

  lemma LagFront(h: seq<Event>, d: real)
    requires h != [] && LagWithin(h, d)
    ensures LagWithin(Front(h), d)
    ensures Last(h).Enforce? ==> ReadUpTo(Front(h), Last(h).now + d)
  {
  }

  lemma ReadUpToFront(h: seq<Event>, time: real)
    requires h != [] && ReadUpTo(h, time)
    ensures ReadUpTo(Front(h), time) && (Last(h).Enforce? ==> Last(h).now <= time)
  {
  }

  // ---------- filters ----------

  lemma RecentAppend(a: seq<real>, t: real, now: real, window: real)
    ensures Recent(a + [t], now, window) == if now - t < window then Recent(a, now, window) + [t] else Recent(a, now, window)
  {
  }

  // What one pruning drops, a later one would have dropped as well.
  lemma {:induction false} RecentTwice(a: seq<real>, earlier: real, later: real, window: real)
    requires earlier <= later
    ensures Recent(Recent(a, earlier, window), later, window) == Recent(a, later, window)
    decreases |a|
  {
    if a != [] {
      var front, last := a[..|a| - 1], a[|a| - 1];
      RecentTwice(front, earlier, later, window);
      if earlier - last < window {
        RecentAppend(Recent(front, earlier, window), last, later, window);
      }
    }
  }

  function From(a: seq<real>, lo: real): seq<real> {
    if a == [] then []
    else if lo <= a[|a| - 1] then From(a[..|a| - 1], lo) + [a[|a| - 1]]
    else From(a[..|a| - 1], lo)
  }

  function Within(a: seq<real>, lo: real, hi: real): seq<real> {
    if a == [] then []
    else if lo <= a[|a| - 1] < hi then Within(a[..|a| - 1], lo, hi) + [a[|a| - 1]]
    else Within(a[..|a| - 1], lo, hi)
  }

  lemma FromAppend(a: seq<real>, t: real, lo: real)
    ensures From(a + [t], lo) == if lo <= t then From(a, lo) + [t] else From(a, lo)
  {
  }

  lemma WithinAppend(a: seq<real>, t: real, lo: real, hi: real)
    ensures Within(a + [t], lo, hi) == if lo <= t < hi then Within(a, lo, hi) + [t] else Within(a, lo, hi)
  {
  }

  lemma {:induction false} FilterSizes(a: seq<real>, lo: real, hi: real)
    ensures |Within(a, lo, hi)| <= |From(a, lo)| <= |a|
    decreases |a|
  {
    if a != [] {
      FilterSizes(a[..|a| - 1], lo, hi);
    }
  }

  // A pruning whose reading is less than a window after lo keeps every stamp from lo on.
  lemma {:induction false} PruningKeepsFrom(a: seq<real>, now: real, window: real, lo: real)
    requires now < lo + window
    ensures From(Recent(a, now, window), lo) == From(a, lo)
    decreases |a|
  {
    if a != [] {
      var front, last := a[..|a| - 1], a[|a| - 1];
      PruningKeepsFrom(front, now, window, lo);
      if now - last < window {
        FromAppend(Recent(front, now, window), last, lo);
      }
    }
  }

  // ---------- the pruned limiter refines the unpruned one ----------

  lemma StoredAfter(cfg: Config, h: seq<Event>, key: string)
    requires h != []
    ensures
      var before, e := Stored(cfg, Front(h), key), Last(h);
      Stored(cfg, h, key) ==
        if Clears(e, key) then []
        else if !e.Enforce? || e.key != key then before
        else if Admits(cfg, before, e.now) then Recent(before, e.now, cfg.window) + [e.now]
        else Recent(before, e.now, cfg.window)
  {
  }

  lemma UnprunedAfter(cfg: Config, h: seq<Event>, key: string)
    requires h != []
    ensures
      var before, e := Unpruned(cfg, Front(h), key), Last(h);
      Unpruned(cfg, h, key) ==
        if Clears(e, key) then []
        else if e.Enforce? && e.key == key && Admits(cfg, before, e.now) then before + [e.now]
        else before
  {
  }

  // Two lists that look alike at t and later still look alike when a call at t has been added to both.
  lemma StayAlike(cfg: Config, stamps: seq<real>, log: seq<real>, t: real, now: real)
    requires t <= now
    requires Recent(stamps, t, cfg.window) == Recent(log, t, cfg.window)
    requires Recent(stamps, now, cfg.window) == Recent(log, now, cfg.window)
    ensures Recent(Recent(stamps, t, cfg.window), now, cfg.window) == Recent(log, now, cfg.window)
    ensures Recent(Recent(stamps, t, cfg.window) + [t], now, cfg.window) == Recent(log + [t], now, cfg.window)
  {
    RecentTwice(stamps, t, now, cfg.window);
    RecentAppend(Recent(stamps, t, cfg.window), t, now, cfg.window);
    RecentAppend(log, t, now, cfg.window);
    hide Recent;
  }

  lemma ReadingsSoFar(h: seq<Event>, now: real)
    requires h != [] && InOrder(h) && ReadUpTo(h, now)
    ensures InOrder(Front(h)) && ReadUpTo(Front(h), now)
    ensures Last(h).Enforce? ==> Last(h).now <= now && ReadUpTo(Front(h), Last(h).now)
  {
    LagFront(h, 0.0);
    ReadUpToFront(h, now);
    assert Last(h).Enforce? ==> Last(h).now + 0.0 == Last(h).now;
  }

  // With readings in lock order, later decisions cannot tell the stored list from the whole log.
  lemma {:induction false} StoredSeesAll(cfg: Config, h: seq<Event>, key: string, now: real)
    requires InOrder(h) && ReadUpTo(h, now)
    ensures Recent(Stored(cfg, h, key), now, cfg.window) == Recent(Unpruned(cfg, h, key), now, cfg.window)
    decreases |h|
  {
    if h != [] {
      var front, e := Front(h), Last(h);
      ReadingsSoFar(h, now);
      StoredAfter(cfg, h, key);
      UnprunedAfter(cfg, h, key);
      hide InOrder, ReadUpTo, Recent, Stored, Unpruned;
      StoredSeesAll(cfg, front, key, now);
      if e.Enforce? && e.key == key {
        StoredSeesAll(cfg, front, key, e.now);
        StayAlike(cfg, Stored(cfg, front, key), Unpruned(cfg, front, key), e.now, now);
      }
    }
  }

  // Its decisions are those of counting every admitted, uncleared attempt of the last window.
  lemma {:induction false} PrunedRefinesUnpruned(cfg: Config, h: seq<Event>, key: string, now: real)
    requires InOrder(h) && ReadUpTo(h, now)
    ensures Admits(cfg, Stored(cfg, h, key), now) <==> Admits(cfg, Unpruned(cfg, h, key), now)
    ensures Unpruned(cfg, h, key) == Admitted(cfg, h, key)
    decreases |h|
  {
    StoredSeesAll(cfg, h, key, now);
    if h != [] {
      var front, e := Front(h), Last(h);
      ReadingsSoFar(h, now);
      UnprunedAfter(cfg, h, key);
      hide InOrder, ReadUpTo, Recent, Stored, Unpruned;
      PrunedRefinesUnpruned(cfg, front, key, now);
      if e.Enforce? && e.key == key {
        StoredSeesAll(cfg, front, key, e.now);
      }
    }
  }

  // A refused call leaves no trace in the log ...
  lemma {:induction false} RefusedLeavesLog(cfg: Config, h: seq<Event>, refused: Event, rest: seq<Event>, key: string)
    requires refused.Enforce? && !Admits(cfg, Unpruned(cfg, h, refused.key), refused.now)
    ensures Unpruned(cfg, h + [refused] + rest, key) == Unpruned(cfg, h + rest, key)
    decreases |rest|
  {
    if rest == [] {
      assert h + [refused] + rest == h + [refused] && h + rest == h;
      assert Front(h + [refused]) == h;
    } else {
      RefusedLeavesLog(cfg, h, refused, Front(rest), key);
      assert Front(h + [refused] + rest) == h + [refused] + Front(rest);
      assert Front(h + rest) == h + Front(rest);
    }
  }

  // ... so refused calls never extend a refusal: any later decision is as if they had not been made.
  lemma {:induction false} RefusedCallsAreInvisible(
      cfg: Config, h: seq<Event>, refused: Event, rest: seq<Event>, key: string, now: real)
    requires InOrder(h + [refused] + rest) && ReadUpTo(h + [refused] + rest, now)
    requires refused.Enforce? && !Admits(cfg, Stored(cfg, h, refused.key), refused.now)
    ensures Admits(cfg, Stored(cfg, h + [refused] + rest, key), now) <==> Admits(cfg, Stored(cfg, h + rest, key), now)
  {
    var long, short := h + [refused] + rest, h + rest;
    forall i | 0 <= i < |h|
      ensures long[i] == h[i]
    {
    }
    assert long[|h|] == refused;
    assert forall j | |h| <= j < |short| :: short[j] == long[j + 1];
    assert forall j | 0 <= j < |h| :: short[j] == h[j];
    assert InOrder(short) by {
      forall i, j | 0 <= i < j < |short| && short[i].Enforce? && short[j].Enforce?
        ensures short[i].now <= short[j].now + 0.0
      {
        var i', j' := if i < |h| then i else i + 1, if j < |h| then j else j + 1;
        assert long[i'] == short[i] && long[j'] == short[j];
      }
    }
    assert ReadUpTo(short, now);
    PrunedRefinesUnpruned(cfg, long, key, now);
    PrunedRefinesUnpruned(cfg, short, key, now);
    assert InOrder(h);
    assert ReadUpTo(h, refused.now) by {
      assert forall i | 0 <= i < |h| && h[i].Enforce? :: long[i].now <= long[|h|].now + 0.0;
    }
    PrunedRefinesUnpruned(cfg, h, refused.key, refused.now);
    RefusedLeavesLog(cfg, h, refused, rest, key);
  }

  // ---------- what is stored ----------

  predicate Sorted(a: seq<real>) {
    forall i, j | 0 <= i < j < |a| :: a[i] <= a[j]
  }

  lemma SortedAppend(a: seq<real>, t: real)
    requires Sorted(a) && forall x | x in a :: x <= t
    ensures Sorted(a + [t])
  {
    forall i, j | 0 <= i < j < |a + [t]|
      ensures (a + [t])[i] <= (a + [t])[j]
    {
      assert (a + [t])[i] == a[i] && a[i] in a;
    }
  }

  lemma {:induction false} RecentElements(a: seq<real>, now: real, window: real)
    ensures |Recent(a, now, window)| <= |a|
    ensures forall t | t in Recent(a, now, window) :: t in a
    ensures Sorted(a) ==> Sorted(Recent(a, now, window))
    decreases |a|
  {
    if a != [] {
      var front, last := a[..|a| - 1], a[|a| - 1];
      RecentElements(front, now, window);
      if Sorted(a) {
        assert forall t | t in front :: t <= last;
        SortedAppend(Recent(front, now, window), last);
      }
    }
  }

  // A stored list is never longer than the limit ...
  lemma {:induction false} StoredWithinLimit(cfg: Config, h: seq<Event>, key: string)
    ensures |Stored(cfg, h, key)| <= if cfg.limit < 0 then 0 else cfg.limit
    decreases |h|
  {
    if h != [] {
      StoredWithinLimit(cfg, Front(h), key);
      if Last(h).Enforce? {
        RecentElements(Stored(cfg, Front(h), key), Last(h).now, cfg.window);
      }
    }
  }

  // ... and, with readings in lock order, sorted.
  lemma {:induction false} StoredSorted(cfg: Config, h: seq<Event>, key: string, now: real)
    requires InOrder(h) && ReadUpTo(h, now)
    ensures Sorted(Stored(cfg, h, key))
    ensures forall t | t in Stored(cfg, h, key) :: t <= now
    decreases |h|
  {
    if h != [] {
      var front, e := Front(h), Last(h);
      ReadingsSoFar(h, now);
      StoredAfter(cfg, h, key);
      hide InOrder, ReadUpTo, Recent, Stored;
      StoredSorted(cfg, front, key, now);
      if e.Enforce? {
        StoredSorted(cfg, front, key, e.now);
        RecentElements(Stored(cfg, front, key), e.now, cfg.window);
        SortedAppend(Recent(Stored(cfg, front, key), e.now, cfg.window), e.now);
      }
    }
  }

  // The calls that concern one client.
  function Concerning(h: seq<Event>, key: string): seq<Event> {
    if h == [] then []
    else if Last(h) == Reset || Last(h).key == key then Concerning(Front(h), key) + [Last(h)]
    else Concerning(Front(h), key)
  }

  // Clients do not affect each other, whatever the order of the readings.
  lemma {:induction false} KeysIndependent(cfg: Config, h: seq<Event>, key: string)
    ensures Stored(cfg, h, key) == Stored(cfg, Concerning(h, key), key)
    decreases |h|
  {
    if h != [] {
      KeysIndependent(cfg, Front(h), key);
      var c := Concerning(Front(h), key);
      assert Front(c + [Last(h)]) == c;
    }
  }

  // ---------- the counting bound ----------

  lemma ReadBeforeFront(h: seq<Event>, time: real)
    requires h != [] && ReadBefore(h, time)
    ensures ReadBefore(Front(h), time) && (Last(h).Enforce? ==> Last(h).now < time)
  {
  }

  // While all readings are less than a window after lo, nothing from lo on has been pruned.
  lemma {:induction false} KeptFrom(cfg: Config, h: seq<Event>, key: string, lo: real)
    requires ReadBefore(h, lo + cfg.window)
    ensures From(Stored(cfg, h, key), lo) == From(Admitted(cfg, h, key), lo)
    decreases |h|
  {
    if h != [] {
      ReadBeforeFront(h, lo + cfg.window);
      StoredAfter(cfg, h, key);
      hide ReadBefore, From, Recent, Stored;
      var front, e := Front(h), Last(h);
      KeptFrom(cfg, front, key, lo);
      if e.Enforce? && e.key == key {
        var stamps := Stored(cfg, front, key);
        PruningKeepsFrom(stamps, e.now, cfg.window, lo);
        FromAppend(Recent(stamps, e.now, cfg.window), e.now, lo);
        FromAppend(Admitted(cfg, front, key), e.now, lo);
      }
    }
  }

  lemma ReadUpToBefore(h: seq<Event>, time: real, later: real)
    requires ReadUpTo(h, time) && time < later
    ensures ReadBefore(h, later)
  {
  }

  lemma AdmittedAfter(cfg: Config, h: seq<Event>, key: string)
    requires h != []
    ensures
      var before, e := Admitted(cfg, Front(h), key), Last(h);
      Admitted(cfg, h, key) ==
        if Clears(e, key) then []
        else if e.Enforce? && e.key == key && Admits(cfg, Stored(cfg, Front(h), key), e.now) then before + [e.now]
        else before
  {
  }

  // An admitted reading in an interval that the pruning has not touched finds room there.
  lemma RoomInside(cfg: Config, before: seq<real>, stamps: seq<real>, now: real, lo: real, hi: real)
    requires lo <= now < hi <= lo + cfg.window && From(stamps, lo) == From(before, lo) && Admits(cfg, stamps, now)
    ensures |Within(before, lo, hi)| < cfg.limit
  {
    FilterSizes(before, lo, hi);
    PruningKeepsFrom(stamps, now, cfg.window, lo);
    FilterSizes(Recent(stamps, now, cfg.window), lo, hi);
    hide From, Within, Recent;
  }

  // If no reading lags an earlier one by more than d, a half-open interval of length window - d holds
  // at most `limit` admitted attempts of a client between two clears. With d = 0: the full window.
  lemma {:induction false} LoginWindowBound(cfg: Config, h: seq<Event>, key: string, d: real, lo: real)
    requires 0.0 <= d && LagWithin(h, d)
    ensures |Within(Admitted(cfg, h, key), lo, lo + cfg.window - d)| <= if cfg.limit < 0 then 0 else cfg.limit
    decreases |h|
  {
    if h == [] {
      hide Stored;
    } else {
      var front, e := Front(h), Last(h);
      LagFront(h, d);
      AdmittedAfter(cfg, h, key);
      hide Admitted, Stored, LagWithin;
      LoginWindowBound(cfg, front, key, d, lo);
      var before, stamps, hi := Admitted(cfg, front, key), Stored(cfg, front, key), lo + cfg.window - d;
      assert Within([], lo, hi) == [];
      if e.Enforce? && e.key == key && Admits(cfg, stamps, e.now) {
        WithinAppend(before, e.now, lo, hi);
        hide Within;
        if lo <= e.now < hi {
          ReadUpToBefore(front, e.now + d, lo + cfg.window);
          hide ReadUpTo, ReadBefore;
          KeptFrom(cfg, front, key, lo);
          hide From, Admits;
          RoomInside(cfg, before, stamps, e.now, lo, hi);
        }
      }
    }
  }

  // Each stamp is at least a window after the one before.
  predicate Spaced(a: seq<real>, window: real) {
    forall i | 0 < i < |a| :: a[i - 1] + window <= a[i]
  }

  function LastOnly(a: seq<real>): seq<real> {
    if a == [] then [] else [a[|a| - 1]]
  }

  lemma RecentOfLast(a: seq<real>, now: real, window: real)
    ensures Recent(LastOnly(a), now, window) == if a != [] && now - a[|a| - 1] < window then LastOnly(a) else []
    ensures |LastOnly(a)| == if a == [] then 0 else 1
  {
    if a != [] {
      assert LastOnly(a)[..0] == [];
    }
  }

  lemma SpacedAppend(a: seq<real>, t: real, window: real)
    requires Spaced(a, window) && (a == [] || window <= t - a[|a| - 1])
    ensures Spaced(a + [t], window)
  {
    var b := a + [t];
    forall i | 0 < i < |b|
      ensures b[i - 1] + window <= b[i]
    {
      assert b[i - 1] == a[i - 1];
      assert i < |a| ==> b[i] == a[i];
    }
  }

  // With a limit of one and the last admitted attempt stored, a call is admitted a window after it or later.
  lemma NextSpaced(cfg: Config, all: seq<real>, now: real)
    requires cfg.limit == 1 && Spaced(all, cfg.window)
    ensures Admits(cfg, LastOnly(all), now) ==>
      Recent(LastOnly(all), now, cfg.window) == [] && Spaced(all + [now], cfg.window)
    ensures !Admits(cfg, LastOnly(all), now) ==> Recent(LastOnly(all), now, cfg.window) == LastOnly(all)
  {
    RecentOfLast(all, now, cfg.window);
    hide Recent, Spaced, LastOnly;
    if |Recent(LastOnly(all), now, cfg.window)| < cfg.limit {
      SpacedAppend(all, now, cfg.window);
    }
  }

  lemma EmptySpaced(window: real)
    ensures Spaced([], window) && LastOnly([]) == []
  {
  }

  lemma LastOnlyAppend(a: seq<real>, t: real)
    ensures LastOnly(a + [t]) == [t]
  {
  }

  // With a limit of one, the stored list is the last admitted attempt, whatever the order of the readings,
  // and the next one admitted is read at least a window later.
  lemma {:induction false} LimitOneSpaced(cfg: Config, h: seq<Event>, key: string)
    requires cfg.limit == 1
    ensures Stored(cfg, h, key) == LastOnly(Admitted(cfg, h, key)) && Spaced(Admitted(cfg, h, key), cfg.window)
    decreases |h|
  {
    if h != [] {
      StoredAfter(cfg, h, key);
      AdmittedAfter(cfg, h, key);
      EmptySpaced(cfg.window);
      hide Stored, Admitted, Recent, Spaced, LastOnly;
      LimitOneSpaced(cfg, Front(h), key);
      if Last(h).Enforce? {
        NextSpaced(cfg, Admitted(cfg, Front(h), key), Last(h).now);
        LastOnlyAppend(Admitted(cfg, Front(h), key), Last(h).now);
        assert [] + [Last(h).now] == [Last(h).now];
      }
      hide Admits;
    }
  }

  lemma {:induction false} SpacedWithin(a: seq<real>, window: real, lo: real)
    requires Spaced(a, window)
    ensures |Within(a, lo, lo + window)| <= 1
    ensures 0.0 < window && a != [] && a[|a| - 1] < lo ==> Within(a, lo, lo + window) == []
    ensures 0.0 < window && Within(a, lo, lo + window) != [] ==> lo <= a[|a| - 1]
    decreases |a|
  {
    if a != [] {
      SpacedWithin(a[..|a| - 1], window, lo);
    }
  }

  // So for a limit of one the full window holds one admitted attempt, however far the readings lag.
  lemma LimitOneBound(cfg: Config, h: seq<Event>, key: string, lo: real)
    requires cfg.limit == 1
    ensures |Within(Admitted(cfg, h, key), lo, lo + cfg.window)| <= 1
  {
    hide Within, Admitted, Stored;
    LimitOneSpaced(cfg, h, key);
    SpacedWithin(Admitted(cfg, h, key), cfg.window, lo);
  }

  // ---------- the bound is exact ----------

  function Burst(key: string, n: nat): seq<Event> {
    seq(n, _ => Enforce(key, 0.0))
  }

  function Zeros(n: nat): seq<real> {
    seq(n, _ => 0.0)
  }

  lemma {:induction false} RecentZeros(n: nat, now: real, window: real)
    ensures Recent(Zeros(n), now, window) == if now < window then Zeros(n) else []
    decreases n
  {
    if n > 0 {
      RecentZeros(n - 1, now, window);
      RecentAppend(Zeros(n - 1), 0.0, now, window);
      assert Zeros(n - 1) + [0.0] == Zeros(n);
      hide Recent, Zeros;
    }
  }

  lemma BurstStep(key: string, n: nat)
    requires n > 0
    ensures Burst(key, n) != [] && Front(Burst(key, n)) == Burst(key, n - 1) && Last(Burst(key, n)) == Enforce(key, 0.0)
    ensures Zeros(n - 1) + [0.0] == Zeros(n) && |Zeros(n - 1)| == n - 1
  {
  }

  lemma {:induction false} BurstAdmitted(cfg: Config, key: string, n: nat)
    requires n <= cfg.limit && 0.0 < cfg.window
    ensures Stored(cfg, Burst(key, n), key) == Zeros(n) == Admitted(cfg, Burst(key, n), key)
    decreases n
  {
    if n > 0 {
      BurstStep(key, n);
      StoredAfter(cfg, Burst(key, n), key);
      AdmittedAfter(cfg, Burst(key, n), key);
      RecentZeros(n - 1, 0.0, cfg.window);
      hide Burst, Zeros, Recent, Stored, Admitted;
      BurstAdmitted(cfg, key, n - 1);
    }
  }

  lemma {:induction false} WithinZeros(n: nat, hi: real)
    requires 0.0 < hi
    ensures Within(Zeros(n), 0.0, hi) == Zeros(n)
    decreases n
  {
    if n > 0 {
      WithinZeros(n - 1, hi);
      WithinAppend(Zeros(n - 1), 0.0, 0.0, hi);
      assert Zeros(n - 1) + [0.0] == Zeros(n);
      hide Within, Zeros;
    }
  }

  // A burst, the reading that prunes it, and a reading that lags by d.
  function Straddle(cfg: Config, key: string, d: real): seq<Event>
    requires 0 <= cfg.limit
  {
    Burst(key, cfg.limit) + [Enforce(key, cfg.window)] + [Enforce(key, cfg.window - d)]
  }

  lemma StraddleAdmitted(cfg: Config, key: string, d: real)
    requires 2 <= cfg.limit && 0.0 < d < cfg.window
    ensures Admitted(cfg, Straddle(cfg, key, d), key) == Zeros(cfg.limit) + [cfg.window] + [cfg.window - d]
  {
    var n: nat := cfg.limit;
    var burst := Burst(key, n);
    var prune, lag := Enforce(key, cfg.window), Enforce(key, cfg.window - d);
    BurstAdmitted(cfg, key, n);
    RecentZeros(n, cfg.window, cfg.window);
    RecentAppend([], cfg.window, cfg.window - d, cfg.window);
    assert [] + [cfg.window] == [cfg.window];
    assert Recent([], cfg.window - d, cfg.window) == [];
    StoredAfter(cfg, burst + [prune], key);
    hide Stored, Burst, Zeros, Recent;
    AdmittedAppend(cfg, burst, prune, key);
    assert Front(burst + [prune]) == burst && Last(burst + [prune]) == prune;
    assert Stored(cfg, burst + [prune], key) == [cfg.window];
    AdmittedAppend(cfg, burst + [prune], lag, key);
  }

  lemma AdmittedAppend(cfg: Config, h: seq<Event>, e: Event, key: string)
    requires e.Enforce? && e.key == key
    ensures Admitted(cfg, h + [e], key)
         == if Admits(cfg, Stored(cfg, h, key), e.now) then Admitted(cfg, h, key) + [e.now] else Admitted(cfg, h, key)
  {
  }

  lemma StraddleLags(cfg: Config, key: string, d: real)
    requires 0 <= cfg.limit && 0.0 < d < cfg.window
    ensures LagWithin(Straddle(cfg, key, d), d)
  {
  }

  // For any limit of two or more and any lag, no longer interval than window - d keeps the bound.
  lemma {:induction false} BoundIsExact(cfg: Config, key: string, d: real, length: real)
    requires 2 <= cfg.limit && 0.0 < d < cfg.window && cfg.window - d < length <= cfg.window
    ensures LagWithin(Straddle(cfg, key, d), d)
    ensures |Within(Admitted(cfg, Straddle(cfg, key, d), key), 0.0, length)| == cfg.limit + 1
  {
    var zeros := Zeros(cfg.limit);
    StraddleLags(cfg, key, d);
    StraddleAdmitted(cfg, key, d);
    hide LagWithin, Straddle, Admitted, Within;
    WithinZeros(cfg.limit, length);
    WithinAppend(zeros, cfg.window, 0.0, length);
    WithinAppend(zeros + [cfg.window], cfg.window - d, 0.0, length);
  }
}
