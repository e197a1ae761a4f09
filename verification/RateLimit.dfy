/**
 The keyed rate limiter of internal/ratelimit/limiter.go: a map of token buckets from which a sweep
 deletes the idle ones. A bucket starts full, refills at `rate`, is capped at `burst`, and Allow takes
 one token; times are reals, in seconds. The registry is compared with one that never deletes.
 */
module RateLimit {
  import opened Prelude

  datatype Bucket = Bucket(tokens: real, last: real)

  datatype Entry = Entry(bucket: Bucket, lastSeen: real)

  type Clients = map<string, Entry>

  datatype Config = Config(rate: real, burst: nat, idle: real)

  function Min(a: real, b: real): real {
    if a < b then a else b
  }

  /** Tokens that accrue from time zero to `t`. */
  function Accrued(c: Config, t: real): real {
    c.rate * t
  }

  lemma AccruedGrows(c: Config, t: real, u: real)
    requires c.rate >= 0.0 && t <= u
    ensures Accrued(c, t) <= Accrued(c, u)
  {
  }

  /** Tokens at hand at `now`. */
  function Refill(c: Config, b: Bucket, now: real): real {
    Min(c.burst as real, b.tokens + Accrued(c, now) - Accrued(c, b.last))
  }

  function Full(c: Config, now: real): Bucket {
    Bucket(c.burst as real, now)
  }

  function Allow(c: Config, b: Bucket, now: real): (Bucket, bool) {
    var t := Refill(c, b, now);
    if t >= 1.0 then (Bucket(t - 1.0, now), true) else (Bucket(t, now), false)
  }

  /** A bucket read at the instant it was written has what was written. */
  lemma RefillAtOnce(c: Config, tokens: real, now: real)
    ensures Refill(c, Bucket(tokens, now), now) == Min(c.burst as real, tokens)
  {
  }

  // ---------------------------------------------------------------- traces

  datatype Event = Request(key: string, at: real) | Sweep(at: real)

  datatype Decision = Decision(key: string, ok: bool)

  /** GetLimiter and Allow, at one instant. */
  function Serve(c: Config, cs: Clients, key: string, now: real): (Clients, bool) {
    var b := if key in cs then cs[key].bucket else Full(c, now);
    var (b', ok) := Allow(c, b, now);
    (cs[key := Entry(b', now)], ok)
  }

  function Swept(c: Config, cs: Clients, now: real): Clients {
    map k | k in cs && !(now - cs[k].lastSeen > c.idle) :: cs[k]
  }

  function Next(c: Config, cs: Clients, e: Event, evict: bool): Clients {
    match e
    case Request(key, at) => Serve(c, cs, key, at).0
    case Sweep(at) => if evict then Swept(c, cs, at) else cs
  }

  function Output(c: Config, cs: Clients, e: Event): seq<Decision> {
    match e
    case Request(key, at) => [Decision(key, Serve(c, cs, key, at).1)]
    case Sweep(_) => []
  }

  /** The decisions of the registry on a trace; with `evict` off, of one that never deletes. */
  function Decisions(c: Config, cs: Clients, es: seq<Event>, evict: bool): seq<Decision>
    decreases es
  {
    if es == [] then [] else Output(c, cs, es[0]) + Decisions(c, Next(c, cs, es[0], evict), es[1..], evict)
  }

  function After(c: Config, cs: Clients, es: seq<Event>, evict: bool): Clients
    decreases es
  {
    if es == [] then cs else After(c, Next(c, cs, es[0], evict), es[1..], evict)
  }

  ghost predicate Timed(es: seq<Event>, from: real) {
    es == [] || (from <= es[0].at && Timed(es[1..], es[0].at))
  }

  lemma {:induction false} DecisionsConcat(c: Config, cs: Clients, a: seq<Event>, b: seq<Event>, evict: bool)
    ensures Decisions(c, cs, a + b, evict)
            == Decisions(c, cs, a, evict) + Decisions(c, After(c, cs, a, evict), b, evict)
    ensures After(c, cs, a + b, evict) == After(c, After(c, cs, a, evict), b, evict)
    decreases a
  {
    if a == [] {
      assert a + b == b;
    } else {
      assert (a + b)[1..] == a[1..] + b;
      DecisionsConcat(c, Next(c, cs, a[0], evict), a[1..], b, evict);
    }
  }

  // ---------------------------------------------------------------- eviction is invisible

  ghost predicate EntryOk(c: Config, e: Entry, now: real) {
    0.0 <= e.bucket.tokens <= c.burst as real && e.bucket.last == e.lastSeen <= now
  }

  ghost predicate ClientsOk(c: Config, cs: Clients, now: real) {
    forall k :: k in cs ==> EntryOk(c, cs[k], now)
  }

  /** What the registry still holds agrees with `all`, and what it has dropped is full again in `all`. */
  ghost predicate Mirrors(c: Config, cs: Clients, all: Clients, now: real) {
    && ClientsOk(c, all, now)
    && (forall k :: k in cs ==> k in all && cs[k] == all[k])
    && (forall k :: k in all && k !in cs ==> Refill(c, all[k].bucket, now) == c.burst as real)
  }

  lemma RefillGrows(c: Config, b: Bucket, t: real, u: real)
    requires c.rate >= 0.0 && t <= u
    ensures Refill(c, b, t) <= Refill(c, b, u) <= c.burst as real
    ensures Refill(c, b, u) <= Refill(c, b, t) + Accrued(c, u) - Accrued(c, t)
  {
    AccruedGrows(c, t, u);
  }

  lemma MirrorsLater(c: Config, cs: Clients, all: Clients, t: real, u: real)
    requires c.rate >= 0.0 && t <= u && Mirrors(c, cs, all, t)
    ensures Mirrors(c, cs, all, u)
  {
    forall k | k in all && k !in cs
      ensures Refill(c, all[k].bucket, u) == c.burst as real
    {
      RefillGrows(c, all[k].bucket, t, u);
    }
    assert forall k :: k in all ==> EntryOk(c, all[k], t) ==> EntryOk(c, all[k], u);
  }

  lemma AllowKeeps(c: Config, b: Bucket, now: real)
    requires c.rate >= 0.0 && 0.0 <= b.tokens <= c.burst as real && b.last <= now
    ensures EntryOk(c, Entry(Allow(c, b, now).0, now), now)
  {
    AccruedGrows(c, b.last, now);
  }

  lemma ServeMirrors(c: Config, cs: Clients, all: Clients, key: string, now: real)
    requires c.rate >= 0.0 && Mirrors(c, cs, all, now)
    ensures Serve(c, cs, key, now).1 == Serve(c, all, key, now).1
    ensures Mirrors(c, Serve(c, cs, key, now).0, Serve(c, all, key, now).0, now)
  {
    RefillAtOnce(c, c.burst as real, now);
    var b := if key in all then all[key].bucket else Full(c, now);
    assert key in all ==> EntryOk(c, all[key], now);
    AllowKeeps(c, b, now);
    assert Serve(c, cs, key, now).0[key] == Serve(c, all, key, now).0[key];
  }

  lemma IdleFills(c: Config, b: Bucket, now: real)
    requires c.rate >= 0.0 && c.rate * c.idle >= c.burst as real && b.tokens >= 0.0 && now - b.last > c.idle
    ensures Refill(c, b, now) == c.burst as real
  {
    AccruedGrows(c, b.last + c.idle, now);
    AccruedSplits(c, b.last, c.idle);
  }

  lemma AccruedSplits(c: Config, t: real, d: real)
    ensures Accrued(c, t + d) == Accrued(c, t) + c.rate * d
  {
  }

  lemma SweepMirrors(c: Config, cs: Clients, all: Clients, now: real)
    requires c.rate >= 0.0 && c.rate * c.idle >= c.burst as real && Mirrors(c, cs, all, now)
    ensures Mirrors(c, Swept(c, cs, now), all, now)
  {
    forall k | k in all && k !in Swept(c, cs, now)
      ensures Refill(c, all[k].bucket, now) == c.burst as real
    {
      if k in cs {
        assert EntryOk(c, all[k], now) && cs[k] == all[k];
        IdleFills(c, all[k].bucket, now);
      }
    }
  }

  lemma {:induction false} RunMirrors(c: Config, cs: Clients, all: Clients, es: seq<Event>, now: real)
    returns (end: real)
    requires c.rate >= 0.0 && c.rate * c.idle >= c.burst as real
    requires Mirrors(c, cs, all, now) && Timed(es, now)
    ensures Decisions(c, cs, es, true) == Decisions(c, all, es, false)
    ensures Mirrors(c, After(c, cs, es, true), After(c, all, es, false), end)
    ensures end == if es == [] then now else es[|es| - 1].at
    decreases es
  {
    if es == [] {
      end := now;
    } else {
      var e := es[0];
      MirrorsLater(c, cs, all, now, e.at);
      match e {
        case Request(key, at) => ServeMirrors(c, cs, all, key, at);
        case Sweep(at) => SweepMirrors(c, cs, all, at);
      }
      end := RunMirrors(c, Next(c, cs, e, true), Next(c, all, e, false), es[1..], e.at);
    }
  }

  /** Requests for one key, `n` of them at once. */
  function Volley(key: string, at: real, n: nat): seq<Event> {
    if n == 0 then [] else [Request(key, at)] + Volley(key, at, n - 1)
  }

  /** Tokens the next request of `key` would find. */
  function Level(c: Config, cs: Clients, key: string, now: real): real {
    if key in cs then Refill(c, cs[key].bucket, now) else c.burst as real
  }

  lemma LevelAfterServe(c: Config, cs: Clients, key: string, at: real)
    requires Level(c, cs, key, at) >= 0.0
    ensures var (cs', ok) := Serve(c, cs, key, at);
            && ok == (Level(c, cs, key, at) >= 1.0)
            && Level(c, cs', key, at) == Level(c, cs, key, at) - (if ok then 1.0 else 0.0)
            && cs'.Keys == cs.Keys + {key} && cs'[key] == Entry(Bucket(Level(c, cs', key, at), at), at)
  {
  }

  lemma {:induction false} VolleyPasses(c: Config, cs: Clients, key: string, at: real, n: nat, evict: bool)
    requires n as real <= Level(c, cs, key, at) <= c.burst as real
    decreases n
    ensures Decision(key, false) !in Decisions(c, cs, Volley(key, at, n), evict)
    ensures Level(c, After(c, cs, Volley(key, at, n), evict), key, at) == Level(c, cs, key, at) - n as real
    ensures n > 0 ==> After(c, cs, Volley(key, at, n), evict).Keys == cs.Keys + {key}
    ensures n > 0 ==> After(c, cs, Volley(key, at, n), evict)[key].lastSeen == at
    ensures n > 0 ==>
              After(c, cs, Volley(key, at, n), evict)[key].bucket == Bucket(Level(c, cs, key, at) - n as real, at)
  {
    if n > 0 {
      var cs' := Serve(c, cs, key, at).0;
      LevelAfterServe(c, cs, key, at);
      assert Volley(key, at, n)[1..] == Volley(key, at, n - 1);
      VolleyPasses(c, cs', key, at, n - 1, evict);
    }
  }

  lemma {:induction false} VolleyGranted(c: Config, cs: Clients, key: string, at: real, n: nat, evict: bool)
    requires n as real <= Level(c, cs, key, at) <= c.burst as real
    ensures Count(Decisions(c, cs, Volley(key, at, n), evict), Granted(key)) == n
    decreases n
  {
    if n > 0 {
      var cs' := Serve(c, cs, key, at).0;
      LevelAfterServe(c, cs, key, at);
      assert Volley(key, at, n)[1..] == Volley(key, at, n - 1);
      VolleyGranted(c, cs', key, at, n - 1, evict);
      var d := Decision(key, true);
      assert [] + [d] == [d];
      CountAppend([], d, Granted(key));
      CountConcat([d], Decisions(c, cs', Volley(key, at, n - 1), evict), Granted(key));
    }
  }

  lemma {:induction false} VolleyHits(c: Config, cs: Clients, key: string, at: real, n: nat, evict: bool)
    requires 0.0 <= Level(c, cs, key, at) < n as real
    decreases n
    ensures Decision(key, false) in Decisions(c, cs, Volley(key, at, n), evict)
  {
    if n > 0 {
      var cs' := Serve(c, cs, key, at).0;
      LevelAfterServe(c, cs, key, at);
      assert Volley(key, at, n)[1..] == Volley(key, at, n - 1);
      if Level(c, cs, key, at) >= 1.0 {
        VolleyHits(c, cs', key, at, n - 1, evict);
      } else {
        assert Decisions(c, cs, Volley(key, at, n), evict)[0] == Decision(key, false);
      }
    }
  }

  lemma {:induction false} TimedConcat(a: seq<Event>, b: seq<Event>, from: real, mid: real)
    requires Timed(a, from) && Timed(b, mid) && from <= mid
    requires forall e :: e in a ==> e.at <= mid
    ensures Timed(a + b, from)
    decreases a
  {
    if a == [] {
      assert a + b == b;
    } else {
      assert (a + b)[1..] == a[1..] + b;
      TimedConcat(a[1..], b, a[0].at, mid);
    }
  }

  lemma {:induction false} VolleyTimed(key: string, at: real, n: nat)
    ensures Timed(Volley(key, at, n), at) && forall e :: e in Volley(key, at, n) ==> e.at == at
    decreases n
  {
    if n > 0 {
      VolleyTimed(key, at, n - 1);
    }
  }

  /** An instant that is idle long enough to be swept, and too soon for the bucket to be full again. */
  function SoonAfterSweep(c: Config): real
    requires c.rate >= 0.0
  {
    if c.rate == 0.0 then c.idle + 1.0 else (c.idle + c.burst as real / c.rate) / 2.0
  }

  lemma SoonIsBetween(c: Config)
    requires c.rate >= 0.0 && c.idle >= 0.0 && c.rate * c.idle < c.burst as real
    ensures c.idle < SoonAfterSweep(c) && c.rate * SoonAfterSweep(c) < c.burst as real
  {
    if c.rate > 0.0 {
      var full := c.burst as real / c.rate;
      assert Accrued(c, full) == c.burst as real;
      if full <= c.idle {
        AccruedGrows(c, full, c.idle);
      }
      assert Accrued(c, (c.idle + full) / 2.0) == (Accrued(c, c.idle) + Accrued(c, full)) / 2.0;
    }
  }

  /** Empty the bucket, sweep, and ask for as much again. */
  function FillTwice(c: Config): seq<Event>
    requires c.rate >= 0.0
  {
    var t := SoonAfterSweep(c);
    Volley("k", 0.0, c.burst) + ([Sweep(t)] + Volley("k", t, c.burst))
  }

  lemma FillTwiceTimed(c: Config)
    requires c.rate >= 0.0 && 0.0 <= SoonAfterSweep(c)
    ensures Timed(FillTwice(c), 0.0) && forall e :: e in FillTwice(c) ==> 0.0 <= e.at <= SoonAfterSweep(c)
  {
    var t := SoonAfterSweep(c);
    var second := [Sweep(t)] + Volley("k", t, c.burst);
    assert second[1..] == Volley("k", t, c.burst);
    VolleyTimed("k", 0.0, c.burst);
    VolleyTimed("k", t, c.burst);
    TimedConcat(Volley("k", 0.0, c.burst), second, 0.0, t);
  }

  /** With eviction: the sweep drops the emptied bucket, so the second volley finds a full one. */
  lemma EvictionGrants(c: Config)
    requires c.rate >= 0.0 && c.idle >= 0.0 && c.rate * c.idle < c.burst as real
    ensures Decision("k", false) !in Decisions(c, map[], FillTwice(c), true)
    ensures Count(Decisions(c, map[], FillTwice(c), true), Granted("k")) == 2 * c.burst
  {
    var t, n := SoonAfterSweep(c), c.burst;
    SecondIsFresh(c);
    var first, second := Volley("k", 0.0, n), Volley("k", t, n);
    VolleyPasses(c, map[], "k", 0.0, n, true);
    VolleyPasses(c, map[], "k", t, n, true);
    VolleyGranted(c, map[], "k", 0.0, n, true);
    VolleyGranted(c, map[], "k", t, n, true);
    CountConcat(Decisions(c, map[], first, true), Decisions(c, map[], second, true), Granted("k"));
  }

  lemma SecondIsFresh(c: Config)
    requires c.rate >= 0.0 && c.idle >= 0.0 && c.rate * c.idle < c.burst as real
    ensures Decisions(c, map[], FillTwice(c), true)
            == Decisions(c, map[], Volley("k", 0.0, c.burst), true)
               + Decisions(c, map[], Volley("k", SoonAfterSweep(c), c.burst), true)
  {
    var t := SoonAfterSweep(c);
    SoonIsBetween(c);
    BurstIsPositive(c);
    var first, second := Volley("k", 0.0, c.burst), Volley("k", t, c.burst);
    VolleyPasses(c, map[], "k", 0.0, c.burst, true);
    var held := After(c, map[], first, true);
    assert held.Keys == {"k"};
    assert Swept(c, held, t) == map[];
    DecisionsConcat(c, map[], first, [Sweep(t)] + second, true);
    assert ([Sweep(t)] + second)[1..] == second;
  }

  lemma BurstIsPositive(c: Config)
    requires c.rate >= 0.0 && c.idle >= 0.0 && c.rate * c.idle < c.burst as real
    ensures c.burst > 0
  {
    AccruedGrows(c, 0.0, c.idle);
    assert Accrued(c, 0.0) <= Accrued(c, c.idle);
    assert 0.0 < c.burst as real;
  }

  /** Without: the bucket has not filled up again, so the second volley is cut short. */
  lemma KeepingRefuses(c: Config)
    requires c.rate >= 0.0 && c.idle >= 0.0 && c.rate * c.idle < c.burst as real
    ensures Decision("k", false) in Decisions(c, map[], FillTwice(c), false)
  {
    var t, n := SoonAfterSweep(c), c.burst;
    SoonIsBetween(c);
    BurstIsPositive(c);
    var first, second := Volley("k", 0.0, n), Volley("k", t, n);
    VolleyPasses(c, map[], "k", 0.0, n, false);
    var kept := After(c, map[], first, false);
    assert Level(c, kept, "k", t) == Min(n as real, Accrued(c, t));
    AccruedGrows(c, 0.0, t);
    VolleyHits(c, kept, "k", t, n, false);
    DecisionsConcat(c, map[], first, [Sweep(t)] + second, false);
    assert ([Sweep(t)] + second)[1..] == second;
  }

  /** The registry grants what one that never deletes cannot. */
  lemma EvictionShows(c: Config) returns (es: seq<Event>)
    requires c.rate >= 0.0 && c.idle >= 0.0 && c.rate * c.idle < c.burst as real
    ensures Timed(es, 0.0) && Decisions(c, map[], es, true) != Decisions(c, map[], es, false)
  {
    es := FillTwice(c);
    SoonIsBetween(c);
    FillTwiceTimed(c);
    EvictionGrants(c);
    KeepingRefuses(c);
  }

  /**
   Eviction is invisible exactly when a bucket has time to fill up before it may be swept: then, and only
   then, every timed trace, sweeps wherever they fall, gets the decisions of a registry that never
   deletes.
   */
  lemma EvictionInvisibleExactlyWhen(c: Config)
    requires c.rate >= 0.0 && c.idle >= 0.0
    ensures c.rate * c.idle >= c.burst as real <==>
              forall es :: Timed(es, 0.0) ==> Decisions(c, map[], es, true) == Decisions(c, map[], es, false)
  {
    if c.rate * c.idle >= c.burst as real {
      forall es | Timed(es, 0.0)
        ensures Decisions(c, map[], es, true) == Decisions(c, map[], es, false)
      {
        var _ := RunMirrors(c, map[], map[], es, 0.0);
      }
    } else {
      var es := EvictionShows(c);
    }
  }

  // ---------------------------------------------------------------- key isolation

  function About(key: string, e: Event): bool {
    e.Sweep? || e.key == key
  }

  /** The key's requests, and the sweeps. */
  function Only(es: seq<Event>, key: string): seq<Event> {
    if es == [] then []
    else (if About(key, es[0]) then [es[0]] else []) + Only(es[1..], key)
  }

  function For(ds: seq<Decision>, key: string): seq<Decision> {
    if ds == [] then []
    else (if ds[0].key == key then [ds[0]] else []) + For(ds[1..], key)
  }

  ghost predicate SameFor(a: Clients, b: Clients, key: string) {
    (key in a <==> key in b) && (key in a ==> a[key] == b[key])
  }

  /**
   Key isolation: the decisions for one key in any interleaved trace, from any two registries that agree
   on that key, are those of running its requests and the sweeps alone.
   */
  lemma {:induction false} KeyIsolation(c: Config, a: Clients, b: Clients, es: seq<Event>, key: string, evict: bool)
    requires SameFor(a, b, key)
    ensures For(Decisions(c, a, es, evict), key) == Decisions(c, b, Only(es, key), evict)
    decreases es
  {
    if es != [] {
      var e := es[0];
      var rest := Decisions(c, Next(c, a, e, evict), es[1..], evict);
      assert Output(c, a, e) != [] ==> (Output(c, a, e) + rest)[1..] == rest;
      assert Output(c, a, e) == [] ==> Output(c, a, e) + rest == rest;
      if About(key, e) {
        assert ([e] + Only(es[1..], key))[1..] == Only(es[1..], key);
        KeyIsolation(c, Next(c, a, e, evict), Next(c, b, e, evict), es[1..], key, evict);
      } else {
        assert [] + Only(es[1..], key) == Only(es[1..], key);
        assert [] + For(rest, key) == For(rest, key);
        KeyIsolation(c, Next(c, a, e, evict), b, es[1..], key, evict);
      }
    }
  }

  // ---------------------------------------------------------------- rate bound

  function Granted(key: string): Decision -> bool {
    (d: Decision) => d.key == key && d.ok
  }

  lemma {:induction false} CountConcat<T>(xs: seq<T>, ys: seq<T>, p: T -> bool)
    ensures Count(xs + ys, p) == Count(xs, p) + Count(ys, p)
    decreases |ys|
  {
    if ys == [] {
      assert xs + ys == xs;
    } else {
      assert (xs + ys)[..|xs + ys| - 1] == xs + ys[..|ys| - 1];
      CountConcat(xs, ys[..|ys| - 1], p);
    }
  }

  lemma ClientsOkNext(c: Config, cs: Clients, e: Event, from: real, evict: bool)
    requires c.rate >= 0.0 && ClientsOk(c, cs, from) && from <= e.at
    ensures ClientsOk(c, Next(c, cs, e, evict), e.at)
  {
    assert forall k :: k in cs ==> EntryOk(c, cs[k], from) ==> EntryOk(c, cs[k], e.at);
    if e.Request? {
      AllowKeeps(c, if e.key in cs then cs[e.key].bucket else Full(c, e.at), e.at);
    }
  }

  lemma LevelInRange(c: Config, cs: Clients, key: string, now: real)
    requires c.rate >= 0.0 && ClientsOk(c, cs, now)
    ensures 0.0 <= Level(c, cs, key, now) <= c.burst as real
  {
    if key in cs {
      assert EntryOk(c, cs[key], now);
      AccruedGrows(c, cs[key].bucket.last, now);
    }
  }

  lemma LevelLater(c: Config, cs: Clients, key: string, t: real, u: real)
    requires c.rate >= 0.0 && t <= u
    ensures Level(c, cs, key, u) <= Level(c, cs, key, t) + Accrued(c, u) - Accrued(c, t)
  {
  }

  /** What a key has been granted and what it could still be granted never outgrow the refill. */
  lemma ServeLevel(c: Config, cs: Clients, e: Event, key: string, from: real)
    requires c.rate >= 0.0 && ClientsOk(c, cs, from) && from <= e.at
    ensures Level(c, Next(c, cs, e, false), key, e.at) + Count(Output(c, cs, e), Granted(key)) as real
            <= Level(c, cs, key, from) + Accrued(c, e.at) - Accrued(c, from)
  {
    LevelLater(c, cs, key, from, e.at);
    if e.Request? {
      var d := Decision(e.key, Serve(c, cs, e.key, e.at).1);
      assert Output(c, cs, e) == [] + [d];
      CountAppend([], d, Granted(key));
      if key == e.key {
        assert forall k :: k in cs ==> EntryOk(c, cs[k], from) ==> EntryOk(c, cs[k], e.at);
        LevelInRange(c, cs, key, e.at);
        LevelAfterServe(c, cs, key, e.at);
      }
    }
  }

  lemma {:induction false} WindowBound(c: Config, cs: Clients, es: seq<Event>, key: string, from: real, till: real)
    requires c.rate >= 0.0 && ClientsOk(c, cs, from) && Timed(es, from) && from <= till
    requires forall e :: e in es ==> e.at <= till
    ensures Count(Decisions(c, cs, es, false), Granted(key)) as real + Level(c, After(c, cs, es, false), key, till)
            <= Level(c, cs, key, from) + Accrued(c, till) - Accrued(c, from)
    decreases es
  {
    if es == [] {
      LevelLater(c, cs, key, from, till);
    } else {
      var e := es[0];
      assert e in es;
      ServeLevel(c, cs, e, key, from);
      ClientsOkNext(c, cs, e, from, false);
      WindowBound(c, Next(c, cs, e, false), es[1..], key, e.at, till);
      CountConcat(Output(c, cs, e), Decisions(c, Next(c, cs, e, false), es[1..], false), Granted(key));
    }
  }

  lemma {:induction false} TimedPrefix(es: seq<Event>, k: nat, from: real)
    requires Timed(es, from) && k <= |es|
    ensures Timed(es[..k], from)
    ensures Timed(es[k..], if k == 0 then from else es[k - 1].at)
    decreases es
  {
    if k > 0 {
      assert es[..k][1..] == es[1..][..k - 1];
      assert es[k..] == es[1..][k - 1..];
      TimedPrefix(es[1..], k - 1, es[0].at);
    }
  }

  /** From event `k` on, the timed trace stays between `from` and `till`; before, it is no later. */
  ghost predicate Window(es: seq<Event>, k: nat, from: real, till: real) {
    && Timed(es, 0.0) && k <= |es| && 0.0 <= from <= till
    && (forall i :: 0 <= i < k ==> es[i].at <= from)
    && (forall i :: k <= i < |es| ==> from <= es[i].at <= till)
  }

  /** What `key` is granted from event `k` on. */
  function GrantedIn(c: Config, es: seq<Event>, k: nat, key: string, evict: bool): nat
    requires k <= |es|
  {
    Count(Decisions(c, After(c, map[], es[..k], evict), es[k..], evict), Granted(key))
  }

  /** Every key is granted at most burst + rate * T requests in any stretch that lasts T, after any history. */
  ghost predicate KeepsRate(c: Config, evict: bool) {
    forall es, k: nat, key, from, till :: Window(es, k, from, till) ==>
      GrantedIn(c, es, k, key, evict) as real <= c.burst as real + c.rate * (till - from)
  }

  lemma RateBound(c: Config, es: seq<Event>, k: nat, key: string, from: real, till: real, evict: bool)
    requires c.rate >= 0.0 && (evict ==> c.rate * c.idle >= c.burst as real)
    requires Window(es, k, from, till)
    ensures GrantedIn(c, es, k, key, evict) as real <= c.burst as real + c.rate * (till - from)
  {
    TimedPrefix(es, k, 0.0);
    TimedFrom(es[k..], if k == 0 then 0.0 else es[k - 1].at, from);
    WindowAfter(c, es[..k], es[k..], key, from, till, evict);
    AccruedBetween(c, from, till);
  }

  lemma FillTwiceOvershoots(c: Config)
    requires c.rate >= 0.0 && c.idle >= 0.0 && c.rate * c.idle < c.burst as real
    ensures Window(FillTwice(c), 0, 0.0, SoonAfterSweep(c))
    ensures GrantedIn(c, FillTwice(c), 0, "k", true) as real > c.burst as real + c.rate * (SoonAfterSweep(c) - 0.0)
  {
    var es := FillTwice(c);
    SoonIsBetween(c);
    FillTwiceTimed(c);
    EvictionGrants(c);
    assert es[..0] == [] && es[0..] == es;
  }

  lemma EvictionBreaksRate(c: Config)
    requires c.rate >= 0.0 && c.idle >= 0.0 && c.rate * c.idle < c.burst as real
    ensures !KeepsRate(c, true)
  {
    FillTwiceOvershoots(c);
  }

  /**
   Rate bound: a registry that never deletes always keeps the rate; with eviction it does exactly when a
   bucket has time to fill up before it may be swept.
   */
  lemma RateBoundExactlyWhen(c: Config)
    requires c.rate >= 0.0 && c.idle >= 0.0
    ensures KeepsRate(c, false)
    ensures KeepsRate(c, true) <==> c.rate * c.idle >= c.burst as real
  {
    forall es, k: nat, key, from, till | Window(es, k, from, till)
      ensures GrantedIn(c, es, k, key, false) as real <= c.burst as real + c.rate * (till - from)
    {
      RateBound(c, es, k, key, from, till, false);
    }
    if c.rate * c.idle < c.burst as real {
      EvictionBreaksRate(c);
    } else {
      forall es, k: nat, key, from, till | Window(es, k, from, till)
        ensures GrantedIn(c, es, k, key, true) as real <= c.burst as real + c.rate * (till - from)
      {
        RateBound(c, es, k, key, from, till, true);
      }
    }
  }

  lemma AccruedBetween(c: Config, t: real, u: real)
    ensures Accrued(c, u) - Accrued(c, t) == c.rate * (u - t)
  {
  }

  lemma WindowAfter(c: Config, before: seq<Event>, window: seq<Event>, key: string, from: real, till: real, evict: bool)
    requires c.rate >= 0.0 && (evict ==> c.rate * c.idle >= c.burst as real)
    requires 0.0 <= from <= till && Timed(before, 0.0) && Timed(window, from)
    requires forall e :: e in before ==> e.at <= from
    requires forall e :: e in window ==> e.at <= till
    ensures Count(Decisions(c, After(c, map[], before, evict), window, evict), Granted(key)) as real
            <= c.burst as real + Accrued(c, till) - Accrued(c, from)
  {
    BoundWhenKept(c, before, window, key, from, till);
    if evict {
      SameWindow(c, before, window, from);
    }
  }

  lemma TimedFrom(es: seq<Event>, t: real, from: real)
    requires Timed(es, t) && forall e :: e in es ==> from <= e.at
    ensures Timed(es, from)
  {
  }

  lemma BoundWhenKept(c: Config, before: seq<Event>, window: seq<Event>, key: string, from: real, till: real)
    requires c.rate >= 0.0 && 0.0 <= from <= till && Timed(before, 0.0) && Timed(window, from)
    requires forall e :: e in before ==> e.at <= from
    requires forall e :: e in window ==> e.at <= till
    ensures Count(Decisions(c, After(c, map[], before, false), window, false), Granted(key)) as real
            <= c.burst as real + Accrued(c, till) - Accrued(c, from)
  {
    var all := After(c, map[], before, false);
    KeptOk(c, map[], before, 0.0, from, false);
    WindowBound(c, all, window, key, from, till);
    LevelInRange(c, all, key, from);
    KeptOk(c, all, window, from, till, false);
    LevelInRange(c, After(c, all, window, false), key, till);
  }

  lemma SameWindow(c: Config, before: seq<Event>, window: seq<Event>, from: real)
    requires c.rate >= 0.0 && c.rate * c.idle >= c.burst as real
    requires 0.0 <= from && Timed(before, 0.0) && Timed(window, from)
    requires forall e :: e in before ==> e.at <= from
    ensures Decisions(c, After(c, map[], before, true), window, true)
            == Decisions(c, After(c, map[], before, false), window, false)
  {
    var held, all := After(c, map[], before, true), After(c, map[], before, false);
    var end := RunMirrors(c, map[], map[], before, 0.0);
    MirrorsLater(c, held, all, end, from);
    var _ := RunMirrors(c, held, all, window, from);
  }

  lemma {:induction false} KeptOk(c: Config, cs: Clients, es: seq<Event>, now: real, from: real, evict: bool)
    requires c.rate >= 0.0 && ClientsOk(c, cs, now) && Timed(es, now) && now <= from
    requires forall e :: e in es ==> e.at <= from
    ensures ClientsOk(c, After(c, cs, es, evict), from)
    decreases es
  {
    if es == [] {
      assert forall k :: k in cs ==> EntryOk(c, cs[k], now) ==> EntryOk(c, cs[k], from);
    } else {
      assert es[0] in es;
      ClientsOkNext(c, cs, es[0], now, evict);
      KeptOk(c, Next(c, cs, es[0], evict), es[1..], es[0].at, from, evict);
    }
  }
}
