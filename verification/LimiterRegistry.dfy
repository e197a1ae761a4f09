/** The objects of internal/ratelimit/limiter.go, proved against the functions of RateLimit. */
module LimiterRegistry {
  import opened RateLimit

  /** rate.Limiter, as its documentation specifies Allow. */
  class Limiter {
    const config: Config
    var tokens: real
    var last: real

    constructor (c: Config, now: real)
      ensures config == c && tokens == c.burst as real && last == now
    {
      config, tokens, last := c, c.burst as real, now;
    }

    function View(): Bucket
      reads this
    {
      Bucket(tokens, last)
    }

    method AllowNow(now: real) returns (ok: bool)
      modifies this
      ensures (View(), ok) == Allow(config, old(View()), now)
    {
      var t := Refill(config, View(), now);
      ok := t >= 1.0;
      tokens := if ok then t - 1.0 else t;
      last := now;
    }
  }

  /** The registry's record of one key. */
  class Client {
    const limiter: Limiter
    var lastSeen: real

    constructor (l: Limiter, now: real)
      ensures limiter == l && lastSeen == now
    {
      limiter, lastSeen := l, now;
    }
  }

  class Registry {
    const config: Config
    var clients: map<string, Client>

    constructor (c: Config)
      ensures Valid() && config == c && Contents() == map[]
    {
      config, clients := c, map[];
    }

    function Limiters(): set<Limiter>
      reads this
    {
      set k | k in clients :: clients[k].limiter
    }

    /** No two keys share a record or a bucket. */
    ghost predicate Valid()
      reads this
    {
      ValidMap(clients)
    }

    ghost predicate ValidMap(m: map<string, Client>) {
      && (forall k :: k in m ==> m[k].limiter.config == config)
      && forall j, k :: j in m && k in m && j != k ==> m[j] != m[k] && m[j].limiter != m[k].limiter
    }

    function EntryOf(k: string): Entry
      requires k in clients
      reads this, clients.Values, Limiters()
    {
      Entry(clients[k].limiter.View(), clients[k].lastSeen)
    }

    function Contents(): Clients
      reads this, clients.Values, Limiters()
    {
      map k | k in clients :: EntryOf(k)
    }

    /** A key that has no record gets `c`, whose bucket no other key has. */
    method Remember(key: string, c: Client)
      requires Valid() && key !in clients && c.limiter.config == config
      requires c !in clients.Values && c.limiter !in Limiters()
      modifies this`clients
      ensures Valid() && clients == old(clients)[key := c]
      ensures Contents() == old(Contents())[key := Entry(c.limiter.View(), c.lastSeen)]
    {
      ghost var was := Contents();
      clients := clients[key := c];
      assert forall k :: k in clients && k != key ==> EntryOf(k) == was[k];
    }

    /** A key that has one is marked as seen. */
    method Touch(key: string, now: real)
      requires Valid() && key in clients
      modifies clients.Values`lastSeen
      ensures Valid()
      ensures Contents() == old(Contents())[key := Entry(old(Contents()[key].bucket), now)]
    {
      ghost var was := Contents();
      clients[key].lastSeen := now;
      assert forall k :: k in clients && k != key ==> EntryOf(k) == was[k];
    }

    /** The bucket of `key`, new and full if there is none; fetching it marks the key as seen. */
    method GetLimiter(key: string, now: real) returns (l: Limiter)
      requires Valid()
      modifies this`clients, clients.Values`lastSeen
      ensures Valid() && key in clients && clients[key].limiter == l
      ensures l in old(Limiters()) || fresh(l)
      ensures Contents() == old(Contents())[
                key := Entry(if old(key in clients) then old(Contents()[key].bucket) else Full(config, now), now)]
    {
      if key in clients {
        Touch(key, now);
        l := clients[key].limiter;
      } else {
        l := new Limiter(config, now);
        var c := new Client(l, now);
        Remember(key, c);
      }
    }

    /** limiter.Allow() on the bucket just fetched. */
    method Take(l: Limiter, ghost key: string, now: real) returns (ok: bool)
      requires Valid() && key in clients && clients[key].limiter == l
      modifies l
      ensures Valid()
      ensures var e := old(Contents())[key];
              var (b, granted) := Allow(config, e.bucket, now);
              ok == granted && Contents() == old(Contents())[key := Entry(b, e.lastSeen)]
    {
      ok := l.AllowNow(now);
    }

    /** Middleware, for a request that maps to `key`. */
    method Admit(key: string, now: real) returns (ok: bool)
      requires Valid()
      modifies this`clients, clients.Values`lastSeen, Limiters()
      ensures Valid() && (Contents(), ok) == Serve(config, old(Contents()), key, now)
    {
      ghost var was := Contents();
      var l := GetLimiter(key, now);
      ghost var seen := Contents();
      ok := Take(l, key, now);
      FetchThenTake(config, was, seen, Contents(), key, now, ok);
    }

    /** Row by row, what a tick of startCleanup leaves. */
    ghost predicate Keeps(was: map<string, Client>, todo: set<string>, now: real)
      reads this, was.Values
    {
      && clients.Keys <= was.Keys
      && forall k :: k in was ==>
           && (k in clients <==> k in todo || !(now - was[k].lastSeen > config.idle))
           && (k in clients ==> clients[k] == was[k])
    }

    /** What is left when nothing is to do has the contents it had, and is still valid. */
    lemma KeepsRecent(was: map<string, Client>, contents: Clients, now: real)
      requires Keeps(was, {}, now) && contents.Keys == was.Keys
      requires forall k :: k in was ==> contents[k] == Entry(was[k].limiter.View(), was[k].lastSeen)
      requires ValidMap(was)
      ensures Valid() && Contents() == Swept(config, contents, now)
    {
      assert forall k :: k in clients ==> EntryOf(k) == contents[k];
    }

    /** One tick of startCleanup: delete every key idle for longer than the timeout. */
    method Cleanup(now: real)
      requires Valid()
      modifies this`clients
      ensures Valid() && Contents() == Swept(config, old(Contents()), now)
      ensures forall k :: k in clients <==>
                k in old(clients) && now - old(Contents())[k].lastSeen <= config.idle
    {
      ghost var was, contents := clients, Contents();
      var todo := clients.Keys;
      while todo != {}
        invariant todo <= clients.Keys && Keeps(was, todo, now)
        decreases |todo|
      {
        var k :| k in todo;
        todo := todo - {k};
        if now - clients[k].lastSeen > config.idle {
          clients := clients - {k};
        }
      }
      KeepsRecent(was, contents, now);
    }
  }

  lemma FetchThenTake(c: Config, was: Clients, seen: Clients, taken: Clients, key: string, now: real, ok: bool)
    requires seen == was[key := Entry(if key in was then was[key].bucket else Full(c, now), now)]
    requires var (b, granted) := Allow(c, seen[key].bucket, now);
             ok == granted && taken == seen[key := Entry(b, now)]
    ensures (taken, ok) == Serve(c, was, key, now)
  {
    assert taken == was[key := taken[key]];
  }
}
