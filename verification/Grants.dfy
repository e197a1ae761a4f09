/**
 When the rate limiter grants a request, stated without its buckets: exactly when one more grant keeps
 within burst + rate * T in every stretch that ends now.
 */
module Grants {
  import opened Prelude
  import opened RateLimit

  /** The decision on request `k` of a trace. */
  function GrantedAt(c: Config, es: seq<Event>, k: nat, evict: bool): bool
    requires k < |es| && es[k].Request?
  {
    Serve(c, After(c, map[], es[..k], evict), es[k].key, es[k].at).1
  }

  lemma DecisionsSnoc(c: Config, pre: seq<Event>, e: Event, evict: bool)
    ensures var cs := After(c, map[], pre, evict);
            && Decisions(c, map[], pre + [e], evict) == Decisions(c, map[], pre, evict) + Output(c, cs, e)
            && After(c, map[], pre + [e], evict) == Next(c, cs, e, evict)
  {
    DecisionsConcat(c, map[], pre, [e], evict);
    assert [e][1..] == [];
  }

  /** It is the decision that the registry hands out after those on the events before. */
  lemma GrantedAtIsTheDecision(c: Config, es: seq<Event>, k: nat, evict: bool)
    requires k < |es| && es[k].Request?
    ensures Decisions(c, map[], es[..k + 1], evict)
            == Decisions(c, map[], es[..k], evict) + [Decision(es[k].key, GrantedAt(c, es, k, evict))]
  {
    DecisionsSnoc(c, es[..k], es[k], evict);
    assert es[..k] + [es[k]] == es[..k + 1];
  }

  // ---------------------------------------------------------------- the level is the least slack

  /** What could still be granted to `key` at `now` without passing the rate since event `i`. */
  function Slack(c: Config, es: seq<Event>, i: nat, key: string, now: real): real
    requires i < |es|
  {
    c.burst as real + Accrued(c, now) - Accrued(c, es[i].at) - GrantedIn(c, es, i, key, false) as real
  }

  lemma GrantedInSnoc(c: Config, pre: seq<Event>, e: Event, i: nat, key: string, evict: bool)
    requires i <= |pre|
    ensures GrantedIn(c, pre + [e], i, key, evict)
            == GrantedIn(c, pre, i, key, evict) + Count(Output(c, After(c, map[], pre, evict), e), Granted(key))
  {
    var cs := After(c, map[], pre[..i], evict);
    assert (pre + [e])[..i] == pre[..i] && (pre + [e])[i..] == pre[i..] + [e];
    DecisionsConcat(c, cs, pre[i..], [e], evict);
    assert [e][1..] == [];
    DecisionsConcat(c, map[], pre[..i], pre[i..], evict);
    assert pre[..i] + pre[i..] == pre;
    CountConcat(Decisions(c, cs, pre[i..], evict), Output(c, After(c, map[], pre, evict), e), Granted(key));
  }

  lemma Split(c: Config, es: seq<Event>, i: nat)
    requires c.rate >= 0.0 && Timed(es, 0.0) && i < |es|
    ensures 0.0 <= es[i].at && Timed(es[i..], es[i].at) && ClientsOk(c, After(c, map[], es[..i], false), es[i].at)
    ensures After(c, map[], es, false) == After(c, After(c, map[], es[..i], false), es[i..], false)
  {
    TimedPrefix(es, i, 0.0);
    TimedBefore(es, i, 0.0);
    KeptOk(c, map[], es[..i], 0.0, es[i].at, false);
    DecisionsConcat(c, map[], es[..i], es[i..], false);
    assert es[..i] + es[i..] == es;
  }

  lemma LevelAtMostSlack(c: Config, es: seq<Event>, i: nat, key: string, now: real)
    requires c.rate >= 0.0 && Timed(es, 0.0) && 0.0 <= now && i < |es|
    requires forall e :: e in es ==> e.at <= now
    ensures Level(c, After(c, map[], es, false), key, now) <= Slack(c, es, i, key, now)
  {
    var cs := After(c, map[], es[..i], false);
    Split(c, es, i);
    assert es[i] in es && forall e :: e in es[i..] ==> e in es;
    LevelInRange(c, cs, key, es[i].at);
    WindowBound(c, cs, es[i..], key, es[i].at, now);
  }

  /** The level of a key, if not a whole burst, is the slack since some event. */
  ghost predicate LevelFrom(c: Config, es: seq<Event>, key: string, now: real) {
    var level := Level(c, After(c, map[], es, false), key, now);
    level == c.burst as real || exists i :: 0 <= i < |es| && level == Slack(c, es, i, key, now)
  }

  lemma {:induction false} LevelIsSlack(c: Config, es: seq<Event>, key: string, now: real)
    requires c.rate >= 0.0 && Timed(es, 0.0) && 0.0 <= now
    requires forall e :: e in es ==> e.at <= now
    ensures LevelFrom(c, es, key, now)
    decreases |es|
  {
    if es != [] {
      var n := |es| - 1;
      var pre, e := es[..n], es[n];
      assert es == pre + [e] && e in es;
      TimedPrefix(es, n, 0.0);
      TimedBefore(es, n, 0.0);
      if About(key, e) && e.Request? {
        LevelIsSlack(c, pre, key, e.at);
        OwnRequest(c, pre, e, now);
      } else {
        LevelIsSlack(c, pre, key, now);
        OtherEvent(c, pre, e, key, now);
      }
    }
  }

  lemma TimedBefore(es: seq<Event>, k: nat, from: real)
    requires Timed(es, from) && k < |es|
    ensures from <= es[k].at && forall e :: e in es[..k] ==> from <= e.at <= es[k].at
    decreases es
  {
    if k > 0 {
      TimedBefore(es[1..], k - 1, es[0].at);
      assert es[..k] == [es[0]] + es[1..][..k - 1];
    }
  }

  lemma OtherEvent(c: Config, pre: seq<Event>, e: Event, key: string, now: real)
    requires e.Request? ==> e.key != key
    requires LevelFrom(c, pre, key, now)
    ensures LevelFrom(c, pre + [e], key, now)
  {
    DecisionsSnoc(c, pre, e, false);
    var level := Level(c, After(c, map[], pre, false), key, now);
    assert level == Level(c, After(c, map[], pre + [e], false), key, now);
    if level != c.burst as real {
      var i :| 0 <= i < |pre| && level == Slack(c, pre, i, key, now);
      GrantedInSnoc(c, pre, e, i, key, false);
      assert Slack(c, pre + [e], i, key, now) == level;
    }
  }

  /** A request of the key lowers the slack since every earlier event by what it is granted. */
  lemma SlackSnoc(c: Config, pre: seq<Event>, e: Event, i: nat, now: real)
    requires e.Request? && i <= |pre|
    ensures var spent := Count(Output(c, After(c, map[], pre, false), e), Granted(e.key)) as real;
            var back := Accrued(c, now) - Accrued(c, e.at);
            Slack(c, pre + [e], i, e.key, now)
            == (if i < |pre| then Slack(c, pre, i, e.key, e.at) else c.burst as real) - spent + back
  {
    GrantedInSnoc(c, pre, e, i, e.key, false);
    assert (pre + [e])[i] == if i < |pre| then pre[i] else e;
    if i == |pre| {
      assert pre[|pre|..] == [];
    }
  }

  lemma OwnRequest(c: Config, pre: seq<Event>, e: Event, now: real)
    requires c.rate >= 0.0 && e.Request? && 0.0 <= e.at <= now && Timed(pre, 0.0)
    requires forall x :: x in pre ==> x.at <= e.at
    requires LevelFrom(c, pre, e.key, e.at)
    ensures LevelFrom(c, pre + [e], e.key, now)
  {
    var cs := After(c, map[], pre, false);
    var level := Level(c, cs, e.key, e.at);
    KeptOk(c, map[], pre, 0.0, e.at, false);
    LevelInRange(c, cs, e.key, e.at);
    DecisionsSnoc(c, pre, e, false);
    LevelSpent(c, cs, e, now);
    if level == c.burst as real {
      SlackSnoc(c, pre, e, |pre|, now);
    } else {
      var i :| 0 <= i < |pre| && level == Slack(c, pre, i, e.key, e.at);
      SlackSnoc(c, pre, e, i, now);
    }
  }

  /** What a request leaves, and what has come back by `now`. */
  lemma LevelSpent(c: Config, cs: Clients, e: Event, now: real)
    requires e.Request? && 0.0 <= Level(c, cs, e.key, e.at)
    ensures var granted := Count(Output(c, cs, e), Granted(e.key));
            Level(c, Next(c, cs, e, false), e.key, now)
            == Min(c.burst as real, Level(c, cs, e.key, e.at) - granted as real + Accrued(c, now) - Accrued(c, e.at))
  {
    LevelAfterServe(c, cs, e.key, e.at);
    var d := Decision(e.key, Serve(c, cs, e.key, e.at).1);
    assert Output(c, cs, e) == [] + [d];
    CountAppend([], d, Granted(e.key));
  }

  // ---------------------------------------------------------------- main results

  /** One more grant at `now` keeps within burst + rate * T since event `i`. */
  ghost predicate Affords(c: Config, es: seq<Event>, i: nat, key: string, now: real, evict: bool)
    requires i < |es|
  {
    GrantedIn(c, es, i, key, evict) as real + 1.0 <= c.burst as real + c.rate * (now - es[i].at)
  }

  lemma AffordsIsSlack(c: Config, es: seq<Event>, i: nat, key: string, now: real)
    requires i < |es|
    ensures Affords(c, es, i, key, now, false) <==> Slack(c, es, i, key, now) >= 1.0
  {
    AccruedBetween(c, es[i].at, now);
  }

  lemma KeptGrantsExactlyWhen(c: Config, pre: seq<Event>, key: string, now: real)
    requires c.rate >= 0.0 && Timed(pre, 0.0) && 0.0 <= now
    requires forall e :: e in pre ==> e.at <= now
    ensures Serve(c, After(c, map[], pre, false), key, now).1 <==>
              c.burst >= 1 && forall i :: 0 <= i < |pre| ==> Affords(c, pre, i, key, now, false)
  {
    var cs := After(c, map[], pre, false);
    var level := Level(c, cs, key, now);
    KeptOk(c, map[], pre, 0.0, now, false);
    LevelInRange(c, cs, key, now);
    LevelAfterServe(c, cs, key, now);
    LevelIsSlack(c, pre, key, now);
    forall i | 0 <= i < |pre|
      ensures Affords(c, pre, i, key, now, false) <==> Slack(c, pre, i, key, now) >= 1.0
      ensures level <= Slack(c, pre, i, key, now)
    {
      AffordsIsSlack(c, pre, i, key, now);
      LevelAtMostSlack(c, pre, i, key, now);
    }
  }

  lemma SameGrants(c: Config, pre: seq<Event>, i: nat, key: string)
    requires c.rate >= 0.0 && c.rate * c.idle >= c.burst as real && Timed(pre, 0.0) && i < |pre|
    ensures GrantedIn(c, pre, i, key, true) == GrantedIn(c, pre, i, key, false)
  {
    Split(c, pre, i);
    TimedPrefix(pre, i, 0.0);
    TimedBefore(pre, i, 0.0);
    SameWindow(c, pre[..i], pre[i..], pre[i].at);
  }

  lemma SameDecision(c: Config, pre: seq<Event>, key: string, now: real)
    requires c.rate >= 0.0 && c.rate * c.idle >= c.burst as real && Timed(pre, 0.0) && 0.0 <= now
    requires forall e :: e in pre ==> e.at <= now
    ensures Serve(c, After(c, map[], pre, true), key, now).1 == Serve(c, After(c, map[], pre, false), key, now).1
  {
    var held, all := After(c, map[], pre, true), After(c, map[], pre, false);
    var end := RunMirrors(c, map[], map[], pre, 0.0);
    MirrorsLater(c, held, all, end, now);
    ServeMirrors(c, held, all, key, now);
  }

  /**
   A request is granted exactly when the burst is not zero and, since every event before it, its key has
   been granted little enough that one more keeps within burst + rate * T. With eviction this needs, as
   always, that a bucket has time to fill up before it may be swept.
   */
  lemma GrantedExactlyWhen(c: Config, es: seq<Event>, k: nat, evict: bool)
    requires c.rate >= 0.0 && (evict ==> c.rate * c.idle >= c.burst as real)
    requires Timed(es, 0.0) && k < |es| && es[k].Request?
    ensures GrantedAt(c, es, k, evict) <==>
              c.burst >= 1 && forall i :: 0 <= i < k ==> Affords(c, es[..k], i, es[k].key, es[k].at, evict)
  {
    TimedPrefix(es, k, 0.0);
    TimedBefore(es, k, 0.0);
    KeptGrantsExactlyWhen(c, es[..k], es[k].key, es[k].at);
    if evict {
      SameDecision(c, es[..k], es[k].key, es[k].at);
      forall i | 0 <= i < k
        ensures Affords(c, es[..k], i, es[k].key, es[k].at, true)
                <==> Affords(c, es[..k], i, es[k].key, es[k].at, false)
      {
        SameGrants(c, es[..k], i, es[k].key);
      }
    }
  }

  lemma LevelAfterVolley(c: Config, key: string, t: real, d: real)
    requires c.rate >= 0.0 && d >= 0.0
    ensures Level(c, After(c, map[], Volley(key, t, c.burst), false), key, t + d) == Min(c.burst as real, c.rate * d)
  {
    VolleyPasses(c, map[], key, t, c.burst, false);
    AccruedBetween(c, t, t + d);
    AccruedGrows(c, 0.0, d);
    if c.burst > 0 {
      var emptied := After(c, map[], Volley(key, t, c.burst), false);
      assert emptied[key].bucket == Bucket(0.0, t);
    }
  }

  /**
   After a volley has emptied a full bucket and a pause of `d`, another volley of `n` at once is granted in
   full exactly when it is no more than the burst and no more than rate * d.
   */
  lemma VolleyAfterPauseExactlyWhen(c: Config, key: string, t: real, d: real, n: nat)
    requires c.rate >= 0.0 && d >= 0.0
    ensures var emptied := After(c, map[], Volley(key, t, c.burst), false);
            Decision(key, false) !in Decisions(c, emptied, Volley(key, t + d, n), false)
            <==> n <= c.burst && n as real <= c.rate * d
  {
    LevelAfterVolley(c, key, t, d);
    AccruedGrows(c, 0.0, d);
    AllOrNotAll(c, After(c, map[], Volley(key, t, c.burst), false), key, t + d, n);
  }

  lemma AllOrNotAll(c: Config, cs: Clients, key: string, now: real, n: nat)
    requires 0.0 <= Level(c, cs, key, now) <= c.burst as real
    ensures Decision(key, false) !in Decisions(c, cs, Volley(key, now, n), false)
            <==> n as real <= Level(c, cs, key, now)
  {
    if n as real <= Level(c, cs, key, now) {
      VolleyPasses(c, cs, key, now, n, false);
    } else {
      VolleyHits(c, cs, key, now, n, false);
    }
  }

  // ---------------------------------------------------------------- waiting is rewarded

  lemma {:induction false} UntouchedEntry(c: Config, cs: Clients, es: seq<Event>, key: string, evict: bool)
    requires forall e :: e in es && e.Request? ==> e.key != key
    ensures var cs' := After(c, cs, es, evict); key in cs' ==> key in cs && cs'[key] == cs[key]
    decreases es
  {
    if es != [] {
      assert es[0] in es;
      UntouchedEntry(c, Next(c, cs, es[0], evict), es[1..], key, evict);
    }
  }

  /** A key that has no bucket finds a full one. */
  lemma FirstRequestIsGranted(c: Config, cs: Clients, key: string, now: real)
    requires c.burst >= 1 && key !in cs
    ensures Serve(c, cs, key, now).1
  {
    RefillAtOnce(c, c.burst as real, now);
  }

  lemma WaitedLongEnough(c: Config, cs: Clients, key: string, now: real)
    requires c.burst >= 1 && key in cs && cs[key].bucket.tokens >= 0.0 && c.rate * (now - cs[key].bucket.last) >= 1.0
    ensures Serve(c, cs, key, now).1
  {
    var b := cs[key].bucket;
    AccruedBetween(c, b.last, now);
    assert b.tokens + (Accrued(c, now) - Accrued(c, b.last)) >= 1.0;
    assert Refill(c, b, now) >= 1.0;
  }

  lemma AfterOthers(c: Config, es: seq<Event>, j: nat, k: nat, key: string, evict: bool)
    requires j <= k <= |es|
    requires forall i :: j <= i < k && es[i].Request? ==> es[i].key != key
    ensures var cs, cs' := After(c, map[], es[..j], evict), After(c, map[], es[..k], evict);
            key in cs' ==> key in cs && cs'[key] == cs[key]
  {
    assert es[..k] == es[..j] + es[j..k];
    DecisionsConcat(c, map[], es[..j], es[j..k], evict);
    UntouchedEntry(c, After(c, map[], es[..j], evict), es[j..k], key, evict);
  }

  /**
   A request that comes at least 1/rate after the last one of its key, or is its first, is granted, in any
   timed trace and wherever sweeps fall: no client that waits is turned away.
   */
  lemma WaitingIsRewarded(c: Config, es: seq<Event>, j: nat, k: nat, evict: bool)
    requires c.rate >= 0.0 && c.burst >= 1 && Timed(es, 0.0) && j <= k < |es| && es[k].Request?
    requires j > 0 ==>
               && es[j - 1].Request? && es[j - 1].key == es[k].key && c.rate * (es[k].at - es[j - 1].at) >= 1.0
    requires forall i :: j <= i < k && es[i].Request? ==> es[i].key != es[k].key
    ensures GrantedAt(c, es, k, evict)
  {
    var cs := After(c, map[], es[..k], evict);
    AfterOthers(c, es, j, k, es[k].key, evict);
    assert es[..0] == [];
    if j == 0 || es[k].key !in cs {
      FirstRequestIsGranted(c, cs, es[k].key, es[k].at);
    } else {
      LastRequest(c, es, j, evict);
      WaitedLongEnough(c, cs, es[k].key, es[k].at);
    }
  }

  /** The bucket after a request was last read at that request, and is not overdrawn. */
  lemma LastRequest(c: Config, es: seq<Event>, j: nat, evict: bool)
    requires c.rate >= 0.0 && Timed(es, 0.0) && 0 < j <= |es| && es[j - 1].Request?
    ensures var cs := After(c, map[], es[..j], evict);
            && es[j - 1].key in cs && cs[es[j - 1].key].bucket.last == es[j - 1].at
            && 0.0 <= cs[es[j - 1].key].bucket.tokens <= c.burst as real
  {
    var pre, e := es[..j - 1], es[j - 1];
    assert es[..j] == pre + [e];
    TimedPrefix(es, j - 1, 0.0);
    TimedBefore(es, j - 1, 0.0);
    KeptOk(c, map[], pre, 0.0, e.at, evict);
    DecisionsSnoc(c, pre, e, evict);
    ClientsOkNext(c, After(c, map[], pre, evict), e, e.at, evict);
    assert EntryOk(c, After(c, map[], es[..j], evict)[e.key], e.at);
  }
}
