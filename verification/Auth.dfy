/**
 Admission checks of internal/auth/verifier.go and the parser of internal/payments/parser.go.

 SHA-256, HMAC, hexadecimal, JSON decoding and RFC 3339 parsing are functions of an `Env` about which
 nothing is assumed. Instants are nanoseconds on one unbounded axis; a Go Duration is an int64.
 */
module Auth {
  import opened Prelude
  import opened Storage

  datatype Payload = Payload(
    transactionID: string, externalID: string, amount: string, currency: string, status: string,
    payerPartyID: string, timestamp: string)

  datatype Env = Env(
    secret: bytes,
    decode: bytes -> Option<Payload>,
    hmacHex: (bytes, bytes) -> string,
    sha256Hex: string -> string,
    parseRFC3339: string -> Option<int>,
    /** the amounts that a NUMERIC(20, 2) column takes */
    numeric: string -> bool,
    /** WEBHOOK_MAX_CLOCK_SKEW_SECONDS, when it is set and parses as an int64 */
    maxSkew: Option<int>,
    /** true in the program; false asks what a verifier that ignores the answer of Exists would do */
    heedReplay: bool)

  const SECOND: int := 1_000_000_000

  /** The largest skew whose Duration, in nanoseconds, still fits an int64. */
  const MAX_SAFE_SKEW: int := 9_223_372_036

  function Abs(x: int): nat {
    if x < 0 then -x else x
  }

  /** time.Time.Sub saturates instead of wrapping. */
  function Sub(t: int, u: int): (d: int)
    ensures -TWO_63 <= d < TWO_63
  {
    if t - u >= TWO_63 then TWO_63 - 1 else if t - u < -TWO_63 then -TWO_63 else t - u
  }

  /** No Duration is nearer to the true difference. */
  lemma SubIsNearest(t: int, u: int, d: int)
    requires -TWO_63 <= d < TWO_63
    ensures Abs(Sub(t, u) - (t - u)) <= Abs(d - (t - u))
    ensures d == t - u ==> Sub(t, u) == d
  {
  }

  function SkewSeconds(maxSkew: Option<int>): int {
    match maxSkew
    case Some(n) => if n >= 0 then n else 300
    case None => 300
  }

  /** The comparison CheckTimestamp ends with, in int64 arithmetic. */
  predicate WithinSkew64(now: int, ts: int, skewSec: int) {
    var delta := Sub(now, ts);
    (if delta < 0 then Wrap64(-delta) else delta) <= Wrap64(skewSec * SECOND)
  }

  /** What the check is for. */
  predicate WithinSkew(now: int, ts: int, skewSec: int) {
    -skewSec * 1_000_000_000 <= now - ts <= skewSec * 1_000_000_000
  }

  function Timestamp(env: Env, text: string): Option<int> {
    if text == "" then None else env.parseRFC3339(text)
  }

  predicate TimestampOk(env: Env, text: string, now: int) {
    match Timestamp(env, text)
    case None => false
    case Some(ts) => WithinSkew64(now, ts, SkewSeconds(env.maxSkew))
  }

  method CheckTimestamp(env: Env, text: string, now: int) returns (ok: bool)
    ensures ok == TimestampOk(env, text, now)
    ensures ok ==> text != "" && env.parseRFC3339(text).Some?
    ensures text != "" && env.parseRFC3339(text).Some? ==>
              var skew := if env.maxSkew.Some? && env.maxSkew.value >= 0 then env.maxSkew.value else 300;
              ok == WithinSkew64(now, env.parseRFC3339(text).value, skew)
  {
    if text == "" {
      return false;
    }
    var parsed := env.parseRFC3339(text);
    if parsed.None? {
      return false;
    }
    var skewSec := 300;
    if env.maxSkew.Some? && env.maxSkew.value >= 0 {
      skewSec := env.maxSkew.value;
    }
    var delta := Sub(now, parsed.value);
    if delta < 0 {
      delta := Wrap64(-delta);
    }
    if delta > Wrap64(skewSec * SECOND) {
      return false;
    }
    return true;
  }

  /**
   With a skew that fits a Duration, the check is right for a payload exactly when the payload is not
   2^63 ns or more ahead of the clock; every payload that far ahead is let in.
   */
  lemma TimestampCheckIsExact(now: int, ts: int, skewSec: nat)
    requires skewSec <= MAX_SAFE_SKEW
    ensures (WithinSkew64(now, ts, skewSec) == WithinSkew(now, ts, skewSec)) <==> ts - now < TWO_63
    ensures ts - now >= TWO_63 ==> WithinSkew64(now, ts, skewSec)
  {
    assert 0 <= skewSec * SECOND < TWO_63 - 1;
    assert Wrap64(skewSec * SECOND) == skewSec * SECOND;
    if ts - now >= TWO_63 {
      assert Sub(now, ts) == -TWO_63;
      assert Wrap64(TWO_63) == -TWO_63;
    }
  }

  /** Below the saturation point the check is right for every payload exactly when the skew fits a Duration. */
  lemma SkewMustFitADuration(skewSec: nat)
    requires skewSec < TWO_63
    ensures skewSec <= MAX_SAFE_SKEW <==>
              forall now, ts :: ts - now < TWO_63 ==> WithinSkew64(now, ts, skewSec) == WithinSkew(now, ts, skewSec)
  {
    if skewSec <= MAX_SAFE_SKEW {
      forall now, ts | ts - now < TWO_63
        ensures WithinSkew64(now, ts, skewSec) == WithinSkew(now, ts, skewSec)
      {
        TimestampCheckIsExact(now, ts, skewSec);
      }
    } else {
      assert WithinSkew(0, 1 - TWO_63, skewSec);
      assert Sub(0, 1 - TWO_63) == TWO_63 - 1;
      WrappedProductIsEven(skewSec);
      assert !WithinSkew64(0, 1 - TWO_63, skewSec);
    }
  }

  lemma WrappedProductIsEven(skewSec: int)
    ensures Wrap64(skewSec * SECOND) % 2 == 0
    ensures Wrap64(skewSec * SECOND) < TWO_63 - 1
  {
    var x := skewSec * SECOND + TWO_63;
    var q := x / TWO_64;
    assert x == q * TWO_64 + x % TWO_64;
    assert Wrap64(skewSec * SECOND) == 2 * (skewSec * 500_000_000 - q * TWO_63);
  }

  datatype AuthError =
    Pass | MissingSignature | InvalidSignature | MissingProviderTxID | ReplayFailure | Replay

  function VerifySpec(env: Env, db: Tables, body: bytes, signature: string, providerTxID: string, fault: bool)
    : AuthError
  {
    if signature == "" then MissingSignature
    else if env.hmacHex(env.secret, body) != signature then InvalidSignature
    else if providerTxID == "" then MissingProviderTxID
    else if fault then ReplayFailure
    else if env.heedReplay && db.Exists(providerTxID) then Replay
    else Pass
  }

  method VerifySignature(env: Env, body: bytes, signature: string) returns (e: AuthError)
    ensures e == if signature == "" then MissingSignature
                 else if env.hmacHex(env.secret, body) != signature then InvalidSignature else Pass
  {
    if signature == "" {
      return MissingSignature;
    }
    var expected := env.hmacHex(env.secret, body);
    if expected != signature {
      return InvalidSignature;
    }
    return Pass;
  }

  method CheckReplay(env: Env, seen: Store, providerTxID: string, fault: bool) returns (e: AuthError)
    ensures e == MissingProviderTxID <==> providerTxID == ""
    ensures e == ReplayFailure <==> providerTxID != "" && fault
    ensures e == Replay <==>
              && providerTxID != "" && !fault && env.heedReplay
              && exists t :: t in seen.transactions && t.providerTxID == providerTxID
    ensures e == Pass <==>
              && providerTxID != "" && !fault
              && (env.heedReplay ==> forall t :: t in seen.transactions ==> t.providerTxID != providerTxID)
  {
    if providerTxID == "" {
      return MissingProviderTxID;
    }
    var exists' := seen.Exists(providerTxID, fault);
    match exists' {
      case Err => e := ReplayFailure;
      case Ok(found) => e := if env.heedReplay && found then Replay else Pass;
    }
  }

  method Verify(env: Env, seen: Store, body: bytes, signature: string, providerTxID: string, fault: bool)
    returns (e: AuthError)
    ensures e == VerifySpec(env, seen.View(), body, signature, providerTxID, fault)
    ensures e == MissingSignature <==> signature == ""
    ensures e == InvalidSignature <==> signature != "" && env.hmacHex(env.secret, body) != signature
    ensures var signed := signature != "" && env.hmacHex(env.secret, body) == signature;
            && (e == MissingProviderTxID <==> signed && providerTxID == "")
            && (e == ReplayFailure <==> signed && providerTxID != "" && fault)
            && (e == Replay <==>
                  && signed && providerTxID != "" && !fault && env.heedReplay
                  && exists t :: t in seen.transactions && t.providerTxID == providerTxID)
            && (e == Pass <==>
                  && signed && providerTxID != "" && !fault
                  && (env.heedReplay ==> forall t :: t in seen.transactions ==> t.providerTxID != providerTxID))
  {
    e := VerifySignature(env, body, signature);
    if e == Pass {
      e := CheckReplay(env, seen, providerTxID, fault);
    }
  }

  /** FromWebhook: required fields, then the internal record, whose id is left at zero. */
  function FromWebhook(env: Env, p: Payload, raw: bytes): Result<Transaction> {
    if p.transactionID == "" || p.externalID == "" || p.amount == "" || env.parseRFC3339(p.timestamp).None? then Err
    else Ok(Transaction(0, 0, p.transactionID, p.externalID, p.amount, p.currency, p.status,
                        env.sha256Hex(p.payerPartyID), raw, env.parseRFC3339(p.timestamp).value))
  }

  /** `tx` carries the fields of payload `p`, the payer hashed, and the body it came in. */
  ghost predicate Carries(env: Env, p: Payload, body: bytes, tx: Transaction) {
    && tx.providerTxID == p.transactionID && tx.externalID == p.externalID
    && tx.amount == p.amount && tx.currency == p.currency && tx.status == p.status
    && tx.payerMSISDN == env.sha256Hex(p.payerPartyID) && tx.rawPayload == body
    && env.parseRFC3339(p.timestamp) == Some(tx.receivedAt)
  }

  /**
   The parser accepts a payload exactly when its ids and its amount are there and its timestamp parses, and
   then makes of it the transaction that carries it, with no row id and no merchant yet.
   */
  lemma FromWebhookExactlyWhen(env: Env, p: Payload, raw: bytes, tx: Transaction)
    ensures FromWebhook(env, p, raw) == Ok(tx) <==>
              && p.transactionID != "" && p.externalID != "" && p.amount != ""
              && Carries(env, p, raw, tx) && tx.id == 0 && tx.merchantID == 0
    ensures FromWebhook(env, p, raw).Err? <==>
              || p.transactionID == "" || p.externalID == "" || p.amount == ""
              || env.parseRFC3339(p.timestamp).None?
  {
  }
}
