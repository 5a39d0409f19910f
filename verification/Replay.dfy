/** The nonce cache shared by handshakes and endpoint updates, and how long a signed endpoint
    update can be replayed against it. */
module Replay {
  import opened Clock

  type Seen = map<string, real>

  // ---- the cache ------------------------------------------------------------------

  function Unexpired(seen: Seen, now: real, ttl: real): Seen {
    map k | k in seen && now - seen[k] <= ttl :: seen[k]
  }

  function AddNonce(seen: Seen, nonce: string, now: real, ttl: real): (r: (Seen, bool)) {
    var kept := Unexpired(seen, now, ttl);
    if nonce in kept then (kept, false) else (kept[nonce := now], true)
  }

  class NonceCache {
    const ttl: real
    var seen: Seen

    constructor (ttl: real)
      ensures seen == map[] && this.ttl == ttl
    {
      this.ttl, seen := ttl, map[];
    }

    /** True if the nonce is fresh, that is, not held unexpired; it is then held from now on. */
    method CheckAndAdd(nonce: string, now: real) returns (ok: bool)
      modifies this
      ensures (seen, ok) == AddNonce(old(seen), nonce, now, ttl)
    {
      var expired := set k | k in seen && now - seen[k] > ttl;
      var todo := expired;
      while todo != {}
        invariant todo <= expired
        invariant seen == old(seen) - (expired - todo)
        decreases |todo|
      {
        var k :| k in todo;
        seen := seen - {k};
        todo := todo - {k};
      }
      assert seen == Unexpired(old(seen), now, ttl);
      if nonce in seen {
        return false;
      }
      seen := seen[nonce := now];
      return true;
    }
  }

  // ---- runs over one cache ------------------------------------------------------------

  datatype Update = Update(nonce: string, timestamp: Stamp, fields: string)

  datatype Config = Config(ttl: real, maxAge: real)

  /** A handshake offering a peer's nonce, or verify_endpoint_update with the result of the
      signature check and the two clock readings it takes, one for the age and one in the
      cache. */
  datatype Event = Hello(nonce: string, now: real) | Verify(u: Update, signed: bool, ageRead: real, cacheRead: real)

  function Begin(e: Event): real { if e.Hello? then e.now else e.ageRead }
  function End(e: Event): real { if e.Hello? then e.now else e.cacheRead }
  function NonceOf(e: Event): string { if e.Hello? then e.nonce else e.u.nonce }

  predicate ReachesCache(c: Config, e: Event) {
    e.Verify? ==> e.signed && !FurtherThan(e.ageRead, e.u.timestamp, c.maxAge)
  }

  function Step(c: Config, seen: Seen, e: Event): (Seen, bool) {
    if ReachesCache(c, e) then AddNonce(seen, NonceOf(e), End(e), c.ttl) else (seen, false)
  }

  function Run(c: Config, events: seq<Event>): Seen {
    if events == [] then map[] else Step(c, Run(c, events[..|events| - 1]), events[|events| - 1]).0
  }

  predicate Accepts(c: Config, events: seq<Event>, i: nat)
    requires i < |events|
  {
    Step(c, Run(c, events[..i]), events[i]).1
  }

  /** What it takes to be accepted: an update must be signed by its owner and be dated within the
      maximum age of the first reading, either way, or NaN; and its nonce must not have been
      accepted within the lifetime before the second. */
  lemma AcceptedMeans(c: Config, events: seq<Event>, i: nat)
    requires i < |events| && events[i].Verify? && Accepts(c, events, i)
    ensures var e, seen := events[i], Run(c, events[..i]);
            && e.signed
            && (e.u.timestamp == NotANumber
                || (e.u.timestamp.At? && e.ageRead - c.maxAge <= e.u.timestamp.time <= e.ageRead + c.maxAge))
            && (e.u.nonce in seen ==> e.cacheRead - seen[e.u.nonce] > c.ttl)
  {
  }

  /** The clock never goes back, and the two readings of one call are at most `lag` apart. */
  predicate Clocked(events: seq<Event>, lag: real) {
    && (forall i :: 0 <= i < |events| ==> Begin(events[i]) <= End(events[i]) <= Begin(events[i]) + lag)
    && (forall i, j :: 0 <= i < j < |events| ==> End(events[i]) <= Begin(events[j]))
  }

  /** An accepted nonce is remembered until more than the lifetime has passed. */
  lemma {:induction false} AcceptedIsRemembered(c: Config, events: seq<Event>, lag: real, i: nat)
    requires Clocked(events, lag) && i < |events| && Accepts(c, events, i)
    ensures var seen := Run(c, events);
            || (NonceOf(events[i]) in seen && seen[NonceOf(events[i])] >= End(events[i]))
            || End(events[|events| - 1]) - End(events[i]) > c.ttl
    decreases |events|
  {
    var last := |events| - 1;
    if i < last {
      var before := events[..last];
      assert before[..i] == events[..i];
      AcceptedIsRemembered(c, before, lag, i);
      assert End(before[last - 1]) <= Begin(events[last]);
    } else {
      assert events[..i] == events[..last];
    }
  }

  /** Two acceptances of one nonce, by handshakes or updates, lie more than the lifetime
      apart. */
  lemma AcceptancesAreFarApart(c: Config, events: seq<Event>, lag: real, i: nat, j: nat)
    requires Clocked(events, lag) && i < j < |events| && NonceOf(events[i]) == NonceOf(events[j])
    requires Accepts(c, events, i) && Accepts(c, events, j)
    ensures End(events[j]) - End(events[i]) > c.ttl
  {
    var before := events[..j];
    assert before[..i] == events[..i];
    AcceptedIsRemembered(c, before, lag, i);
    assert End(before[j - 1]) <= Begin(events[j]);
  }

  /** When an update accepted at `first` can be accepted once more by some later call: it must
      still be young enough after `first`, and the lifetime must run out before its age does.
      NaN has no age. */
  predicate Replayable(c: Config, u: Update, first: real, lag: real) {
    match u.timestamp
    case At(time) => time + c.maxAge >= first && time + c.maxAge + lag > first + c.ttl
    case Infinite(_) => false
    case NotANumber => true
  }

  lemma SecondAcceptanceNeedsReplayable(c: Config, events: seq<Event>, lag: real, i: nat, j: nat)
    requires Clocked(events, lag) && i < j < |events| && events[i].Verify? && events[j].Verify?
    requires events[i].u == events[j].u && Accepts(c, events, i) && Accepts(c, events, j)
    ensures Replayable(c, events[i].u, End(events[i]), lag)
  {
    AcceptancesAreFarApart(c, events, lag, i, j);
    assert End(events[i]) <= Begin(events[j]);
  }

  lemma ReplayableIsReplayed(c: Config, events: seq<Event>, lag: real)
    requires c.ttl >= 0.0 && c.maxAge >= 0.0 && lag >= 0.0
    requires events != [] && Clocked(events, lag) && events[|events| - 1].Verify?
    requires Replayable(c, events[|events| - 1].u, End(events[|events| - 1]), lag)
    ensures Replays(c, events, [Again(c, events[|events| - 1].u, End(events[|events| - 1]), lag)], lag)
  {
    var n := |events|;
    var last := events[n - 1];
    var again := Again(c, last.u, End(last), lag);
    var all := events + [again];
    assert all[..n] == events;
    forall i | 0 <= i < n ensures End(all[i]) <= Begin(again) {
      assert all[i] == events[i];
      assert i < n - 1 ==> End(events[i]) <= Begin(last);
    }
    assert Clocked(all, lag);
    SeenIsOld(c, events, lag);
  }

  /** The latest call that still finds the update young enough, read as slowly as allowed; for
      NaN any call after the lifetime. */
  function Again(c: Config, u: Update, first: real, lag: real): Event {
    var at := if u.timestamp.At? then u.timestamp.time + c.maxAge else first + c.ttl + 1.0;
    Verify(u, true, at, at + lag)
  }

  /** Exactly when a second acceptance is possible: some continuation of the run accepts the
      update again if and only if it is Replayable. */
  lemma ReplayIff(c: Config, events: seq<Event>, lag: real)
    requires c.ttl >= 0.0 && c.maxAge >= 0.0 && lag >= 0.0
    requires events != [] && Clocked(events, lag) && events[|events| - 1].Verify? && Accepts(c, events, |events| - 1)
    ensures var last := events[|events| - 1];
            Replayable(c, last.u, End(last), lag) <==>
            exists more :: more != [] && Replays(c, events, more, lag)
  {
    var n := |events|;
    var last := events[n - 1];
    if Replayable(c, last.u, End(last), lag) {
      ReplayableIsReplayed(c, events, lag);
    }
    forall more | more != [] && Replays(c, events, more, lag) ensures Replayable(c, last.u, End(last), lag) {
      var all := events + more;
      assert all[..n - 1] == events[..n - 1] && all[n - 1] == last;
      SecondAcceptanceNeedsReplayable(c, all, lag, n - 1, |all| - 1);
    }
  }

  /** The continuation `more` ends by accepting the update that `events` ended by accepting. */
  predicate Replays(c: Config, events: seq<Event>, more: seq<Event>, lag: real)
    requires events != [] && events[|events| - 1].Verify? && more != []
  {
    var all := events + more;
    && Clocked(all, lag) && all[|all| - 1].Verify? && all[|all| - 1].u == events[|events| - 1].u
    && Accepts(c, all, |all| - 1)
  }

  /** Nothing in the cache is newer than the last call. */
  lemma {:induction false} SeenIsOld(c: Config, events: seq<Event>, lag: real)
    requires events != [] && Clocked(events, lag)
    ensures forall k :: k in Run(c, events) ==> Run(c, events)[k] <= End(events[|events| - 1])
    decreases |events|
  {
    var last := |events| - 1;
    if last > 0 {
      SeenIsOld(c, events[..last], lag);
      assert End(events[last - 1]) <= Begin(events[last]);
    } else {
      assert events[..last] == [];
    }
  }

  /** With a lifetime of at least the maximum age and both readings the same, an update dated
      no later than its first acceptance is accepted at most once in any run. */
  lemma AcceptedAtMostOnce(c: Config, events: seq<Event>, i: nat, j: nat)
    requires c.ttl >= c.maxAge && Clocked(events, 0.0) && i < j < |events|
    requires events[i].Verify? && events[j].Verify? && events[i].u == events[j].u
    requires events[i].u.timestamp.At? && events[i].u.timestamp.time <= End(events[i]) && Accepts(c, events, i)
    ensures !Accepts(c, events, j)
  {
    if Accepts(c, events, j) {
      SecondAcceptanceNeedsReplayable(c, events, 0.0, i, j);
      assert false;
    }
  }

  const DEFAULT := Config(300.0, 300.0)

  /** A future-dated update is accepted twice under the default settings. */
  lemma FutureDatedUpdateReplays(fields: string)
    ensures var u := Update("n", At(200.0), fields);
            var events := [Verify(u, true, 0.0, 0.0), Verify(u, true, 400.0, 400.0)];
            Clocked(events, 0.0) && Accepts(DEFAULT, events, 0) && Accepts(DEFAULT, events, 1)
  {
    var u := Update("n", At(200.0), fields);
    var events := [Verify(u, true, 0.0, 0.0), Verify(u, true, 400.0, 400.0)];
    assert events[..0] == [] && events[..1] == [events[0]] && events[..1][..0] == [];
    assert Run(DEFAULT, events[..1]) == map["n" := 0.0];
  }

  /** So is one dated at its first acceptance, if the two clock readings of the second call
      are apart. */
  lemma ClockLagReplays(fields: string)
    ensures var u := Update("n", At(0.0), fields);
            var events := [Verify(u, true, 0.0, 0.0), Verify(u, true, 300.0, 301.0)];
            Clocked(events, 1.0) && Accepts(DEFAULT, events, 0) && Accepts(DEFAULT, events, 1)
  {
    var u := Update("n", At(0.0), fields);
    var events := [Verify(u, true, 0.0, 0.0), Verify(u, true, 300.0, 301.0)];
    assert events[..0] == [] && events[..1] == [events[0]] && events[..1][..0] == [];
    assert Run(DEFAULT, events[..1]) == map["n" := 0.0];
  }

  /** An update dated NaN is accepted again and again, each time its nonce has expired: here
      `n` times, at intervals of more than the lifetime. */
  lemma {:induction false} NaNUpdateReplaysForEver(fields: string, n: nat)
    ensures var events := seq(n, i => NaNCall(fields, i));
            && Clocked(events, 0.0)
            && (forall i :: 0 <= i < n ==> Accepts(DEFAULT, events, i))
            && Run(DEFAULT, events) == if n == 0 then map[] else map["n" := End(NaNCall(fields, n - 1))]
  {
    if n > 0 {
      var front, events := seq(n - 1, i => NaNCall(fields, i)), seq(n, i => NaNCall(fields, i));
      assert events[..n - 1] == front;
      NaNUpdateReplaysForEver(fields, n - 1);
      assert Step(DEFAULT, Run(DEFAULT, front), NaNCall(fields, n - 1)) == (map["n" := 301.0 * (n - 1) as real], true);
      forall i | 0 <= i < n ensures Accepts(DEFAULT, events, i) {
        assert events[..i] == if i < n - 1 then front[..i] else front;
        assert i < n - 1 ==> Accepts(DEFAULT, front, i);
      }
    }
  }

  /** The i-th call, 301 seconds after the one before. */
  function NaNCall(fields: string, i: int): Event {
    Verify(Update("n", NotANumber, fields), true, 301.0 * i as real, 301.0 * i as real)
  }

  /** verify_endpoint_update over the caller's cache. */
  method VerifyEndpointUpdate(cache: NonceCache, u: Update, signed: bool, ageRead: real, cacheRead: real, maxAge: real)
    returns (ok: bool)
    modifies cache
    ensures (cache.seen, ok) == Step(Config(cache.ttl, maxAge), old(cache.seen), Verify(u, signed, ageRead, cacheRead))
    ensures !signed || FurtherThan(ageRead, u.timestamp, maxAge) ==> !ok && cache.seen == old(cache.seen)
  {
    if !signed {
      return false;
    }
    match u.timestamp {
      case At(time) =>
        var age := if ageRead >= time then ageRead - time else time - ageRead;
        if age > maxAge {
          return false;
        }
      case Infinite(_) => return false;
      case NotANumber =>
    }
    ok := cache.CheckAndAdd(u.nonce, cacheRead);
  }
}
