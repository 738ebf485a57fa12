/**
 * The in-memory limiter of order lookups. It keeps only the recent times of each order number, yet with a clock
 * that does not go back it decides exactly as the complete history of accepted lookups would.
 */
module TrackLimiter {
  import opened OrderModel

  const WINDOW_MS: nat := 60_000
  const MAX_ATTEMPTS: nat := 3

  function Recent(times: seq<nat>, now: nat): seq<nat> {
    if times == [] then []
    else Recent(times[..|times| - 1], now)
         + if now - times[|times| - 1] < WINDOW_MS then [times[|times| - 1]] else []
  }

  ghost predicate Ascending(times: seq<nat>) {
    forall i, j :: 0 <= i < j < |times| ==> times[i] <= times[j]
  }

  /** The rule on a complete history of accepted lookups. */
  predicate Admits(history: seq<nat>, now: nat) {
    |Recent(history, now)| < MAX_ATTEMPTS
  }

  lemma {:induction false} RecentConcat(a: seq<nat>, b: seq<nat>, now: nat)
    ensures Recent(a + b, now) == Recent(a, now) + Recent(b, now)
  {
    if b == [] {
      assert a + b == a;
    } else {
      assert (a + b)[..|a + b| - 1] == a + b[..|b| - 1];
      RecentConcat(a, b[..|b| - 1], now);
    }
  }

  /** Pruning earlier never changes what is recent later. */
  lemma {:induction false} RecentTwice(times: seq<nat>, earlier: nat, now: nat)
    requires earlier <= now
    ensures Recent(Recent(times, earlier), now) == Recent(times, now)
  {
    if times != [] {
      var init, t := times[..|times| - 1], times[|times| - 1];
      RecentTwice(init, earlier, now);
      RecentConcat(Recent(init, earlier), if earlier - t < WINDOW_MS then [t] else [], now);
      assert [t][..0] == [];
    }
  }

  /** Any four consecutive accepted lookups span the whole window. */
  ghost predicate Spaced(history: seq<nat>) {
    forall i :: 0 <= i && i + 3 < |history| ==> history[i + 3] - history[i] >= WINDOW_MS
  }

  lemma FourthIsLate(history: seq<nat>, now: nat)
    requires Ascending(history) && Admits(history, now) && |history| >= 3
    ensures now - history[|history| - 3] >= WINDOW_MS
  {
    var n := |history|;
    if now - history[n - 3] < WINDOW_MS {
      var tail := [history[n - 3], history[n - 2], history[n - 1]];
      assert history == history[..n - 3] + tail;
      RecentConcat(history[..n - 3], tail, now);
      AllRecent(tail, now);
      assert false;
    }
  }

  /** In numbers: a lookup goes through exactly when fewer than three were accepted, or the third last a minute ago. */
  lemma AdmitsInNumbers(history: seq<nat>, now: nat)
    requires Ascending(history) && forall t :: t in history ==> t <= now
    ensures Admits(history, now) <==> |history| < 3 || now - history[|history| - 3] >= 60_000
  {
    var n := |history|;
    if n < 3 {
      RecentIsShorter(history, now);
    } else if now - history[n - 3] >= WINDOW_MS {
      var old', last := history[..n - 2], history[n - 2..];
      assert history == old' + last;
      RecentConcat(old', last, now);
      forall i | 0 <= i < |old'| ensures now - old'[i] >= WINDOW_MS { assert history[i] <= history[n - 3]; }
      NoneRecent(old', now);
      RecentIsShorter(last, now);
    } else if Admits(history, now) {
      FourthIsLate(history, now);
    }
  }

  lemma {:induction false} RecentIsShorter(times: seq<nat>, now: nat)
    ensures |Recent(times, now)| <= |times|
  {
    if times != [] { RecentIsShorter(times[..|times| - 1], now); }
  }

  lemma {:induction false} NoneRecent(times: seq<nat>, now: nat)
    requires forall i :: 0 <= i < |times| ==> now - times[i] >= WINDOW_MS
    ensures Recent(times, now) == []
  {
    if times != [] { NoneRecent(times[..|times| - 1], now); }
  }

  lemma SpacedOn(history: seq<nat>, now: nat)
    requires Ascending(history) && Spaced(history) && Admits(history, now)
    requires forall t :: t in history ==> t <= now
    ensures Spaced(history + [now]) && Ascending(history + [now])
  {
    var n, longer := |history|, history + [now];
    if n >= 3 { FourthIsLate(history, now); }
    forall i, j | 0 <= i < j < |longer| ensures longer[i] <= longer[j] {
      assert history[i] in history;
    }
  }

  lemma {:induction false} AllRecent(times: seq<nat>, now: nat)
    requires forall t :: t in times ==> now - t < WINDOW_MS
    ensures Recent(times, now) == times
  {
    if times != [] {
      var init, last := times[..|times| - 1], times[|times| - 1];
      assert times == init + [last];
      assert last in times && forall t :: t in init ==> t in times;
      AllRecent(init, now);
    }
  }

  /** On any accepted history of the rule, the rule itself keeps four consecutive lookups a window apart. */
  ghost predicate AcceptedByRule(history: seq<nat>) {
    Ascending(history) && forall i :: 0 <= i < |history| ==> Admits(history[..i], history[i])
  }

  lemma RuleOnPrefix(history: seq<nat>)
    requires AcceptedByRule(history) && history != []
    ensures var init, last := history[..|history| - 1], history[|history| - 1];
            AcceptedByRule(init) && Admits(init, last) && forall t :: t in init ==> t <= last
  {
    var init := history[..|history| - 1];
    forall i | 0 <= i < |init| ensures Admits(init[..i], init[i]) {
      assert init[..i] == history[..i];
      assert Admits(history[..i], history[i]);
    }
  }

  lemma {:induction false} RuleSpacesLookups(history: seq<nat>)
    requires AcceptedByRule(history)
    ensures Spaced(history)
  {
    if history != [] {
      var init, last := history[..|history| - 1], history[|history| - 1];
      RuleOnPrefix(history);
      RuleSpacesLookups(init);
      SpacedOn(init, last);
      assert history == init + [last];
    }
  }

  // ---------------------------------------------------------------- the limiter

  /** The kept times are what is left of the history, as far as any decision from `clock` on can see. */
  ghost predicate KeepsEnough(kept: seq<nat>, history: seq<nat>, clock: nat) {
    forall now: nat {:trigger SameRecent(kept, history, now)} :: clock <= now ==> SameRecent(kept, history, now)
  }

  predicate SameRecent(kept: seq<nat>, history: seq<nat>, now: nat) {
    Recent(kept, now) == Recent(history, now)
  }

  ghost predicate HistoryOk(history: seq<nat>, clock: nat) {
    Ascending(history) && (forall t :: t in history ==> t <= clock) && Spaced(history)
  }

  ghost predicate Sound(kept: seq<nat>, history: seq<nat>, clock: nat) {
    KeepsEnough(kept, history, clock) && HistoryOk(history, clock)
  }

  lemma SoundLater(kept: seq<nat>, history: seq<nat>, clock: nat, now: nat)
    requires Sound(kept, history, clock) && clock <= now
    ensures Sound(kept, history, now) && |Recent(kept, now)| == |Recent(history, now)|
  {
    assert SameRecent(kept, history, now);
  }

  /** Pruning and recording an accepted lookup. */
  lemma SoundAfterLookup(kept: seq<nat>, history: seq<nat>, now: nat)
    requires Sound(kept, history, now) && Admits(history, now)
    ensures Sound(Recent(kept, now) + [now], history + [now], now)
  {
    forall later: nat | now <= later ensures SameRecent(Recent(kept, now) + [now], history + [now], later) {
      assert SameRecent(kept, history, later);
      RecentTwice(kept, now, later);
      RecentConcat(Recent(kept, now), [now], later);
      RecentConcat(history, [now], later);
    }
    SpacedOn(history, now);
  }

  ghost predicate AllSound(kept: map<OrderId, seq<nat>>, accepted: map<OrderId, seq<nat>>, clock: nat) {
    kept.Keys == accepted.Keys
    && forall id {:trigger Sound(kept[id], accepted[id], clock)} ::
         id in accepted ==> Sound(kept[id], accepted[id], clock)
  }

  function TimesOf(times: map<OrderId, seq<nat>>, id: OrderId): seq<nat> {
    if id in times then times[id] else []
  }

  lemma AllSoundLater(kept: map<OrderId, seq<nat>>, accepted: map<OrderId, seq<nat>>, clock: nat, now: nat, id: OrderId)
    requires AllSound(kept, accepted, clock) && clock <= now
    ensures AllSound(kept, accepted, now) && Sound(TimesOf(kept, id), TimesOf(accepted, id), now)
    ensures |Recent(TimesOf(kept, id), now)| == |Recent(TimesOf(accepted, id), now)|
  {
    forall x | x in accepted ensures Sound(kept[x], accepted[x], now) { SoundLater(kept[x], accepted[x], clock, now); }
    if id in accepted { SoundLater(kept[id], accepted[id], now, now); }
  }

  lemma HistoryInNumbers(kept: map<OrderId, seq<nat>>, accepted: map<OrderId, seq<nat>>, clock: nat, id: OrderId,
                         now: nat)
    requires AllSound(kept, accepted, clock) && clock <= now
    ensures var h := TimesOf(accepted, id); Admits(h, now) <==> |h| < 3 || now - h[|h| - 3] >= 60_000
  {
    if id in accepted { assert Sound(kept[id], accepted[id], clock); }
    AdmitsInNumbers(TimesOf(accepted, id), now);
  }

  lemma AllSoundPut(kept: map<OrderId, seq<nat>>, accepted: map<OrderId, seq<nat>>, clock: nat, id: OrderId,
                    times: seq<nat>, history: seq<nat>)
    requires AllSound(kept, accepted, clock) && Sound(times, history, clock)
    ensures AllSound(kept[id := times], accepted[id := history], clock)
  {
    forall x | x in accepted && x != id ensures Sound(kept[x], accepted[x], clock) {}
  }

  class OrderTrackLimiter {
    var orderTrackRateMap: map<OrderId, seq<nat>>
    ghost var accepted: map<OrderId, seq<nat>> // every accepted lookup, never pruned
    ghost var clock: nat                       // the latest time seen

    ghost predicate Valid()
      reads this
    {
      AllSound(orderTrackRateMap, accepted, clock)
    }

    ghost function History(id: OrderId): seq<nat>
      reads this
    {
      TimesOf(accepted, id)
    }

    constructor ()
      ensures Valid() && forall id :: History(id) == []
    {
      orderTrackRateMap, accepted, clock := map[], map[], 0;
    }

    /** Returns whether the lookup goes through; a rejected one leaves the map alone. */
    method CheckOrderTrackRateLimit(id: OrderId, now: nat) returns (ok: bool)
      requires Valid() && clock <= now
      modifies this
      ensures Valid() && clock == now
      ensures ok == Admits(old(History(id)), now)
      ensures ok <==> |old(History(id))| < 3 || now - old(History(id))[|old(History(id))| - 3] >= 60_000
      ensures History(id) == if ok then old(History(id)) + [now] else old(History(id))
      ensures forall other :: other != id ==> History(other) == old(History(other))
    {
      ghost var history := History(id);
      HistoryInNumbers(orderTrackRateMap, accepted, clock, id, now);
      var known := TimesOf(orderTrackRateMap, id);
      var timestamps := Filter(known, now);
      AllSoundLater(orderTrackRateMap, accepted, clock, now, id);
      clock := now;
      if |timestamps| >= MAX_ATTEMPTS {
        return false;
      }
      SoundAfterLookup(known, history, now);
      AllSoundPut(orderTrackRateMap, accepted, now, id, timestamps + [now], history + [now]);
      orderTrackRateMap := orderTrackRateMap[id := timestamps + [now]];
      accepted := accepted[id := history + [now]];
      return true;
    }

    method Filter(times: seq<nat>, now: nat) returns (kept: seq<nat>)
      ensures kept == Recent(times, now)
    {
      kept := [];
      for i := 0 to |times|
        invariant kept == Recent(times[..i], now)
      {
        assert times[..i + 1][..i] == times[..i];
        if now - times[i] < WINDOW_MS { kept := kept + [times[i]]; }
      }
      assert times[..|times|] == times;
    }
  }
}
