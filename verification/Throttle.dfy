/** The throttle on panel buttons (internal/bot/state.go, callbackThrottle). Times are in
    milliseconds.
 */
module Throttle {

  const WINDOW := 700
  const PRUNE_AT := 1024
  const STALE := 60_000

  datatype Key = Key(chat: int, message: int, user: int)

  datatype Press = Press(key: Key, now: int)

  /** A press without a panel or a person cannot be told from another. */
  predicate Anonymous(key: Key) {
    key.chat == 0 || key.message == 0 || key.user == 0
  }

  type Seen = map<Key, int>

  predicate TooSoon(seen: Seen, p: Press) {
    !Anonymous(p.key) && p.key in seen && p.now - seen[p.key] < WINDOW
  }

  predicate Recorded(seen: Seen, p: Press) {
    !Anonymous(p.key) && !TooSoon(seen, p)
  }

  function FreshAt(seen: Seen, now: int): Seen {
    map k | k in seen && now - seen[k] <= STALE :: seen[k]
  }

  /** What the throttle remembers after a press. */
  function After(seen: Seen, p: Press): Seen {
    if !Recorded(seen, p) then seen
    else
      var all := seen[p.key := p.now];
      if |all| <= PRUNE_AT then all
      else
        var kept := FreshAt(all, p.now);
        if |kept| > 2 * PRUNE_AT then map[] else kept
  }

  class CallbackThrottle {
    var seen: Seen

    constructor ()
      ensures seen == map[]
    {
      seen := map[];
    }

    method Hit(chat: int, message: int, user: int, now: int) returns (soon: bool)
      modifies this
      ensures var p := Press(Key(chat, message, user), now);
              soon == TooSoon(old(seen), p) && seen == After(old(seen), p)
    ensures soon <==> chat != 0 && message != 0 && user != 0
                      && var key := Key(chat, message, user);
                         key in old(seen) && now < old(seen)[key] + WINDOW
    {
      if chat == 0 || message == 0 || user == 0 {
        return false;
      }
      var key := Key(chat, message, user);
      if key in seen && now - seen[key] < WINDOW {
        return true;
      }
      seen := seen[key := now];
      if |seen| > PRUNE_AT {
        DropStale(now);
        if |seen| > 2 * PRUNE_AT {
          seen := map[];
        }
      }
      return false;
    }

    method DropStale(now: int)
      modifies this
      ensures seen == FreshAt(old(seen), now)
    {
      var keys := seen.Keys;
      while keys != {}
        invariant keys <= old(seen).Keys
        invariant forall k :: k in seen <==> k in old(seen) && (k in keys || now - old(seen)[k] <= STALE)
        invariant forall k :: k in seen ==> seen[k] == old(seen)[k]
        decreases |keys|
      {
        var k :| k in keys;
        if now - seen[k] > STALE {
          seen := seen - {k};
        }
        keys := keys - {k};
      }
      assert seen == FreshAt(old(seen), now);
    }
  }

  // ----- Against a throttle that forgets nothing -----

  function Run(presses: seq<Press>): Seen
    decreases |presses|
  {
    if presses == [] then map[] else After(Run(presses[..|presses| - 1]), presses[|presses| - 1])
  }

  /** The last press of each key that was not too soon after the one recorded before it. */
  function Unbounded(presses: seq<Press>): Seen
    decreases |presses|
  {
    if presses == [] then map[]
    else
      var before, p := Unbounded(presses[..|presses| - 1]), presses[|presses| - 1];
      if Recorded(before, p) then before[p.key := p.now] else before
  }

  predicate Clocked(presses: seq<Press>) {
    forall i, j :: 0 <= i < j < |presses| ==> presses[i].now <= presses[j].now
  }

  /** Of all the keys ever pressed, more than the throttle holds were pressed a minute ago at most. */
  predicate Flood(all: Seen, now: int) {
    |FreshAt(all, now)| > 2 * PRUNE_AT
  }

  predicate NoFlood(presses: seq<Press>) {
    forall n :: 0 < n <= |presses| ==> !Flood(Unbounded(presses[..n]), presses[n - 1].now)
  }

  /** The throttle has forgotten only what is too old to matter. */
  predicate ForgotOnlyStale(seen: Seen, all: Seen, now: int) {
    && (forall k :: k in seen ==> k in all && seen[k] == all[k])
    && (forall k :: k in all && k !in seen ==> now - all[k] > STALE)
  }

  lemma {:induction false} SizeBounded(presses: seq<Press>)
    ensures |Run(presses)| <= 2 * PRUNE_AT
    decreases |presses|
  {
    if presses != [] {
      SizeBounded(presses[..|presses| - 1]);
    }
  }

  lemma SameAnswer(seen: Seen, all: Seen, last: int, p: Press)
    requires ForgotOnlyStale(seen, all, last) && last <= p.now
    ensures TooSoon(seen, p) == TooSoon(all, p)
  {
  }

  lemma {:induction false} CardSub(a: Seen, b: Seen)
    requires forall k :: k in a ==> k in b
    ensures |a| <= |b|
  {
    SubsetSize(a.Keys, b.Keys);
  }

  lemma {:induction false} SubsetSize(a: set<Key>, b: set<Key>)
    requires a <= b
    ensures |a| <= |b|
  {
    assert b == a + (b - a);
  }

  /** The throttle is cleared exactly by a flood. */
  lemma ClearedByFlood(seen: Seen, all: Seen, last: int, p: Press)
    requires ForgotOnlyStale(seen, all, last) && last <= p.now
    requires Recorded(seen, p)
    ensures Flood(all[p.key := p.now], p.now) <==> After(seen, p) == map[]
    ensures !Flood(all[p.key := p.now], p.now) ==> ForgotOnlyStale(After(seen, p), all[p.key := p.now], p.now)
  {
    var seen', all' := seen[p.key := p.now], all[p.key := p.now];
    assert FreshAt(seen', p.now) == FreshAt(all', p.now);
    CardSub(FreshAt(seen', p.now), seen');
    assert p.key in seen' && p.key in FreshAt(seen', p.now);
  }

  lemma {:induction false} AgreesSoFar(presses: seq<Press>, last: int)
    requires Clocked(presses) && NoFlood(presses)
    requires forall p :: p in presses ==> p.now <= last
    ensures ForgotOnlyStale(Run(presses), Unbounded(presses), last)
    decreases |presses|
  {
    if presses != [] {
      var n := |presses| - 1;
      var before, p := presses[..n], presses[n];
      forall i | 0 < i <= n ensures !Flood(Unbounded(before[..i]), before[i - 1].now) {
        assert before[..i] == presses[..i];
      }
      AgreesSoFar(before, p.now);
      SameAnswer(Run(before), Unbounded(before), p.now, p);
      if Recorded(Unbounded(before), p) {
        assert presses[..n + 1] == presses;
        ClearedByFlood(Run(before), Unbounded(before), p.now, p);
      }
      assert ForgotOnlyStale(Run(presses), Unbounded(presses), p.now);
    }
  }

  /** Until a flood clears it, the throttle answers every press as one that forgets nothing. */
  lemma AnswersLikeUnbounded(presses: seq<Press>, p: Press)
    requires Clocked(presses) && NoFlood(presses)
    requires forall q :: q in presses ==> q.now <= p.now
    ensures TooSoon(Run(presses), p) == TooSoon(Unbounded(presses), p)
  {
    AgreesSoFar(presses, p.now);
    SameAnswer(Run(presses), Unbounded(presses), p.now, p);
  }

  // ----- When a press is too soon -----

  /** The throttle lets the i-th press through. */
  predicate Through(presses: seq<Press>, i: nat)
    requires i < |presses|
  {
    !TooSoon(Run(presses[..i]), presses[i])
  }

  /** The key's last press let through by a throttle that forgets nothing. */
  lemma {:induction false} LastThrough(presses: seq<Press>, key: Key) returns (i: nat)
    requires key in Unbounded(presses)
    ensures i < |presses| && presses[i].key == key && !Anonymous(key) && presses[i].now == Unbounded(presses)[key]
    ensures !TooSoon(Unbounded(presses[..i]), presses[i])
    decreases |presses|
  {
    var n := |presses| - 1;
    if Recorded(Unbounded(presses[..n]), presses[n]) && presses[n].key == key {
      i := n;
    } else {
      i := LastThrough(presses[..n], key);
      assert presses[..n][..i] == presses[..i];
    }
  }

  lemma {:induction false} RememberedSince(presses: seq<Press>, i: nat)
    requires Clocked(presses) && i < |presses| && !Anonymous(presses[i].key)
    requires !TooSoon(Unbounded(presses[..i]), presses[i])
    ensures presses[i].key in Unbounded(presses) && Unbounded(presses)[presses[i].key] >= presses[i].now
    decreases |presses|
  {
    var n := |presses| - 1;
    if i < n {
      assert presses[..n][..i] == presses[..i];
      RememberedSince(presses[..n], i);
    }
  }

  lemma PrefixAnswers(presses: seq<Press>, i: nat)
    requires Clocked(presses) && NoFlood(presses) && i < |presses|
    ensures Through(presses, i) <==> !TooSoon(Unbounded(presses[..i]), presses[i])
  {
    var before := presses[..i];
    forall n | 0 < n <= i ensures !Flood(Unbounded(before[..n]), before[n - 1].now) {
      assert before[..n] == presses[..n];
    }
    AnswersLikeUnbounded(before, presses[i]);
  }

  /** Until a flood, a press is too soon exactly when one by the same person on the same panel
      was let through less than 700 ms before it. */
  lemma TooSoonExactly(presses: seq<Press>, p: Press)
    requires Clocked(presses) && NoFlood(presses)
    requires forall q :: q in presses ==> q.now <= p.now
    ensures TooSoon(Run(presses), p) <==>
              !Anonymous(p.key)
              && exists i: nat :: i < |presses| && Through(presses, i) && presses[i].key == p.key
                                  && p.now < presses[i].now + 700
  {
    hide Run, Unbounded, Through;
    AnswersLikeUnbounded(presses, p);
    if TooSoon(Run(presses), p) {
      var i := LastThrough(presses, p.key);
      PrefixAnswers(presses, i);
    }
    forall i: nat | i < |presses| && Through(presses, i) && presses[i].key == p.key && !Anonymous(p.key)
      ensures p.key in Unbounded(presses) && Unbounded(presses)[p.key] >= presses[i].now
    {
      PrefixAnswers(presses, i);
      RememberedSince(presses, i);
    }
  }
}
