/** What the bot learns from a send (internal/telegram/client.go): delivered, definitely
    refused, or unknown; and the retry loop around a flood refusal.
 */
module Telegram {

  const FLOOD_ATTEMPTS := 3
  const MAX_FLOOD_WAIT := 60

  /** What one request returned. A Refusal is an answer from Telegram or a proxy in front
      of it; NoAnswer is a timeout, a dropped connection or an unreadable body. */
  datatype Answer =
    | Accepted(messageId: nat)
    | Refusal(statusCode: int, errorCode: int, retryAfter: nat)
    | NoAnswer

  /** One request: its answer, and whether the message reached the chat. */
  datatype Attempt = Attempt(answer: Answer, delivered: bool)

  function ErrorCode(a: Answer): int
    requires a.Refusal?
  {
    if a.errorCode != 0 then a.errorCode else a.statusCode
  }

  /** The failed send may have been delivered anyway. */
  predicate OutcomeUnknown(a: Answer)
    requires !a.Accepted?
  {
    match a
    case Refusal(_, _, _) => ErrorCode(a) >= 500
    case NoAnswer => true
  }

  predicate IsFlood(a: Answer) {
    a.Refusal? && ErrorCode(a) == 429
  }

  function FloodDelay(a: Answer): (wait: nat)
    requires IsFlood(a)
    ensures 1 <= wait <= MAX_FLOOD_WAIT + 1
    ensures wait <= a.retryAfter + 1 && (wait > a.retryAfter || wait == MAX_FLOOD_WAIT + 1)
  {
    (if a.retryAfter < MAX_FLOOD_WAIT then a.retryAfter else MAX_FLOOD_WAIT) + 1
  }

  /** What can happen: an accepted message is delivered, and one that Telegram refused by a
      code below 500 is not. Of the rest nothing is known: an answer of 500 or more, or none
      at all, may come after the message went out. */
  predicate Possible(a: Attempt) {
    match a.answer
    case Accepted(_) => a.delivered
    case Refusal(status, 0, _) => status < 500 ==> !a.delivered
    case Refusal(_, code, _) => code < 500 ==> !a.delivered
    case NoAnswer => true
  }

  /** Another attempt follows: the answer was a flood refusal, attempts are left and
      neither the caller nor the wait was cancelled. */
  predicate Again(a: Answer, attempt: int, cancelled: bool) {
    IsFlood(a) && attempt < FLOOD_ATTEMPTS && !cancelled
  }

  function Deliveries(attempts: seq<Attempt>): nat {
    if attempts == [] then 0
    else Deliveries(attempts[..|attempts| - 1]) + if attempts[|attempts| - 1].delivered then 1 else 0
  }

  /** Telegram's behaviour is world(n) for the n-th attempt; cancelled(n) says the
      caller's context ended during it or during the wait after it. Whatever happens,
      at most one message is delivered, and the error returned classifies the whole send:
      if it is not of unknown outcome, nothing was delivered. */
  method WithFloodRetry(world: int -> Attempt, cancelled: int -> bool)
    returns (result: Answer, tries: int)
    requires forall n :: Possible(world(n))
    ensures 1 <= tries <= FLOOD_ATTEMPTS && result == world(tries).answer
    ensures forall n :: 1 <= n < tries ==> IsFlood(world(n).answer) && !cancelled(n)
    ensures IsFlood(result) ==> tries == FLOOD_ATTEMPTS || cancelled(tries)
    ensures var sent := Deliveries(seq(tries, n => world(n + 1)));
            && sent <= 1
            && (result.Accepted? ==> sent == 1)
            && (!result.Accepted? && !OutcomeUnknown(result) ==> sent == 0)
  {
    tries := 1;
    result := world(1).answer;
    while Again(result, tries, cancelled(tries))
      invariant 1 <= tries <= FLOOD_ATTEMPTS && result == world(tries).answer
      invariant forall n :: 1 <= n < tries ==> IsFlood(world(n).answer) && !cancelled(n)
      decreases FLOOD_ATTEMPTS - tries
    {
      tries := tries + 1;
      result := world(tries).answer;
    }
    OnlyTheLastDelivers(world, tries);
  }

  lemma OnlyTheLastDelivers(world: int -> Attempt, tries: nat)
    requires tries >= 1
    requires forall n :: 1 <= n <= tries ==> Possible(world(n))
    requires forall n :: 1 <= n < tries ==> IsFlood(world(n).answer)
    ensures Deliveries(seq(tries, n => world(n + 1))) == if world(tries).delivered then 1 else 0
  {
    var all := seq(tries, n => world(n + 1));
    var earlier := all[..tries - 1];
    forall n | 0 <= n < |earlier| ensures !earlier[n].delivered {
      assert Possible(world(n + 1)) && IsFlood(world(n + 1).answer);
    }
    NoneDelivered(earlier);
  }

  lemma NoneDelivered(attempts: seq<Attempt>)
    requires forall n :: 0 <= n < |attempts| ==> !attempts[n].delivered
    ensures Deliveries(attempts) == 0
  {
  }
}
