/**
 * The v2 ticket repository's expiry sweep, `removeWithLastRequestTimeOlderThan`:
 * a duration in seconds becomes a millisecond cutoff before "now", and every ticket
 * whose last request came before that cutoff is deleted from the ticket store.
 */
module TicketExpiry {

  const LONG_MIN: int := -0x8000_0000_0000_0000
  const LONG_MAX: int := 0x7FFF_FFFF_FFFF_FFFF
  const TWO_TO_64: int := 0x1_0000_0000_0000_0000

  /** The largest number of seconds `TimeUnit.SECONDS.toMillis` converts without saturating. */
  const MAX_UNSATURATED_SECONDS: int := LONG_MAX / 1000

  /** `x` fits a Java `long`. */
  predicate IsLong(x: int) {
    LONG_MIN <= x <= LONG_MAX
  }

  /** Java `long` arithmetic: the exact result reduced modulo 2^64 into the `long` range. */
  function WrapLong(x: int): (r: int)
    ensures IsLong(r)
    ensures (x - r) % TWO_TO_64 == 0
    ensures IsLong(x) ==> r == x
  {
    (x - LONG_MIN) % TWO_TO_64 + LONG_MIN
  }

  /** `TimeUnit.SECONDS.toMillis(seconds)`: multiplication by 1000 that saturates at the `long` bounds. */
  function SecondsToMillis(seconds: int): (r: int)
    requires IsLong(seconds)
    ensures r == if seconds * 1000 > LONG_MAX then LONG_MAX
                 else if seconds * 1000 < LONG_MIN then LONG_MIN
                 else seconds * 1000
  {
    if seconds > MAX_UNSATURATED_SECONDS then LONG_MAX
    else if seconds < -MAX_UNSATURATED_SECONDS then LONG_MIN
    else seconds * 1000
  }

  /** The cutoff `new Date(System.currentTimeMillis() - millis)`, with `now` for the clock. */
  function Cutoff(now: int, seconds: int): (r: int)
    requires IsLong(now) && IsLong(seconds)
    ensures IsLong(r)
  {
    WrapLong(now - SecondsToMillis(seconds))
  }

  /** When neither the conversion nor the subtraction leaves the `long` range, the cutoff is `now - seconds * 1000`. */
  lemma CutoffExact(now: int, seconds: int)
    requires IsLong(now) && IsLong(seconds)
    requires -MAX_UNSATURATED_SECONDS <= seconds <= MAX_UNSATURATED_SECONDS
    requires IsLong(now - seconds * 1000)
    ensures Cutoff(now, seconds) == now - seconds * 1000
  {
  }

  /** For a clock reading that is not before the epoch, a non-negative duration never wraps. */
  lemma CutoffNoWrap(now: int, seconds: int)
    requires IsLong(now) && now >= 0 && IsLong(seconds) && seconds >= 0
    ensures Cutoff(now, seconds) == now - SecondsToMillis(seconds)
    ensures seconds <= MAX_UNSATURATED_SECONDS ==> Cutoff(now, seconds) == now - seconds * 1000
    ensures seconds > MAX_UNSATURATED_SECONDS ==> Cutoff(now, seconds) == now - LONG_MAX
  {
  }

  /** A zero duration gives the current time as the cutoff. */
  lemma CutoffOfZero(now: int)
    requires IsLong(now)
    ensures Cutoff(now, 0) == now
  {
  }

  /** A longer duration gives an earlier or equal cutoff. */
  lemma CutoffMonotone(now: int, s1: int, s2: int)
    requires IsLong(now) && now >= 0 && IsLong(s1) && IsLong(s2)
    requires 0 <= s1 <= s2
    ensures Cutoff(now, s2) <= Cutoff(now, s1) <= now
  {
    CutoffNoWrap(now, s1);
    CutoffNoWrap(now, s2);
  }

  /**
   * A very negative duration saturates to `Long.MIN_VALUE` milliseconds, and
   * `now - Long.MIN_VALUE` then wraps to a cutoff far in the past.
   */
  lemma CutoffOfVeryNegativeDuration(now: int, seconds: int)
    requires IsLong(now) && now >= 0 && IsLong(seconds)
    requires seconds < -MAX_UNSATURATED_SECONDS
    ensures Cutoff(now, seconds) == now + LONG_MIN
    ensures Cutoff(now, seconds) < 0
  {
  }

  /** A ticket of the v2 store; the sweep looks only at its last-request time (epoch milliseconds). */
  datatype StoredTicket = StoredTicket(id: string, profileId: string, lastRequestTime: int)

  /** The store without the tickets whose last request is strictly older than `limit`. */
  function RemoveOlderThan(store: map<string, StoredTicket>, limit: int): (r: map<string, StoredTicket>)
    ensures r.Keys <= store.Keys
    ensures forall id :: id in r ==> r[id] == store[id] && r[id].lastRequestTime >= limit
    ensures forall id :: id in store && store[id].lastRequestTime >= limit ==> id in r
  {
    map id | id in store && !(store[id].lastRequestTime < limit) :: store[id]
  }

  /** Sweeping again with the same cutoff removes nothing more. */
  lemma RemoveOlderThanIdempotent(store: map<string, StoredTicket>, limit: int)
    ensures RemoveOlderThan(RemoveOlderThan(store, limit), limit) == RemoveOlderThan(store, limit)
  {
  }

  /** Two sweeps in a row remove what one sweep with the later of the two cutoffs removes. */
  lemma RemoveOlderThanTwice(store: map<string, StoredTicket>, l1: int, l2: int)
    ensures RemoveOlderThan(RemoveOlderThan(store, l1), l2)
         == RemoveOlderThan(store, if l1 <= l2 then l2 else l1)
  {
  }

  /** A later cutoff keeps a subset of what an earlier one keeps. */
  lemma RemoveOlderThanAntitone(store: map<string, StoredTicket>, l1: int, l2: int)
    requires l1 <= l2
    ensures RemoveOlderThan(store, l2).Keys <= RemoveOlderThan(store, l1).Keys
  {
  }

  /** The v2 ticket repository: the ticket store, keyed by ticket id. */
  class TicketRepository {
    var tickets: map<string, StoredTicket>

    constructor (tickets: map<string, StoredTicket>)
      ensures this.tickets == tickets
    {
      this.tickets := tickets;
    }

    /**
     * Delete every ticket whose last request is older than `seconds` before `now`.
     * The store's query text is not part of this model; "older than" is read as strictly less.
     */
    method RemoveWithLastRequestTimeOlderThan(seconds: int, now: int)
      requires IsLong(seconds) && IsLong(now)
      modifies this
      ensures tickets == RemoveOlderThan(old(tickets), Cutoff(now, seconds))
      ensures forall id :: id in tickets ==> tickets[id].lastRequestTime >= Cutoff(now, seconds)
      ensures forall id :: id in old(tickets) && old(tickets)[id].lastRequestTime >= Cutoff(now, seconds) ==>
                id in tickets && tickets[id] == old(tickets)[id]
    {
      var millis := SecondsToMillis(seconds);
      var limit := WrapLong(now - millis);
      tickets := RemoveOlderThan(tickets, limit);
    }
  }

  /** Running the sweep twice with the same clock reading and duration leaves what one run leaves. */
  method SweepTwice(repo: TicketRepository, seconds: int, now: int)
    requires IsLong(seconds) && IsLong(now)
    modifies repo
    ensures repo.tickets == RemoveOlderThan(old(repo.tickets), Cutoff(now, seconds))
  {
    repo.RemoveWithLastRequestTimeOlderThan(seconds, now);
    repo.RemoveWithLastRequestTimeOlderThan(seconds, now);
    RemoveOlderThanIdempotent(old(repo.tickets), Cutoff(now, seconds));
  }
}
