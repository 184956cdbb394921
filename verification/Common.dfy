/** Vocabulary shared by every component of the relay model. */
module Common {

  type byte = x: int | 0 <= x < 256

  type Bytes = seq<byte>

  /** A connection, named by the identity of its `queued` counter (`same_conn`). */
  type Conn = nat

  /** A reading of the monotonic clock, in nanoseconds. */
  type Instant = nat

  const NANOS: nat := 1_000_000_000

  datatype Option<+T> = None | Some(value: T)

  datatype Result<+T, +E> = Ok(value: T) | Err(error: E)

  function Min(a: nat, b: nat): nat {
    if a < b then a else b
  }

  function Front<T>(s: seq<T>): seq<T>
    requires s != []
  {
    s[..|s| - 1]
  }

  function Last<T>(s: seq<T>): T
    requires s != []
  {
    s[|s| - 1]
  }

  /**
   * One atomic step of an account and what the environment supplies to it: the clock reading
   * of its sweep, the reading that stamps an entry, and the connections whose receiver is gone.
   */
  datatype Event<+Op> = Event(at: Instant, stamp: Instant, closed: set<Conn>, op: Op)

  /** Clock readings never go back within a run. */
  predicate Timed<Op>(evs: seq<Event<Op>>) {
    && (forall i :: 0 <= i < |evs| ==> evs[i].at <= evs[i].stamp)
    && (forall i, j :: 0 <= i < j < |evs| ==> evs[i].stamp <= evs[j].at)
  }

  /** A connection whose receiver is gone never gets one again. */
  predicate ClosedGrows<Op>(evs: seq<Event<Op>>) {
    forall i, j :: 0 <= i < j < |evs| ==> evs[i].closed <= evs[j].closed
  }

  /** `later.duration_since(earlier).as_secs()`: saturates at zero, truncates to whole seconds. */
  function AsSecs(earlier: Instant, later: Instant): nat {
    if later <= earlier then 0 else (later - earlier) / NANOS
  }

  /** Truncating to seconds before comparing is the same as comparing against a deadline. */
  lemma AsSecsIsDeadline(earlier: Instant, later: Instant, secs: nat)
    requires 0 < secs
    ensures AsSecs(earlier, later) < secs <==> later < earlier + secs * NANOS
  {
  }

  /** A sub-map is no larger than the map it came from. */
  lemma SubmapIsSmaller<K, V>(small: map<K, V>, big: map<K, V>)
    requires small.Keys <= big.Keys
    ensures |small| <= |big|
  {
    SubsetIsSmaller(small.Keys, big.Keys);
  }

  lemma {:induction false} SubsetIsSmaller<K>(small: set<K>, big: set<K>)
    requires small <= big
    ensures |small| <= |big|
  {
    if small != {} {
      var k :| k in small;
      SubsetIsSmaller(small - {k}, big - {k});
    }
  }
}
