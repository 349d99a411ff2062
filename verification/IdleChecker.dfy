/** Closing connections that stay idle for a number of read timeouts. */
module IdleChecker {
  import opened Numbers

  /** The number of read timeouts that make up the idle timeout, in exact arithmetic. */
  function GetIdleCount(readTimeout: nat, idleTimeout: nat, defaultReadTimeout: nat): (m: nat)
    requires defaultReadTimeout > 0
    ensures var read := if readTimeout == 0 then defaultReadTimeout else readTimeout;
            m * read >= idleTimeout > (m - 1) * read
  {
    var read := if readTimeout == 0 then defaultReadTimeout else readTimeout;
    var q := idleTimeout as real / read as real;
    CeilingBounds(idleTimeout, read);
    Ceiling(q)
  }

  /** The count fits in 32 bits, so that its conversion keeps it, up to this idle timeout and no further. */
  lemma CountFits(readTimeout: nat, idleTimeout: nat, defaultReadTimeout: nat)
    requires defaultReadTimeout > 0
    ensures var read := if readTimeout == 0 then defaultReadTimeout else readTimeout;
            GetIdleCount(readTimeout, idleTimeout, defaultReadTimeout) < TWO_32
            <==> idleTimeout <= (TWO_32 - 1) * read
  {
    hide GetIdleCount;
    var read := if readTimeout == 0 then defaultReadTimeout else readTimeout;
    var m := GetIdleCount(readTimeout, idleTimeout, defaultReadTimeout);
    assert m * read >= idleTimeout > (m - 1) * read;
    if m <= (TWO_32 - 1) {
      Multiples(m, (TWO_32 - 1), read);
    } else {
      Multiples((TWO_32 - 1), m - 1, read);
    }
  }

  lemma Multiples(a: int, b: int, r: nat)
    requires a <= b
    ensures a * r <= b * r
  {}

  const TWO_53 := 0x20_0000_0000_0000

  /** What rounding to a double keeps: the order of numbers, and every whole number up to 2^53. */
  ghost predicate Rounds(round: real -> real) {
    && (forall x, y :: x <= y ==> round(x) <= round(y))
    && (forall n: nat :: n <= TWO_53 ==> KeepsWhole(round, n))
  }

  predicate KeepsWhole(round: real -> real, n: nat) { round(n as real) == n as real }

  /** The count as the code computes it. */
  function RoundedCount(round: real -> real, read: nat, idle: nat): int
    requires round(read as real) != 0.0
  {
    Ceiling(round(round(idle as real) / round(read as real)))
  }

  /** Rounding can make the count one too small, never anything else, and it does so exactly when it
      takes the quotient down to the whole number below. */
  lemma RoundedCountIsClose(round: real -> real, read: nat, idle: nat)
    requires Rounds(round) && 0 < read <= TWO_53 && idle <= TWO_53
    ensures round(read as real) == read as real
    ensures var m, r := Ceiling(idle as real / read as real), RoundedCount(round, read, idle);
            && (r == m || r == m - 1)
            && (r == m - 1 <==> m > 0 && round(idle as real / read as real) == (m - 1) as real)
  {
    var q := idle as real / read as real;
    var m := Ceiling(q);
    CeilingBounds(idle, read);
    CountIsSmall(m, read, idle);
    assert m as real >= q > (m - 1) as real;
    assert KeepsWhole(round, m) && KeepsWhole(round, idle) && KeepsWhole(round, read);
    if m > 0 {
      assert KeepsWhole(round, m - 1);
    }
  }

  lemma CountIsSmall(m: int, read: nat, idle: nat)
    requires 0 < read && m >= 0 && idle > (m - 1) * read && idle <= TWO_53
    ensures m <= TWO_53
  {
    if m > 0 {
      Multiples(1, read, m - 1);
    }
  }

  function Ceiling(q: real): int { -((-q).Floor) }

  lemma CeilingBounds(idle: nat, read: nat)
    requires read > 0
    ensures var m := Ceiling(idle as real / read as real); m >= 0 && m * read >= idle > (m - 1) * read
  {
    var q := idle as real / read as real;
    var m := Ceiling(q);
    assert q * read as real == idle as real;
    assert m as real >= q > (m - 1) as real;
    Scaled(m, q, read, idle);
    Scaled(m - 1, q, read, idle);
  }

  /** Comparing with a quotient is comparing with the dividend. */
  lemma Scaled(k: int, q: real, read: nat, idle: nat)
    requires read > 0 && q * read as real == idle as real
    ensures k as real >= q <==> k * read >= idle
  {
    assert (k * read) as real == k as real * read as real;
    Ordered(k as real, q, read as real);
  }

  lemma Ordered(a: real, b: real, r: real)
    requires r > 0.0
    ensures a >= b <==> a * r >= b * r
  {}

  /** The totals read and written, as a read timeout finds them. */
  datatype Totals = Totals(read: int, write: int)

  /** How many of the last timeouts found the same totals. */
  function Streak(seen: seq<Totals>): (n: nat)
    ensures n <= |seen| && (seen != [] ==> n >= 1)
    ensures forall i :: |seen| - n <= i < |seen| ==> seen[i] == seen[|seen| - 1]
    ensures n < |seen| && seen != [] ==> seen[|seen| - n - 1] != seen[|seen| - 1]
  {
    if |seen| <= 1 then |seen|
    else if seen[|seen| - 1] != seen[|seen| - 2] then 1
    else
      var before := seen[..|seen| - 1];
      assert before[|before| - 1] == seen[|seen| - 2];
      Streak(before) + 1
  }

  /** The last m timeouts found the same totals. */
  predicate SameOverLast(seen: seq<Totals>, m: nat) {
    |seen| >= m && forall i :: |seen| - m <= i < |seen| ==> seen[i] == seen[|seen| - 1]
  }

  lemma StreakMeans(seen: seq<Totals>, m: nat)
    requires m >= 1
    ensures SameOverLast(seen, m) <==> Streak(seen) >= m
  {
    var n := Streak(seen);
    if n < |seen| {
      assert seen[|seen| - n - 1] != seen[|seen| - 1];
    }
  }

  lemma StreakStep(seen: seq<Totals>, t: Totals)
    ensures Streak(seen + [t]) == if seen != [] && seen[|seen| - 1] == t then Streak(seen) + 1 else 1
  {
    assert (seen + [t])[..|seen|] == seen;
  }

  class Checker {
    const maxIdleCount: nat
    var idleCount: nat
    var lastWrite: int
    var lastRead: int
    ghost var seen: seq<Totals>

    ghost predicate Valid()
      reads this
    {
      && maxIdleCount < TWO_32
      && (seen == [] ==> idleCount == lastRead == lastWrite == 0)
      && (maxIdleCount >= 2 && seen != [] ==>
            Totals(lastRead, lastWrite) == seen[|seen| - 1] && idleCount == Streak(seen) < maxIdleCount)
    }

    constructor (max: nat)
      requires max < TWO_32
      ensures Valid() && maxIdleCount == max && seen == []
    {
      maxIdleCount, idleCount, lastWrite, lastRead, seen := max, 0, 0, 0, [];
    }

    /** The connection is closed at the first timeout at which the totals have been the same over the
        last `maxIdleCount` timeouts; a count of zero never closes it. */
    method OnReadTimeout(read: int, write: int) returns (closed: bool)
      requires Valid()
      modifies this
      ensures seen == old(seen) + [Totals(read, write)]
      ensures closed <==> maxIdleCount >= 1 && SameOverLast(seen, maxIdleCount)
      ensures !closed ==> Valid()
    {
      hide Streak, SameOverLast;
      StreakStep(seen, Totals(read, write));
      seen := seen + [Totals(read, write)];
      if maxIdleCount >= 1 {
        StreakMeans(seen, maxIdleCount);
      }
      if maxIdleCount == 0 {
        return false;
      }
      if maxIdleCount == 1 {
        return true;
      }
      if lastWrite == write && lastRead == read {
        idleCount := (idleCount + 1) % TWO_32;
        if idleCount >= maxIdleCount {
          return true;
        }
      } else {
        idleCount := 1;
      }
      lastWrite := write;
      lastRead := read;
      return false;
    }
  }
}
