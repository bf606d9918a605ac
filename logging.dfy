/**
  The log of one evolve call. A line is appended on generation g when the
  verbosity v is positive and g mod v is 1, or v is 1; every tenth
  generation the stopping tests run first and may end the call.
 */
module Logging {

  /** One log line: generation, fitness evaluations spent in this call, best
      fitness, dx (length of A·z for the first individual), df (fitness
      spread between best and worst), and the current step size. */
  datatype LogLine = LogLine(gen: nat, fevals: nat, best: real, dx: real, df: real, sigma: real)

  /** The remainder of a divided by b, by repeated subtraction. */
  function Rem(a: nat, b: nat): (r: nat)
    requires b > 0
    ensures r < b
    decreases a
  {
    if a < b then a else Rem(a - b, b)
  }

  lemma MulGrows(d: int, b: int)
    requires d >= 1 && b > 0
    ensures d * b >= b
  {
    assert d * b == (d - 1) * b + b;
  }

  /** The only multiple of b strictly between -b and b is 0. */
  lemma SmallMultiple(d: int, b: int)
    requires b > 0 && -b < d * b < b
    ensures d == 0
  {
    if d >= 1 {
      MulGrows(d, b);
      assert false;
    } else if d <= -1 {
      MulGrows(-d, b);
      assert false;
    }
  }

  /** Remainders are unique: a = q·b + r with 0 <= r < b fixes r. */
  lemma ModUnique(a: int, b: int, q: int, r: int)
    requires b > 0 && 0 <= r < b && a == q * b + r
    ensures a % b == r
  {
    var q', r' := a / b, a % b;
    assert (q - q') * b == r' - r;
    SmallMultiple(q - q', b);
  }

  /** Rem is the remainder of unsigned division. */
  lemma {:induction false} RemIsMod(a: nat, b: nat)
    requires b > 0
    ensures Rem(a, b) == a % b
  {
    if a < b {
      ModUnique(a, b, 0, a);
    } else {
      RemIsMod(a - b, b);
      ModUnique(a, b, (a - b) / b + 1, (a - b) % b);
    }
  }

  /** Whether generation g appends a log line under verbosity v. */
  predicate LogDue(g: nat, v: nat)
    ensures LogDue(g, v) <==> v > 0 && (g % v == 1 || v == 1)
  {
    if v == 0 then false else RemIsMod(g, v); Rem(g, v) == 1 || v == 1
  }

  /** Whether generation g runs the stopping tests. */
  predicate CheckDue(g: nat)
    ensures CheckDue(g) <==> g % 10 == 0
  {
    RemIsMod(g, 10); Rem(g, 10) == 0
  }

  function Gens(log: seq<LogLine>): (gs: seq<nat>)
    ensures |gs| == |log| && forall i :: 0 <= i < |log| ==> gs[i] == log[i].gen
  {
    if log == [] then [] else Gens(log[..|log| - 1]) + [log[|log| - 1].gen]
  }

  /** The generations among 1..n that append a line, in order. */
  function Schedule(v: nat, n: nat): (s: seq<nat>)
    ensures forall g :: g in s <==> 1 <= g <= n && LogDue(g, v)
    ensures |s| <= n
  {
    if n == 0 then [] else Schedule(v, n - 1) + (if LogDue(n, v) then [n] else [])
  }

  predicate StrictlyIncreasing(s: seq<nat>) {
    forall i, j :: 0 <= i < j < |s| ==> s[i] < s[j]
  }

  /** Logged generations increase strictly. */
  lemma {:induction false} ScheduleIncreasing(v: nat, n: nat)
    ensures StrictlyIncreasing(Schedule(v, n))
  {
    if n > 0 {
      var s := Schedule(v, n - 1);
      ScheduleIncreasing(v, n - 1);
      forall i | 0 <= i < |s| ensures s[i] < n {
        assert s[i] in s;
      }
      if LogDue(n, v) {
        assert Schedule(v, n) == s + [n];
      } else {
        assert Schedule(v, n) == s;
      }
    }
  }

  /** Verbosity 1 logs every generation. */
  lemma {:induction false} ScheduleEvery(n: nat)
    ensures |Schedule(1, n)| == n
  {
    if n > 0 {
      ScheduleEvery(n - 1);
      assert LogDue(n, 1);
    }
  }

  /** Verbosity 0 logs nothing. */
  lemma {:induction false} ScheduleNone(n: nat)
    ensures Schedule(0, n) == []
  {
    if n > 0 {
      ScheduleNone(n - 1);
    }
  }

  /** Generation n, when due, extends the schedule up to n - 1. */
  lemma ScheduleStep(v: nat, n: nat)
    requires n >= 1
    ensures Schedule(v, n) == Schedule(v, n - 1) + (if LogDue(n, v) then [n] else [])
  {
  }
}
