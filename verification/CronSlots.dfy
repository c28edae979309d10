/** The next run of an interval job (k2do/cron/service.py, 358-370). */
module CronSlots {
  function Max(a: int, b: int): int {
    if a >= b then a else b
  }

  /** The first slot of the grid through `anchor` that lies behind both `anchor` and `now`. */
  function NextSlot(anchor: int, interval: int, now: int): int
    requires interval > 0
  {
    anchor + interval * Max(1, (now - anchor) / interval + 1)
  }

  lemma {:induction false} SlotBehind(anchor: int, interval: int, now: int, n: int)
    requires interval > 0 && n >= 1
    requires anchor + interval * n > now && (n == 1 || anchor + interval * (n - 1) <= now)
    ensures NextSlot(anchor, interval, now) == anchor + interval * n
  {
    var q, r := (now - anchor) / interval, (now - anchor) % interval;
    assert now - anchor == interval * q + r;
    if q + 1 > n {
      LessTimes(interval, n, q);
    } else if n > 1 && q + 1 < n {
      LessTimes(interval, q + 1, n - 1);
    }
  }

  lemma {:induction false} LessTimes(d: int, a: int, b: int)
    requires d > 0 && a <= b
    ensures d * a <= d * b
  {
    assert d * (b - a) >= 0;
  }

  /** The loop that skips slots missed while the job ran. */
  method AdvanceSlot(anchor: int, interval: int, now: int) returns (nextRun: int)
    requires interval > 0
    ensures nextRun == NextSlot(anchor, interval, now)
  {
    nextRun := anchor + interval;
    ghost var n := 1;
    while nextRun <= now
      invariant n >= 1 && nextRun == anchor + interval * n
      invariant n == 1 || anchor + interval * (n - 1) <= now
      decreases now - nextRun
    {
      nextRun := nextRun + interval;
      n := n + 1;
    }
    SlotBehind(anchor, interval, now, n);
  }

  /** The least slot of the grid behind `anchor` and `now`, whatever `now` is. */
  lemma {:induction false} NextSlotIsLeast(anchor: int, interval: int, now: int, n: int)
    requires interval > 0
    ensures var slot := NextSlot(anchor, interval, now);
            && slot > anchor && slot > now && (slot - anchor) % interval == 0
            && (anchor + interval * n > anchor && anchor + interval * n > now ==> slot <= anchor + interval * n)
  {
    var q, r := (now - anchor) / interval, (now - anchor) % interval;
    var m := Max(1, q + 1);
    assert now - anchor == interval * q + r;
    LessTimes(interval, q + 1, m);
    LessTimes(interval, 1, m);
    assert interval * (q + 1) == interval * q + interval;
    MultipleModulo(interval, m);
    if anchor + interval * n > anchor && anchor + interval * n > now {
      if n <= 0 {
        LessTimes(interval, n, 0);
      } else if n <= q {
        LessTimes(interval, n, q);
      } else {
        LessTimes(interval, m, n);
      }
    }
  }

  lemma {:induction false} MultipleModulo(d: int, m: int)
    requires d > 0
    ensures d * m % d == 0
  {
    var q, r := d * m / d, d * m % d;
    assert d * m == d * q + r;
    assert r == d * (m - q);
    if m - q >= 1 {
      LessTimes(d, 1, m - q);
    } else if m - q <= -1 {
      LessTimes(d, m - q, -1);
    }
  }

  /** The slot after `k` executions, the i-th of which ends at `ends[i]`. */
  function SlotAfter(first: int, interval: int, ends: seq<int>, k: nat): int
    requires interval > 0 && k <= |ends|
  {
    if k == 0 then first else NextSlot(SlotAfter(first, interval, ends, k - 1), interval, ends[k - 1])
  }

  /** Over any series of executions the slots strictly increase, stay on one grid, and each
      lies behind the execution before it. */
  lemma {:induction false} SlotsDoNotDrift(first: int, interval: int, ends: seq<int>, j: nat, k: nat)
    requires interval > 0 && j < k <= |ends|
    ensures SlotAfter(first, interval, ends, j) < SlotAfter(first, interval, ends, k)
    ensures (SlotAfter(first, interval, ends, k) - first) % interval == 0
    ensures SlotAfter(first, interval, ends, k) > ends[k - 1]
  {
    var before := SlotAfter(first, interval, ends, k - 1);
    NextSlotIsLeast(before, interval, ends[k - 1], 0);
    if j < k - 1 {
      SlotsDoNotDrift(first, interval, ends, j, k - 1);
      SumOfMultiples(before - first, SlotAfter(first, interval, ends, k) - before, interval);
    } else if k > 1 {
      SlotsDoNotDrift(first, interval, ends, 0, k - 1);
      SumOfMultiples(before - first, SlotAfter(first, interval, ends, k) - before, interval);
    }
  }

  lemma {:induction false} SumOfMultiples(a: int, b: int, d: int)
    requires d > 0 && a % d == 0 && b % d == 0
    ensures (a + b) % d == 0
  {
    assert a == d * (a / d) && b == d * (b / d);
    assert a + b == d * (a / d + b / d);
    MultipleModulo(d, a / d + b / d);
  }
}
