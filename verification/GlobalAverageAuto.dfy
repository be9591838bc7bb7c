/** global_average_cpu, how its division rounds, and the choice between it and the accelerator. */
module GlobalAverageAuto {
  import opened Accelerator
  import opened Arith
  import opened Config
  import opened GlobalAverage
  import opened Sums

  /** (sum + count/2) / count, the division being C's. */
  function Rounded(sum: int, count: int): int
    requires count > 0
  {
    CDiv(sum + count / 2, count)
  }

  function CpuAverage(d: Dram, x: GoodAvg, b: int, c: int): int {
    PixelsPositive(x);
    Rounded(ChannelSum(d, x, b, c), x.Pixels())
  }

  lemma PixelsPositive(x: GoodAvg)
    ensures x.Pixels() > 0
  {
    MulPos(x.dim, x.dim);
  }

  // ---------- global_average_cpu ----------

  /** CPU averages with linear index below n are stored; nothing else has changed. */
  ghost predicate CpuStored(d: Dram, d': Dram, x: GoodAvg, n: int) {
    && d'.Keys == d.Keys
    && (forall b, c :: InRange(x, b, c) && b * x.channels + c < n ==>
          Get(d', OutAddr(x, b, c)) == CpuAverage(d, x, b, c))
    && (forall a :: a in d && !(x.output <= a < x.output + n) ==> Get(d', a) == Get(d, a))
  }

  lemma PixelKept(d: Dram, d': Dram, x: GoodAvg, n: int, b: int, c: int, p: int)
    requires Placed(d, x) && CpuStored(d, d', x, n) && n <= x.batches * x.channels
    requires InRange(x, b, c) && 0 <= p < x.Pixels()
    ensures Get(d', PixelAddr(x, b, p, c)) == PixelFn(d, x, b, c)(p)
  {
    assert PixelAddr(x, b, p, c) in d && !InOutput(x, PixelAddr(x, b, p, c));
    hide PixelAddr, OutAddr, Avg.Pixels, CpuAverage;
  }

  lemma PixelIndex(x: GoodAvg, row: int, col: int)
    requires 0 <= row < x.dim && 0 <= col < x.dim
    ensures 0 <= row * x.dim + col < x.Pixels()
    ensures row * x.dim + x.dim == (row + 1) * x.dim
  {
    MulLe(0, row, x.dim);
    MulLe(row + 1, x.dim, x.dim);
  }

  /** The row and col loops. */
  method SumChannel(d: Dram, x: GoodAvg, b: int, c: int, ghost d0: Dram, ghost n: int) returns (sum: int)
    requires Placed(d0, x) && CpuStored(d0, d, x, n) && n <= x.batches * x.channels && InRange(x, b, c)
    ensures sum == ChannelSum(d0, x, b, c)
  {
    sum := 0;
    hide CpuStored, Placed, InRange, PixelFn;
    for row := 0 to x.dim
      invariant sum == Sum(0, row * x.dim, PixelFn(d0, x, b, c))
    {
      for col := 0 to x.dim
        invariant sum == Sum(0, row * x.dim + col, PixelFn(d0, x, b, c))
      {
        PixelIndex(x, row, col);
        PixelKept(d0, d, x, n, b, c, row * x.dim + col);
        var pixel := b * x.dim * x.dim + row * x.dim + col;
        assert x.input + pixel * x.channels + c == PixelAddr(x, b, row * x.dim + col, c);
        sum := sum + Get(d, x.input + pixel * x.channels + c);
      }
      PixelIndex(x, row, 0);
    }
  }

  lemma CpuStep(d: Dram, d1: Dram, x: GoodAvg, b: int, c: int)
    requires Placed(d, x) && InRange(x, b, c) && CpuStored(d, d1, x, b * x.channels + c)
    ensures CpuStored(d, d1[OutAddr(x, b, c) := CpuAverage(d, x, b, c)], x, b * x.channels + c + 1)
  {
    hide CpuAverage, PixelAddr, Avg.Ok, Avg.Pixels, InOutput, Get;
    PutAverage(d1, OutAddr(x, b, c), CpuAverage(d, x, b, c));
    OutInDram(d, x, b, c);
    forall b', c' | InRange(x, b', c') && OutAddr(x, b', c') == OutAddr(x, b, c) ensures b' == b && c' == c {
      hide *;
      SameOut(x, b, c, b', c');
    }
  }

  lemma SameOut(x: GoodAvg, b: int, c: int, b': int, c': int)
    requires InRange(x, b, c) && InRange(x, b', c') && OutAddr(x, b', c') == OutAddr(x, b, c)
    ensures b' == b && c' == c
  {
    MixedRadix(b', c', b, c, x.channels);
  }

  lemma OutInDram(d: Dram, x: GoodAvg, b: int, c: int)
    requires Placed(d, x) && InRange(x, b, c)
    ensures OutAddr(x, b, c) in d
  {
    hide PixelAddr, OutAddr, InOutput;
  }

  lemma PutAverage(d: Dram, a: int, v: int)
    ensures d[a := v].Keys == d.Keys + {a} && Get(d[a := v], a) == v
    ensures forall a' :: a' != a ==> Get(d[a := v], a') == Get(d, a')
  {}

  lemma Linear(x: GoodAvg, b: int, c: int)
    requires InRange(x, b, c)
    ensures b * x.channels + c < x.batches * x.channels
  {
    MulLe(b + 1, x.batches, x.channels);
    Distribute(b, 1, x.channels);
  }

  method GlobalAverageCpu(g: Gemmini, x: GoodAvg)
    requires g.Valid() && Placed(g.dram, x)
    modifies g`dram
    ensures g.Valid() && CpuStored(old(g.dram), g.dram, x, x.batches * x.channels)
  {
    ghost var d := g.dram;
    NothingAveraged(d, x);
    hide CpuStored, Placed;
    for batch := 0 to x.batches
      invariant g.Valid() && CpuStored(d, g.dram, x, batch * x.channels)
    {
      for channel := 0 to x.channels
        invariant g.Valid() && CpuStored(d, g.dram, x, batch * x.channels + channel)
      {
        Linear(x, batch, channel);
        PixelsPositive(x);
        var sum := SumChannel(g.dram, x, batch, channel, d, batch * x.channels + channel);
        CpuStep(d, g.dram, x, batch, channel);
        hide ChannelSum, Avg.Pixels;
        g.dram := g.dram[x.output + (batch * x.channels + channel) := Rounded(sum, x.Pixels())];
      }
      Distribute(batch, 1, x.channels);
    }
  }

  lemma NothingAveraged(d: Dram, x: GoodAvg)
    ensures CpuStored(d, d, x, 0 * x.channels)
  {}

  // ---------- how the division rounds ----------

  /** a is an integer nearest to s / n. */
  predicate Nearest(a: int, s: int, n: int) { -n <= 2 * (a * n - s) <= n }

  /** Adding half and truncating rounds to nearest unless the sum is negative and large, where
      truncation goes the wrong way except for an exact half. */
  lemma RoundedIsNearest(sum: int, count: int)
    requires count > 0
    ensures Nearest(Rounded(sum, count), sum, count) <==>
              sum >= 0 || -sum <= count / 2 || (-sum) % count == count / 2
  {
    var h := count / 2;
    if sum + h >= 0 {
      DivMul(sum + h, count);
      if sum < 0 { DivUnique(sum + h, count, 0); }
    } else {
      NegativeRounding(-sum, count);
    }
  }

  lemma NegativeRounding(m: int, n: int)
    requires n > 0 && m > n / 2
    ensures Rounded(-m, n) == -((m - n / 2) / n)
    ensures Nearest(Rounded(-m, n), -m, n) <==> m % n == n / 2
  {
    var q, r, h := m / n, m % n, n / 2;
    DivRem(m, n);
    hide Nearest;
    if r >= h {
      DivUnique(m - h, n, q);
      Distance(-q, -m, n, r);
    } else {
      Distribute(q, -1, n);
      DivUnique(m - h, n, q - 1);
      Distance(-(q - 1), -m, n, n + r);
    }
  }

  lemma DivRem(m: int, n: int)
    requires n > 0
    ensures m == m / n * n + m % n && 0 <= m % n < n
  {}

  lemma Distance(a: int, s: int, n: int, e: int)
    requires a * n - s == e
    ensures Nearest(a, s, n) <==> -n <= 2 * e <= n
  {}

  /** An image of four pixels, all -1, averages to 0 on the CPU. */
  lemma MinusOnes()
    ensures Rounded(-4, 4) == 0 && !Nearest(0, -4, 4) && Nearest(-1, -4, 4)
  {
    RoundedIsNearest(-4, 4);
  }

  lemma NearestUnique(a: int, b: int, s: int, n: int)
    requires n > 0 && Nearest(a, s, n) && Nearest(b, s, n) && 2 * s % (2 * n) != n
    ensures a == b
  {
    if a < b { NearestOrder(a, b, s, n); }
    if b < a { NearestOrder(b, a, s, n); }
  }

  /** Two different nearest integers lie on either side of an exact half. */
  lemma NearestOrder(a: int, b: int, s: int, n: int)
    requires n > 0 && Nearest(a, s, n) && Nearest(b, s, n) && a < b
    ensures 2 * s % (2 * n) == n
  {
    MulLe(a + 1, b, n);
    Distribute(a, 1, n);
    assert 2 * s == a * (2 * n) + n;
    DivUnique(2 * s, 2 * n, a);
  }

  /** Averages of elements are elements: the store on the CPU wraps nothing. */
  lemma RoundedInRange(sum: int, count: int)
    requires count > 0 && count * ELEM_MIN <= sum <= count * ELEM_MAX
    ensures ELEM_MIN <= Rounded(sum, count) <= ELEM_MAX
  {
    var h := count / 2;
    if sum + h >= 0 {
      DivMul(sum + h, count);
      MulLtCancel((sum + h) / count, ELEM_MAX + 1, count);
      MulLtCancel(-1, (sum + h) / count, count);
    } else {
      DivMul(-sum - h, count);
      MulLtCancel((-sum - h) / count, -ELEM_MIN + 1, count);
      MulLtCancel(-1, (-sum - h) / count, count);
    }
  }

  /** Where the sum is not negative and no exact half, the accelerator stores what the CPU stores,
      for every scale that rounds it to a nearest integer. */
  lemma SameAverage(d: Dram, x: GoodAvg, b: int, c: int)
    requires x.Pixels() > 0 && ELEM_MIN <= CpuAverage(d, x, b, c) <= ELEM_MAX
    requires var s := ChannelSum(d, x, b, c);
      s >= 0 && 2 * s % (2 * x.Pixels()) != x.Pixels() && Nearest(x.scale(s), s, x.Pixels())
    ensures Average(d, x, b, c) == CpuAverage(d, x, b, c)
  {
    var s := ChannelSum(d, x, b, c);
    hide ChannelSum, Avg.Pixels, Rounded;
    RoundedIsNearest(s, x.Pixels());
    NearestUnique(x.scale(s), Rounded(s, x.Pixels()), s, x.Pixels());
  }

  /** tiled_global_average_auto: every channel of every image is stored once, as the scaled exact sum
      of its pixels or, on the CPU, as their sum divided; nothing else changes. */
  method TiledGlobalAverageAuto(g: Gemmini, x: GoodAvg, kind: Kind)
    requires g.Valid() && Placed(g.dram, x)
    modifies g
    ensures g.Valid()
    ensures kind == CPU ==> CpuStored(old(g.dram), g.dram, x, x.batches * x.channels)
    ensures kind != CPU ==> StoredBelow(old(g.dram), g.dram, x, x.batches * x.channels)
  {
    hide Placed, StoredBelow, CpuStored;
    if kind == CPU {
      GlobalAverageCpu(g, x);
      return;
    }
    var tile := SearchTile(x.channels);
    TiledGlobalAverage(g, x, tile);
  }
}
