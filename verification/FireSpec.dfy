/** How often a cyclic expires when the interrupt source fires, and when it expires next. */
module FireSpec {
  import opened HeapSpec

  const NANOSEC := 1_000_000_000

  /** The expiration time after one expiry: one interval later, or, if that is more than a second ago, the next
      interval boundary after now. */
  function Advance(e: int, interval: int, now: int): int
    requires interval > 0
  {
    var exp := e + interval;
    if now - exp > NANOSEC then exp + ((now - exp) / interval + 1) * interval else exp
  }

  /** A cyclic due at e expires once for every interval that has passed, or only once if it is tragically late. */
  function Shots(e: int, interval: int, now: int): nat
    requires interval > 0
  {
    if e > now then 0 else if now - (e + interval) > NANOSEC then 1 else Whole(now - e, interval)
  }

  function Whole(d: int, interval: int): nat
    requires interval > 0 && d >= 0
  {
    DivNonNeg(d, interval);
    d / interval + 1
  }

  lemma DivNonNeg(d: int, interval: int)
    requires interval > 0 && d >= 0
    ensures d / interval >= 0
  {
  }

  /** Where a cyclic due at e ends up. */
  function Next(e: int, interval: int, now: int): int
    requires interval > 0
  {
    if e > now then e else if now - (e + interval) > NANOSEC
        then Advance(e, interval, now) else e + Shots(e, interval, now) * interval
  }

  lemma DivStep(d: int, interval: int)
    requires interval > 0 && d >= interval
    ensures d / interval == (d - interval) / interval + 1
  {
    var q, r := (d - interval) / interval, (d - interval) % interval;
    assert d == (q + 1) * interval + r;
    DivUnique(d, interval, q + 1, r);
  }

  lemma NoMultiple(k: int, interval: int)
    requires interval > 0 && -interval < k * interval < interval
    ensures k == 0
  {
  }

  lemma DivUnique(d: int, interval: int, q: int, r: int)
    requires interval > 0 && d == q * interval + r && 0 <= r < interval
    ensures d / interval == q
  {
    var q', r' := d / interval, d % interval;
    assert d == q' * interval + r' && 0 <= r' < interval;
    var k := q - q';
    assert k * interval == q * interval - q' * interval;
    NoMultiple(k, interval);
  }

  lemma DivBounds(d: int, interval: int)
    requires interval > 0 && d >= 0
    ensures d < (d / interval + 1) * interval <= d + interval
  {
    assert d == d / interval * interval + d % interval;
    assert (d / interval + 1) * interval == d / interval * interval + interval;
  }

  lemma ModShift(e: int, k: int, interval: int)
    requires interval > 0
    ensures (e + k * interval) % interval == e % interval
  {
    var q, r := e / interval, e % interval;
    assert e + k * interval == (q + k) * interval + r;
    DivUnique(e + k * interval, interval, q + k, r);
    assert e + k * interval == (e + k * interval) / interval * interval + (e + k * interval) % interval;
  }

  /** One expiry uses up exactly one of the shots and leads to the same end. */
  lemma OneShot(e: int, interval: int, now: int)
    requires interval > 0 && e <= now
    ensures Advance(e, interval, now) > e
    ensures Shots(e, interval, now) == Shots(Advance(e, interval, now), interval, now) + 1
    ensures Next(Advance(e, interval, now), interval, now) == Next(e, interval, now)
  {
    var exp := e + interval;
    if now - exp > NANOSEC {
      DivBounds(now - exp, interval);
    } else if exp <= now {
      DivStep(now - e, interval);
      assert Shots(e, interval, now) * interval == Shots(exp, interval, now) * interval + interval;
    } else {
      DivUnique(now - e, interval, 0, now - e);
    }
  }

  /** Afterwards the cyclic is due after now, on the same boundary as before; within one interval of now. */
  lemma NextDue(e: int, interval: int, now: int)
    requires interval > 0
    ensures Next(e, interval, now) > now && Next(e, interval, now) % interval == e % interval
    ensures e <= now ==> Next(e, interval, now) <= now + interval
    ensures e > 0 ==> Next(e, interval, now) > 0
  {
    if e <= now {
      var exp := e + interval;
      if now - exp > NANOSEC {
        DivBounds(now - exp, interval);
        var k := (now - exp) / interval + 2;
        assert Next(e, interval, now) == e + k * interval by {
          assert k * interval == interval + ((now - exp) / interval + 1) * interval;
        }
        ModShift(e, k, interval);
      } else {
        DivBounds(now - e, interval);
        ModShift(e, Shots(e, interval, now), interval);
      }
    }
  }

  // ---------------------------------------------------------------- all cyclics of a CPU

  function ShotsOf(c: Slot, now: int): nat {
    if c.free || c.interval <= 0 then 0 else Shots(c.expire, c.interval, now)
  }

  function Total(cs: seq<Slot>, now: int): nat {
    if cs == [] then 0 else ShotsOf(cs[0], now) + Total(cs[1..], now)
  }

  lemma {:induction false} TotalUpdate(cs: seq<Slot>, j: nat, c: Slot, now: int)
    requires j < |cs|
    ensures Total(cs[j := c], now) == Total(cs, now) - ShotsOf(cs[j], now) + ShotsOf(c, now)
  {
    if j == 0 {
      assert cs[j := c][1..] == cs[1..];
    } else {
      TotalUpdate(cs[1..], j - 1, c, now);
      assert cs[j := c][1..] == cs[1..][j - 1 := c];
    }
  }

  /** How often slot j occurs among the expiries. */
  function Times(calls: seq<nat>, j: nat): nat {
    if calls == [] then 0 else (if calls[|calls| - 1] == j then 1 else 0) + Times(calls[..|calls| - 1], j)
  }

  /** The state of a cyclic while its CPU fires: `made` of the shots it had are made, and it is still on its way to the
      same end. */
  predicate OnTheWay(was: Slot, c: Slot, made: nat, now: int) {
    && c == was.(expire := c.expire)
    && (was.free || was.interval <= 0 ==> c == was && made == 0)
    && (!was.free && was.interval > 0 ==>
          && made + Shots(c.expire, c.interval, now) == Shots(was.expire, was.interval, now)
          && Next(c.expire, c.interval, now) == Next(was.expire, was.interval, now)
          && (was.expire > 0 ==> c.expire > 0))
  }

  lemma StepOnTheWay(was: Slot, c: Slot, made: nat, now: int)
    requires OnTheWay(was, c, made, now) && !c.free && c.interval > 0 && c.expire <= now
    ensures OnTheWay(was, c.(expire := Advance(c.expire, c.interval, now)), made + 1, now)
    ensures ShotsOf(c, now) == ShotsOf(c.(expire := Advance(c.expire, c.interval, now)), now) + 1
  {
    OneShot(c.expire, c.interval, now);
  }

  /** When the cyclic is no longer due, all its shots are made. */
  lemma Arrived(was: Slot, c: Slot, made: nat, now: int)
    requires OnTheWay(was, c, made, now) && !was.free && was.interval > 0 && c.expire > now
    ensures made == Shots(was.expire, was.interval, now) && c.expire == Next(was.expire, was.interval, now)
  {
  }
}
