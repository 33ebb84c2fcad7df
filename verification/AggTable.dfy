/** An aggregation as a plain table, and what it holds after any sequence of samples. */
module AggTable {

  datatype Row<K, V> = Row(key: K, val: V)

  /** One sample: a key, the value and the argument to aggregate. */
  datatype Sample<K> = Sample(key: K, expr: int, arg: int)

  predicate Holds<K(==), V>(t: seq<Row<K, V>>, k: K) {
    exists i :: 0 <= i < |t| && t[i].key == k
  }

  /** Each key has one row. */
  predicate Distinct<K(==), V>(t: seq<Row<K, V>>) {
    forall i, j :: 0 <= i < j < |t| ==> t[i].key != t[j].key
  }

  ghost function At<K(!new), V(!new)>(t: seq<Row<K, V>>, k: K): (i: nat)
    requires Holds(t, k)
    ensures i < |t| && t[i].key == k
  {
    var i :| 0 <= i < |t| && t[i].key == k; i
  }

  /** A sample: the aggregator is applied to its row, or to the initial value in a new row if there is room. */
  ghost function Apply<K(!new), V(!new)>(t: seq<Row<K, V>>, room: bool, s: Sample<K>, f: (V, int, int) -> V,
      init: V): seq<Row<K, V>> {
    if Holds(t, s.key) then
      var i := At(t, s.key);
      t[i := Row(s.key, f(t[i].val, s.expr, s.arg))]
    else if room then t + [Row(s.key, f(init, s.expr, s.arg))]
    else t
  }

  /** The table and the number of drops after a sequence of samples; whether another row fits depends on how many
      there are. */
  ghost function Run<K(!new), V(!new)>(ss: seq<Sample<K>>, room: nat -> bool, f: (V, int, int) -> V,
      init: V): (seq<Row<K, V>>, nat) {
    if ss == [] then ([], 0)
    else
      var (t, drops) := Run(ss[..|ss| - 1], room, f, init);
      var s := ss[|ss| - 1];
      (Apply(t, room(|t|), s, f, init), if !Holds(t, s.key) && !room(|t|) then drops + 1 else drops)
  }

  /** The aggregator folded over all samples of one key. */
  function Fold<K(==), V>(ss: seq<Sample<K>>, k: K, f: (V, int, int) -> V, init: V): V {
    if ss == [] then init
    else
      var v := Fold(ss[..|ss| - 1], k, f, init);
      var s := ss[|ss| - 1];
      if s.key == k then f(v, s.expr, s.arg) else v
  }

  function Count<K(==)>(ss: seq<Sample<K>>, k: K): nat {
    if ss == [] then 0 else Count(ss[..|ss| - 1], k) + if ss[|ss| - 1].key == k then 1 else 0
  }

  /** How many samples have a key without a row. */
  function Missing<K(==), V>(ss: seq<Sample<K>>, t: seq<Row<K, V>>): nat {
    if ss == [] then 0 else Missing(ss[..|ss| - 1], t) + if Holds(t, ss[|ss| - 1].key) then 0 else 1
  }

  lemma {:induction false} FoldNone<K(!new), V(!new)>(ss: seq<Sample<K>>, k: K, f: (V, int, int) -> V, init: V)
    requires Count(ss, k) == 0
    ensures Fold(ss, k, f, init) == init
    decreases |ss|
  {
    if ss != [] {
      FoldNone(ss[..|ss| - 1], k, f, init);
    }
  }

  lemma {:induction false} MissingNone<K(!new), V(!new)>(ss: seq<Sample<K>>, t: seq<Row<K, V>>, k: K)
    requires Missing(ss, t) == 0 && !Holds(t, k)
    ensures Count(ss, k) == 0
    decreases |ss|
  {
    if ss != [] {
      MissingNone(ss[..|ss| - 1], t, k);
    }
  }

  lemma {:induction false} MissingSame<K(!new), V(!new)>(ss: seq<Sample<K>>, t: seq<Row<K, V>>, t': seq<Row<K, V>>)
    requires forall k :: Holds(t', k) <==> Holds(t, k)
    ensures Missing(ss, t') == Missing(ss, t)
    decreases |ss|
  {
    if ss != [] {
      MissingSame(ss[..|ss| - 1], t, t');
    }
  }

  lemma {:induction false} MissingMore<K(!new), V(!new)>(ss: seq<Sample<K>>, t: seq<Row<K, V>>, t': seq<Row<K, V>>)
    requires (forall k :: Holds(t, k) ==> Holds(t', k)) && Missing(ss, t) == 0
    ensures Missing(ss, t') == 0
    decreases |ss|
  {
    if ss != [] {
      MissingMore(ss[..|ss| - 1], t, t');
    }
  }

  /** What is known after every sequence of samples. */
  ghost predicate Good<K(!new), V(!new)>(ss: seq<Sample<K>>, t: seq<Row<K, V>>, drops: nat, room: nat -> bool,
      f: (V, int, int) -> V, init: V) {
    && Distinct(t)
    && (forall i :: 0 <= i < |t| ==> t[i].val == Fold(ss, t[i].key, f, init))
    && drops == Missing(ss, t) && (drops > 0 ==> !room(|t|))
  }

  lemma HitHolds<K(!new), V(!new)>(t: seq<Row<K, V>>, i: nat, v: V)
    requires i < |t|
    ensures forall k :: Holds(t[i := Row(t[i].key, v)], k) <==> Holds(t, k)
  {
    var t' := t[i := Row(t[i].key, v)];
    forall k
      ensures Holds(t', k) <==> Holds(t, k)
    {
      if Holds(t, k) {
        var j :| 0 <= j < |t| && t[j].key == k;
        assert t'[j].key == k;
      }
    }
  }

  lemma AddHolds<K(!new), V(!new)>(t: seq<Row<K, V>>, r: Row<K, V>)
    ensures forall k :: Holds(t + [r], k) <==> Holds(t, k) || k == r.key
  {
    var t' := t + [r];
    forall k
      ensures Holds(t', k) <==> Holds(t, k) || k == r.key
    {
      if Holds(t, k) {
        var j :| 0 <= j < |t| && t[j].key == k;
        assert t'[j].key == k;
      }
      assert t'[|t|].key == r.key;
    }
  }

  lemma GoodStep<K(!new), V(!new)>(ss: seq<Sample<K>>, t: seq<Row<K, V>>, drops: nat, room: nat -> bool,
      f: (V, int, int) -> V, init: V, s: Sample<K>)
    requires Good(ss, t, drops, room, f, init)
    ensures var t' := Apply(t, room(|t|), s, f, init);
            Good(ss + [s], t', if !Holds(t, s.key) && !room(|t|) then drops + 1 else drops, room, f, init)
  {
    hide Holds;
    var t', ss' := Apply(t, room(|t|), s, f, init), ss + [s];
    assert ss'[..|ss'| - 1] == ss;
    if Holds(t, s.key) {
      HitHolds(t, At(t, s.key), t'[At(t, s.key)].val);
      MissingSame(ss, t, t');
    } else if room(|t|) {
      AddHolds(t, t'[|t|]);
      MissingNone(ss, t, s.key);
      FoldNone(ss, s.key, f, init);
      MissingMore(ss, t, t');
      forall i | 0 <= i < |t|
        ensures t[i].key != s.key
      {
        HoldsAt(t, i);
      }
    } else {
      forall i | 0 <= i < |t|
        ensures t[i].key != s.key
      {
        HoldsAt(t, i);
      }
    }
  }

  lemma HoldsAt<K(!new), V(!new)>(t: seq<Row<K, V>>, i: nat)
    requires i < |t|
    ensures Holds(t, t[i].key)
  {
  }

  /** After any sequence of samples: each key has one row, which holds the aggregator folded over all samples of that
      key; and the drops are exactly the samples of the keys that have no row, none of which was ever let in. */
  lemma {:induction false} RunGood<K(!new),
      V(!new)>(ss: seq<Sample<K>>, room: nat -> bool, f: (V, int, int) -> V, init: V)
    ensures var (t, drops) := Run(ss, room, f, init); Good(ss, t, drops, room, f, init)
    decreases |ss|
  {
    hide Good, Apply;
    if ss == [] {
      EmptyGood<K, V>(room, f, init);
    } else {
      RunGood(ss[..|ss| - 1], room, f, init);
      var (t, drops) := Run(ss[..|ss| - 1], room, f, init);
      GoodStep(ss[..|ss| - 1], t, drops, room, f, init, ss[|ss| - 1]);
      assert ss[..|ss| - 1] + [ss[|ss| - 1]] == ss;
    }
  }

  lemma EmptyGood<K(!new), V(!new)>(room: nat -> bool, f: (V, int, int) -> V, init: V)
    ensures Good<K, V>([], [], 0, room, f, init)
  {
  }
}
