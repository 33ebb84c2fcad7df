/** The hashes that find probes by module, function or name: chained buckets, one for each distinct name. */
module ProbeHash {

  datatype Probe = Probe(id: nat, prov: string, mod: string, func: string, name: string)

  /** The probes of one name, newest first, and how many there have ever been. */
  datatype Bucket = Bucket(chain: seq<Probe>, len: nat)

  function NameOf(key: Probe -> string, b: Bucket): string {
    if b.chain == [] then "" else key(b.chain[0])
  }

  /** A bucket holds probes of one name. */
  predicate BucketOk(key: Probe -> string, b: Bucket) {
    b.chain != [] && |b.chain| <= b.len && forall i :: 0 <= i < |b.chain| ==> key(b.chain[i]) == key(b.chain[0])
  }

  /** The buckets at index x of a table of n: each belongs there, no two of the same name. */
  predicate ListOk(key: Probe -> string, hash: string -> nat, n: nat, x: nat, bs: seq<Bucket>)
    requires n > 0
  {
    && (forall i :: 0 <= i < |bs| ==> BucketOk(key, bs[i]) && hash(NameOf(key, bs[i])) % n == x)
    && (forall i, j :: 0 <= i < j < |bs| ==> NameOf(key, bs[i]) != NameOf(key, bs[j]))
  }

  predicate TableOk(key: Probe -> string, hash: string -> nat, tab: seq<seq<Bucket>>) {
    |tab| > 0 && forall x :: 0 <= x < |tab| ==> ListOk(key, hash, |tab|, x, tab[x])
  }

  /** The probes of name k among the buckets. */
  function ChainIn(key: Probe -> string, bs: seq<Bucket>, k: string): seq<Probe> {
    if bs == [] then [] else if NameOf(key, bs[0]) == k then bs[0].chain else ChainIn(key, bs[1..], k)
  }

  function Chain(key: Probe -> string, hash: string -> nat, tab: seq<seq<Bucket>>, k: string): seq<Probe>
    requires |tab| > 0
  {
    ChainIn(key, tab[hash(k) % |tab|], k)
  }

  /** How many buckets there are. */
  function Total(tab: seq<seq<Bucket>>): nat {
    if tab == [] then 0 else |tab[0]| + Total(tab[1..])
  }

  // ---------------------------------------------------------------- lists of buckets

  lemma {:induction false} ChainAt(key: Probe -> string, bs: seq<Bucket>, i: nat, k: string)
    requires i < |bs| && NameOf(key, bs[i]) == k && (forall j :: 0 <= j < i ==> NameOf(key, bs[j]) != k)
    ensures ChainIn(key, bs, k) == bs[i].chain
    decreases i
  {
    if i > 0 {
      ChainAt(key, bs[1..], i - 1, k);
    }
  }

  lemma {:induction false} ChainNone(key: Probe -> string, bs: seq<Bucket>, k: string)
    requires forall j :: 0 <= j < |bs| ==> NameOf(key, bs[j]) != k
    ensures ChainIn(key, bs, k) == []
    decreases |bs|
  {
    if bs != [] {
      ChainNone(key, bs[1..], k);
    }
  }

  /** Replacing the contents of a bucket, but not its name. */
  lemma {:induction false} ChainReplace(key: Probe -> string, bs: seq<Bucket>, i: nat, b: Bucket, k: string)
    requires i < |bs| && NameOf(key, b) == NameOf(key, bs[i]) &&
        (forall j, l :: 0 <= j < l < |bs| ==> NameOf(key, bs[j]) != NameOf(key, bs[l]))
    ensures ChainIn(key, bs[i := b], k) == if k == NameOf(key, b) then b.chain else ChainIn(key, bs, k)
    decreases i
  {
    if i == 0 {
      assert bs[i := b][1..] == bs[1..];
    } else {
      assert bs[i := b][1..] == bs[1..][i - 1 := b];
      ChainReplace(key, bs[1..], i - 1, b, k);
    }
  }

  lemma {:induction false} ChainDrop(key: Probe -> string, bs: seq<Bucket>, i: nat, k: string)
    requires i < |bs| && (forall j, l :: 0 <= j < l < |bs| ==> NameOf(key, bs[j]) != NameOf(key, bs[l]))
    ensures ChainIn(key, bs[..i] + bs[i + 1..], k) == if k == NameOf(key, bs[i]) then [] else ChainIn(key, bs, k)
    decreases i
  {
    var cut := bs[..i] + bs[i + 1..];
    if i == 0 {
      assert cut == bs[1..];
      if k == NameOf(key, bs[0]) {
        ChainNone(key, bs[1..], k);
      }
    } else {
      assert cut[1..] == bs[1..][..i - 1] + bs[1..][i..];
      ChainDrop(key, bs[1..], i - 1, k);
    }
  }

  lemma {:induction false} TotalUpdate(tab: seq<seq<Bucket>>, x: nat, bs: seq<Bucket>)
    requires x < |tab|
    ensures Total(tab[x := bs]) == Total(tab) - |tab[x]| + |bs|
    decreases |tab|
  {
    if x == 0 {
      assert tab[x := bs][1..] == tab[1..];
    } else {
      assert tab[x := bs][1..] == tab[1..][x - 1 := bs];
      TotalUpdate(tab[1..], x - 1, bs);
    }
  }

  lemma {:induction false} TotalEmpty(tab: seq<seq<Bucket>>)
    requires forall x :: 0 <= x < |tab| ==> tab[x] == []
    ensures Total(tab) == 0
    decreases |tab|
  {
    if tab != [] {
      TotalEmpty(tab[1..]);
    }
  }

  lemma {:induction false} TotalAtLeast(tab: seq<seq<Bucket>>, x: nat)
    requires x < |tab|
    ensures Total(tab) >= |tab[x]|
    decreases |tab|
  {
    if x > 0 {
      TotalAtLeast(tab[1..], x - 1);
    }
  }

  /** A list changed in one place of the table. */
  lemma ChainElsewhere(key: Probe -> string, hash: string -> nat, tab: seq<seq<Bucket>>, x: nat, bs: seq<Bucket>,
      k: string)
    requires x < |tab|
    ensures Chain(key, hash, tab[x := bs], k) == if hash(k) % |tab| == x
        then ChainIn(key, bs, k) else Chain(key, hash, tab, k)
  {
  }

  lemma {:induction false} ChainEmpty(key: Probe -> string, bs: seq<Bucket>, k: string, j: nat)
    requires (forall i :: 0 <= i < |bs| ==> bs[i].chain != []) && ChainIn(key, bs, k) == [] && j < |bs|
    ensures NameOf(key, bs[j]) != k
    decreases j
  {
    if j > 0 {
      ChainEmpty(key, bs[1..], k, j - 1);
    }
  }

  lemma {:induction false} ChainPrefix(key: Probe -> string, bs: seq<Bucket>, j: nat, k: string)
    requires j < |bs| && (forall i, l :: 0 <= i < l < |bs| ==> NameOf(key, bs[i]) != NameOf(key, bs[l]))
    ensures ChainIn(key, bs[..j + 1], k) == if k == NameOf(key, bs[j]) then bs[j].chain else ChainIn(key, bs[..j], k)
    ensures k == NameOf(key, bs[j]) ==> ChainIn(key, bs[..j], k) == []
    decreases j
  {
    if j > 0 {
      assert bs[..j + 1][1..] == bs[1..][..j] && bs[..j][1..] == bs[1..][..j - 1];
      ChainPrefix(key, bs[1..], j - 1, k);
    } else {
      assert bs[..1][1..] == [] && bs[..0] == [];
    }
  }

  lemma {:induction false} TotalPrefix(tab: seq<seq<Bucket>>, i: nat)
    requires i < |tab|
    ensures Total(tab[..i + 1]) == Total(tab[..i]) + |tab[i]|
    decreases |tab|
  {
    if i > 0 {
      assert tab[..i + 1][1..] == tab[1..][..i] && tab[..i][1..] == tab[1..][..i - 1];
      TotalPrefix(tab[1..], i - 1);
    } else {
      assert tab[..1][1..] == [] && tab[..0] == [];
    }
  }

  /** A bucket of a new name goes to the front of its list. */
  lemma PushOk(key: Probe -> string, hash: string -> nat, tab: seq<seq<Bucket>>, b: Bucket)
    requires TableOk(key, hash, tab) && BucketOk(key, b) && Chain(key, hash, tab, NameOf(key, b)) == []
    ensures var x := hash(NameOf(key, b)) % |tab|; var tab' := tab[x := [b] + tab[x]];
            && TableOk(key, hash, tab') && Total(tab') == Total(tab) + 1
            && forall k :: Chain(key, hash, tab', k) == if k == NameOf(key, b)
                then b.chain else Chain(key, hash, tab, k)
  {
    var x := hash(NameOf(key, b)) % |tab|;
    var bs' := [b] + tab[x];
    forall j | 0 <= j < |tab[x]|
      ensures NameOf(key, tab[x][j]) != NameOf(key, b)
    {
      assert ListOk(key, hash, |tab|, x, tab[x]);
      ChainEmpty(key, tab[x], NameOf(key, b), j);
    }
    assert ListOk(key, hash, |tab|, x, bs') by {
      assert ListOk(key, hash, |tab|, x, tab[x]);
    }
    TotalUpdate(tab, x, bs');
    forall k
      ensures Chain(key, hash, tab[x := bs'], k) == if k == NameOf(key, b) then b.chain else Chain(key, hash, tab, k)
    {
      ChainElsewhere(key, hash, tab, x, bs', k);
      assert bs'[1..] == tab[x];
    }
  }

  /** A bucket changes, but not its name. */
  lemma ReplaceOk(key: Probe -> string, hash: string -> nat, tab: seq<seq<Bucket>>, x: nat, i: nat, b: Bucket)
    requires TableOk(key, hash, tab) && x < |tab| && i < |tab[x]| && BucketOk(key, b) &&
        NameOf(key, b) == NameOf(key, tab[x][i])
    ensures var tab' := tab[x := tab[x][i := b]];
            && TableOk(key, hash, tab') && Total(tab') == Total(tab)
            && forall k :: Chain(key, hash, tab', k) == if k == NameOf(key, b)
                then b.chain else Chain(key, hash, tab, k)
  {
    var bs' := tab[x][i := b];
    assert ListOk(key, hash, |tab|, x, tab[x]);
    assert ListOk(key, hash, |tab|, x, bs');
    TotalUpdate(tab, x, bs');
    forall k
      ensures Chain(key, hash, tab[x := bs'], k) == if k == NameOf(key, b) then b.chain else Chain(key, hash, tab, k)
    {
      ChainElsewhere(key, hash, tab, x, bs', k);
      ChainReplace(key, tab[x], i, b, k);
    }
  }

  /** A bucket goes. */
  lemma DropOk(key: Probe -> string, hash: string -> nat, tab: seq<seq<Bucket>>, x: nat, i: nat)
    requires TableOk(key, hash, tab) && x < |tab| && i < |tab[x]|
    ensures var tab' := tab[x := tab[x][..i] + tab[x][i + 1..]];
            && TableOk(key, hash, tab') && Total(tab') == Total(tab) - 1
            && forall k :: Chain(key, hash, tab', k) == if k == NameOf(key, tab[x][i])
                then [] else Chain(key, hash, tab, k)
  {
    var bs := tab[x];
    var bs' := bs[..i] + bs[i + 1..];
    assert ListOk(key, hash, |tab|, x, bs);
    assert forall j :: 0 <= j < |bs'| ==> bs'[j] == bs[if j < i then j else j + 1];
    assert ListOk(key, hash, |tab|, x, bs') && hash(NameOf(key, bs[i])) % |tab| == x;
    TotalUpdate(tab, x, bs');
    var tab' := tab[x := bs'];
    assert TableOk(key, hash, tab');
    forall k
      ensures Chain(key, hash, tab', k) == if k == NameOf(key, bs[i]) then [] else Chain(key, hash, tab, k)
    {
      DropElsewhere(key, hash, tab, x, i, k);
    }
  }

  lemma DropElsewhere(key: Probe -> string, hash: string -> nat, tab: seq<seq<Bucket>>, x: nat, i: nat, k: string)
    requires TableOk(key, hash, tab) && x < |tab| && i < |tab[x]|
    ensures Chain(key, hash, tab[x := tab[x][..i] + tab[x][i + 1..]], k) == if k == NameOf(key, tab[x][i])
        then [] else Chain(key, hash, tab, k)
  {
    assert ListOk(key, hash, |tab|, x, tab[x]);
    assert hash(NameOf(key, tab[x][i])) % |tab| == x;
    ChainElsewhere(key, hash, tab, x, tab[x][..i] + tab[x][i + 1..], k);
    ChainDrop(key, tab[x], i, k);
  }

  /** What has been moved to a table of twice the size when the lists before i and the first j buckets of list i
      have. */
  ghost predicate Halfway(key: Probe -> string, hash: string -> nat, tab: seq<seq<Bucket>>, new_tab: seq<seq<Bucket>>,
      i: nat, j: nat)
    requires |tab| > 0 && i <= |tab| && (i < |tab| ==> j <= |tab[i]|)
  {
    && TableOk(key, hash, new_tab) && Total(new_tab) == Total(tab[..i]) + (if i < |tab| then j else 0)
    && forall k :: Chain(key, hash, new_tab, k) ==
                   var a := hash(k) % |tab|;
                   if a < i then Chain(key, hash, tab, k) else if a == i && i < |tab|
                       then ChainIn(key, tab[i][..j], k) else []
  }

  lemma HalfwayStart(key: Probe -> string, hash: string -> nat, tab: seq<seq<Bucket>>, new_tab: seq<seq<Bucket>>)
    requires TableOk(key, hash, tab) && |new_tab| > 0 && forall x :: 0 <= x < |new_tab| ==> new_tab[x] == []
    ensures Halfway(key, hash, tab, new_tab, 0, 0)
  {
    TotalEmpty(new_tab);
    assert tab[..0] == [];
    assert tab[0][..0] == [];
  }

  lemma HalfwayStep(key: Probe -> string, hash: string -> nat, tab: seq<seq<Bucket>>, new_tab: seq<seq<Bucket>>, i: nat,
      j: nat)
    requires TableOk(key, hash, tab) && i < |tab| && j < |tab[i]| && Halfway(key, hash, tab, new_tab, i, j)
    ensures var b := tab[i][j]; |new_tab| > 0 && var x := hash(NameOf(key, b)) % |new_tab|;
            Halfway(key, hash, tab, new_tab[x := [b] + new_tab[x]], i, j + 1)
  {
    var b := tab[i][j];
    assert ListOk(key, hash, |tab|, i, tab[i]);
    ChainPrefix(key, tab[i], j, NameOf(key, b));
    PushOk(key, hash, new_tab, b);
    forall k
      ensures ChainIn(key, tab[i][..j + 1], k) == if k == NameOf(key, b) then b.chain else ChainIn(key, tab[i][..j], k)
    {
      ChainPrefix(key, tab[i], j, k);
    }
  }

  lemma HalfwayNext(key: Probe -> string, hash: string -> nat, tab: seq<seq<Bucket>>, new_tab: seq<seq<Bucket>>, i: nat)
    requires TableOk(key, hash, tab) && i < |tab| && Halfway(key, hash, tab, new_tab, i, |tab[i]|)
    ensures Halfway(key, hash, tab, new_tab, i + 1, 0)
  {
    TotalPrefix(tab, i);
    assert tab[i][..|tab[i]|] == tab[i];
    if i + 1 < |tab| {
      assert tab[i + 1][..0] == [];
    }
  }

  // ---------------------------------------------------------------- the hash in place

  class Hash {
    const key: Probe -> string
    const hash: string -> nat
    var tab: seq<seq<Bucket>>
    var nbuckets: nat

    ghost predicate Valid()
      reads this
    {
      TableOk(key, hash, tab) && nbuckets == Total(tab) && nbuckets <= 2 * |tab| + 2
    }

    /** The probes of name k: the hash as a map from names to lists of probes. */
    ghost function Get(k: string): seq<Probe>
      reads this
      requires |tab| > 0
    {
      Chain(key, hash, tab, k)
    }

    constructor (key: Probe -> string, hash: string -> nat)
      ensures Valid() && this.key == key && this.hash == hash && forall k :: Chain(key, hash, tab, k) == []
    {
      this.key, this.hash := key, hash;
      tab, nbuckets := [[]], 0;
    }

    /** Which bucket of its list has name k, or past the end. */
    method Find(k: string) returns (i: nat)
      requires Valid()
      ensures var bs := tab[hash(k) % |tab|];
              && i <= |bs| && (i < |bs| ==> NameOf(key, bs[i]) == k && Get(k) == bs[i].chain)
              && (i == |bs| ==> Get(k) == [])
    {
      var bs := tab[hash(k) % |tab|];
      i := 0;
      while i < |bs| && NameOf(key, bs[i]) != k
        invariant 0 <= i <= |bs| && forall j :: 0 <= j < i ==> NameOf(key, bs[j]) != k
      {
        i := i + 1;
      }
      if i < |bs| {
        ChainAt(key, bs, i, k);
      } else {
        ChainNone(key, bs, k);
      }
    }

    method Lookup(k: string) returns (chain: seq<Probe>)
      requires Valid()
      ensures chain == Get(k)
    {
      var i := Find(k);
      var bs := tab[hash(k) % |tab|];
      return if i < |bs| then bs[i].chain else [];
    }

    /** How many probes of name k its bucket has had; removals are not taken off, so at least as many as it has. */
    method Collisions(k: string) returns (len: nat)
      requires Valid()
      ensures (len == 0 <==> Get(k) == []) && |Get(k)| <= len
    {
      var i := Find(k);
      var bs := tab[hash(k) % |tab|];
      if i < |bs| {
        assert ListOk(key, hash, |tab|, hash(k) % |tab|, bs);
      }
      return if i < |bs| then bs[i].len else 0;
    }

    /** The table doubles; every bucket moves to its new list, and no name loses or gains a probe. */
    method Resize()
      requires Valid()
      modifies this
      ensures Valid() && |tab| == 2 * old(|tab|) && nbuckets == old(nbuckets) && forall k ::
          Chain(key, hash, tab, k) == Chain(key, hash, old(tab), k)
    {
      hide TableOk, Chain, Total, Halfway;
      NonEmpty(key, hash, tab);
      var was, size := tab, |tab|;
      var new_tab: seq<seq<Bucket>> := seq(2 * size, _ => []);
      HalfwayStart(key, hash, was, new_tab);
      var i := 0;
      while i < size
        invariant 0 <= i <= size && |new_tab| == 2 * size && tab == was && nbuckets == old(nbuckets) &&
            Halfway(key, hash, was, new_tab, i, 0)
      {
        var j := 0;
        while j < |was[i]|
          invariant 0 <= j <= |was[i]| && |new_tab| == 2 * size && tab == was && nbuckets == old(nbuckets) &&
              Halfway(key, hash, was, new_tab, i, j)
        {
          var b := was[i][j];
          var ndx := hash(NameOf(key, b)) % |new_tab|;
          HalfwayStep(key, hash, was, new_tab, i, j);
          new_tab := new_tab[ndx := [b] + new_tab[ndx]];
          j := j + 1;
        }
        HalfwayNext(key, hash, was, new_tab, i);
        i := i + 1;
      }
      HalfwayEnd(key, hash, was, new_tab);
      tab := new_tab;
    }

    /** A probe is added to the front of its name's list.  If the table is full it doubles first, and then has room: at
        most once. */
    method Add(p: Probe)
      requires Valid()
      modifies this
      ensures Valid() && (|tab| == old(|tab|) || |tab| == 2 * old(|tab|))
      ensures old(nbuckets / 2 <= |tab|) ==> |tab| == old(|tab|)
      ensures forall k :: Chain(key, hash, tab, k) == if k == key(p)
          then [p] + Chain(key, hash, old(tab), k) else Chain(key, hash, old(tab), k)
      decreases if nbuckets / 2 > |tab| then 1 else 0
    {
      hide TableOk, Chain, Total, BucketOk;
      NonEmpty(key, hash, tab);
      var k := key(p);
      var x := hash(k) % |tab|;
      var i := Find(k);
      if i < |tab[x]| {
        var b := Bucket([p] + tab[x][i].chain, tab[x][i].len + 1);
        Longer(key, hash, tab, x, i, p);
        ReplaceOk(key, hash, tab, x, i, b);
        tab := tab[x := tab[x][i := b]];
        return;
      }
      if nbuckets / 2 > |tab| {
        Resize();
        Add(p);
        return;
      }
      var b := Bucket([p], 1);
      Lone(key, p);
      PushOk(key, hash, tab, b);
      tab := tab[x := [b] + tab[x]];
      nbuckets := nbuckets + 1;
    }

    /** A probe is removed from its name's list; with the last one the bucket goes. */
    method Remove(p: Probe)
      requires Valid() && p in Get(key(p)) && NoTwice(Get(key(p)))
      modifies this
      ensures Valid() && |tab| == old(|tab|)
      ensures forall k :: Chain(key, hash, tab, k) == if k == key(p)
          then Minus(Chain(key, hash, old(tab), k), p) else Chain(key, hash, old(tab), k)
    {
      hide TableOk, Chain, Total, BucketOk;
      NonEmpty(key, hash, tab);
      var k := key(p);
      var x := hash(k) % |tab|;
      var i := Find(k);
      var b := tab[x][i];
      var rest := Minus(b.chain, p);
      if rest == [] {
        DropOk(key, hash, tab, x, i);
        tab := tab[x := tab[x][..i] + tab[x][i + 1..]];
        nbuckets := nbuckets - 1;
      } else {
        Shorter(key, hash, tab, x, i, p);
        ReplaceOk(key, hash, tab, x, i, Bucket(rest, b.len));
        tab := tab[x := tab[x][i := Bucket(rest, b.len)]];
      }
    }
  }

  predicate NoTwice(q: seq<Probe>) {
    forall i, j :: 0 <= i < j < |q| ==> q[i] != q[j]
  }

  /** A list without its (only) occurrence of p. */
  function Minus(q: seq<Probe>, p: Probe): seq<Probe> {
    if q == [] then [] else if q[0] == p then q[1..] else [q[0]] + Minus(q[1..], p)
  }

  lemma NonEmpty(key: Probe -> string, hash: string -> nat, tab: seq<seq<Bucket>>)
    requires TableOk(key, hash, tab)
    ensures |tab| > 0
  {
  }

  lemma Lone(key: Probe -> string, p: Probe)
    ensures BucketOk(key, Bucket([p], 1)) && NameOf(key, Bucket([p], 1)) == key(p)
  {
  }

  lemma Longer(key: Probe -> string, hash: string -> nat, tab: seq<seq<Bucket>>, x: nat, i: nat, p: Probe)
    requires TableOk(key, hash, tab) && x < |tab| && i < |tab[x]| && NameOf(key, tab[x][i]) == key(p)
    ensures var b := Bucket([p] + tab[x][i].chain, tab[x][i].len + 1); BucketOk(key, b) && NameOf(key, b) == key(p)
  {
    assert ListOk(key, hash, |tab|, x, tab[x]);
  }

  lemma Shorter(key: Probe -> string, hash: string -> nat, tab: seq<seq<Bucket>>, x: nat, i: nat, p: Probe)
    requires TableOk(key, hash, tab) && x < |tab| && i < |tab[x]| && Minus(tab[x][i].chain, p) != []
    ensures var b := Bucket(Minus(tab[x][i].chain, p), tab[x][i].len);
        BucketOk(key, b) && NameOf(key, b) == NameOf(key, tab[x][i])
  {
    assert ListOk(key, hash, |tab|, x, tab[x]);
    var q := tab[x][i].chain;
    MinusShorter(q, p);
    forall j | 0 <= j < |Minus(q, p)|
      ensures Minus(q, p)[j] in q
    {
      MinusIn(q, p, j);
    }
  }

  lemma {:induction false} MinusShorter(q: seq<Probe>, p: Probe)
    ensures |Minus(q, p)| <= |q|
    decreases |q|
  {
    if q != [] {
      MinusShorter(q[1..], p);
    }
  }

  lemma {:induction false} MinusIn(q: seq<Probe>, p: Probe, j: nat)
    requires j < |Minus(q, p)|
    ensures Minus(q, p)[j] in q
    decreases |q|
  {
    if q[0] != p && j > 0 {
      MinusIn(q[1..], p, j - 1);
    }
  }

  lemma HalfwayEnd(key: Probe -> string, hash: string -> nat, tab: seq<seq<Bucket>>, new_tab: seq<seq<Bucket>>)
    requires |tab| > 0 && Halfway(key, hash, tab, new_tab, |tab|, 0)
    ensures TableOk(key, hash, new_tab) && Total(new_tab) == Total(tab) && forall k ::
        Chain(key, hash, new_tab, k) == Chain(key, hash, tab, k)
  {
    assert tab[..|tab|] == tab;
  }
}
