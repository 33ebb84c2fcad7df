/** Matching probes: whichever hash is picked, the result is that of scanning all probes. */
module ProbeMatch {
  import opened Options
  import opened ProbeHash

  /** How one component of a probe description is matched: by comparing strings, or in any other way. */
  datatype Pattern = Exact(s: string) | Glob(accepts: string -> bool)

  predicate Accepts(pt: Pattern, s: string) {
    match pt
    case Exact(t) => s == t
    case Glob(f) => f(s)
  }

  /** A compiled probe description; `allowed` is what privileges and the provider's state permit. */
  datatype ProbeKey = ProbeKey(id: nat, prov: Pattern, mod: Pattern, func: Pattern, name: Pattern,
      allowed: Probe -> bool)

  /** dtrace_match_probe. */
  predicate Matches(k: ProbeKey, p: Probe) {
    Accepts(k.prov, p.prov) && Accepts(k.mod, p.mod) && Accepts(k.func, p.func) && Accepts(k.name, p.name) &&
        k.allowed(p)
  }

  function Filter(q: seq<Probe>, f: Probe -> bool): seq<Probe> {
    if q == [] then [] else (if f(q[0]) then [q[0]] else []) + Filter(q[1..], f)
  }

  /** The probes there are, by identifier. */
  function Live(probes: seq<Option<Probe>>): seq<Probe> {
    if probes == [] then [] else (if probes[0].Some? then [probes[0].v] else []) + Live(probes[1..])
  }

  /** What scanning the probes finds. */
  function Scan(probes: seq<Option<Probe>>, k: ProbeKey): seq<Probe> {
    Filter(Live(probes), (p: Probe) => (k.id == 0 || p.id == k.id) && Matches(k, p))
  }

  /** The probes of one name. */
  function Named(probes: seq<Option<Probe>>, key: Probe -> string, s: string): seq<Probe> {
    Filter(Live(probes), (p: Probe) => key(p) == s)
  }

  // ---------------------------------------------------------------- filters and multisets

  lemma {:induction false} FilterCount(q: seq<Probe>, f: Probe -> bool, x: Probe)
    ensures multiset(Filter(q, f))[x] == if f(x) then multiset(q)[x] else 0
    decreases |q|
  {
    if q != [] {
      FilterCount(q[1..], f, x);
      assert q == [q[0]] + q[1..];
      assert multiset(q) == multiset{q[0]} + multiset(q[1..]);
      var head := if f(q[0]) then [q[0]] else [];
      assert multiset(Filter(q, f)) == multiset(head) + multiset(Filter(q[1..], f));
    }
  }

  lemma FilterSame(q: seq<Probe>, r: seq<Probe>, f: Probe -> bool, g: Probe -> bool)
    requires forall x :: (if f(x) then multiset(q)[x] else 0) == (if g(x) then multiset(r)[x] else 0)
    ensures multiset(Filter(q, f)) == multiset(Filter(r, g))
  {
    forall x
      ensures multiset(Filter(q, f))[x] == multiset(Filter(r, g))[x]
    {
      FilterCount(q, f, x);
      FilterCount(r, g, x);
    }
  }

  lemma {:induction false} FilterMore(q: seq<Probe>, p: Probe, f: Probe -> bool)
    ensures Filter(q + [p], f) == Filter(q, f) + if f(p) then [p] else []
    decreases |q|
  {
    if q == [] {
      assert [p][1..] == [] && q + [p] == [p];
    } else {
      assert (q + [p])[1..] == q[1..] + [p];
      FilterMore(q[1..], p, f);
      var head, last := if f(q[0]) then [q[0]] else [], if f(p) then [p] else [];
      assert Filter(q + [p], f) == head + Filter(q[1..] + [p], f);
      assert head + (Filter(q[1..], f) + last) == (head + Filter(q[1..], f)) + last;
    }
  }

  function One(o: Option<Probe>): multiset<Probe> {
    if o.Some? then multiset{o.v} else multiset{}
  }

  lemma LiveHead(probes: seq<Option<Probe>>)
    requires probes != []
    ensures forall x :: multiset(Live(probes))[x] == One(probes[0])[x] + multiset(Live(probes[1..]))[x]
  {
    var head := if probes[0].Some? then [probes[0].v] else [];
    assert multiset(Live(probes)) == multiset(head) + multiset(Live(probes[1..]));
  }

  lemma {:induction false} LiveAt(probes: seq<Option<Probe>>, i: nat, o: Option<Probe>)
    requires i < |probes|
    ensures forall x :: multiset(Live(probes[i := o]))[x] + One(probes[i])[x] == multiset(Live(probes))[x] + One(o)[x]
    decreases |probes|
  {
    hide Live, One;
    LiveHead(probes);
    LiveHead(probes[i := o]);
    if i == 0 {
      assert probes[i := o][1..] == probes[1..];
    } else {
      assert probes[i := o][1..] == probes[1..][i - 1 := o];
      LiveAt(probes[1..], i - 1, o);
    }
  }

  /** Filling an empty place adds its probe; emptying it takes the probe away. */
  lemma LiveFill(probes: seq<Option<Probe>>, i: nat, p: Probe)
    requires i < |probes| && probes[i].None?
    ensures multiset(Live(probes[i := Some(p)])) == multiset(Live(probes)) + multiset{p}
  {
    LiveAt(probes, i, Some(p));
  }

  lemma LiveVacate(probes: seq<Option<Probe>>, i: nat, p: Probe)
    requires i < |probes| && probes[i] == Some(p)
    ensures multiset(Live(probes[i := None])) + multiset{p} == multiset(Live(probes))
  {
    LiveAt(probes, i, None);
  }

  lemma {:induction false} LiveGrow(probes: seq<Option<Probe>>, n: nat)
    ensures Live(probes + seq(n, _ => None)) == Live(probes)
    decreases |probes| + n
  {
    var more := probes + seq(n, _ => None);
    if probes != [] {
      assert more[1..] == probes[1..] + seq(n, _ => None);
      LiveGrow(probes[1..], n);
    } else if n > 0 {
      assert more[1..] == [] + seq(n - 1, _ => None);
      LiveGrow([], n - 1);
    }
  }

  // ---------------------------------------------------------------- the probes and their hashes

  /** A table holds, under every name, the probes of that name. */
  ghost predicate Covers(key: Probe -> string, hash: string -> nat, tab: seq<seq<Bucket>>, probes: seq<Option<Probe>>) {
    |tab| > 0 && forall s :: multiset(Chain(key, hash, tab, s)) == multiset(Named(probes, key, s))
  }

  ghost predicate Agrees(h: Hash, probes: seq<Option<Probe>>)
    reads h
  {
    Covers(h.key, h.hash, h.tab, probes)
  }

  lemma CoversMore(key: Probe -> string, hash: string -> nat, tab: seq<seq<Bucket>>, tab': seq<seq<Bucket>>,
      was: seq<Option<Probe>>, probes: seq<Option<Probe>>, p: Probe)
    requires Covers(key, hash, tab, was) && |tab'| > 0 && multiset(Live(probes)) == multiset(Live(was)) + multiset{p}
    requires forall s :: Chain(key, hash, tab', s) == if s == key(p)
        then [p] + Chain(key, hash, tab, s) else Chain(key, hash, tab, s)
    ensures Covers(key, hash, tab', probes)
  {
    hide Named, Chain, Live;
    AddNamed(was, probes, key, p);
  }

  lemma CoversLess(key: Probe -> string, hash: string -> nat, tab: seq<seq<Bucket>>, tab': seq<seq<Bucket>>,
      was: seq<Option<Probe>>, probes: seq<Option<Probe>>, p: Probe)
    requires Covers(key, hash, tab, was) && |tab'| > 0 && multiset(Live(probes)) + multiset{p} == multiset(Live(was))
    requires forall s :: Chain(key, hash, tab', s) == if s == key(p)
        then Minus(Chain(key, hash, tab, s), p) else Chain(key, hash, tab, s)
    ensures Covers(key, hash, tab', probes)
  {
    hide Named, Chain, Live, Minus;
    RemoveNamed(was, probes, key, p);
  }

  function ModOf(p: Probe): string { p.mod }

  function FuncOf(p: Probe): string { p.func }

  function NameIs(p: Probe): string { p.name }

  /** Searching by hash: if the description fixes the name the hash is by, the probes under that name are all that can
      match. */
  lemma HashedIsScan(chain: seq<Probe>, probes: seq<Option<Probe>>, key: Probe -> string, s: string, k: ProbeKey)
    requires k.id == 0 && multiset(chain) == multiset(Named(probes, key, s)) &&
        (forall p :: Matches(k, p) ==> key(p) == s)
    ensures multiset(Filter(chain, (p: Probe) => Matches(k, p))) == multiset(Scan(probes, k))
  {
    var f, g := (p: Probe) => Matches(k, p), (p: Probe) => (k.id == 0 || p.id == k.id) && Matches(k, p);
    forall x
      ensures (if f(x) then multiset(chain)[x] else 0) == (if g(x) then multiset(Live(probes))[x] else 0)
    {
      FilterCount(Live(probes), (p: Probe) => key(p) == s, x);
    }
    FilterSame(chain, Live(probes), f, g);
  }

  class Registry {
    var probes: seq<Option<Probe>>
    const bymod: Hash
    const byfunc: Hash
    const byname: Hash

    ghost predicate Valid()
      reads this, bymod, byfunc, byname
    {
      && bymod != byfunc && bymod != byname && byfunc != byname
      && bymod.Valid() && byfunc.Valid() && byname.Valid()
      && bymod.key == ModOf && byfunc.key == FuncOf && byname.key == NameIs
      && Agrees(bymod, probes) && Agrees(byfunc, probes) && Agrees(byname, probes)
      && forall i :: 0 <= i < |probes| && probes[i].Some? ==> probes[i].v.id == i + 1
    }

    constructor (hash: string -> nat)
      ensures Valid() && probes == []
    {
      probes := [];
      bymod := new Hash(ModOf, hash);
      byfunc := new Hash(FuncOf, hash);
      byname := new Hash(NameIs, hash);
      new;
      hide Chain, TableOk, Total, Covers;
      NothingCovered(bymod);
      NothingCovered(byfunc);
      NothingCovered(byname);
    }

    /** A probe is created: it enters all three hashes and the array, which doubles if it is full. */
    method Create(p: Probe)
      requires Valid() && 0 < p.id <= |probes| + 1 && (p.id <= |probes| ==> probes[p.id - 1].None?)
      modifies this, bymod, byfunc, byname
      ensures Valid() && |probes| >= p.id && multiset(Live(probes)) == old(multiset(Live(probes))) + multiset{p}
    {
      hide Live, Chain, TableOk, Total, Covers;
      ghost var was, t1, t2, t3 := probes, bymod.tab, byfunc.tab, byname.tab;
      bymod.Add(p);
      byfunc.Add(p);
      byname.Add(p);
      if p.id - 1 >= |probes| {
        var n := if |probes| == 0 then 1 else |probes|;
        LiveGrow(probes, n);
        probes := probes + seq(n, _ => None);
      }
      LiveFill(probes, p.id - 1, p);
      probes := probes[p.id - 1 := Some(p)];
      assert bymod.Valid() && byfunc.Valid() && byname.Valid();
      HasTable(bymod);
      HasTable(byfunc);
      HasTable(byname);
      CoversMore(bymod.key, bymod.hash, t1, bymod.tab, was, probes, p);
      CoversMore(byfunc.key, byfunc.hash, t2, byfunc.tab, was, probes, p);
      CoversMore(byname.key, byname.hash, t3, byname.tab, was, probes, p);
    }

    /** A probe goes from all three hashes and from the array. */
    method Destroy(id: nat)
      requires Valid() && 0 < id <= |probes| && probes[id - 1].Some?
      modifies this, bymod, byfunc, byname
      ensures Valid() && probes == old(probes)[id - 1 := None]
      ensures multiset(Live(probes)) + multiset{old(probes)[id - 1].v} == old(multiset(Live(probes)))
    {
      hide Live, Chain, TableOk, Total, Minus, Covers;
      ghost var was, t1, t2, t3 := probes, bymod.tab, byfunc.tab, byname.tab;
      var p := probes[id - 1].v;
      OnceCovered(bymod, probes, p);
      OnceCovered(byfunc, probes, p);
      OnceCovered(byname, probes, p);
      bymod.Remove(p);
      byfunc.Remove(p);
      byname.Remove(p);
      LiveVacate(probes, id - 1, p);
      probes := probes[id - 1 := None];
      HasTable(bymod);
      HasTable(byfunc);
      HasTable(byname);
      CoversLess(bymod.key, bymod.hash, t1, bymod.tab, was, probes, p);
      CoversLess(byfunc.key, byfunc.hash, t2, byfunc.tab, was, probes, p);
      CoversLess(byname.key, byname.hash, t3, byname.tab, was, probes, p);
    }

    /** dtrace_match with a callback that asks for the next probe each time: the probes matched, each as often as a scan
        of all probes finds it. */
    method Match(k: ProbeKey) returns (matched: seq<Probe>)
      requires Valid()
      ensures multiset(matched) == multiset(Scan(probes, k))
    {
      hide Filter, Live, Named, Matches;
      if k.id != 0 {
        matched := ById(k);
        return;
      }
      ExactOnly(k);
      var best: Option<nat> := None;
      var which := 0;
      if k.mod.Exact? {
        var len := bymod.Collisions(k.mod.s);
        best, which := Some(len), 1;
      }
      if k.func.Exact? {
        var len := byfunc.Collisions(k.func.s);
        if best.None? || len < best.v {
          best, which := Some(len), 2;
        }
      }
      if k.name.Exact? {
        var len := byname.Collisions(k.name.s);
        if best.None? || len < best.v {
          best, which := Some(len), 3;
        }
      }
      if which == 0 {
        matched := All(k);
      } else if which == 1 {
        matched := ByHash(bymod, k.mod.s, k);
      } else if which == 2 {
        matched := ByHash(byfunc, k.func.s, k);
      } else {
        matched := ByHash(byname, k.name.s, k);
      }
    }

    /** The probes of one name, kept if they match the rest. */
    method ByHash(h: Hash, s: string, k: ProbeKey) returns (matched: seq<Probe>)
      requires h.Valid() && Agrees(h, probes) && k.id == 0 && forall p :: Matches(k, p) ==> h.key(p) == s
      ensures multiset(matched) == multiset(Scan(probes, k))
    {
      hide Live, Named, Matches, Scan;
      var chain := h.Lookup(s);
      ghost var f := (p: Probe) => Matches(k, p);
      matched := [];
      var i := 0;
      while i < |chain|
        invariant 0 <= i <= |chain| && matched == Filter(chain[..i], f)
      {
        assert chain[..i + 1] == chain[..i] + [chain[i]];
        FilterMore(chain[..i], chain[i], f);
        if Matches(k, chain[i]) {
          matched := matched + [chain[i]];
        }
        i := i + 1;
      }
      assert chain[..|chain|] == chain;
      HashedIsScan(chain, probes, h.key, s, k);
    }

    /** Every probe in turn. */
    method All(k: ProbeKey) returns (matched: seq<Probe>)
      requires k.id == 0
      ensures matched == Scan(probes, k)
    {
      hide Matches, Live, Filter;
      matched := [];
      var i := 0;
      ghost var f := (p: Probe) => (k.id == 0 || p.id == k.id) && Matches(k, p);
      assert probes[0..] == probes;
      while i < |probes|
        invariant 0 <= i <= |probes| && matched + Filter(Live(probes[i..]), f) == Filter(Live(probes), f)
      {
        TakeFirst(probes[i..], f);
        assert probes[i..][1..] == probes[i + 1..];
        ghost var first := if probes[i].Some? && f(probes[i].v) then [probes[i].v] else [];
        assert matched + (first + Filter(Live(probes[i + 1..]), f)) == matched + first +
            Filter(Live(probes[i + 1..]), f);
        if probes[i].Some? && Matches(k, probes[i].v) {
          matched := matched + [probes[i].v];
        }
        i := i + 1;
      }
      assert probes[|probes|..] == [];
      NothingLive(f);
    }

    /** The probe with the identifier asked for, if it matches. */
    method ById(k: ProbeKey) returns (matched: seq<Probe>)
      requires Valid() && k.id != 0
      ensures multiset(matched) == multiset(Scan(probes, k))
    {
      hide Matches;
      var i := k.id - 1;
      matched := if i < |probes| && probes[i].Some? && Matches(k, probes[i].v) then [probes[i].v] else [];
      OnlyId(probes, k, matched);
    }
  }

  lemma HasTable(h: Hash)
    requires h.Valid()
    ensures |h.tab| > 0
  {
  }

  lemma NothingCovered(h: Hash)
    requires h.Valid() && |h.tab| > 0 && forall s :: Chain(h.key, h.hash, h.tab, s) == []
    ensures Agrees(h, [])
  {
  }

  lemma OnceCovered(h: Hash, probes: seq<Option<Probe>>, p: Probe)
    requires h.Valid() && Agrees(h, probes)
    requires (forall i :: 0 <= i < |probes| && probes[i].Some? ==> probes[i].v.id == i + 1) && 0 < p.id <= |probes| &&
        probes[p.id - 1] == Some(p)
    ensures |h.tab| > 0 && p in h.Get(h.key(p)) && NoTwice(h.Get(h.key(p)))
  {
    hide Named, Chain, Live, TableOk;
    OnceNamed(probes, h.key, p, h.Get(h.key(p)));
  }

  lemma ExactOnly(k: ProbeKey)
    ensures k.mod.Exact? ==> forall p :: Matches(k, p) ==> ModOf(p) == k.mod.s
    ensures k.func.Exact? ==> forall p :: Matches(k, p) ==> FuncOf(p) == k.func.s
    ensures k.name.Exact? ==> forall p :: Matches(k, p) ==> NameIs(p) == k.name.s
  {
  }

  lemma NamedCount(probes: seq<Option<Probe>>, key: Probe -> string, s: string, x: Probe)
    ensures multiset(Named(probes, key, s))[x] == if key(x) == s then multiset(Live(probes))[x] else 0
  {
    FilterCount(Live(probes), (q: Probe) => key(q) == s, x);
  }

  lemma AddNamedTo(was: seq<Option<Probe>>, probes: seq<Option<Probe>>, key: Probe -> string, p: Probe, s: string)
    requires multiset(Live(probes)) == multiset(Live(was)) + multiset{p}
    ensures multiset(Named(probes, key, s)) == multiset(Named(was, key, s)) + if key(p) == s
        then multiset{p} else multiset{}
  {
    hide Named, Live;
    forall x
      ensures multiset(Named(probes, key, s))[x] == (multiset(Named(was, key, s)) + if key(p) == s
          then multiset{p} else multiset{})[x]
    {
      NamedCount(probes, key, s, x);
      NamedCount(was, key, s, x);
    }
  }

  lemma AddNamed(was: seq<Option<Probe>>, probes: seq<Option<Probe>>, key: Probe -> string, p: Probe)
    requires multiset(Live(probes)) == multiset(Live(was)) + multiset{p}
    ensures forall s :: multiset(Named(probes, key, s)) == multiset(Named(was, key, s)) + if key(p) == s
        then multiset{p} else multiset{}
  {
    hide Named, Live;
    forall s
      ensures multiset(Named(probes, key, s)) == multiset(Named(was, key, s)) + if key(p) == s
          then multiset{p} else multiset{}
    {
      AddNamedTo(was, probes, key, p, s);
    }
  }

  /** What is left of a chain when its only p goes. */
  lemma RemoveNamed(was: seq<Option<Probe>>, probes: seq<Option<Probe>>, key: Probe -> string, p: Probe)
    requires multiset(Live(probes)) + multiset{p} == multiset(Live(was))
    ensures forall s, chain :: multiset(chain) == multiset(Named(was, key, s)) && key(p) == s ==>
        multiset(Minus(chain, p)) == multiset(Named(probes, key, s))
    ensures forall s :: key(p) != s ==> multiset(Named(probes, key, s)) == multiset(Named(was, key, s))
  {
    AddNamed(probes, was, key, p);
    forall s, chain | multiset(chain) == multiset(Named(was, key, s)) && key(p) == s
      ensures multiset(Minus(chain, p)) == multiset(Named(probes, key, s))
    {
      assert p in multiset(chain);
      MinusOne(chain, p);
      assert multiset(Minus(chain, p)) + multiset{p} == multiset(Named(probes, key, s)) + multiset{p};
      assert multiset(Minus(chain, p)) == multiset(Named(probes, key, s)) + multiset{p} - multiset{p};
    }
  }

  lemma {:induction false} MinusOne(q: seq<Probe>, p: Probe)
    requires p in q
    ensures multiset(Minus(q, p)) + multiset{p} == multiset(q)
    decreases |q|
  {
    assert q == [q[0]] + q[1..];
    if q[0] != p {
      MinusOne(q[1..], p);
    }
  }

  /** A probe occurs once under its name. */
  lemma OnceNamed(probes: seq<Option<Probe>>, key: Probe -> string, p: Probe, chain: seq<Probe>)
    requires (forall i :: 0 <= i < |probes| && probes[i].Some? ==> probes[i].v.id == i + 1) && 0 < p.id <= |probes| &&
        probes[p.id - 1] == Some(p)
    requires multiset(chain) == multiset(Named(probes, key, key(p)))
    ensures p in chain && NoTwice(chain)
  {
    hide Named, Live;
    forall x
      ensures multiset(chain)[x] <= 1 && (x == p ==> multiset(chain)[x] == 1)
    {
      NamedCount(probes, key, key(p), x);
      LiveCount(probes, 0, x);
    }
    assert p in multiset(chain);
    forall i, j | 0 <= i < j < |chain|
      ensures chain[i] != chain[j]
    {
      if chain[i] == chain[j] {
        Twice(chain, i, j);
      }
    }
  }

  lemma Twice(q: seq<Probe>, i: nat, j: nat)
    requires i < j < |q| && q[i] == q[j]
    ensures multiset(q)[q[i]] >= 2
  {
    assert q == q[..i] + [q[i]] + q[i + 1..j] + [q[j]] + q[j + 1..];
  }

  lemma NothingLive(f: Probe -> bool)
    ensures Filter(Live([]), f) == []
  {
  }

  lemma FilterCons(v: Probe, q: seq<Probe>, f: Probe -> bool)
    ensures Filter([v] + q, f) == (if f(v) then [v] else []) + Filter(q, f)
  {
    assert ([v] + q)[1..] == q;
  }

  lemma TakeFirst(probes: seq<Option<Probe>>, f: Probe -> bool)
    requires probes != []
    ensures Filter(Live(probes), f) == (if probes[0].Some? && f(probes[0].v) then [probes[0].v] else []) +
        Filter(Live(probes[1..]), f)
  {
    hide Filter;
    if probes[0].Some? {
      FilterCons(probes[0].v, Live(probes[1..]), f);
    } else {
      assert Live(probes) == Live(probes[1..]);
      assert [] + Filter(Live(probes[1..]), f) == Filter(Live(probes[1..]), f);
    }
  }

  lemma OnlyId(probes: seq<Option<Probe>>, k: ProbeKey, matched: seq<Probe>)
    requires k.id > 0 && (forall i :: 0 <= i < |probes| && probes[i].Some? ==> probes[i].v.id == i + 1)
    requires var i := k.id - 1; matched == if i < |probes| && probes[i].Some? && Matches(k, probes[i].v)
        then [probes[i].v] else []
    ensures multiset(matched) == multiset(Scan(probes, k))
  {
    hide Matches, Filter, Live;
    var f := (p: Probe) => (k.id == 0 || p.id == k.id) && Matches(k, p);
    assert Scan(probes, k) == Filter(Live(probes), f);
    forall x
      ensures multiset(matched)[x] == multiset(Scan(probes, k))[x]
    {
      FilterCount(Live(probes), f, x);
      LiveCount(probes, 0, x);
    }
  }

  /** Each probe is there once, at the place its identifier says. */
  lemma {:induction false} LiveCount(probes: seq<Option<Probe>>, base: nat, x: Probe)
    requires forall i :: 0 <= i < |probes| && probes[i].Some? ==> probes[i].v.id == base + i + 1
    ensures multiset(Live(probes))[x] == if base < x.id <= base + |probes| && probes[x.id - 1 - base] == Some(x)
        then 1 else 0
    decreases |probes|
  {
    if probes != [] {
      LiveCount(probes[1..], base + 1, x);
      var head := if probes[0].Some? then [probes[0].v] else [];
      assert multiset(Live(probes)) == multiset(head) + multiset(Live(probes[1..]));
    }
  }
}
