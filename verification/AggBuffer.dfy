/** The aggregation buffer in place: tuples and values grow from the bottom, keys from the top. */
module AggBuffer {
  import opened Options
  import opened AggSpec
  import opened AggTable

  const KEYSIZE: nat := 24
  const METASIZE: nat := 24
  const PTRSIZE: nat := 8
  const SLEW: nat := 17

  /** A key: the hash of its tuple, where its tuple is, and the next key of its bucket.  Keys are numbered from the top
      of the buffer down. */
  datatype AggKey = AggKey(hashval: bv32, data: nat, next: Option<nat>)

  function Bucket(h: bv32, buckets: nat): nat
    requires buckets > 0
  {
    (h as nat) % buckets
  }

  /** About an eighth of the buffer becomes buckets; None if the buffer is ludicrously small. */
  function Buckets(len: nat): Option<nat> {
    var n := len / 8 / PTRSIZE;
    if n == 0 || METASIZE + PTRSIZE * n > len then None else if n > 8 * SLEW then Some(n - SLEW) else Some(n)
  }

  /** How far the data reaches after n tuples. */
  function Reach(fsize: nat, n: nat): nat {
    if n == 0 then 0 else Align(Reach(fsize, n - 1)) + fsize
  }

  /** Whether another tuple and its key fit beside n of them. */
  predicate Room(len: nat, fsize: nat, n: nat) {
    Buckets(len).Some? && Align(Reach(fsize, n)) + fsize + KEYSIZE * (n + 1) + PTRSIZE * Buckets(len).v +
        METASIZE <= len
  }

  function RoomFor(len: nat, fsize: nat): nat -> bool {
    (n: nat) => Room(len, fsize, n)
  }

  function Align(offs: nat): nat {
    if offs % 8 == 0 then offs else offs + (8 - offs % 8)
  }

  lemma Eights(offs: nat)
    requires offs % 4 == 0
    ensures offs % 8 == 0 || (offs % 8 == 4 && (offs + 4) % 8 == 0)
  {
    var q := offs / 4;
    assert offs == 4 * q;
    if q % 2 == 0 {
      assert offs == 8 * (q / 2);
    } else {
      assert offs == 8 * (q / 2) + 4 && offs + 4 == 8 * (q / 2 + 1);
    }
  }

  /** The alignment loop: four bytes at a time while either of bits 1 and 2 is set. */
  method Aligned(offset: nat) returns (offs: nat)
    requires offset % 4 == 0
    ensures offs == Align(offset)
  {
    Eights(offset);
    offs := offset;
    while offs % 8 / 2 != 0
      invariant offs == offset || (offset % 8 == 4 && offs == offset + 4)
      decreases offset + 4 - offs
    {
      offs := offs + 4;
    }
  }

  lemma {:induction false} ReachFours(fsize: nat, n: nat)
    requires fsize % 4 == 0
    ensures Reach(fsize, n) % 4 == 0
  {
    if n > 0 {
      ReachFours(fsize, n - 1);
      Eights(Reach(fsize, n - 1));
      FoursAdd(Align(Reach(fsize, n - 1)), fsize);
    }
  }

  lemma FoursAdd(a: nat, b: nat)
    requires a % 8 == 0 && b % 4 == 0
    ensures (a + b) % 4 == 0
  {
    var p, q := a / 8, b / 4;
    assert a == 8 * p && b == 4 * q;
    assert a + b == 4 * (2 * p + q);
  }

  /** From `from`, the first key of bucket b below `below`. */
  predicate Leads(keys: seq<AggKey>, buckets: nat, from: Option<nat>, b: nat, below: nat)
    requires buckets > 0 && below <= |keys|
  {
    match from
    case None => forall j :: 0 <= j < below ==> Bucket(keys[j].hashval, buckets) != b
    case Some(i) => i < below && Bucket(keys[i].hashval, buckets) == b && forall j :: i < j < below ==>
        Bucket(keys[j].hashval, buckets) != b
  }

  /** The buckets chain every key exactly once, newest first. */
  predicate Chained(keys: seq<AggKey>, hash: seq<Option<nat>>) {
    && |hash| > 0
    && (forall i :: 0 <= i < |keys| ==> Leads(keys, |hash|, keys[i].next, Bucket(keys[i].hashval, |hash|), i))
    && (forall b :: 0 <= b < |hash| ==> Leads(keys, |hash|, hash[b], b, |keys|))
  }

  /** The tuples and values lie one behind the other below `limit`. */
  predicate Stacked(keys: seq<AggKey>, fsize: nat, limit: nat) {
    && (forall i :: 0 <= i < |keys| ==> keys[i].data + fsize <= limit)
    && (forall i, j :: 0 <= i < j < |keys| ==> keys[i].data + fsize <= keys[j].data)
  }

  lemma LeadsMore(keys: seq<AggKey>, k: AggKey, buckets: nat, from: Option<nat>, b: nat, below: nat)
    requires buckets > 0 && below <= |keys| && Leads(keys, buckets, from, b, below)
    ensures Leads(keys + [k], buckets, from, b, below)
    ensures below == |keys| && Bucket(k.hashval, buckets) != b ==> Leads(keys + [k], buckets, from, b, below + 1)
  {
  }

  /** A new key in front of its bucket. */
  lemma ChainMore(keys: seq<AggKey>, hash: seq<Option<nat>>, k: AggKey)
    requires Chained(keys, hash) && k.next == hash[Bucket(k.hashval, |hash|)]
    ensures Chained(keys + [k], hash[Bucket(k.hashval, |hash|) := Some(|keys|)])
  {
    var n, keys', b := |hash|, keys + [k], Bucket(k.hashval, |hash|);
    var hash' := hash[b := Some(|keys|)];
    forall i | 0 <= i < |keys'|
      ensures Leads(keys', n, keys'[i].next, Bucket(keys'[i].hashval, n), i)
    {
      if i < |keys| {
        LeadsMore(keys, k, n, keys[i].next, Bucket(keys[i].hashval, n), i);
      } else {
        LeadsMore(keys, k, n, hash[b], b, |keys|);
      }
    }
    forall a | 0 <= a < |hash'|
      ensures Leads(keys', n, hash'[a], a, |keys'|)
    {
      if a != b {
        LeadsMore(keys, k, n, hash[a], a, |keys|);
      }
    }
  }

  predicate Inside(keys: seq<AggKey>, size: nat, len: nat) {
    forall i :: 0 <= i < |keys| ==> keys[i].data + size <= len
  }

  /** The buffer is laid out soundly: data below the keys, keys below the buckets, every tuple hashed and there once. */
  ghost predicate Sound(t: seq<byte>, fields: seq<Field>, size: nat, fsize: nat, offset: nat, free: nat,
      hash: seq<Option<nat>>, keys: seq<AggKey>) {
    && offset == Reach(fsize, |keys|)
    && (offset > 0 ==> Ready(|t|, fsize, offset, free, hash, keys) && offset <= free)
    && Inside(keys, size, |t|)
    && Hashed(keys, CanonsOf(t, fields, size, keys)) && Single(CanonsOf(t, fields, size, keys))
  }

  lemma OffsetFours(t: seq<byte>, fields: seq<Field>, size: nat, fsize: nat, offset: nat, free: nat,
      hash: seq<Option<nat>>, keys: seq<AggKey>)
    requires Sound(t, fields, size, fsize, offset, free, hash, keys) && fsize % 4 == 0
    ensures offset % 4 == 0
  {
    hide Ready, Hashed, Single, CanonsOf, Reach;
    ReachFours(fsize, |keys|);
  }

  /** The buckets are ready: those of a buffer in use, or fresh ones. */
  predicate Ready(len: nat, fsize: nat, offset: nat, free: nat, hash: seq<Option<nat>>, keys: seq<AggKey>) {
    && Buckets(len) == Some(|hash|) && Chained(keys, hash) && Stacked(keys, fsize, offset)
    && free + KEYSIZE * |keys| + PTRSIZE * |hash| + METASIZE == len
  }

  /** What the bytes of a buffer in use are for: tuples with their values, keys, buckets, and the description at the
      end. */
  datatype Part = TuplePart(i: nat) | KeyPart(i: nat) | BucketPart(b: nat) | MetaPart

  predicate HasPart(part: Part, hash: seq<Option<nat>>, keys: seq<AggKey>) {
    match part
    case TuplePart(i) => i < |keys|
    case KeyPart(i) => i < |keys|
    case BucketPart(b) => b < |hash|
    case MetaPart => true
  }

  /** Where a part starts, and where it ends. */
  function Extent(part: Part, len: nat, fsize: nat, hash: seq<Option<nat>>, keys: seq<AggKey>): (int, int)
    requires HasPart(part, hash, keys)
  {
    var top := len - METASIZE - PTRSIZE * |hash|;
    match part
    case TuplePart(i) => (keys[i].data, keys[i].data + fsize)
    case KeyPart(i) => (top - KEYSIZE * (i + 1), top - KEYSIZE * i)
    case BucketPart(b) => (top + PTRSIZE * b, top + PTRSIZE * (b + 1))
    case MetaPart => (len - METASIZE, len)
  }

  /** No byte belongs to two parts, and every part is inside the buffer: data growing up never meets keys
      growing down. */
  lemma PartsApart(len: nat, fsize: nat, offset: nat, free: nat, hash: seq<Option<nat>>, keys: seq<AggKey>, p: Part,
      q: Part)
    requires Ready(len, fsize, offset, free, hash, keys) && offset <= free && HasPart(p, hash, keys) &&
        HasPart(q, hash, keys) && p != q
    ensures var (lo, hi), (lo', hi') := Extent(p, len, fsize, hash, keys), Extent(q, len, fsize, hash, keys);
            0 <= lo <= hi <= len && (hi <= lo' || hi' <= lo)
  {
    hide Chained;
  }

  ghost function CanonsOf(t: seq<byte>, fields: seq<Field>, size: nat, keys: seq<AggKey>): (cs: seq<seq<seq<byte>>>)
    requires Inside(keys, size, |t|)
    ensures |cs| == |keys| && forall i :: 0 <= i < |keys| ==>
        cs[i] == Canon(fields, t[keys[i].data..keys[i].data + size])
  {
    if keys == [] then []
    else
      CanonsOf(t, fields, size, keys[..|keys| - 1]) +
          [Canon(fields, t[keys[|keys| - 1].data..keys[|keys| - 1].data + size])]
  }

  /** Each key has the hash of its tuple. */
  predicate Hashed(keys: seq<AggKey>, cs: seq<seq<seq<byte>>>) {
    |cs| == |keys| && forall i :: 0 <= i < |keys| ==> keys[i].hashval == HashOf(cs[i])
  }

  /** No canonical key occurs twice. */
  predicate Single(cs: seq<seq<seq<byte>>>) {
    forall i, j :: 0 <= i < j < |cs| ==> cs[i] != cs[j]
  }

  function Rows<V>(cs: seq<seq<seq<byte>>>, vals: seq<V>): (t: seq<Row<seq<seq<byte>>, V>>)
    requires |cs| == |vals|
    ensures |t| == |cs| && forall i :: 0 <= i < |t| ==> t[i] == Row(cs[i], vals[i])
  {
    if cs == [] then [] else Rows(cs[..|cs| - 1], vals[..|vals| - 1]) + [Row(cs[|cs| - 1], vals[|vals| - 1])]
  }

  /** Between a key and the next one of its bucket there is no tuple with this hash. */
  lemma Skipped(keys: seq<AggKey>, cs: seq<seq<seq<byte>>>, buckets: nat, from: Option<nat>, c: seq<seq<byte>>,
      below: nat)
    requires buckets > 0 && below <= |keys| && Hashed(keys, cs) &&
        Leads(keys, buckets, from, Bucket(HashOf(c), buckets), below)
    ensures forall j :: 0 <= j < below && (from.Some? ==> j > from.v) ==> cs[j] != c
  {
  }

  lemma LeadsBelow(keys: seq<AggKey>, buckets: nat, from: Option<nat>, b: nat, below: nat)
    requires buckets > 0 && below <= |keys| && Leads(keys, buckets, from, b, below) && from.Some?
    ensures from.v < below && Bucket(keys[from.v].hashval, buckets) == b
  {
  }

  lemma OtherHash(keys: seq<AggKey>, cs: seq<seq<seq<byte>>>, i: nat, c: seq<seq<byte>>)
    requires Hashed(keys, cs) && i < |keys| && keys[i].hashval != HashOf(c)
    ensures cs[i] != c
  {
  }

  class Buffer<V(!new)> {
    const fields: seq<Field>
    const size: nat
    const fsize: nat
    const id: seq<byte>
    const aggregate: (V, int, int) -> V
    const initial: V
    const tomax: array<byte>

    var offset: nat
    var free: nat
    var hash: seq<Option<nat>>
    var keys: seq<AggKey>
    var vals: seq<V>
    var drops: nat

    /** The canonical keys of the tuples in the buffer. */
    ghost function Canons(): (cs: seq<seq<seq<byte>>>)
      reads this, tomax
      requires Inside(keys, size, tomax.Length)
      ensures |cs| == |keys|
    {
      CanonsOf(tomax[..], fields, size, keys)
    }

    ghost predicate Valid()
      reads this, tomax
    {
      && Layout(fields, size) && size <= fsize && 0 < fsize && fsize % 4 == 0 && |id| == 4 && |vals| == |keys| &&
          Inside(keys, size, tomax.Length)
      && Sound(tomax[..], fields, size, fsize, offset, free, hash, keys)
    }

    /** The buffer as a table: one row for each canonical key. */
    ghost function Table(): seq<Row<seq<seq<byte>>, V>>
      reads this, tomax
      requires Valid()
    {
      Rows(Canons(), vals)
    }

    /** An empty buffer for one aggregation. */
    constructor (fields: seq<Field>, size: nat, fsize: nat, id: seq<byte>, aggregate: (V, int, int) -> V, initial: V,
        tomax: array<byte>)
      requires Layout(fields, size) && size <= fsize && fsize % 4 == 0 && |id| == 4
      ensures Valid() && Table() == [] && drops == 0
      ensures this.fields == fields && this.size == size && this.fsize == fsize && this.aggregate == aggregate &&
          this.initial == initial && this.tomax == tomax
    {
      this.fields, this.size, this.fsize, this.id := fields, size, fsize, id;
      this.aggregate, this.initial, this.tomax := aggregate, initial, tomax;
      offset, free, hash, keys, vals, drops := 0, 0, [], [], [], 0;
    }

    lemma AllHashed()
      requires Valid()
      ensures Hashed(keys, Canons())
    {
      hide Canon, CanonsOf, Hashed, Single, Ready, Layout;
    }

    /** The tuple of a key, in canonical form. */
    lemma TupleIs(i: nat)
      requires Valid() && i < |keys|
      ensures Hashed(keys, Canons()) && Canons()[i] == Canon(fields, tomax[keys[i].data..keys[i].data + size])
    {
      hide Canon, CanonsOf, Hashed, Single, Ready, Layout;
      assert tomax[..][keys[i].data..keys[i].data + size] == tomax[keys[i].data..keys[i].data + size];
    }

    /** The key whose tuple is the same as d, if there is one. */
    method Find(d: seq<byte>, h: bv32) returns (found: Option<nat>)
      requires Valid() && |d| == size && h == HashOf(Canon(fields, d)) && Chained(keys, hash)
      ensures found.Some? ==> found.v < |keys| && Canons()[found.v] == Canon(fields, d)
      ensures found.None? ==> Canon(fields, d) !in Canons()
    {
      hide Layout, HashOf, Canon, Bucket, Hashed, Single, Leads, Stacked, Ready, Canons;
      var b := Bucket(h, |hash|);
      BucketBelow(h, |hash|);
      var key := hash[b];
      ghost var cs, c, below := Canons(), Canon(fields, d), |keys|;
      while key.Some?
        invariant 0 <= below <= |keys| && Leads(keys, |hash|, key, b, below)
        invariant forall i :: below <= i < |keys| ==> cs[i] != c
        decreases below
      {
        var i := key.v;
        LeadsBelow(keys, |hash|, key, b, below);
        TupleIs(i);
        Skipped(keys, cs, |hash|, key, c, below);
        if keys[i].hashval == h {
          var same := SameKey(fields, tomax[keys[i].data..keys[i].data + size], d);
          if same {
            return Some(i);
          }
        } else {
          OtherHash(keys, cs, i, c);
        }
        key, below := keys[i].next, i;
      }
      AllHashed();
      Skipped(keys, cs, |hash|, key, c, below);
      return None;
    }

    /** The first use of the buffer: the buckets are laid out at the top and emptied. */
    method Setup() returns (ok: bool)
      requires Valid()
      modifies this`hash, this`free
      ensures Valid() && ok == Buckets(tomax.Length).Some? &&
          (ok ==> Ready(tomax.Length, fsize, offset, free, hash, keys))
    {
      if offset > 0 {
        return true;
      }
      ReachZero(fsize, |keys|);
      match Buckets(tomax.Length)
      case None => return false;
      case Some(n) =>
        BucketsFit(tomax.Length);
        hash := seq(n, _ => None);
        free := tomax.Length - METASIZE - PTRSIZE * n;
        return true;
    }

    /** A new key and its tuple are added, if there is room beside the others. */
    method Insert(d: seq<byte>, h: bv32, expr: int, arg: int) returns (ok: bool)
      requires Valid() && Ready(tomax.Length, fsize, offset, free, hash, keys)
      requires |d| == size && h == HashOf(Canon(fields, d)) && Canon(fields, d) !in Canons()
      modifies this`offset, this`free, this`hash, this`keys, this`vals, tomax
      ensures Valid() && ok == Room(tomax.Length, fsize, |old(keys)|)
      ensures ok ==>
          Canons() == old(Canons()) + [Canon(fields, d)] && vals == old(vals) + [aggregate(initial, expr, arg)]
      ensures !ok ==> Canons() == old(Canons()) && vals == old(vals)
    {
      hide Sound, Ready, HashOf, Canon, Bucket, Align, Layout, Inside, CanonsOf, Room, Chained;
      RoomIs(tomax[..], fields, size, fsize, offset, free, hash, keys);
      OffsetFours(tomax[..], fields, size, fsize, offset, free, hash, keys);
      var offs := Aligned(offset);
      if offs + fsize + KEYSIZE > free {
        return false;
      }
      ghost var t, free0, hash0, keys0 := tomax[..], free, hash, keys;
      ReadyFacts(tomax.Length, fsize, offset, free, hash, keys);
      CopyTuple(offs, d);
      var b := Bucket(h, |hash|);
      BucketBelow(h, |hash|);
      var key := AggKey(h, offs, hash[b]);
      InsertOk(t, tomax[..], fields, size, fsize, offset, free, hash, keys, key, Canon(fields, d));
      free := free - KEYSIZE;
      offset := offs + fsize;
      hash := hash[b := Some(|keys|)];
      keys := keys + [key];
      vals := vals + [aggregate(initial, expr, arg)];
      return true;
    }

    /** So it is in every buffer in use. */
    lemma PartsOf(p: Part, q: Part)
      requires Valid() && offset > 0 && HasPart(p, hash, keys) && HasPart(q, hash, keys) && p != q
      ensures var (lo, hi), (lo', hi') := Extent(p, tomax.Length, fsize, hash, keys),
          Extent(q, tomax.Length, fsize, hash, keys);
              0 <= lo <= hi <= tomax.Length && (hi <= lo' || hi' <= lo)
    {
      hide Ready, Hashed, Single, CanonsOf, Reach, Extent, Layout;
      PartsApart(tomax.Length, fsize, offset, free, hash, keys, p, q);
    }

    /** One sample is aggregated.  The table changes as Apply says, and the sample is dropped, and counted, exactly when
        its key is new and there is no room. */
    method Aggregate(d: seq<byte>, expr: int, arg: int)
      requires Valid() && |d| == size
      modifies this`offset, this`free, this`hash, this`keys, this`vals, this`drops, tomax
      ensures Valid()
      ensures var s := Sample(Canon(fields, d), expr, arg); var room := Room(tomax.Length, fsize, |old(Table())|);
              && Table() == Apply(old(Table()), room, s, aggregate, initial)
              && drops == if !Holds(old(Table()), s.key) && !room then old(drops) + 1 else old(drops)
    {
      hide Sound, Ready, HashOf, Canon, Room, Reach, Layout, Inside, CanonsOf, Rows;
      ghost var t, cs, c := Table(), Canons(), Canon(fields, d);
      TableHolds(cs, vals, c);
      TableDistinct(tomax[..], fields, size, fsize, offset, free, hash, keys, vals);
      var ok := Setup();
      if !ok {
        drops := drops + 1;
        NoBuckets(tomax[..], fields, size, fsize, offset, free, hash, keys);
        return;
      }
      var h := Hash(fields, d);
      var found := Find(d, h);
      match found
      case Some(i) =>
        AtIs(t, c, i);
        RowsHit(cs, vals, i, aggregate(vals[i], expr, arg));
        vals := vals[i := aggregate(vals[i], expr, arg)];
      case None =>
        RowsAdd(cs, vals, c, aggregate(initial, expr, arg));
        ok := Insert(d, h, expr, arg);
        if !ok {
          drops := drops + 1;
        }
    }

    /** Any number of samples, from an empty buffer: the table and the drops are those of the plain table. */
    method AggregateAll(ds: seq<seq<byte>>, exprs: seq<int>, args: seq<int>)
      requires Valid() && Table() == [] && drops == 0 && |exprs| == |args| == |ds| &&
          (forall i :: 0 <= i < |ds| ==> |ds[i]| == size)
      modifies this`offset, this`free, this`hash, this`keys, this`vals, this`drops, tomax
      ensures Valid()
      ensures (Table(), drops) == Run(Samples(fields, ds, exprs, args), RoomFor(tomax.Length, fsize), aggregate,
          initial)
      ensures Good(Samples(fields, ds, exprs, args), Table(), drops, RoomFor(tomax.Length, fsize), aggregate, initial)
    {
      hide Layout, Sound, Apply, Good, Room, Holds;
      ghost var ss, room := Samples(fields, ds, exprs, args), RoomFor(tomax.Length, fsize);
      var i := 0;
      while i < |ds|
        invariant 0 <= i <= |ds| && Valid() && (Table(), drops) == Run(ss[..i], room, aggregate, initial)
      {
        Aggregate(ds[i], exprs[i], args[i]);
        assert ss[..i + 1][..i] == ss[..i];
        i := i + 1;
      }
      assert ss[..|ss|] == ss;
      RunGood(ss, room, aggregate, initial);
    }

    /** The tuple is copied to offs: the identifier, the bytes, and strings padded with zeros behind their NUL. */
    method CopyTuple(offs: nat, d: seq<byte>)
      requires Layout(fields, size) && |d| == size && |id| == 4 && offs + size <= tomax.Length
      modifies tomax
      ensures Canon(fields, tomax[offs..offs + size]) == Canon(fields, d)
      ensures forall i :: 0 <= i < tomax.Length && !(offs <= i < offs + size) ==> tomax[i] == old(tomax[i])
    {
      var i := 0;
      while i < size
        invariant 0 <= i <= size
        invariant forall j :: 0 <= j < i ==> tomax[offs + j] == if j < 4 then id[j] else d[j]
        invariant forall j :: 0 <= j < tomax.Length && !(offs <= j < offs + size) ==> tomax[j] == old(tomax[j])
      {
        tomax[offs + i] := if i < 4 then id[i] else d[i];
        i := i + 1;
      }
      CopiedAll(fields, tomax[offs..offs + size], d);
      var n := 0;
      while n < |fields|
        invariant 0 <= n <= |fields| && Padded(fields, tomax[offs..offs + size], d, n)
        invariant forall j :: 0 <= j < tomax.Length && !(offs <= j < offs + size) ==> tomax[j] == old(tomax[j])
      {
        ghost var was := tomax[offs..offs + size];
        PadField(offs, fields[n], d);
        PaddedMore(fields, was, tomax[offs..offs + size], d, n);
        n := n + 1;
      }
      SameCanon(fields, tomax[offs..offs + size], d);
    }

    /** One member: if it is a string, all bytes behind its first NUL are cleared. */
    method PadField(offs: nat, f: Field, d: seq<byte>)
      requires f.off + f.len <= size == |d| && offs + size <= tomax.Length &&
          Slice(f, tomax[offs..offs + size]) == Slice(f, d)
      modifies tomax
      ensures Bytes(f, tomax[offs..offs + size]) == Bytes(f, d)
      ensures forall j :: 0 <= j < tomax.Length && !(offs + f.off <= j < offs + f.off + f.len) ==>
          tomax[j] == old(tomax[j])
    {
      if !f.str {
        return;
      }
      ghost var s := Slice(f, d);
      assert tomax[..][offs..offs + size] == tomax[offs..offs + size];
      var i, nul := 0, false;
      ghost var at := 0;
      SliceIs(tomax[..], offs, size, f);
      while i < f.len
        invariant 0 <= i <= f.len
        invariant if nul then at < i && s[at] == 0 && forall j :: 0 <= j < at ==>
            s[j] != 0 else forall j :: 0 <= j < i ==> s[j] != 0
        invariant forall j :: 0 <= j < f.len && (!nul || j <= at) ==> tomax[offs + f.off + j] == s[j]
        invariant forall j :: 0 <= j < tomax.Length && !(offs + f.off <= j < offs + f.off + f.len) ==>
            tomax[j] == old(tomax[j])
      {
        assert s[i] == d[f.off + i];
        if nul {
          tomax[offs + f.off + i] := 0;
        } else if d[f.off + i] == 0 {
          nul, at := true, i;
        }
        i := i + 1;
      }
      ghost var t := Slice(f, tomax[..][offs..offs + size]);
      assert tomax[..][offs..offs + size] == tomax[offs..offs + size];
      SliceIs(tomax[..], offs, size, f);
      if nul {
        CutSame(s, t, at);
      } else {
        assert t == s;
      }
    }
  }

  lemma SliceIs(t: seq<byte>, offs: nat, size: nat, f: Field)
    requires offs + size <= |t| && f.off + f.len <= size
    ensures var k := Slice(f, t[offs..offs + size]); |k| == f.len && forall j :: 0 <= j < f.len ==>
        k[j] == t[offs + f.off + j]
  {
  }

  /** The first n members are as they should be, the others still as in d. */
  predicate Padded(fields: seq<Field>, k: seq<byte>, d: seq<byte>, n: nat) {
    && (forall m :: 0 <= m < |fields| && m < n ==> Bytes(fields[m], k) == Bytes(fields[m], d))
    && (forall m :: 0 <= m < |fields| && m >= n ==> Slice(fields[m], k) == Slice(fields[m], d))
  }

  lemma CopiedAll(fields: seq<Field>, k: seq<byte>, d: seq<byte>)
    requires Layout(fields, |d|) && |k| == |d| && forall j :: 4 <= j < |d| ==> k[j] == d[j]
    ensures Padded(fields, k, d, 0)
  {
  }

  lemma PaddedMore(fields: seq<Field>, k: seq<byte>, k': seq<byte>, d: seq<byte>, n: nat)
    requires Layout(fields, |d|) && |k'| == |k| == |d| && n < |fields| && Padded(fields, k, d, n) &&
        Bytes(fields[n], k') == Bytes(fields[n], d)
    requires forall j :: 0 <= j < |k| && !(fields[n].off <= j < fields[n].off + fields[n].len) ==> k'[j] == k[j]
    ensures Padded(fields, k', d, n + 1)
  {
    forall m | 0 <= m < |fields| && m != n
      ensures Slice(fields[m], k') == Slice(fields[m], k)
    {
      assert m < n ==> fields[m].off + fields[m].len <= fields[n].off;
      assert m > n ==> fields[n].off + fields[n].len <= fields[m].off;
    }
  }

  lemma ReachZero(fsize: nat, n: nat)
    requires fsize > 0 && Reach(fsize, n) == 0
    ensures n == 0
  {
  }

  lemma BucketsFit(len: nat)
    requires Buckets(len).Some?
    ensures Buckets(len).v > 0 && METASIZE + PTRSIZE * Buckets(len).v <= len
  {
  }

  /** A buffer too small for buckets has no tuples, and no room for one. */
  lemma NoBuckets(t: seq<byte>, fields: seq<Field>, size: nat, fsize: nat, offset: nat, free: nat,
      hash: seq<Option<nat>>, keys: seq<AggKey>)
    requires Sound(t, fields, size, fsize, offset, free, hash, keys) && fsize > 0 && Buckets(|t|).None?
    ensures keys == [] && forall n: nat :: !Room(|t|, fsize, n)
  {
    ReachZero(fsize, |keys|);
  }

  /** A tuple above the others leaves them alone. */
  lemma CanonsMore(t: seq<byte>, t': seq<byte>, fields: seq<Field>, size: nat, fsize: nat, keys: seq<AggKey>,
      key: AggKey, c: seq<seq<byte>>)
    requires |t'| == |t| && size <= fsize && key.data + size <= |t|
    requires forall i :: 0 <= i < |keys| ==> keys[i].data + fsize <= key.data
    requires forall j :: 0 <= j < |t| && !(key.data <= j < key.data + size) ==> t'[j] == t[j]
    requires Canon(fields, t'[key.data..key.data + size]) == c
    ensures forall i :: 0 <= i < |keys + [key]| ==> (keys + [key])[i].data + size <= |t'|
    ensures CanonsOf(t', fields, size, keys + [key]) == CanonsOf(t, fields, size, keys) + [c]
  {
    hide CanonsOf, Canon;
    var keys', cs, cs' := keys + [key], CanonsOf(t, fields, size, keys), CanonsOf(t', fields, size, keys + [key]);
    forall i | 0 <= i < |keys'|
      ensures cs'[i] == (cs + [c])[i]
    {
      if i < |keys| {
        assert t'[keys[i].data..keys[i].data + size] == t[keys[i].data..keys[i].data + size];
      }
    }
  }

  lemma ReadyFacts(len: nat, fsize: nat, offset: nat, free: nat, hash: seq<Option<nat>>, keys: seq<AggKey>)
    requires Ready(len, fsize, offset, free, hash, keys)
    ensures |hash| > 0 && Chained(keys, hash) && free <= len
  {
  }

  lemma RoomIs(t: seq<byte>, fields: seq<Field>, size: nat, fsize: nat, offset: nat, free: nat, hash: seq<Option<nat>>,
      keys: seq<AggKey>)
    requires Sound(t, fields, size, fsize, offset, free, hash, keys) && Ready(|t|, fsize, offset, free, hash, keys)
    ensures Room(|t|, fsize, |keys|) <==> Align(offset) + fsize + KEYSIZE <= free
  {
  }

  lemma AlignUp(offs: nat)
    ensures offs <= Align(offs)
  {
  }

  /** A tuple at the aligned offset and a key below the others keep the buffer sound. */
  lemma InsertOk(t: seq<byte>, t': seq<byte>, fields: seq<Field>, size: nat, fsize: nat, offset: nat, free: nat,
      hash: seq<Option<nat>>, keys: seq<AggKey>, key: AggKey, c: seq<seq<byte>>)
    requires Sound(t, fields, size, fsize, offset, free, hash, keys) && Ready(|t|, fsize, offset, free, hash, keys)
    requires size <= fsize && fsize > 0 && |t'| == |t| && key.data == Align(offset) &&
        key.data + fsize + KEYSIZE <= free
    requires key.hashval == HashOf(c) && key.next == hash[Bucket(key.hashval, |hash|)] &&
        c !in CanonsOf(t, fields, size, keys)
    requires forall j :: 0 <= j < |t| && !(key.data <= j < key.data + size) ==> t'[j] == t[j]
    requires Canon(fields, t'[key.data..key.data + size]) == c
    ensures Sound(t', fields, size, fsize, key.data + fsize, free - KEYSIZE,
        hash[Bucket(key.hashval, |hash|) := Some(|keys|)], keys + [key])
    ensures Inside(keys + [key], size, |t'|) &&
        CanonsOf(t', fields, size, keys + [key]) == CanonsOf(t, fields, size, keys) + [c]
  {
    hide Canon, HashOf, Bucket, Align, Chained, Hashed, Single, CanonsOf;
    AlignUp(offset);
    BucketBelow(key.hashval, |hash|);
    ChainMore(keys, hash, key);
    CanonsMore(t, t', fields, size, fsize, keys, key, c);
    HashedMore(keys, CanonsOf(t, fields, size, keys), key, c);
    assert (keys + [key])[..|keys|] == keys;
  }

  lemma TableDistinct<V>(t: seq<byte>, fields: seq<Field>, size: nat, fsize: nat, offset: nat, free: nat,
      hash: seq<Option<nat>>, keys: seq<AggKey>, vals: seq<V>)
    requires Sound(t, fields, size, fsize, offset, free, hash, keys) && |vals| == |keys|
    ensures Inside(keys, size, |t|) && Distinct(Rows(CanonsOf(t, fields, size, keys), vals))
  {
  }

  lemma HashedMore(keys: seq<AggKey>, cs: seq<seq<seq<byte>>>, key: AggKey, c: seq<seq<byte>>)
    requires Hashed(keys, cs) && Single(cs) && key.hashval == HashOf(c) && c !in cs
    ensures Hashed(keys + [key], cs + [c]) && Single(cs + [c])
  {
  }

  lemma TableHolds<V>(cs: seq<seq<seq<byte>>>, vals: seq<V>, c: seq<seq<byte>>)
    requires |cs| == |vals|
    ensures Holds(Rows(cs, vals), c) <==> c in cs
  {
    var t := Rows(cs, vals);
    if c in cs {
      var i :| 0 <= i < |cs| && cs[i] == c;
      assert t[i].key == c;
    }
  }

  lemma RowsHit<V>(cs: seq<seq<seq<byte>>>, vals: seq<V>, i: nat, v: V)
    requires |cs| == |vals| && i < |vals|
    ensures Rows(cs, vals[i := v]) == Rows(cs, vals)[i := Row(cs[i], v)]
  {
    hide Rows;
  }

  lemma RowsAdd<V>(cs: seq<seq<seq<byte>>>, vals: seq<V>, c: seq<seq<byte>>, v: V)
    requires |cs| == |vals|
    ensures Rows(cs + [c], vals + [v]) == Rows(cs, vals) + [Row(c, v)]
  {
    hide Rows;
  }

  /** The only row of a key. */
  lemma AtIs<V(!new)>(t: seq<Row<seq<seq<byte>>, V>>, c: seq<seq<byte>>, i: nat)
    requires i < |t| && t[i].key == c && Distinct(t)
    ensures Holds(t, c) && At(t, c) == i
  {
    var j := At(t, c);
  }

  /** What the samples are, by canonical key. */
  function Samples(fields: seq<Field>, ds: seq<seq<byte>>, exprs: seq<int>,
      args: seq<int>): (ss: seq<Sample<seq<seq<byte>>>>)
    requires |exprs| == |args| == |ds|
    ensures |ss| == |ds| && forall i :: 0 <= i < |ss| ==> ss[i] == Sample(Canon(fields, ds[i]), exprs[i], args[i])
  {
    if ds == [] then []
    else
      var n := |ds| - 1;
      Samples(fields, ds[..n], exprs[..n], args[..n]) + [Sample(Canon(fields, ds[n]), exprs[n], args[n])]
  }

  lemma BucketBelow(h: bv32, buckets: nat)
    requires buckets > 0
    ensures Bucket(h, buckets) < buckets
  {
  }

  lemma {:induction false} SameCanon(fields: seq<Field>, k: seq<byte>, d: seq<byte>)
    requires forall m :: 0 <= m < |fields| ==> Bytes(fields[m], k) == Bytes(fields[m], d)
    ensures Canon(fields, k) == Canon(fields, d)
    decreases |fields|
  {
    if fields != [] {
      SameCanon(fields[1..], k, d);
    }
  }
}
