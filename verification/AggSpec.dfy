/** Aggregation keys: what makes two tuples the same, and the hash that respects it. */
module AggSpec {

  type byte = bv8

  /** One member of the tuple: where its bytes are, and whether it is a string. */
  datatype Field = Field(off: nat, len: nat, str: bool)

  /** The members lie in order behind the aggregation identifier. */
  predicate Layout(fields: seq<Field>, size: nat) {
    && size >= 4
    && (forall i :: 0 <= i < |fields| ==> 4 <= fields[i].off && fields[i].off + fields[i].len <= size)
    && (forall i, j :: 0 <= i < j < |fields| ==> fields[i].off + fields[i].len <= fields[j].off)
  }

  /** A string counts up to and including its first NUL. */
  function Cut(s: seq<byte>): seq<byte> {
    if s == [] then [] else if s[0] == 0 then [0] else [s[0]] + Cut(s[1..])
  }

  /** The bytes of a member. */
  function Slice(f: Field, d: seq<byte>): seq<byte> {
    if f.off + f.len <= |d| then d[f.off..f.off + f.len] else []
  }

  /** The bytes of a member that count. */
  function Bytes(f: Field, d: seq<byte>): seq<byte> {
    if f.str then Cut(Slice(f, d)) else Slice(f, d)
  }

  /** The canonical key of a tuple: its members, strings cut at NUL. */
  function Canon(fields: seq<Field>, d: seq<byte>): seq<seq<byte>> {
    if fields == [] then [] else [Bytes(fields[0], d)] + Canon(fields[1..], d)
  }

  // ---------------------------------------------------------------- the hash

  /** A character is signed. */
  function Extend(b: byte): bv32 {
    if b < 128 then b as bv32 else (b as bv32) | 0xFFFF_FF00
  }

  function Mix(h: bv32, b: byte): bv32 {
    var a := h + Extend(b);
    var c := a + (a << 10);
    c ^ (c >> 6)
  }

  function MixAll(h: bv32, s: seq<byte>): bv32
    decreases |s|
  {
    if s == [] then h else MixAll(Mix(h, s[0]), s[1..])
  }

  function MixFields(h: bv32, k: seq<seq<byte>>): bv32
    decreases |k|
  {
    if k == [] then h else MixFields(MixAll(h, k[0]), k[1..])
  }

  function Finish(h: bv32): bv32 {
    var a := h + (h << 3);
    var c := a ^ (a >> 11);
    c + (c << 15)
  }

  /** The hash of a tuple depends on its canonical key alone. */
  function HashOf(k: seq<seq<byte>>): bv32 {
    Finish(MixFields(0, k))
  }

  // ---------------------------------------------------------------- the loops over a tuple

  lemma {:induction false} MixOne(h: bv32, s: seq<byte>, b: byte)
    ensures MixAll(h, s + [b]) == Mix(MixAll(h, s), b)
    decreases |s|
  {
    hide Mix;
    if s == [] {
      assert ([] + [b])[1..] == [] && MixAll(Mix(h, b), []) == Mix(h, b);
      assert s + [b] == [b];
    } else {
      assert (s + [b])[1..] == s[1..] + [b];
      MixOne(Mix(h, s[0]), s[1..], b);
    }
  }

  /** Without a NUL before i, the cut string starts with the first i bytes. */
  lemma {:induction false} CutAt(s: seq<byte>, i: nat)
    requires i <= |s| && (forall j :: 0 <= j < i ==> s[j] != 0)
    ensures Cut(s) == s[..i] + Cut(s[i..])
    decreases i
  {
    if i > 0 {
      CutAt(s[1..], i - 1);
      assert s[1..][..i - 1] == s[1..i] && s[1..][i - 1..] == s[i..];
      assert s[..i] == [s[0]] + s[1..i];
    } else {
      assert s[..0] == [] && s[0..] == s;
    }
  }

  /** The bytes that count: up to and including the first NUL at i, or all of them. */
  lemma CutEnds(s: seq<byte>, i: nat)
    requires i < |s| && s[i] == 0 && (forall j :: 0 <= j < i ==> s[j] != 0)
    ensures Cut(s) == s[..i + 1]
  {
    CutAt(s, i);
    assert s[..i + 1] == s[..i] + [0];
  }

  lemma CutAll(s: seq<byte>)
    requires forall j :: 0 <= j < |s| ==> s[j] != 0
    ensures Cut(s) == s
  {
    CutAt(s, |s|);
    assert s[|s|..] == [] && s[..|s|] == s;
  }

  /** Strings are the same exactly when they agree up to and including a NUL, or throughout. */
  lemma CutSame(s: seq<byte>, t: seq<byte>, i: nat)
    requires |s| == |t| && i < |s| && (forall j :: 0 <= j <= i ==> s[j] == t[j]) &&
        (forall j :: 0 <= j < i ==> s[j] != 0) && s[i] == 0
    ensures Cut(s) == Cut(t)
  {
    CutEnds(s, i);
    CutEnds(t, i);
  }

  lemma CutDiffers(s: seq<byte>, t: seq<byte>, i: nat)
    requires |s| == |t| && i < |s| && s[i] != t[i] && (forall j :: 0 <= j < i ==> s[j] == t[j] && s[j] != 0)
    ensures Cut(s) != Cut(t)
  {
    CutAt(s, i);
    CutAt(t, i);
    assert Cut(s)[i] == Cut(s[i..])[0] && Cut(t)[i] == Cut(t[i..])[0];
  }

  method HashField(h0: bv32, f: Field, d: seq<byte>) returns (h: bv32)
    requires f.off + f.len <= |d|
    ensures h == MixAll(h0, Bytes(f, d))
  {
    hide Mix;
    var i, limit := f.off, f.off + f.len;
    ghost var s := d[f.off..limit];
    h := h0;
    assert s[..0] == [];
    while i < limit
      invariant f.off <= i <= limit && h == MixAll(h0, s[..i - f.off])
      invariant f.str ==> forall j :: 0 <= j < i - f.off ==> s[j] != 0
    {
      ghost var k := i - f.off;
      MixOne(h0, s[..k], d[i]);
      assert s[..k] + [d[i]] == s[..k + 1];
      h := Mix(h, d[i]);
      if f.str && d[i] == 0 {
        CutEnds(s, k);
        return;
      }
      i := i + 1;
    }
    assert s[..|s|] == s;
    if f.str {
      CutAll(s);
    }
  }

  /** The hash loop: each string is hashed up to its NUL. */
  method Hash(fields: seq<Field>, d: seq<byte>) returns (h: bv32)
    requires Layout(fields, |d|)
    ensures h == HashOf(Canon(fields, d))
  {
    hide Mix, MixAll, Finish;
    h := 0;
    var n := 0;
    while n < |fields|
      invariant 0 <= n <= |fields| && MixFields(0, Canon(fields, d)) == MixFields(h, Canon(fields[n..], d))
    {
      h := HashField(h, fields[n], d);
      n := n + 1;
    }
    h := Finish(h);
  }

  method SameField(f: Field, k: seq<byte>, d: seq<byte>) returns (same: bool)
    requires f.off + f.len <= |d| == |k|
    ensures same <==> Bytes(f, k) == Bytes(f, d)
  {
    var i, limit := f.off, f.off + f.len;
    ghost var s, t := k[f.off..limit], d[f.off..limit];
    while i < limit
      invariant f.off <= i <= limit
      invariant forall j :: 0 <= j < i - f.off ==> s[j] == t[j] && (f.str ==> t[j] != 0)
    {
      ghost var x := i - f.off;
      assert s[x] == k[i] && t[x] == d[i];
      if k[i] != d[i] {
        if f.str {
          CutDiffers(s, t, x);
        }
        return false;
      }
      if f.str && d[i] == 0 {
        CutSame(s, t, x);
        return true;
      }
      i := i + 1;
    }
    assert s == t;
    return true;
  }

  /** The comparison loop finds two tuples the same exactly when their canonical keys are. */
  method SameKey(fields: seq<Field>, k: seq<byte>, d: seq<byte>) returns (same: bool)
    requires Layout(fields, |d|) && |k| == |d|
    ensures same <==> Canon(fields, k) == Canon(fields, d)
  {
    hide Bytes;
    var n := 0;
    while n < |fields|
      invariant 0 <= n <= |fields|
      invariant Canon(fields, k) == Canon(fields, d) <==> Canon(fields[n..], k) == Canon(fields[n..], d)
    {
      var eq := SameField(fields[n], k, d);
      assert Canon(fields[n..], k)[0] == Bytes(fields[n], k) && Canon(fields[n..], d)[0] == Bytes(fields[n], d);
      assert Canon(fields[n..], k)[1..] == Canon(fields[n + 1..], k) &&
          Canon(fields[n..], d)[1..] == Canon(fields[n + 1..], d);
      if !eq {
        return false;
      }
      n := n + 1;
    }
    return true;
  }
}
