/** The constant table of a function and the index that finds constants already in it. */
module LuaConstants {
  import opened LuaValues
  import opened LittleEndian

  /** Keys of the index table. Nil cannot be a key, so the table itself stands for it. */
  datatype Key = KNum(n: Number) | KBool(b: bool) | KStr(s: seq<Byte>) | KTable

  datatype Pool = Pool(k: seq<Value>, h: map<Key, nat>)

  const SIGN_BIT: nat := 0x8000_0000_0000_0000
  const INFINITY: nat := 0x7ff0_0000_0000_0000

  predicate IsZero(n: Number) { n == 0 || n == SIGN_BIT }
  predicate IsNaN(n: Number) { n % SIGN_BIT > INFINITY }

  /** The classes of doubles by their fields: a NaN has all exponent bits set and a fraction, a zero
      has neither exponent nor fraction. */
  lemma DoubleClasses(n: Number)
    ensures IsNaN(n) <==> n / 0x10_0000_0000_0000 % 0x800 == 0x7ff && n % 0x10_0000_0000_0000 != 0
    ensures IsZero(n) <==> n / 0x10_0000_0000_0000 % 0x800 == 0 && n % 0x10_0000_0000_0000 == 0
  {
    var m, f := n / 0x10_0000_0000_0000, n % 0x10_0000_0000_0000;
    assert n == 0x10_0000_0000_0000 * m + f && m < 0x1000;
    assert n % SIGN_BIT == 0x10_0000_0000_0000 * (m % 0x800) + f;
  }

  /** Numeric equality of doubles: both zeros are equal, and a NaN equals nothing. */
  predicate NumEq(x: Number, y: Number) {
    !IsNaN(x) && !IsNaN(y) && (x == y || (IsZero(x) && IsZero(y)))
  }

  /** luaV_rawequalobj on the values that can be constants. */
  predicate RawEqual(x: Value, y: Value) {
    if x.Num? && y.Num? then NumEq(x.n, y.n) else x == y
  }

  predicate IsConstant(v: Value) { !v.Obj? }

  /** The key under which a constant is looked up: zeros and NaNs go by their raw bytes. */
  function KeyOf(v: Value): Key
    requires IsConstant(v)
  {
    match v
    case Nil => KTable
    case Bool(b) => KBool(b)
    case Str(s) => KStr(s)
    case Num(n) => if IsZero(n) || IsNaN(n) then KStr(LE(n, 8)) else KNum(n)
  }

  /** Every index entry leads to a constant stored under that very key. */
  ghost predicate PoolOk(p: Pool) {
    && (forall v :: v in p.k ==> IsConstant(v))
    && (forall key :: key in p.h ==> p.h[key] < |p.k| && KeyOf(p.k[p.h[key]]) == key)
  }

  /** addk: reuse the entry found under the key of `v` unless it holds something else. */
  function AddK(p: Pool, v: Value): (r: (Pool, nat))
    requires IsConstant(v)
    ensures r.1 <= |p.k| && r.1 < |r.0.k| && p.k <= r.0.k
  {
    var key := KeyOf(v);
    if key in p.h && p.h[key] < |p.k| && RawEqual(p.k[p.h[key]], v) then (p, p.h[key])
    else (Pool(p.k + [v], p.h[key := |p.k|]), |p.k|)
  }

  /** Constants with the same key that compare equal are the same value, bit for bit. */
  lemma SameKeySameBits(x: Value, y: Value)
    requires IsConstant(x) && IsConstant(y)
    requires KeyOf(x) == KeyOf(y) && RawEqual(x, y)
    ensures x == y
  {
    if x.Num? && y.Num? && IsZero(x.n) && IsZero(y.n) {
      Pow256Values();
      LEInjective(x.n, y.n, 8);
    }
  }

  /** The returned index holds exactly the constant asked for, and no index changes its value. */
  lemma AddKFaithful(p: Pool, v: Value)
    requires PoolOk(p) && IsConstant(v)
    ensures
      var (p', i) := AddK(p, v);
      PoolOk(p') && i < |p'.k| && p'.k[i] == v && p.k <= p'.k
  {
    var key := KeyOf(v);
    if key in p.h && RawEqual(p.k[p.h[key]], v) {
      SameKeySameBits(p.k[p.h[key]], v);
    } else {
      var p' := AddK(p, v).0;
      assert forall x :: x in p'.k ==> x in p.k || x == v;
      forall y | y in p'.h ensures p'.h[y] < |p'.k| && KeyOf(p'.k[p'.h[y]]) == y {
      }
    }
  }

  /** A run of requests for constants, with the indices they return. */
  function AddAll(p: Pool, vs: seq<Value>): (Pool, seq<nat>)
    requires forall v :: v in vs ==> IsConstant(v)
    decreases |vs|
  {
    if vs == [] then (p, [])
    else
      var (p1, i) := AddK(p, vs[0]);
      var (p2, rest) := AddAll(p1, vs[1..]);
      (p2, [i] + rest)
  }

  /** Over any run: each index still holds its constant at the end, so two requests share a
      slot only when they ask for the same bits; 0.0 and -0.0 never do. */
  lemma {:induction false} AddAllFaithful(p: Pool, vs: seq<Value>)
    requires PoolOk(p) && forall v :: v in vs ==> IsConstant(v)
    ensures
      var (p', ix) := AddAll(p, vs);
      && PoolOk(p') && p.k <= p'.k && |ix| == |vs|
      && (forall j :: 0 <= j < |vs| ==> ix[j] < |p'.k| && p'.k[ix[j]] == vs[j])
    decreases |vs|
  {
    if vs != [] {
      AddKFaithful(p, vs[0]);
      var (p1, i) := AddK(p, vs[0]);
      AddAllFaithful(p1, vs[1..]);
    }
  }

  /** A constant that is not a NaN is found again by the next request for it. */
  lemma AddKReuses(p: Pool, v: Value)
    requires PoolOk(p) && IsConstant(v) && (v.Num? ==> !IsNaN(v.n))
    ensures
      var (p', i) := AddK(p, v);
      AddK(p', v) == (p', i)
  {
    AddKFaithful(p, v);
  }
}
