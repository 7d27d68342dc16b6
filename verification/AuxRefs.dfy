/** The reference system of the auxiliary library: the free list of references lives in the
    table whose entries it recycles. */
module AuxRefs {
  datatype TValue = Nil | Integer(i: int) | Other(id: nat)

  /** The integer-keyed entries of a Lua table; absent keys hold nil. */
  type Table = map<int, TValue>

  function Get(t: Table, k: int): TValue { if k in t then t[k] else Nil }

  function Put(t: Table, k: int, v: TValue): (t': Table)
    ensures forall j :: Get(t', j) == if j == k then v else Get(t, j)
  {
    if v == Nil then t - {k} else t[k := v]
  }

  function ToInteger(v: TValue): int { if v.Integer? then v.i else 0 }

  /** What lua_rawlen may return: any border of the table. */
  predicate Border(t: Table, n: nat) {
    (n == 0 || Get(t, n) != Nil) && Get(t, n + 1) == Nil
  }

  const FREELIST: int := 0
  const LUA_REFNIL: int := -1

  /** A table with its live references and the values they stand for, its free references in
      list order, the number of entries it had at first, and the number it has now. */
  datatype Refs = Refs(t: Table, live: map<int, TValue>, free: seq<int>, own: nat, len: nat)

  predicate Distinct(xs: seq<int>) { forall i, j :: 0 <= i < j < |xs| ==> xs[i] != xs[j] }

  function Link(free: seq<int>, k: nat): TValue { if k < |free| then Integer(free[k]) else Nil }

  predicate LinkAt(t: Table, free: seq<int>, k: nat)
    requires k < |free|
  {
    Get(t, free[k]) == Link(free, k + 1)
  }

  /** The free list runs through the table from slot 0, without repetition, to a nil. */
  predicate Chained(t: Table, free: seq<int>) {
    && Distinct(free) && Get(t, FREELIST) == Link(free, 0)
    && (forall k :: 0 <= k < |free| ==> LinkAt(t, free, k))
  }

  /** Live and free references are disjoint, and together they are the slots added since the
      start; every live reference holds its value. */
  ghost predicate Slots(s: Refs) {
    && s.own <= s.len
    && (forall i :: 1 <= i <= s.own ==> Get(s.t, i) != Nil)
    && (forall i :: i > s.len ==> Get(s.t, i) == Nil)
    && (forall i :: i in s.live ==> s.own < i <= s.len && s.live[i] != Nil && Get(s.t, i) == s.live[i])
    && (forall i :: i in s.free ==> s.own < i <= s.len)
    && (forall i :: s.own < i <= s.len ==> (i in s.live <==> i !in s.free))
  }

  ghost predicate Ok(s: Refs) { Slots(s) && Chained(s.t, s.free) }

  /** A table whose positive keys are 1..n, with nil in slot 0. */
  ghost predicate Fresh(t: Table, n: nat) {
    && Get(t, FREELIST) == Nil
    && (forall i :: 1 <= i <= n ==> Get(t, i) != Nil)
    && (forall i :: i > n ==> Get(t, i) == Nil)
  }

  lemma StartOk(t: Table, n: nat)
    requires Fresh(t, n)
    ensures Ok(Refs(t, map[], [], n, n))
  {}

  /** Without free references there are no holes, and the border is unique. */
  lemma OneBorder(s: Refs, n: nat)
    requires Ok(s) && s.free == []
    ensures Border(s.t, n) <==> n == s.len
  {
    assert s.len > 0 ==> Get(s.t, s.len) != Nil;
    if n < s.len { assert Get(s.t, n + 1) != Nil; }
  }

  /** luaL_ref. */
  function AfterRef(s: Refs, v: TValue): (Refs, int) {
    if v == Nil then (s, LUA_REFNIL)
    else if s.free != [] then
      var ref := s.free[0];
      (s.(t := Put(Put(s.t, FREELIST, Get(s.t, ref)), ref, v), live := s.live[ref := v], free := s.free[1..]), ref)
    else
      var ref := s.len + 1;
      (s.(t := Put(s.t, ref, v), live := s.live[ref := v], len := ref), ref)
  }

  /** luaL_unref. */
  function AfterUnref(s: Refs, ref: int): Refs {
    if ref < 0 then s
    else s.(t := Put(Put(s.t, ref, Get(s.t, FREELIST)), FREELIST, Integer(ref)), live := s.live - {ref},
        free := [ref] + s.free)
  }

  /** The reference to nil is -1, and releasing it, or any other negative one, changes nothing. */
  lemma NilRef(s: Refs, ref: int)
    ensures AfterRef(s, Nil) == (s, -1) && AfterUnref(s, AfterRef(s, Nil).1) == s
    ensures ref < 0 ==> AfterUnref(s, ref) == s
  {}

  /** The free list starts in slot 0: a released reference is put there and is the next one given. */
  lemma NextGiven(s: Refs, ref: int, v: TValue)
    requires ref > 0 && v != Nil
    ensures
      var s1 := AfterUnref(s, ref);
      && Get(s1.t, 0) == Integer(ref) && Get(s1.t, ref) == Get(s.t, 0)
      && AfterRef(s1, v).1 == ref && Get(AfterRef(s1, v).0.t, 0) == Get(s.t, 0)
  {}

  /** A new reference is neither live nor one of the table's own entries; no live reference
      and no entry of the table's own changes. */
  lemma RefOk(s: Refs, v: TValue)
    requires Ok(s)
    ensures
      var (s', ref) := AfterRef(s, v);
      && Ok(s') && s'.own == s.own
      && (v == Nil ==> s' == s && ref == LUA_REFNIL)
      && (v != Nil ==> ref > s.own && ref !in s.live && s'.live == s.live[ref := v] && Get(s'.t, ref) == v)
      && (forall i :: i != ref && i != FREELIST ==> Get(s'.t, i) == Get(s.t, i))
  {
    hide Ok, AfterRef;
    if v == Nil { RefNil(s); }
    else if s.free != [] { RecycleOk(s, v); }
    else { ExtendOk(s, v); }
  }

  lemma RefNil(s: Refs)
    ensures AfterRef(s, Nil) == (s, LUA_REFNIL)
  {}

  lemma RecycleOk(s: Refs, v: TValue)
    requires Ok(s) && v != Nil && s.free != []
    ensures
      var (s', ref) := AfterRef(s, v);
      && Ok(s') && s'.own == s.own && ref > s.own && ref !in s.live && s'.live == s.live[ref := v]
      && Get(s'.t, ref) == v
      && (forall i :: i != ref && i != FREELIST ==> Get(s'.t, i) == Get(s.t, i))
  {
    hide Get, Put, Chained;
    var ref := s.free[0];
    assert ref in s.free;
    FirstFree(s);
    Popped(s.t, s.free, v);
  }

  lemma FirstFree(s: Refs)
    requires Ok(s) && s.free != []
    ensures forall i :: i in s.free <==> i == s.free[0] || i in s.free[1..]
    ensures s.free[0] !in s.free[1..] && FREELIST !in s.free
  {}

  /** Taking the first free reference leaves a list through the others. */
  lemma Popped(t: Table, free: seq<int>, v: TValue)
    requires Chained(t, free) && free != [] && FREELIST !in free
    ensures Chained(Put(Put(t, FREELIST, Get(t, free[0])), free[0], v), free[1..])
  {
    hide Get, Put;
    var t' := Put(Put(t, FREELIST, Get(t, free[0])), free[0], v);
    assert LinkAt(t, free, 0) && free[0] in free;
    forall k | 0 <= k < |free| - 1 ensures LinkAt(t', free[1..], k) {
      assert LinkAt(t, free, k + 1) && free[k + 1] in free && free[k + 1] != free[0];
    }
  }

  /** Giving a reference back puts it in front of the list. */
  lemma Pushed(t: Table, free: seq<int>, ref: int)
    requires Chained(t, free) && ref !in free && FREELIST !in free && ref != FREELIST
    ensures Chained(Put(Put(t, ref, Get(t, FREELIST)), FREELIST, Integer(ref)), [ref] + free)
  {
    hide Get, Put;
    var t' := Put(Put(t, ref, Get(t, FREELIST)), FREELIST, Integer(ref));
    var free' := [ref] + free;
    forall k | 0 <= k < |free'| ensures LinkAt(t', free', k) {
      if k > 0 { assert LinkAt(t, free, k - 1) && free[k - 1] in free; }
    }
  }

  lemma ExtendOk(s: Refs, v: TValue)
    requires Ok(s) && v != Nil && s.free == []
    ensures
      var (s', ref) := AfterRef(s, v);
      && Ok(s') && s'.own == s.own && ref > s.own && ref !in s.live && s'.live == s.live[ref := v]
      && Get(s'.t, ref) == v
      && (forall i :: i != ref && i != FREELIST ==> Get(s'.t, i) == Get(s.t, i))
  {
    hide Get, Put;
    assert Chained(AfterRef(s, v).0.t, []);
  }

  lemma UnrefOk(s: Refs, ref: int)
    requires Ok(s) && (ref < 0 || ref in s.live)
    ensures
      var s' := AfterUnref(s, ref);
      && Ok(s') && s'.own == s.own && s'.live == s.live - {ref}
      && (ref < 0 ==> s' == s)
      && (forall i :: i != ref && i != FREELIST ==> Get(s'.t, i) == Get(s.t, i))
  {
    hide Get, Put, Chained;
    if ref >= 0 {
      assert forall i :: i in [ref] + s.free <==> i == ref || i in s.free;
      Pushed(s.t, s.free, ref);
    }
  }

  // ----- runs -----

  datatype Op = DoRef(v: TValue) | DoUnref(ref: int)

  function Step(s: Refs, op: Op): Refs {
    match op
    case DoRef(v) => AfterRef(s, v).0
    case DoUnref(ref) => AfterUnref(s, ref)
  }

  /** Only live references, or LUA_NOREF and LUA_REFNIL, are released. */
  predicate Legal(s: Refs, ops: seq<Op>)
    decreases |ops|
  {
    ops != [] ==>
      && (ops[0].DoUnref? ==> ops[0].ref < 0 || ops[0].ref in s.live)
      && Legal(Step(s, ops[0]), ops[1..])
  }

  function Run(s: Refs, ops: seq<Op>): Refs
    decreases |ops|
  {
    if ops == [] then s else Run(Step(s, ops[0]), ops[1..])
  }

  /** What a client expects: a map from references to values, nothing more. */
  function Expected(s: Refs, live: map<int, TValue>, ops: seq<Op>): map<int, TValue>
    decreases |ops|
  {
    if ops == [] then live
    else
      var live' := match ops[0]
        case DoRef(v) => if v == Nil then live else live[AfterRef(s, v).1 := v]
        case DoUnref(ref) => live - {ref};
      Expected(Step(s, ops[0]), live', ops[1..])
  }

  /** Over any run from a fresh table, the table holds under every live reference the value it
      was made for, and the invariants hold throughout. */
  lemma {:induction false} RunOk(s: Refs, ops: seq<Op>)
    requires Ok(s) && Legal(s, ops)
    ensures
      var s' := Run(s, ops);
      && Ok(s') && s'.own == s.own && s'.live == Expected(s, s.live, ops)
      && (forall i :: i in s'.live ==> Get(s'.t, i) == s'.live[i])
    decreases |ops|
  {
    hide Ok, AfterRef, AfterUnref;
    LiveHeld(Run(s, ops));
    if ops != [] {
      match ops[0] {
        case DoRef(v) => RefOk(s, v);
        case DoUnref(ref) => UnrefOk(s, ref);
      }
      RunOk(Step(s, ops[0]), ops[1..]);
    }
  }

  /** Over any run, the reference each luaL_ref returns is none of those that are live then, nor
      one of the table's own entries. */
  lemma {:induction false} RunFresh(s: Refs, ops: seq<Op>, k: nat, v: TValue)
    requires Ok(s) && Legal(s, ops) && k < |ops| && ops[k] == DoRef(v) && v != Nil
    ensures
      var s1 := Run(s, ops[..k]);
      AfterRef(s1, v).1 !in s1.live && AfterRef(s1, v).1 > s.own
    decreases k
  {
    hide Ok, AfterRef, AfterUnref;
    if k == 0 { RefOk(s, v); }
    else {
      match ops[0] {
        case DoRef(w) => RefOk(s, w);
        case DoUnref(ref) => UnrefOk(s, ref);
      }
      assert ops[..k][1..] == ops[1..][..k - 1];
      RunFresh(Step(s, ops[0]), ops[1..], k - 1, v);
    }
  }

  lemma LiveHeld(s: Refs)
    ensures Ok(s) ==> forall i :: i in s.live ==> Get(s.t, i) == s.live[i]
  {}

  /** The table's own entries survive any run. */
  lemma {:induction false} OwnEntriesStay(s: Refs, ops: seq<Op>, i: int)
    requires Ok(s) && Legal(s, ops) && 1 <= i <= s.own
    ensures Get(Run(s, ops).t, i) == Get(s.t, i)
    decreases |ops|
  {
    hide AfterRef, AfterUnref;
    if ops != [] {
      match ops[0] {
        case DoRef(v) => RefOk(s, v);
        case DoUnref(ref) => UnrefOk(s, ref);
      }
      OwnEntriesStay(Step(s, ops[0]), ops[1..], i);
    }
  }

  /** A Lua table used with luaL_ref. */
  class RefTable {
    var t: Table
    ghost var abs: Refs

    constructor (t: Table, ghost n: nat)
      requires Fresh(t, n)
      ensures Valid() && abs == Refs(t, map[], [], n, n)
    {
      this.t := t;
      abs := Refs(t, map[], [], n, n);
    }

    ghost predicate Valid()
      reads this
    {
      Ok(abs) && abs.t == t
    }

    /** lua_rawlen: some border, found here by counting. */
    method RawLen() returns (n: nat)
      ensures Border(t, n)
    {
      n := 0;
      ghost var rest := t.Keys;
      while n + 1 in t && t[n + 1] != Nil
        invariant n == 0 || Get(t, n) != Nil
        invariant forall k :: k in t && k > n ==> k in rest
        decreases rest
      {
        n := n + 1;
        rest := rest - {n as int};
      }
    }

    /** luaL_ref; the length is asked for only when the free list is empty. */
    method Ref(v: TValue) returns (ref: int)
      requires Valid()
      modifies this
      ensures Valid() && (abs, ref) == AfterRef(old(abs), v)
      ensures v != Nil ==> ref !in old(abs.live) && ref > old(abs.own)
    {
      hide AfterRef;
      RefOk(abs, v);
      ghost var s := abs;
      if v == Nil {
        RefCases(s, v);
        return LUA_REFNIL;
      }
      ref := ToInteger(Get(t, FREELIST));
      RefCases(s, v);
      if ref != 0 {
        t := Put(t, FREELIST, Get(t, ref));
      } else {
        assert s.free == [];
        var n := RawLen();
        OneBorder(s, n);
        ref := n + 1;
      }
      t := Put(t, ref, v);
      abs := AfterRef(s, v).0;
    }

    lemma RefCases(s: Refs, v: TValue)
      requires Ok(s)
      ensures v == Nil ==> AfterRef(s, v) == (s, LUA_REFNIL)
      ensures v != Nil ==>
        var ref := ToInteger(Get(s.t, FREELIST));
        && (ref != 0 <==> s.free != [])
        && (ref != 0 ==>
              AfterRef(s, v).1 == ref && AfterRef(s, v).0.t == Put(Put(s.t, FREELIST, Get(s.t, ref)), ref, v))
        && (ref == 0 ==> AfterRef(s, v).1 == s.len + 1 && AfterRef(s, v).0.t == Put(s.t, s.len + 1, v))
    {
      if s.free != [] { assert s.free[0] in s.free; }
    }

    /** luaL_unref. */
    method Unref(ref: int)
      requires Valid() && (ref < 0 || ref in abs.live)
      modifies this
      ensures Valid() && abs == AfterUnref(old(abs), ref)
    {
      hide Ok;
      UnrefOk(abs, ref);
      if ref >= 0 {
        t := Put(t, ref, Get(t, FREELIST));
        t := Put(t, FREELIST, Integer(ref));
      }
      abs := AfterUnref(abs, ref);
    }
  }
}
