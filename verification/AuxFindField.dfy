/** Searching loaded modules for a name: a bounded depth-first search through tables that
    keeps its state on the Lua stack. */
module AuxFindField {
  import opened Wrappers
  datatype Val = VNil | VStr(s: string) | VTable(id: nat) | VOther(id: nat)

  /** For every table, its entries in the order lua_next visits them. Tables may be cyclic. */
  type Heap = map<nat, seq<(Val, Val)>>

  /** Keys are distinct and not nil. */
  predicate HeapOk(h: Heap) {
    forall id :: id in h ==>
      && (forall i :: 0 <= i < |h[id]| ==> h[id][i].0 != VNil)
      && (forall i, j :: 0 <= i < j < |h[id]| ==> h[id][i].0 != h[id][j].0)
  }

  function Entries(h: Heap, v: Val): seq<(Val, Val)> {
    if v.VTable? && v.id in h then h[v.id] else []
  }

  /** Following the names of `path` from table to table ends at `obj`. */
  ghost predicate Reaches(h: Heap, v: Val, path: seq<string>, obj: Val)
    decreases |path|
  {
    && path != []
    && exists i :: 0 <= i < |Entries(h, v)| && Entries(h, v)[i].0 == VStr(path[0])
         && (if |path| == 1 then Entries(h, v)[i].1 == obj else Reaches(h, Entries(h, v)[i].1, path[1..], obj))
  }

  function Dotted(path: seq<string>): string {
    if path == [] then "" else if |path| == 1 then path[0] else path[0] + "." + Dotted(path[1..])
  }

  /** The first path a depth-first search of at most `level` levels comes to. */
  function Find(h: Heap, v: Val, obj: Val, level: nat): Option<seq<string>>
    decreases level, 1, 0
  {
    if level == 0 then None else FindFrom(h, Entries(h, v), 0, obj, level)
  }

  function FindFrom(h: Heap, es: seq<(Val, Val)>, i: nat, obj: Val, level: nat): Option<seq<string>>
    requires level > 0 && i <= |es|
    decreases level, 0, |es| - i
  {
    if i == |es| then None
    else if !es[i].0.VStr? then FindFrom(h, es, i + 1, obj, level)
    else if es[i].1 == obj then Some([es[i].0.s])
    else
      var p := Find(h, es[i].1, obj, level - 1);
      if p.Some? then Some([es[i].0.s] + p.value) else FindFrom(h, es, i + 1, obj, level)
  }

  /** What is found is a path within the level. */
  lemma {:induction false} FindSound(h: Heap, v: Val, obj: Val, level: nat)
    requires Find(h, v, obj, level).Some?
    ensures var p := Find(h, v, obj, level).value; Reaches(h, v, p, obj) && |p| <= level
    decreases level, 1, 0
  {
    FindFromSound(h, v, 0, obj, level);
  }

  lemma {:induction false} FindFromSound(h: Heap, v: Val, i: nat, obj: Val, level: nat)
    requires level > 0 && i <= |Entries(h, v)| && FindFrom(h, Entries(h, v), i, obj, level).Some?
    ensures var p := FindFrom(h, Entries(h, v), i, obj, level).value; Reaches(h, v, p, obj) && |p| <= level
    decreases level, 0, |Entries(h, v)| - i
  {
    var es := Entries(h, v);
    if es[i].0.VStr? && es[i].1 == obj {
      assert es[i].0 == VStr([es[i].0.s][0]);
    } else if es[i].0.VStr? && Find(h, es[i].1, obj, level - 1).Some? {
      FindSound(h, es[i].1, obj, level - 1);
      var p := Find(h, es[i].1, obj, level - 1).value;
      var q := [es[i].0.s] + p;
      assert q[1..] == p && es[i].0 == VStr(q[0]);
    } else {
      FindFromSound(h, v, i + 1, obj, level);
    }
  }

  /** Any path within the level makes the search succeed. */
  lemma {:induction false} FindComplete(h: Heap, v: Val, path: seq<string>, obj: Val, level: nat)
    requires Reaches(h, v, path, obj) && |path| <= level
    ensures Find(h, v, obj, level).Some?
    decreases level, 1, 0
  {
    var es := Entries(h, v);
    var i :| 0 <= i < |es| && es[i].0 == VStr(path[0])
      && (if |path| == 1 then es[i].1 == obj else Reaches(h, es[i].1, path[1..], obj));
    if |path| > 1 { FindComplete(h, es[i].1, path[1..], obj, level - 1); }
    FindFromReaches(h, es, 0, i, obj, level);
  }

  lemma {:induction false} FindFromReaches(h: Heap, es: seq<(Val, Val)>, j: nat, i: nat, obj: Val, level: nat)
    requires level > 0 && j <= i < |es| && es[i].0.VStr?
    requires es[i].1 == obj || Find(h, es[i].1, obj, level - 1).Some?
    ensures FindFrom(h, es, j, obj, level).Some?
    decreases i - j
  {
    if j < i { FindFromReaches(h, es, j + 1, i, obj, level); }
  }

  /** The search succeeds exactly when the object is reachable by string keys within the level. */
  lemma FindIff(h: Heap, v: Val, obj: Val, level: nat)
    ensures Find(h, v, obj, level).Some? <==> exists path :: |path| <= level && Reaches(h, v, path, obj)
  {
    if Find(h, v, obj, level).Some? { FindSound(h, v, obj, level); }
    forall path: seq<string> | |path| <= level && Reaches(h, v, path, obj) ensures Find(h, v, obj, level).Some? {
      FindComplete(h, v, path, obj, level);
    }
  }

  /** The stack operations findfield needs. */
  class LuaState {
    const heap: Heap
    var stack: seq<Val>

    constructor (heap: Heap, stack: seq<Val>)
      ensures this.heap == heap && this.stack == stack
    {
      this.heap, this.stack := heap, stack;
    }

    method Push(v: Val)
      modifies this
      ensures stack == old(stack) + [v]
    {
      stack := stack + [v];
    }

    method Pop()
      requires stack != []
      modifies this
      ensures stack == old(stack)[..|old(stack)| - 1]
    {
      stack := stack[..|stack| - 1];
    }

    /** lua_remove(L, -2). */
    method RemoveBelowTop()
      requires |stack| >= 2
      modifies this
      ensures stack == old(stack)[..|old(stack)| - 2] + [old(stack)[|old(stack)| - 1]]
    {
      stack := stack[..|stack| - 2] + [stack[|stack| - 1]];
    }

    /** lua_insert(L, -2). */
    method InsertBelowTop()
      requires |stack| >= 2
      modifies this
      ensures stack == old(stack)[..|old(stack)| - 2] + [old(stack)[|old(stack)| - 1], old(stack)[|old(stack)| - 2]]
    {
      stack := stack[..|stack| - 2] + [stack[|stack| - 1], stack[|stack| - 2]];
    }

    /** lua_concat(L, 3) on strings. */
    method Concat3()
      requires |stack| >= 3 && stack[|stack| - 1].VStr? && stack[|stack| - 2].VStr? && stack[|stack| - 3].VStr?
      modifies this
      ensures
        var n := |old(stack)|;
        stack == old(stack)[..n - 3] + [VStr(old(stack)[n - 3].s + old(stack)[n - 2].s + old(stack)[n - 1].s)]
    {
      var n := |stack|;
      stack := stack[..n - 3] + [VStr(stack[n - 3].s + stack[n - 2].s + stack[n - 1].s)];
    }

    /** lua_next(L, -2): replaces the key on top by the next key and value, if there are any. */
    method Next(ghost i: nat) returns (more: bool)
      requires HeapOk(heap) && |stack| >= 2
      requires
        var es := Entries(heap, stack[|stack| - 2]);
        i <= |es| && stack[|stack| - 1] == (if i == 0 then VNil else es[i - 1].0)
      modifies this
      ensures
        var n := |old(stack)|;
        var es := Entries(heap, old(stack)[n - 2]);
        && more == (i < |es|)
        && stack == old(stack)[..n - 1] + if more then [es[i].0, es[i].1] else []
    {
      var es := Entries(heap, stack[|stack| - 2]);
      var key := stack[|stack| - 1];
      var k := 0;
      if key != VNil {
        while es[k].0 != key
          invariant k < i
          decreases i - k
        {
          k := k + 1;
        }
        k := k + 1;
      }
      if k == |es| {
        stack := stack[..|stack| - 1];
        return false;
      }
      stack := stack[..|stack| - 1] + [es[k].0, es[k].1];
      return true;
    }

    /** Joins the key and the name found below it, dropping the table between them. */
    method JoinNames()
      requires |stack| >= 3 && stack[|stack| - 3].VStr? && stack[|stack| - 1].VStr?
      modifies this
      ensures
        var n := |old(stack)|;
        stack == old(stack)[..n - 3] + [VStr(old(stack)[n - 3].s + "." + old(stack)[n - 1].s)]
    {
      ghost var s := stack[..|stack| - 3];
      ghost var name, sub := stack[|stack| - 3], stack[|stack| - 1];
      RemoveBelowTop();
      assert stack == s + [name, sub];
      Push(VStr("."));
      InsertBelowTop();
      assert stack == s + [name, VStr("."), sub];
      Concat3();
    }

    /** findfield, with the object at index `objidx` and the table on top of the stack. */
    method FindField(objidx: nat, level: nat) returns (found: bool)
      requires HeapOk(heap) && 1 <= objidx <= |stack|
      modifies this
      ensures
        var path := Find(heap, old(stack)[|old(stack)| - 1], old(stack)[objidx - 1], level);
        && found == path.Some?
        && stack == old(stack) + if found then [VStr(Dotted(path.value))] else []
      decreases level
    {
      hide Find, FindFrom, HeapOk, Dotted, Entries;
      ghost var s := stack;
      var table, obj := stack[|stack| - 1], stack[objidx - 1];
      FindStart(heap, table, obj, level);
      if level == 0 || !table.VTable? { return false; }
      ghost var es := Entries(heap, table);
      Push(VNil);
      ghost var i := 0;
      var more := Next(0);
      while more
        invariant i <= |es| && more == (i < |es|)
        invariant stack == s + if more then [es[i].0, es[i].1] else []
        invariant Find(heap, table, obj, level) == FindFrom(heap, es, i, obj, level)
        decreases |es| - i
      {
        ghost var key, value := es[i].0, es[i].1;
        FindStep(heap, es, i, obj, level);
        if stack[|stack| - 2].VStr? {
          if stack[objidx - 1] == stack[|stack| - 1] {
            Pop();
            assert stack == s + [key];
            return true;
          }
          var sub := FindField(objidx, level - 1);
          if sub {
            assert stack == s + [key, value, stack[|stack| - 1]];
            JoinNames();
            return true;
          }
        }
        Pop();
        assert stack == s + [key];
        i := i + 1;
        more := Next(i);
      }
      FindEnd(heap, es, obj, level);
      return false;
    }
  }

  lemma FindStart(h: Heap, v: Val, obj: Val, level: nat)
    ensures level == 0 || !v.VTable? ==> Find(h, v, obj, level) == None
    ensures level > 0 && v.VTable? ==> Find(h, v, obj, level) == FindFrom(h, Entries(h, v), 0, obj, level)
  {}

  lemma FindEnd(h: Heap, es: seq<(Val, Val)>, obj: Val, level: nat)
    requires level > 0
    ensures FindFrom(h, es, |es|, obj, level) == None
  {}

  lemma FindStep(h: Heap, es: seq<(Val, Val)>, i: nat, obj: Val, level: nat)
    requires level > 0 && i < |es|
    ensures
      var here := FindFrom(h, es, i, obj, level);
      var sub := Find(h, es[i].1, obj, level - 1);
      if !es[i].0.VStr? || (es[i].1 != obj && sub.None?) then here == FindFrom(h, es, i + 1, obj, level)
      else here.Some? && Dotted(here.value) == if es[i].1 == obj then es[i].0.s else es[i].0.s + "." + Dotted(sub.value)
  {
    var sub := Find(h, es[i].1, obj, level - 1);
    if es[i].0.VStr? && es[i].1 != obj && sub.Some? {
      FoundPath(h, es[i].1, obj, level - 1);
      assert ([es[i].0.s] + sub.value)[1..] == sub.value;
    }
  }

  lemma FoundPath(h: Heap, v: Val, obj: Val, level: nat)
    requires Find(h, v, obj, level).Some?
    ensures Find(h, v, obj, level).value != []
  {
    FindSound(h, v, obj, level);
  }
}
