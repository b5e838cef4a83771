/** Model of the two in-place mutation helpers of task_two/pointers_example.go:
    `addTen`, which adds 10 to the integer a pointer refers to, and
    `doubleSlice`, which doubles every element of a slice in place.

    Go's `int` is 64 bits wide; here it is Dafny's unbounded `int`, so the
    wrap-around of an overflowing `+= 10` or `*= 2` is not modelled. */
module Pointers {

  // ---------------------------------------------------------------------------
  // addTen
  // ---------------------------------------------------------------------------

  /** A mutable integer variable whose address is taken (`x := 5; addTen(&x)`). */
  class Cell {
    var value: int

    constructor (v: int)
      ensures value == v
    {
      value := v;
    }
  }

  /** `addTen` as written: `*n += 10` through a non-nil pointer. The `modifies`
      clause is the frame: no object other than `c` changes. */
  method AddTenInPlace(c: Cell)
    modifies c
    ensures c.value == old(c.value) + 10
  {
    c.value := c.value + 10;
  }

  /** A Go `*int`: nil, or the address of a live variable. */
  datatype Ptr = Nil | Ref(addr: nat)

  /** The integer variables of a program, by address. */
  type Memory = map<nat, int>

  /** Go never hands out a dangling pointer: a non-nil pointer names a live variable. */
  predicate Valid(mem: Memory, p: Ptr)
  {
    p.Ref? ==> p.addr in mem
  }

  /** What a call does to memory: it updates it, or it panics on a nil dereference. */
  datatype Effect = Updated(mem: Memory) | NilDereference

  /** `addTen` over an explicit memory, so that its frame and its nil case can be stated. */
  function AddTen(mem: Memory, p: Ptr): (r: Effect)
    requires Valid(mem, p)
    ensures r.NilDereference? <==> p.Nil?
    ensures r.Updated? ==> r.mem.Keys == mem.Keys
    ensures r.Updated? ==> r.mem[p.addr] == mem[p.addr] + 10
    ensures r.Updated? ==> forall a :: a in mem && a != p.addr ==> r.mem[a] == mem[a]
  {
    match p
    case Nil => NilDereference
    case Ref(a) => Updated(mem[a := mem[a] + 10])
  }

  /** Taking 10 back off the cell `addTen` touched restores the memory exactly:
      the call changed that cell by +10 and nothing else. */
  lemma AddTenUndo(mem: Memory, a: nat)
    requires a in mem
    ensures AddTen(mem, Ref(a)).Updated?
    ensures var m := AddTen(mem, Ref(a)).mem; m[a := m[a] - 10] == mem
  {
  }

  /** Calls through two different pointers touch disjoint cells, so their order
      does not matter. */
  lemma AddTenCommutes(mem: Memory, a: nat, b: nat)
    requires a in mem && b in mem && a != b
    ensures AddTen(AddTen(mem, Ref(a)).mem, Ref(b)) == AddTen(AddTen(mem, Ref(b)).mem, Ref(a))
  {
  }

  // ---------------------------------------------------------------------------
  // doubleSlice
  // ---------------------------------------------------------------------------

  /** The reference meaning of `doubleSlice`: every element times two, in order. */
  function Doubled(s: seq<int>): (r: seq<int>)
    ensures |r| == |s|
    ensures forall i :: 0 <= i < |s| ==> r[i] == 2 * s[i]
  {
    if s == [] then [] else [2 * s[0]] + Doubled(s[1..])
  }

  /** Element-wise halving, the inverse of `Doubled` on even numbers. */
  function Halved(s: seq<int>): (r: seq<int>)
    ensures |r| == |s|
    ensures forall i :: 0 <= i < |s| ==> r[i] == s[i] / 2
  {
    if s == [] then [] else [s[0] / 2] + Halved(s[1..])
  }

  /** Doubling loses nothing: halving gives the original slice back. */
  lemma HalvedDoubled(s: seq<int>)
    ensures Halved(Doubled(s)) == s
  {
  }

  /** Sum of a slice. */
  function Sum(s: seq<int>): int
  {
    if s == [] then 0 else s[0] + Sum(s[1..])
  }

  /** Doubling every element doubles the total. */
  lemma {:induction false} SumDoubled(s: seq<int>)
    ensures Sum(Doubled(s)) == 2 * Sum(s)
  {
    if s != [] {
      SumDoubled(s[1..]);
      assert Doubled(s)[1..] == Doubled(s[1..]);
    }
  }

  /** `doubleSlice(s)`: walks the existing indices once, doubling each in
      place. It never appends, so the length is unchanged, and an empty slice
      is left as it is. A nil `*[]int` makes the `range *s` dereference panic,
      which here is the `panicked` result. */
  method DoubleSlice(a: array?<int>) returns (panicked: bool)
    modifies a
    ensures panicked <==> a == null
    ensures a != null ==> a[..] == Doubled(old(a[..]))
    ensures a != null && a.Length == 0 ==> a[..] == old(a[..])
  {
    if a == null {
      return true;
    }
    ghost var s := a[..];
    var i := 0;
    while i < a.Length
      invariant 0 <= i <= a.Length
      invariant forall k :: 0 <= k < i ==> a[k] == 2 * s[k]
      invariant forall k :: i <= k < a.Length ==> a[k] == s[k]
    {
      a[i] := 2 * a[i];
      i := i + 1;
    }
    return false;
  }

  /** The worked example in `main`: `x := 5; addTen(&x)` leaves 15, and
      `doubleSlice` turns [1, 2, 3, 4] into [2, 4, 6, 8]. */
  method RunExample() returns (x: int, doubled: seq<int>)
    ensures x == 15
    ensures doubled == [2, 4, 6, 8]
  {
    var c := new Cell(5);
    AddTenInPlace(c);
    x := c.value;
    var arr := new int[4] [1, 2, 3, 4];
    var panicked := DoubleSlice(arr);
    assert !panicked;
    doubled := arr[..];
  }
}
