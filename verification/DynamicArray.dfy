/** The growable array: a spare slot, a doubling capacity, and a backing array of twice the capacity. */
module DynamicArrays {
  import opened Common

  /** A slot of a backing array; an element that was never written reads as `undefined`. */
  datatype Slot = Undefined | Value(n: int)

  class DynamicArray {
    var arr: array<Slot>
    var size: int
    var capacity: int
    ghost var copied: nat  // slots copied by `add` so far

    /** Room for a spare slot, which makes the look-ahead read of `removeAt` in bounds. */
    ghost predicate Valid()
      reads this
    {
      0 <= size && 0 <= capacity <= arr.Length <= 2 * capacity && (size > 0 ==> size < capacity)
    }

    /** Every slot from `size` on is empty. */
    ghost predicate Clean()
      reads this, arr
      requires Valid()
    {
      forall i :: size <= i < arr.Length ==> arr[i] == Undefined
    }

    ghost function Contents(): seq<Slot>
      reads this, arr
      requires Valid()
    {
      arr[..size]
    }

    ghost function Costs(): Shape
      reads this
    {
      Shape(size, capacity, arr.Length, copied)
    }

    constructor (capacity: nat)
      ensures Valid() && Clean() && Contents() == [] && Costs() == New(capacity) && fresh(arr)
    {
      this.capacity := capacity;
      arr := new Slot[capacity](_ => Undefined);
      size := 0;
      copied := 0;
    }

    method Add(element: Slot)
      requires Valid()
      modifies this, arr
      ensures Valid() && Contents() == old(Contents()) + [element]
      ensures old(Clean()) ==> Clean()
      ensures Costs() == Step(old(Costs()), Grow)
      ensures arr == old(arr) || fresh(arr)
    {
      if size >= capacity - 1 {
        if capacity == 0 { capacity := 1; }
        capacity := capacity * 2;
        var newArr := new Slot[capacity * 2](_ => Undefined);
        for i := 0 to arr.Length
          invariant unchanged(this`arr, this`size) && unchanged(old(arr)) && capacity * 2 == newArr.Length
          invariant capacity == (if old(capacity) == 0 then 1 else old(capacity)) * 2
          invariant forall j :: 0 <= j < newArr.Length ==> newArr[j] == if j < i then arr[j] else Undefined
          invariant copied == old(copied) + i
        {
          newArr[i] := arr[i];
          copied := copied + 1;
        }
        arr := newArr;
      }
      arr[size] := element;
      size := size + 1;
    }

    /** As written. An index equal to `size`, or a negative one, drops the last element but leaves it in its slot; on
        an empty array such an index drives the size to -1, the one case that does not keep the array valid. */
    method RemoveAt(index: int) returns (ok: bool)
      requires Valid()
      modifies this
      ensures ok == (index <= old(size)) && (!ok ==> unchanged(this))
      ensures ok ==> Costs() == Step(old(Costs()), Shrink) && fresh(arr)
      ensures Valid() <==> old(size) > 0 || index > 0
      ensures old(size) == 0 && index <= 0 ==>
                size == -1 && forall i :: 0 <= i < arr.Length ==> arr[i] == Undefined
      ensures 0 <= index < old(size) ==> Contents() == old(Contents()[..index] + Contents()[index + 1..])
      ensures ok && old(size) > 0 && old(Clean()) ==>
                (Clean() <==> 0 <= index < old(size) || old(arr[size - 1]) == Undefined)
      ensures ok && old(size) > 0 && !(0 <= index < old(size)) ==>
                Contents() == old(Contents())[..size] && arr[size] == old(arr[size - 1])
    {
      if index > size { return false; }
      var newArr := CopyWithout(index);
      assert size > 0 && !(0 <= index < size) ==>
        newArr[size - 1] == arr[size - 1] && newArr[..size - 1] == arr[..size - 1];
      arr := newArr;
      size := size - 1;
      ok := true;
    }

    /** The copy loop of `removeAt`, which skips position `index` when it meets it. */
    method CopyWithout(index: int) returns (newArr: array<Slot>)
      requires Valid() && index <= size
      ensures fresh(newArr) && newArr.Length == capacity
      ensures forall k :: 0 <= k < size - 1 ==> newArr[k] == arr[if 0 <= index <= k then k + 1 else k]
      ensures size > 0 ==>
                newArr[size - 1] == (if 0 <= index < size - 1 then Undefined
                                     else if index == size - 1 then arr[size] else arr[size - 1])
      ensures forall k :: size <= k < capacity ==> newArr[k] == Undefined
    {
      newArr := new Slot[capacity](_ => Undefined);
      var i, j := 0, 0;
      while i < size
        invariant unchanged(this) && unchanged(arr) && newArr.Length == capacity
        invariant 0 <= j <= size && j <= i <= size + 1 && i == (if 0 <= index < j then j + 1 else j)
        invariant 0 <= index < size - 1 ==> i <= size
        invariant forall k :: 0 <= k < j ==> newArr[k] == arr[if 0 <= index <= k then k + 1 else k]
        invariant forall k :: j <= k < capacity ==> newArr[k] == Undefined
        decreases size - i
      {
        if j == index { i := i + 1; }
        newArr[j] := arr[i];
        i, j := i + 1, j + 1;
      }
    }

    method Set(value: Slot, index: int)
      requires Valid() && 0 <= index < size
      modifies arr
      ensures Contents() == old(Contents())[index := value] && (old(Clean()) ==> Clean())
    {
      arr[index] := value;
    }

    /** Scans the whole backing array, not just the first `size` slots. */
    method IndexOf(element: Slot) returns (r: int)
      requires Valid()
      ensures r == FirstIndex(arr[..], element)
    {
      for i := 0 to arr.Length
        invariant forall j :: 0 <= j < i ==> arr[j] != element
      {
        if arr[i] == element {
          assert arr[..][i] == element;
          return i;
        }
      }
      r := -1;
    }
  }

  /** Scanning past the contents finds what scanning the contents finds, exactly when the element is in the
      contents or in no slot after them. */
  lemma {:induction false} ScanPastContents(s: seq<Slot>, rest: seq<Slot>, x: Slot)
    ensures FirstIndex(s + rest, x) == FirstIndex(s, x) <==> x in s || x !in rest
  {
    var k, m := FirstIndex(s + rest, x), FirstIndex(s, x);
    assert forall i :: 0 <= i < |s| ==> (s + rest)[i] == s[i];
    assert forall i :: 0 <= i < |rest| ==> (s + rest)[|s| + i] == rest[i];
  }

  /** On a clean array `indexOf` of a real element searches exactly the contents. */
  lemma {:induction false} IndexOfSearchesContents(a: DynamicArray, x: Slot)
    requires a.Valid() && a.Clean() && x != Undefined
    ensures FirstIndex(a.arr[..], x) == FirstIndex(a.Contents(), x)
  {
    var rest := a.arr[a.size..];
    assert a.arr[..] == a.Contents() + rest;
    ScanPastContents(a.Contents(), rest, x);
  }

  /** Removing at `size` leaves the removed element where `indexOf` still finds it. */
  method RemovedButFound(x: Slot) returns (a: DynamicArray, r: int)
    requires x != Undefined
    ensures a.Valid() && a.Contents() == [] && r == 0
  {
    a := new DynamicArray(0);
    a.Add(x);
    assert a.arr[0] == a.Contents()[0] == x;
    var ok := a.RemoveAt(1);
    assert a.size == 0 && a.arr[0] == x;
    assert a.arr[..][0] == x;
    r := a.IndexOf(x);
  }

  // ---- the cost of growing ----

  datatype Shape = Shape(size: int, capacity: int, length: int, copied: int)

  datatype Op = Grow | Shrink

  function New(capacity: nat): Shape
  {
    Shape(0, capacity, capacity, 0)
  }

  /** One `add`, or one `removeAt` that passes its check. */
  function Step(s: Shape, op: Op): Shape
  {
    match op
    case Grow =>
      if s.size >= s.capacity - 1 then
        var c := (if s.capacity == 0 then 1 else s.capacity) * 2;
        Shape(s.size + 1, c, c * 2, s.copied + s.length)
      else s.(size := s.size + 1)
    case Shrink => s.(size := s.size - 1, length := s.capacity)
  }

  function Steps(s: Shape, ops: seq<Op>): Shape
  {
    if ops == [] then s else Step(Steps(s, ops[..|ops| - 1]), ops[|ops| - 1])
  }

  function Adds(ops: seq<Op>): nat
  {
    if ops == [] then 0 else Adds(ops[..|ops| - 1]) + if ops[|ops| - 1].Grow? then 1 else 0
  }

  /** No prefix removes more than it adds. */
  predicate Feasible(ops: seq<Op>)
  {
    ops != [] ==> Feasible(ops[..|ops| - 1]) && |ops| <= 2 * Adds(ops)
  }

  /** The size is what was added less what was removed, the capacity and length stay in step, and the slots
      copied are paid for by the growth of the capacity. */
  lemma {:induction false} GrowthInvariant(c: nat, ops: seq<Op>)
    requires Feasible(ops)
    ensures var s := Steps(New(c), ops);
            && Adds(ops) <= |ops|
            && s.size == 2 * Adds(ops) - |ops| && (s.size > 0 ==> s.size < s.capacity)
            && 0 <= s.capacity <= s.length <= 2 * s.capacity
            && s.copied <= 2 * (s.capacity - c) && (s.capacity == c || s.capacity <= 2 * Adds(ops))
  {
    if ops != [] {
      GrowthInvariant(c, ops[..|ops| - 1]);
    }
  }

  /** Amortised bound: any mix of `add` and `removeAt`, from any initial capacity, copies at most four slots
      for each `add`. */
  lemma AmortisedCopies(c: nat, ops: seq<Op>)
    requires Feasible(ops)
    ensures Steps(New(c), ops).copied <= 4 * Adds(ops)
  {
    GrowthInvariant(c, ops);
  }

  lemma Extend(c: nat, ops: seq<Op>, op: Op)
    requires Feasible(ops) && (op.Shrink? ==> |ops| < 2 * Adds(ops))
    ensures Feasible(ops + [op]) && Steps(New(c), ops + [op]) == Step(Steps(New(c), ops), op)
  {
    assert (ops + [op])[..|ops|] == ops;
  }

  /** Any feasible mix of operations on a real array costs what the shapes say; each number names the
      position to remove and -1 an addition. */
  method Run(c: nat, script: seq<int>, x: Slot) returns (a: DynamicArray, ghost ops: seq<Op>)
    requires forall i :: 0 <= i < |script| ==> script[i] >= -1
    ensures a.Valid() && a.Clean() && Feasible(ops) && a.Costs() == Steps(New(c), ops)
    ensures a.copied <= 4 * Adds(ops)
  {
    a := new DynamicArray(c);
    ops := [];
    for i := 0 to |script|
      invariant a.Valid() && a.Clean() && fresh(a) && fresh(a.arr)
      invariant Feasible(ops) && a.Costs() == Steps(New(c), ops)
    {
      GrowthInvariant(c, ops);
      if script[i] == -1 {
        a.Add(x);
        Extend(c, ops, Grow);
        ops := ops + [Grow];
      } else if script[i] < a.size {
        var ok := a.RemoveAt(script[i]);
        Extend(c, ops, Shrink);
        ops := ops + [Shrink];
      }
    }
    AmortisedCopies(c, ops);
  }
}
