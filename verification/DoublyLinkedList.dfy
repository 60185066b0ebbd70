/** The doubly linked list and its nodes, as written: `removeFirst` and `removeLast` compare where they
    should reset, so an emptied list may keep a dangling `head` or `tail`, and `removeAt` shadows its cursor. */
module LinkedLists {
  import opened Common

  /** A stored value: `null`, or a value with an identity (what `==` compares) and its own enumerable
      properties (what `isShallowEqual` compares; a property holding `undefined` counts as absent). */
  datatype Value = Null | Data(id: int, props: map<string, int>)

  /** What a removal gives back: an error, the datum (`removeFirst`, `removeLast`), or plain `true`. */
  datatype Removal = EmptyError | IndexError | TypeError | Datum(data: Value) | Done(removed: bool)

  /** Outcome of one comparison in a scan; reading a property of `null` crashes. */
  datatype Test = Hit | Miss | Crash

  function Matches(data: Value, target: Value): Test
  {
    if target == Null then
      if data == Null then Hit else Miss
    else if data == Null then
      if target.props == map[] then Hit else Crash
    else if data.props == target.props then Hit else Miss
  }

  /** The comparison written out: values with properties hit exactly when each has every property of the other with the
      same value; `null` hits `null` and misses as a target otherwise; reading a property of a `null` element crashes
      unless the target has none, when it hits. */
  lemma MatchesMeans(data: Value, target: Value)
    ensures data.Data? && target.Data? ==>
              && Matches(data, target) != Crash
              && (Matches(data, target) == Hit <==>
                    && (forall p :: p in data.props ==> p in target.props && target.props[p] == data.props[p])
                    && forall p :: p in target.props ==> p in data.props && data.props[p] == target.props[p])
    ensures target == Null ==> Matches(data, target) == if data == Null then Hit else Miss
    ensures data == Null && target.Data? ==>
              Matches(data, target) == if exists p :: p in target.props then Crash else Hit
  {
    if data.Data? && target.Data? && Matches(data, target) != Hit {
      assert data.props != target.props;
    }
    if data.Data? && target.Data? && data.props.Keys == target.props.Keys
       && forall p :: p in data.props ==> data.props[p] == target.props[p] {
      assert data.props == target.props;
    }
    if target.Data? && target.props != map[] { assert exists p :: p in target.props.Keys; }
  }

  /** The first position at which the scan stops, or |s| when it runs to the end. */
  function StopsAt(s: seq<Value>, target: Value): (k: nat)
    ensures k <= |s|
    ensures forall j :: 0 <= j < k ==> Matches(s[j], target) == Miss
    ensures k < |s| ==> Matches(s[k], target) != Miss
  {
    if s == [] || Matches(s[0], target) != Miss then 0 else 1 + StopsAt(s[1..], target)
  }

  function DropAt<T>(s: seq<T>, k: nat): (r: seq<T>)
    requires k < |s|
    ensures |r| == |s| - 1
    ensures forall i {:trigger r[i]} :: 0 <= i < k ==> r[i] == s[i]
    ensures forall i {:trigger r[i]} :: k <= i < |r| ==> r[i] == s[i + 1]
  {
    seq(|s| - 1, i requires 0 <= i < |s| - 1 => s[if i < k then i else i + 1])
  }

  lemma DropEnds<T>(s: seq<T>)
    ensures s != [] ==> DropAt(s, 0) == s[1..] && DropAt(s, |s| - 1) == s[..|s| - 1]
  {
  }

  function Reversed<T>(s: seq<T>): seq<T>
  {
    if s == [] then [] else Reversed(s[1..]) + [s[0]]
  }

  /** A list as a value. `dangling` holds at most one value and only beside empty contents. */
  datatype Model = Model(contents: seq<Value>, dangling: seq<Value>)

  datatype Op =
    | AddFirst(element: Value) | AddLast(element: Value)
    | RemoveFirst | RemoveLast | RemoveAt(index: int) | RemoveObject(target: Value)
    | RemoveNode(position: int)  // of the node at that position of the walk from head
    | Clear

  /** The matching sequence operation, dangling head included. */
  function Step(m: Model, op: Op): Model
  {
    var s := m.contents;
    match op
    case AddFirst(x) => Model([x] + s, [])
    case AddLast(x) => Model(s + [x], [])
    case RemoveFirst => if s == [] then m else Model(s[1..], [])
    case RemoveLast => if s == [] then m else Model(s[..|s| - 1], if |s| == 1 then s else [])
    case RemoveAt(i) => if 0 <= i < |s| then Model(DropAt(s, RemovedPosition(i, |s|)), []) else m
    case RemoveObject(o) =>
      var k := StopsAt(s, o);
      if k < |s| && Matches(s[k], o) == Hit then Model(DropAt(s, k), []) else m
    case RemoveNode(i) => if 0 <= i < |s| then Model(DropAt(s, i), []) else m
    case Clear => Model([], [])
  }

  function Steps(m: Model, ops: seq<Op>): Model
  {
    if ops == [] then m else Step(Steps(m, ops[..|ops| - 1]), ops[|ops| - 1])
  }

  class NodeLink {
    var value: Value
    var next: NodeLink?
    var previous: NodeLink?

    constructor (value: Value, prev: NodeLink?, next: NodeLink?)
      ensures this.value == value && this.previous == prev && this.next == next
    {
      this.value := value;
      this.next := next;
      this.previous := prev;
    }
  }

  class DoublyLinkedList {
    var size: int
    var head: NodeLink?
    var tail: NodeLink?
    ghost var nodes: seq<NodeLink>
    ghost var contents: seq<Value>
    ghost var repr: set<object>  // the list and every node it ever held

    ghost predicate Linked()
      reads this, repr
      requires forall i :: 0 <= i < |nodes| ==> nodes[i] in repr
    {
      && (forall i, j :: 0 <= i < j < |nodes| ==> nodes[i] != nodes[j])
      && (forall i {:trigger nodes[i].next} :: 0 <= i < |nodes| - 1 ==> nodes[i].next == nodes[i + 1])
      && (forall i {:trigger nodes[i].previous} :: 1 <= i < |nodes| ==> nodes[i].previous == nodes[i - 1])
      && (|nodes| > 0 ==>
            && nodes[0].previous == null && nodes[|nodes| - 1].next == null
            && head == nodes[0] && tail == nodes[|nodes| - 1])
    }

    /** The pointer invariant. An empty list may keep a lone node in `head`. */
    ghost predicate Valid()
      reads this, repr
    {
      && this in repr && (head != null ==> head in repr)
      && (forall i :: 0 <= i < |nodes| ==> nodes[i] in repr)
      && size == |nodes| == |contents|
      && Linked()
      && (forall i :: 0 <= i < |nodes| ==> contents[i] == nodes[i].value)
      && (nodes == [] && head != null ==> head.next == null && head.previous == null)
    }

    /** The nodes met by a loop that starts at `head` and follows `next`. */
    ghost function Walk(): seq<NodeLink>
      reads this
    {
      if nodes != [] then nodes else if head == null then [] else [head]
    }

    /** The values met by such a loop. */
    ghost function Walked(): seq<Value>
      reads this, head
    {
      if nodes != [] then contents else if head == null then [] else [head.value]
    }

    /** What the list stands for: its contents, and the value of a dangling head. */
    ghost function Abstract(): Model
      reads this, head
    {
      Model(contents, if nodes == [] && head != null then [head.value] else [])
    }

    constructor ()
      ensures Valid() && fresh(repr) && contents == [] && nodes == [] && head == null && tail == null
    {
      head := null;
      tail := null;
      size := 0;
      nodes := [];
      contents := [];
      repr := {this};
    }

    method Clear()
      requires Valid()
      modifies repr
      ensures Valid() && contents == [] && head == null && tail == null
      ensures fresh(repr - old(repr)) && Abstract() == Step(old(Abstract()), Op.Clear)
      ensures forall n :: n in old(Walk()) ==> n.value == Null && n.next == null && n.previous == null
    {
      var currentNode := head;
      ghost var w := Walk();
      ghost var i := 0;
      while currentNode != null
        invariant 0 <= i <= |w| && currentNode == (if i < |w| then w[i] else null)
        invariant unchanged(this)
        invariant forall j {:trigger w[j].next} :: i <= j < |w| ==>
                    w[j].next == (if j + 1 < |w| then w[j + 1] else null)
        invariant forall j :: 0 <= j < i ==> w[j].value == Null && w[j].next == null && w[j].previous == null
        decreases |w| - i
      {
        var nextNode := currentNode.next;
        currentNode.value := Null;
        currentNode.next := null;
        currentNode.previous := null;
        currentNode := nextNode;
        i := i + 1;
      }
      tail := null;
      head := null;
      size := 0;
      nodes := [];
      contents := [];
    }

    method AddFirst(element: Value)
      requires Valid()
      modifies repr
      ensures Valid() && contents == [element] + old(contents)
      ensures fresh(repr - old(repr))
      ensures head != null && fresh(head) && nodes == [head] + old(nodes)
    {
      if size == 0 {
        head := new NodeLink(element, null, null);
        tail := head;
      } else {
        head.previous := new NodeLink(element, null, head);
        head := head.previous;
      }
      size := size + 1;
      repr := repr + {head};
      ghost var was := nodes;
      nodes := [head] + nodes;
      assert forall i :: 0 < i < |nodes| ==> nodes[i] == was[i - 1];
      contents := [element] + contents;
    }

    method AddLast(element: Value)
      requires Valid()
      modifies repr
      ensures Valid() && contents == old(contents) + [element]
      ensures fresh(repr - old(repr))
      ensures tail != null && fresh(tail) && nodes == old(nodes) + [tail]
    {
      if size == 0 {
        tail := new NodeLink(element, null, null);
        head := tail;
      } else {
        tail.next := new NodeLink(element, tail, null);
        tail := tail.next;
      }
      size := size + 1;
      repr := repr + {tail};
      nodes := nodes + [tail];
      contents := contents + [element];
    }

    method PeekFirst() returns (r: Removal)
      requires Valid()
      ensures r == if contents == [] then EmptyError else Datum(contents[0])
    {
      if size == 0 { return EmptyError; }
      r := Datum(head.value);
    }

    method PeekLast() returns (r: Removal)
      requires Valid()
      ensures r == if contents == [] then EmptyError else Datum(contents[|contents| - 1])
    {
      if size == 0 { return EmptyError; }
      r := Datum(tail.value);
    }

    method RemoveFirst() returns (r: Removal)
      requires Valid()
      modifies repr
      ensures Valid() && repr == old(repr)
      ensures Abstract() == Step(old(Abstract()), Op.RemoveFirst)
      ensures old(contents) == [] ==> r == EmptyError && unchanged(repr)
      ensures old(contents) != [] ==>
                && r == Datum(old(contents[0]))
                && contents == old(contents[1..]) && nodes == old(nodes[1..])
                && (contents == [] ==> head == null && tail == old(tail))
    {
      if size == 0 { return EmptyError; }
      r := Datum(head.value);
      head := head.next;
      size := size - 1;
      nodes := nodes[1..];
      contents := contents[1..];
      if size != 0 {
        head.previous := null;
      }
    }

    method RemoveLast() returns (r: Removal)
      requires Valid()
      modifies repr
      ensures Valid() && repr == old(repr)
      ensures Abstract() == Step(old(Abstract()), Op.RemoveLast)
      ensures old(contents) == [] ==> r == EmptyError && unchanged(repr)
      ensures old(contents) != [] ==>
                && r == Datum(old(contents[|contents| - 1]))
                && contents == old(contents[..|contents| - 1]) && nodes == old(nodes[..|nodes| - 1])
                && (contents == [] ==> tail == null && head == old(head) && head.value == old(contents[0]))
    {
      if size == 0 { return EmptyError; }
      r := Datum(tail.value);
      size := size - 1;
      tail := tail.previous;
      nodes := nodes[..|nodes| - 1];
      contents := contents[..|contents| - 1];
      if size != 0 {
        tail.next := null;
      }
    }

    /** `node` is one the list can hand out; `k` is its position. */
    method RemoveNode(node: NodeLink, ghost k: nat) returns (r: Removal)
      requires Valid()
      requires k < |Walk()| && Walk()[k] == node
      modifies repr
      ensures Valid() && repr == old(repr)
      ensures old(nodes) == [] ==> r == EmptyError && unchanged(repr)
      ensures old(nodes) != [] ==>
                && nodes == DropAt(old(nodes), k) && contents == DropAt(old(contents), k)
                && (contents == [] ==> head == null)
                && r == if k == 0 || k == |old(nodes)| - 1 then Datum(old(contents[k])) else Done(true)
    {
      DropEnds(nodes);
      DropEnds(contents);
      if node.previous == null {
        assert nodes != [] ==> k == 0;
        r := RemoveFirst();
        return;
      }
      assert k > 0 && nodes[k] == node;
      if node.next == null {
        assert k == |nodes| - 1;
        r := RemoveLast();
        return;
      }
      Unlink(node, k);
      Wipe(node);
      r := Done(true);
    }

    /** The clearing of a node that has left the list. */
    method Wipe(node: NodeLink)
      requires Valid() && nodes != []
      requires forall i :: 0 <= i < |nodes| ==> nodes[i] != node
      modifies node
      ensures Valid() && node.value == Null && node.next == null && node.previous == null
    {
      node.value := Null;
      node.next := null;
      node.previous := null;
    }

    /** `removeNode` on an inner node, up to clearing the node. */
    method Unlink(node: NodeLink, ghost k: nat)
      requires Valid()
      requires 0 < k < |nodes| - 1 && nodes[k] == node
      modifies repr
      ensures Valid() && repr == old(repr)
      ensures nodes == DropAt(old(nodes), k) && contents == DropAt(old(contents), k)
      ensures nodes != [] && forall i :: 0 <= i < |nodes| ==> nodes[i] != node
    {
      var prevNode := node.previous;
      var nextNode := node.next;
      assert prevNode == nodes[k - 1] && nextNode == nodes[k + 1];
      prevNode.next := nextNode;
      nextNode.previous := prevNode;
      size := size - 1;
      nodes := DropAt(nodes, k);
      contents := DropAt(contents, k);
    }

    /** Removes the first match met from `head`, reports a crash, or reports that the dangling node of an
        emptied list cannot be removed. */
    method RemoveObject(target: Value) returns (r: Removal)
      requires Valid()
      modifies repr
      ensures Valid() && repr == old(repr)
      ensures var w := old(Walked()); var k := StopsAt(w, target);
              r == if k == |w| then Done(false)
                   else if Matches(w[k], target) == Crash then TypeError
                   else if old(nodes) == [] then EmptyError else Done(true)
      ensures r != Done(true) ==> unchanged(repr)
      ensures r == Done(true) ==>
                var k := StopsAt(old(contents), target);
                k < |old(nodes)| && nodes == DropAt(old(nodes), k) && contents == DropAt(old(contents), k)
                && (contents == [] ==> head == null)
    {
      var node, test := Find(target);
      if node == null { return Done(false); }
      if test == Crash { return TypeError; }
      r := RemoveNode(node, StopsAt(Walked(), target));
      r := if r == EmptyError then r else Done(true);
    }

    /** The scanning loop of `removeObject`. */
    method Find(target: Value) returns (node: NodeLink?, test: Test)
      requires Valid()
      ensures |Walk()| == |Walked()|
      ensures var k := StopsAt(Walked(), target);
              if k == |Walk()| then node == null
              else node == Walk()[k] && test == Matches(Walked()[k], target)
    {
      node, test := head, Miss;
      ghost var k := 0;
      while node != null
        invariant k <= |Walk()| && node == (if k < |Walk()| then Walk()[k] else null)
        invariant forall j :: 0 <= j < k ==> Matches(Walked()[j], target) == Miss
        decreases |Walk()| - k
      {
        assert node.value == Walked()[k];
        test := Matches(node.value, target);
        if test != Miss { break; }
        node := node.next;
        k := k + 1;
      }
      StopsAtUnique(Walked(), target, k);
    }

    /** As written: past the middle, the inner loop advances its own cursor and the head is removed. */
    method RemoveAt(index: int) returns (r: Removal)
      requires Valid()
      modifies repr
      ensures Valid() && repr == old(repr)
      ensures Abstract() == Step(old(Abstract()), Op.RemoveAt(index))
      ensures !(0 <= index < old(size)) ==> r == IndexError && unchanged(repr)
      ensures 0 <= index < old(size) ==>
                var k := RemovedPosition(index, old(size));
                && nodes == DropAt(old(nodes), k) && contents == DropAt(old(contents), k)
                && (contents == [] ==> head == null)
                && r == if k == 0 || k == |old(nodes)| - 1 then Datum(old(contents)[k]) else Done(true)
    {
      var current := head;
      if index < 0 || index >= size { return IndexError; }
      if 2 * index < size {
        var i := 0;
        while i != index
          invariant 0 <= i <= index && current == nodes[i]
          decreases index - i
        {
          i := i + 1;
          current := current.next;
        }
      } else {
        var i := size;
        var shadow := tail;
        while i != index
          invariant index <= i <= size && shadow == (if i == 0 then null else nodes[i - 1])
          decreases i - index
        {
          shadow := shadow.previous;
          i := i - 1;
        }
      }
      r := RemoveNode(current, RemovedPosition(index, size));
    }

    method IndexOf(target: Value) returns (index: int)
      requires Valid()
      ensures index == FirstIndex(Walked(), target)
    {
      var currentNode := head;
      index := 0;
      while currentNode != null
        invariant 0 <= index <= |Walk()| && currentNode == (if index < |Walk()| then Walk()[index] else null)
        invariant forall j :: 0 <= j < index ==> Walked()[j] != target
        decreases |Walk()| - index
      {
        assert currentNode.value == Walked()[index];
        if currentNode.value == target {
          FirstIndexUnique(Walked(), target, index);
          return;
        }
        currentNode := currentNode.next;
        index := index + 1;
      }
      index := -1;
    }
  }

  /** The position `removeAt` really removes. */
  function RemovedPosition(index: int, size: int): nat
    requires 0 <= index < size
  {
    if 2 * index < size then index else 0
  }

  lemma StopsAtUnique(s: seq<Value>, target: Value, k: nat)
    requires k <= |s|
    requires forall j :: 0 <= j < k ==> Matches(s[j], target) == Miss
    requires k < |s| ==> Matches(s[k], target) != Miss
    ensures StopsAt(s, target) == k
  {
    var m := StopsAt(s, target);
    if m < k { assert false; } else if k < m { assert false; }
  }

  lemma FirstIndexUnique(s: seq<Value>, target: Value, k: nat)
    requires k < |s| && s[k] == target
    requires forall j :: 0 <= j < k ==> s[j] != target
    ensures FirstIndex(s, target) == k
  {
    var m := FirstIndex(s, target);
    assert k == m || k < m || m < k;
  }

  /** `removeAt(index)` deletes position `index` exactly for the positions before the middle. */
  lemma RemoveAtExactBeforeMiddle<T>(nodes: seq<T>, index: nat)
    requires index < |nodes|
    requires forall i, j :: 0 <= i < j < |nodes| ==> nodes[i] != nodes[j]
    ensures DropAt(nodes, RemovedPosition(index, |nodes|)) == DropAt(nodes, index) <==> 2 * index < |nodes|
  {
    if 2 * index >= |nodes| {
      assert DropAt(nodes, 0)[0] == nodes[1];
      assert DropAt(nodes, index)[0] == nodes[0];
    }
  }

  /** `removeObject` stops at the first occurrence exactly when nothing before it has the same properties or makes
      the comparison crash. */
  lemma RemoveObjectStopsAtFirst(s: seq<Value>, target: Value)
    requires target in s
    ensures StopsAt(s, target) == FirstIndex(s, target)
       <==> forall j :: 0 <= j < FirstIndex(s, target) ==> Matches(s[j], target) == Miss
  {
    var k := FirstIndex(s, target);
    assert Matches(s[k], target) == Hit;
    if forall j :: 0 <= j < k ==> Matches(s[j], target) == Miss { StopsAtUnique(s, target, k); }
  }

  /** So among values without properties of their own, such as numbers, it removes whatever comes first. */
  lemma RemoveObjectIgnoresNumbers(s: seq<Value>, target: Value)
    requires s != [] && target != Null && target.props == map[] && s[0] != Null && s[0].props == map[]
    ensures Step(Model(s, []), Op.RemoveObject(target)) == Model(DropAt(s, 0), [])
  {
  }

  /** `indexOf` searches the list's contents exactly when no dangling head holds the target. */
  lemma IndexOfExactWithoutDanglingHead(l: DoublyLinkedList, target: Value)
    requires l.Valid()
    ensures FirstIndex(l.Walked(), target) == FirstIndex(l.contents, target)
       <==> l.size > 0 || l.head == null || l.head.value != target
  {
    if l.size == 0 && l.head != null { assert l.Walked() == [l.head.value]; }
  }

  ghost function Forward(n: NodeLink?, fuel: nat): seq<NodeLink>
    reads *
  {
    if n == null || fuel == 0 then [] else [n] + Forward(n.next, fuel - 1)
  }

  ghost function Backward(n: NodeLink?, fuel: nat): seq<NodeLink>
    reads *
  {
    if n == null || fuel == 0 then [] else [n] + Backward(n.previous, fuel - 1)
  }

  lemma {:induction false} ForwardSuffix(l: DoublyLinkedList, i: nat)
    requires l.Valid() && i < |l.nodes|
    ensures Forward(l.nodes[i], |l.nodes| + 1 - i) == l.nodes[i..]
    decreases |l.nodes| - i
  {
    if i + 1 < |l.nodes| {
      ForwardSuffix(l, i + 1);
    } else {
      assert l.nodes[i].next == null;
    }
  }

  lemma {:induction false} ReversedAppend<T>(s: seq<T>, x: T)
    ensures Reversed(s + [x]) == [x] + Reversed(s)
  {
    if s != [] {
      ReversedAppend(s[1..], x);
      assert (s + [x])[1..] == s[1..] + [x];
    }
  }

  lemma {:induction false} BackwardPrefix(l: DoublyLinkedList, i: nat)
    requires l.Valid() && i < |l.nodes|
    ensures Backward(l.nodes[i], i + 2) == Reversed(l.nodes[..i + 1])
    decreases i
  {
    assert l.nodes[..i + 1] == l.nodes[..i] + [l.nodes[i]];
    ReversedAppend(l.nodes[..i], l.nodes[i]);
    if i > 0 {
      BackwardPrefix(l, i - 1);
    } else {
      assert l.nodes[0].previous == null;
    }
  }

  /** Forward from `head` and backward from `tail` list the same `size` nodes in mirror order, exactly when
      an empty list has reset the pointer the walk starts from. */
  lemma WalksMirror(l: DoublyLinkedList)
    requires l.Valid()
    ensures Forward(l.head, l.size + 1) == l.nodes <==> l.size > 0 || l.head == null
    ensures Backward(l.tail, l.size + 1) == Reversed(l.nodes) <==> l.size > 0 || l.tail == null
  {
    if l.size > 0 {
      ForwardSuffix(l, 0);
      BackwardPrefix(l, l.size - 1);
      assert l.nodes[..l.size] == l.nodes;
    }
  }

  /** Hands out the node a walk from `head` meets at a position. */
  method NodeAt(l: DoublyLinkedList, position: nat) returns (node: NodeLink)
    requires l.Valid() && position < |l.Walk()|
    ensures node == l.Walk()[position]
  {
    node := l.head;
    for i := 0 to position
      invariant i < |l.Walk()| && node == l.Walk()[i]
    {
      assert l.nodes[i].next == l.nodes[i + 1];
      node := node.next;
    }
  }

  method Apply(l: DoublyLinkedList, op: Op)
    requires l.Valid()
    modifies l.repr
    ensures l.Valid() && fresh(l.repr - old(l.repr))
    ensures l.Abstract() == Step(old(l.Abstract()), op)
  {
    match op
    case AddFirst(x) => l.AddFirst(x);
    case AddLast(x) => l.AddLast(x);
    case RemoveFirst => var r := l.RemoveFirst();
    case RemoveLast => var r := l.RemoveLast();
    case RemoveAt(i) => var r := l.RemoveAt(i);
    case RemoveObject(o) => var r := l.RemoveObject(o);
    case RemoveNode(i) =>
      if 0 <= i && (i < l.size || (i == 0 && l.head != null)) {
        var node := NodeAt(l, i);
        var r := l.RemoveNode(node, i);
      }
    case Clear => l.Clear();
  }

  /** Any sequence of operations on a new list keeps the invariant, does exactly the matching sequence
      operations, and changes nothing of any other list. */
  method Run(ops: seq<Op>, other: DoublyLinkedList) returns (l: DoublyLinkedList)
    requires other.Valid()
    ensures l.Valid() && l.Abstract() == Steps(Model([], []), ops)
    ensures fresh(l.repr) && unchanged(other.repr) && other.Valid()
  {
    l := new DoublyLinkedList();
    for i := 0 to |ops|
      invariant l.Valid() && fresh(l.repr)
      invariant l.Abstract() == Steps(Model([], []), ops[..i])
    {
      Apply(l, ops[i]);
      assert ops[..i + 1][..i] == ops[..i];
    }
    assert ops[..|ops|] == ops;
  }

  /** One value put in and taken out at the back leaves a list that is empty to both peeks, with a dangling head that
      `indexOf` still finds. */
  method DanglingHeadFound(v: Value) returns (l: DoublyLinkedList, index: int, first: Removal, last: Removal)
    ensures l.Valid() && l.contents == [] && index == 0 && first == last == EmptyError
  {
    l := new DoublyLinkedList();
    l.AddLast(v);
    var r := l.RemoveLast();
    first := l.PeekFirst();
    last := l.PeekLast();
    index := l.IndexOf(v);
  }
}
