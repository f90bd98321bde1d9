/** The bounded queue of runtime/c/queue.c in its two representations. */
module Queue {

  /** An item: a pointer for the linked list, a closure for the ring. */
  type Item = nat

  datatype Call = Push(item: Item) | Pop | Front | Empty | Size
  datatype Answer = Nothing | It(item: Item) | Yes(empty: bool) | Count(size: nat)

  // the queue that both stand for

  /** The calls keep the length within `bound`, and take nothing from an empty queue. */
  predicate Fits(q: seq<Item>, calls: seq<Call>, bound: nat)
    decreases |calls|
  {
    calls == [] ||
    (Allowed(q, calls[0], bound) && Fits(Changed(q, calls[0]), calls[1..], bound))
  }

  predicate Allowed(q: seq<Item>, call: Call, bound: nat) {
    match call
    case Push(_) => |q| < bound
    case Pop | Front => q != []
    case _ => true
  }

  function Changed(q: seq<Item>, call: Call): seq<Item> {
    match call
    case Push(x) => q + [x]
    case Pop => if q == [] then q else q[1..]
    case _ => q
  }

  function Answered(q: seq<Item>, call: Call): Answer {
    match call
    case Push(_) => Nothing
    case Pop | Front => if q == [] then Nothing else It(q[0])
    case Empty => Yes(q == [])
    case Size => Count(|q|)
  }

  function Answers(q: seq<Item>, calls: seq<Call>): seq<Answer>
    decreases |calls|
  {
    if calls == [] then [] else [Answered(q, calls[0])] + Answers(Changed(q, calls[0]), calls[1..])
  }

  /** What was popped, and what is left, is what was there and what was pushed, in that order. */
  lemma {:induction false} PoppedInOrder(q: seq<Item>, calls: seq<Call>, bound: nat)
    requires Fits(q, calls, bound)
    ensures q + Pushed(calls) == Popped(q, calls) + Final(q, calls)
    decreases |calls|
  {
    if calls != [] {
      var c := Changed(q, calls[0]);
      PoppedInOrder(c, calls[1..], bound);
      PopStep(q, calls[0], bound, Pushed(calls[1..]), Popped(c, calls[1..]), Final(c, calls[1..]));
    }
  }

  lemma PopStep(q: seq<Item>, call: Call, bound: nat, more: seq<Item>, popped: seq<Item>, end: seq<Item>)
    requires Allowed(q, call, bound) && Changed(q, call) + more == popped + end
    ensures q + ((if call.Push? then [call.item] else []) + more)
         == (if call.Pop? && q != [] then [q[0]] else []) + popped + end
  {
    if call.Push? {
      assert q + ([call.item] + more) == (q + [call.item]) + more;
      assert [] + popped == popped;
    } else if call.Pop? {
      assert q + ([] + more) == [q[0]] + (q[1..] + more);
      assert [q[0]] + (popped + end) == [q[0]] + popped + end;
    } else {
      assert [] + more == more && [] + popped == popped;
    }
  }

  function Pushed(calls: seq<Call>): seq<Item> {
    if calls == [] then [] else (if calls[0].Push? then [calls[0].item] else []) + Pushed(calls[1..])
  }

  function Popped(q: seq<Item>, calls: seq<Call>): seq<Item>
    decreases |calls|
  {
    if calls == [] then []
    else (if calls[0].Pop? && q != [] then [q[0]] else []) + Popped(Changed(q, calls[0]), calls[1..])
  }

  function Final(q: seq<Item>, calls: seq<Call>): seq<Item>
    decreases |calls|
  {
    if calls == [] then q else Final(Changed(q, calls[0]), calls[1..])
  }

  /** One call of a run. */
  lemma RunStep(q: seq<Item>, calls: seq<Call>, i: nat, bound: nat, before: seq<Answer>)
    requires i < |calls| && Fits(q, calls[i..], bound)
    ensures Allowed(q, calls[i], bound) && Fits(Changed(q, calls[i]), calls[i + 1..], bound)
    ensures before + Answers(q, calls[i..])
         == before + [Answered(q, calls[i])] + Answers(Changed(q, calls[i]), calls[i + 1..])
    ensures Final(q, calls[i..]) == Final(Changed(q, calls[i]), calls[i + 1..])
  {
    assert calls[i..][0] == calls[i] && calls[i..][1..] == calls[i + 1..];
  }

  // the ring: static queues

  class Ring {
    const element: array<Item>
    var head: nat
    var tail: nat
    var size: nat

    ghost predicate Valid()
      reads this
    {
      && 0 < element.Length <= 255
      && head < element.Length && tail < element.Length && size <= element.Length
      && tail == if head + size < element.Length then head + size else head + size - element.Length
    }

    /** The cells from `head`, around the end of the array. */
    ghost function Contents(): (q: seq<Item>)
      requires Valid()
      reads this, element
      ensures |q| == size
    {
      seq(size, i requires 0 <= i < size && Valid() reads this, element =>
        element[if head + i < element.Length then head + i else head + i - element.Length])
    }

    /** `dzn_queue_init`; `n` is DZN_QUEUE_SIZE, and the size has 8 bits. */
    constructor (n: nat)
      requires 0 < n <= 255
      ensures Valid() && fresh(element) && element.Length == n && Contents() == []
    {
      element := new Item[n](_ => 0);
      head, tail, size := 0, 0, 0;
    }

    /** `dzn_queue_push`; the precondition is its assertion. */
    method Push(x: Item)
      requires Valid() && size < element.Length
      modifies `tail, `size, element
      ensures Valid() && Contents() == old(Contents()) + [x]
    {
      element[tail] := x;
      tail := tail + 1;
      if tail == element.Length {
        tail := 0;
      }
      size := size + 1;
    }

    /** `dzn_queue_pop` answers the cell, which keeps the item until it is pushed over. */
    method Pop() returns (cell: nat)
      requires Valid() && size > 0
      modifies `head, `size
      ensures Valid() && cell < element.Length && element[cell] == old(Contents())[0]
      ensures Contents() == old(Contents())[1..]
    {
      cell := head;
      head := head + 1;
      if head == element.Length {
        head := 0;
      }
      size := size - 1;
    }

    method Front() returns (cell: nat)
      requires Valid() && size > 0
      ensures cell < element.Length && element[cell] == Contents()[0]
    {
      cell := head;
    }

    method Empty() returns (r: bool)
      requires Valid()
      ensures r == (Contents() == [])
    {
      var n := Size();
      r := n == 0;
    }

    method Size() returns (n: nat)
      requires Valid()
      ensures n == |Contents()|
    {
      n := size;
    }

    /** One call of any kind. */
    method Do(call: Call) returns (answer: Answer)
      requires Valid() && Allowed(Contents(), call, element.Length)
      modifies this, element
      ensures Valid() && Contents() == Changed(old(Contents()), call)
      ensures answer == Answered(old(Contents()), call)
    {
      answer := Nothing;
      match call {
        case Push(x) => Push(x);
        case Pop => var cell := Pop(); answer := It(element[cell]);
        case Front => var cell := Front(); answer := It(element[cell]);
        case Empty => var r := Empty(); answer := Yes(r);
        case Size => var n := Size(); answer := Count(n);
      }
    }

    /** The ring answers every allowed run of calls like the bounded queue. */
    method Run(calls: seq<Call>) returns (answers: seq<Answer>)
      requires Valid() && Fits(Contents(), calls, element.Length)
      modifies this, element
      ensures Valid() && answers == Answers(old(Contents()), calls)
      ensures Contents() == Final(old(Contents()), calls)
    {
      hide Valid, Contents, Allowed, Changed, Answered;
      answers := [];
      assert calls[0..] == calls;
      for i := 0 to |calls|
        invariant Valid() && Fits(Contents(), calls[i..], element.Length)
        invariant answers + Answers(Contents(), calls[i..]) == Answers(old(Contents()), calls)
        invariant Final(Contents(), calls[i..]) == Final(old(Contents()), calls)
      {
        RunStep(Contents(), calls, i, element.Length, answers);
        var answer := Do(calls[i]);
        answers := answers + [answer];
      }
    }
  }

  // the linked list: dynamic queues

  class Node {
    const item: Item
    var next: Node?

    constructor (x: Item)
      ensures item == x && next == null
    {
      item := x;
      next := null;
    }
  }

  class LinkedQueue {
    var head: Node?
    var tail: Node?
    var size: nat
    ghost var spine: seq<Node>

    /** The nodes are linked from the head to the tail.  The tail of an empty queue is stale: it
        may be the node that was popped last.  The size has 8 bits. */
    ghost predicate Valid()
      reads this, spine
    {
      && (spine == [] <==> head == null)
      && (spine != [] ==> head == spine[0] && tail == spine[|spine| - 1] && tail.next == null)
      && (forall i, j :: 0 <= i < j < |spine| && j == i + 1 ==> spine[i].next == spine[j])
      && (forall i, j :: 0 <= i < j < |spine| ==> spine[i] != spine[j])
      && size == |spine| % 256
    }

    ghost function Contents(): (q: seq<Item>)
      reads this
      ensures |q| == |spine|
    {
      seq(|spine|, i requires 0 <= i < |spine| reads this => spine[i].item)
    }

    constructor ()
      ensures Valid() && spine == [] && Contents() == []
    {
      head, tail, size, spine := null, null, 0, [];
    }

    method Push(x: Item)
      requires Valid()
      modifies this, spine
      ensures Valid() && Contents() == old(Contents()) + [x]
      ensures |spine| == |old(spine)| + 1 && spine[..|old(spine)|] == old(spine) && fresh(spine[|old(spine)|])
    {
      var n := new Node(x);
      if head == null {
        head := n;
      } else {
        tail.next := n;
      }
      tail := n;
      size := (size + 1) % 256;
      spine := spine + [n];
    }

    /** `dzn_queue_pop`; the precondition is its assertion. */
    method Pop() returns (item: Item)
      requires Valid() && size != 0
      modifies this
      ensures Valid() && item == old(Contents())[0] && Contents() == old(Contents())[1..]
      ensures spine == old(spine)[1..]
    {
      var first := head;
      assert |spine| > 0;
      assert head == spine[0] && head.next == if 1 < |spine| then spine[1] else null;
      item := first.item;
      head := first.next;
      size := (size + 255) % 256;
      spine := spine[1..];
    }

    method Front() returns (item: Item)
      requires Valid() && head != null
      ensures item == Contents()[0]
    {
      item := head.item;
    }

    /** The queue calls itself empty exactly when its length is a multiple of 256. */
    method Empty() returns (r: bool)
      requires Valid()
      ensures r == (|Contents()| % 256 == 0)
    {
      var n := Size();
      r := n == 0;
    }

    method Size() returns (n: nat)
      requires Valid()
      ensures n == |Contents()| % 256
    {
      n := size;
    }

    method Do(call: Call, bound: nat) returns (answer: Answer)
      requires Valid() && |Contents()| <= bound <= 255 && Allowed(Contents(), call, bound)
      modifies this, spine
      ensures Valid() && |Contents()| <= bound && Contents() == Changed(old(Contents()), call)
      ensures answer == Answered(old(Contents()), call)
      ensures forall k :: 0 <= k < |spine| ==> spine[k] in old(spine) || fresh(spine[k])
    {
      answer := Nothing;
      match call {
        case Push(x) => Push(x);
        case Pop => var item := Pop(); answer := It(item);
        case Front => var item := Front(); answer := It(item);
        case Empty => var r := Empty(); answer := Yes(r);
        case Size => var n := Size(); answer := Count(n);
      }
    }

    /** Within 255 items the list answers every allowed run of calls like the bounded queue. */
    method Run(calls: seq<Call>, bound: nat) returns (answers: seq<Answer>)
      requires Valid() && bound <= 255 && |Contents()| <= bound && Fits(Contents(), calls, bound)
      modifies this, spine
      ensures Valid() && answers == Answers(old(Contents()), calls)
      ensures Contents() == Final(old(Contents()), calls)
    {
      hide Valid, Contents, Allowed, Changed, Answered;
      answers := [];
      assert calls[0..] == calls;
      for i := 0 to |calls|
        invariant Valid() && |Contents()| <= bound && Fits(Contents(), calls[i..], bound)
        invariant forall k :: 0 <= k < |spine| ==> spine[k] in old(spine) || fresh(spine[k])
        invariant answers + Answers(Contents(), calls[i..]) == Answers(old(Contents()), calls)
        invariant Final(Contents(), calls[i..]) == Final(old(Contents()), calls)
      {
        RunStep(Contents(), calls, i, bound, answers);
        var answer := Do(calls[i], bound);
        answers := answers + [answer];
      }
    }
  }

  /** A list of 256 items calls itself empty. */
  method EmptyWhenFull(x: Item) returns (l: LinkedQueue, empty: bool)
    ensures l.Valid() && |l.Contents()| == 256 && empty
  {
    l := new LinkedQueue();
    hide LinkedQueue.Contents, LinkedQueue.Valid;
    for i := 0 to 256
      invariant l.Valid() && |l.Contents()| == i && fresh(l) && fresh(l.spine)
    {
      ghost var before := l.spine;
      l.Push(x);
      assert forall k :: 0 <= k < i ==> l.spine[k] == before[k];
    }
    empty := l.Empty();
  }

  /** Both representations give the same answers to every run of calls that keeps the size within
      DZN_QUEUE_SIZE. */
  method Same(n: nat, calls: seq<Call>) returns (ring: seq<Answer>, linked: seq<Answer>)
    requires 0 < n <= 255 && Fits([], calls, n)
    ensures ring == linked == Answers([], calls)
  {
    var r := new Ring(n);
    ring := r.Run(calls);
    var l := new LinkedQueue();
    linked := l.Run(calls, n);
  }
}
