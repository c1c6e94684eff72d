/** The first-in first-out line of customers waiting to be served. */
module CustomerQueue {
  import opened Optional
  import opened CustomerModel

  /** The queue's contents, head first. */
  datatype Queue = Queue(items: seq<Customer>)

  /** What `dequeue` hands back (the head, or None on an empty queue) and the queue it leaves. */
  datatype Dequeued = Dequeued(head: Option<Customer>, rest: Queue)

  function EmptyQueue(): (q: Queue)
    ensures IsEmpty(q) && Size(q) == 0
  {
    Queue([])
  }

  /** `enqueue`: the customer joins at the tail, behind everyone already waiting. */
  function Enqueue(q: Queue, c: Customer): (r: Queue)
    ensures r.items == q.items + [c]
  {
    Queue(q.items + [c])
  }

  /** `dequeue`: the head leaves and is returned; an empty queue returns None and stays empty. */
  function Dequeue(q: Queue): (r: Dequeued)
    ensures q.items == [] ==> r.head == None && r.rest == q
    ensures q.items != [] ==> r.head == Some(q.items[0]) && r.rest.items == q.items[1..]
  {
    if q.items == [] then Dequeued(None, q) else Dequeued(Some(q.items[0]), Queue(q.items[1..]))
  }

  predicate IsEmpty(q: Queue) {
    q.items == []
  }

  function Size(q: Queue): nat {
    |q.items|
  }

  /** `isEmpty()` holds exactly when `size()` is zero. */
  lemma EmptyIffSizeZero(q: Queue)
    ensures IsEmpty(q) <==> Size(q) == 0
  {
  }

  /** `getAllCustomers()`: a copy of the contents, head first; the queue itself is a value and stays as it was. */
  function GetAllCustomers(q: Queue): (r: seq<Customer>)
    ensures |r| == Size(q)
    ensures forall i :: 0 <= i < |r| ==> r[i] == q.items[i]
  {
    q.items
  }

  /** Dequeues until `dequeue` answers None, collecting what it hands back. */
  function Drain(q: Queue): (r: seq<Customer>)
    ensures r == GetAllCustomers(q)
    decreases Size(q)
  {
    match Dequeue(q)
    case Dequeued(None, _) => []
    case Dequeued(Some(c), rest) => [c] + Drain(rest)
  }

  function EnqueueAll(q: Queue, cs: seq<Customer>): Queue
    decreases |cs|
  {
    if |cs| == 0 then q else EnqueueAll(Enqueue(q, cs[0]), cs[1..])
  }

  /** Whatever was waiting leaves first, then the newcomers in the order they were enqueued. */
  lemma {:induction false} FirstInFirstOut(q: Queue, cs: seq<Customer>)
    ensures Drain(EnqueueAll(q, cs)) == q.items + cs
    decreases |cs|
  {
    if |cs| == 0 {
      assert q.items + cs == q.items;
    } else {
      FirstInFirstOut(Enqueue(q, cs[0]), cs[1..]);
      assert q.items + [cs[0]] + cs[1..] == q.items + cs;
    }
  }

  /** Enqueue a then b on an empty queue: two dequeues give a, then b, and leave the queue empty. */
  lemma TwoInTwoOut(a: Customer, b: Customer)
    ensures var q := Enqueue(Enqueue(EmptyQueue(), a), b);
            var first := Dequeue(q);
            var second := Dequeue(first.rest);
            first.head == Some(a) && second.head == Some(b) && IsEmpty(second.rest)
  {
    var q := Enqueue(Enqueue(EmptyQueue(), a), b);
    assert q.items == [a, b];
  }

  /** Enqueueing behind a non-empty queue does not change who is served next. */
  lemma EnqueueKeepsHead(q: Queue, c: Customer)
    requires !IsEmpty(q)
    ensures Dequeue(Enqueue(q, c)).head == Dequeue(q).head
    ensures Dequeue(Enqueue(q, c)).rest == Enqueue(Dequeue(q).rest, c)
  {
    assert (q.items + [c])[1..] == q.items[1..] + [c];
  }
}
