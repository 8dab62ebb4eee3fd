/** The buffer registry of the webcam pipeline: a map from a unique name to a
    FIFO queue with a `maxsize`, where a `maxsize` of 0 (or less) means the
    queue is unbounded. */
module Buffers {
  import opened Wrappers

  /** The errors the registry raises. `NotRegistered` and `AlreadyRegistered`
      are the two `ValueError`s of the registration guard; `QueueFull` and
      `QueueEmpty` are what a non-blocking put or get raises. */
  datatype BufferError =
    | NotRegistered(name: string)
    | AlreadyRegistered(name: string)
    | QueueFull
    | QueueEmpty

  /** One queue: its items, oldest first, and the `maxsize` it was created with. */
  datatype Buf<T> = Buf(items: seq<T>, maxsize: int) {

    predicate Bounded() {
      maxsize > 0
    }

    /** The queue's own notion of full: a bounded queue whose free slots are used up. */
    predicate IsFull() {
      Bounded() && |items| >= maxsize
    }

    predicate IsEmpty() {
      |items| == 0
    }

    /** A bounded queue never holds more than `maxsize` items. */
    ghost predicate WithinCapacity() {
      Bounded() ==> |items| <= maxsize
    }

    function Push(x: T): (b: Buf<T>) {
      this.(items := items + [x])
    }

    function Head(): (x: T)
      requires !IsEmpty()
    {
      items[0]
    }

    function Pop(): (b: Buf<T>)
      requires !IsEmpty()
    {
      this.(items := items[1..])
    }
  }

  type Registry<T> = map<string, Buf<T>>

  ghost predicate WellFormed<T>(reg: Registry<T>) {
    forall name :: name in reg ==> reg[name].WithinCapacity()
  }

  /** The registration guard wrapped around every name-based operation:
      with `exist` it demands that `name` is registered, without it that
      `name` is not. */
  function Guard<T>(reg: Registry<T>, name: string, exist: bool): (o: Outcome<BufferError>) {
    if exist then
      if name in reg then Pass else Fail(NotRegistered(name))
    else
      if name in reg then Fail(AlreadyRegistered(name)) else Pass
  }

  /** The guard lets exactly one of "must exist" and "must not exist" through,
      and the two failures are told apart by their kind. */
  lemma GuardDistinguishes<T>(reg: Registry<T>, name: string)
    ensures Guard(reg, name, true).Pass? != Guard(reg, name, false).Pass?
    ensures Guard(reg, name, true).Fail? <==> name !in reg
    ensures Guard(reg, name, true).Fail? ==> Guard(reg, name, true).error.NotRegistered?
    ensures Guard(reg, name, false).Fail? ==> Guard(reg, name, false).error.AlreadyRegistered?
  {
  }

  /** The size of every registered queue. */
  function Sizes<T>(reg: Registry<T>): (sizes: map<string, nat>) {
    map name | name in reg :: |reg[name].items|
  }

  /** A put shows up in the sizes as one more item in that queue and no other. */
  lemma SizesAfterPush<T>(reg: Registry<T>, name: string, x: T)
    requires name in reg
    ensures Sizes(reg[name := reg[name].Push(x)]) == Sizes(reg)[name := Sizes(reg)[name] + 1]
  {
    var after := reg[name := reg[name].Push(x)];
    assert Sizes(after).Keys == Sizes(reg).Keys;
  }

  /** A get shows up in the sizes as one item fewer in that queue and no other. */
  lemma SizesAfterPop<T>(reg: Registry<T>, name: string)
    requires name in reg && !reg[name].IsEmpty()
    ensures Sizes(reg[name := reg[name].Pop()]) == Sizes(reg)[name := Sizes(reg)[name] - 1]
  {
    var after := reg[name := reg[name].Pop()];
    assert Sizes(after).Keys == Sizes(reg).Keys;
  }

  /** For a queue that respects its capacity, full means exactly "as many
      items as `maxsize`", and an unbounded queue is never full. */
  lemma FullIffAtCapacity<T>(b: Buf<T>)
    requires b.WithinCapacity()
    ensures b.IsFull() <==> b.maxsize > 0 && |b.items| == b.maxsize
    ensures b.maxsize <= 0 ==> !b.IsFull()
  {
  }

  /** Blocking puts of `vs`, one after another; each needs a free slot. */
  function PutAll<T>(b: Buf<T>, vs: seq<T>): (after: Buf<T>)
    requires b.Bounded() ==> |b.items| + |vs| <= b.maxsize
    decreases |vs|
  {
    if |vs| == 0 then b else PutAll(b.Push(vs[0]), vs[1..])
  }

  /** `n` blocking gets, one after another: the items returned, and the queue left. */
  function TakeAll<T>(b: Buf<T>, n: nat): (taken: (seq<T>, Buf<T>))
    requires n <= |b.items|
    decreases n
  {
    if n == 0 then ([], b)
    else
      var rest := TakeAll(b.Pop(), n - 1);
      ([b.Head()] + rest.0, rest.1)
  }

  lemma {:induction false} PutAllAppends<T>(b: Buf<T>, vs: seq<T>)
    requires b.Bounded() ==> |b.items| + |vs| <= b.maxsize
    ensures PutAll(b, vs) == b.(items := b.items + vs)
    decreases |vs|
  {
    if |vs| > 0 {
      PutAllAppends(b.Push(vs[0]), vs[1..]);
      assert b.items + [vs[0]] + vs[1..] == b.items + vs;
    }
  }

  lemma {:induction false} TakeAllTakesPrefix<T>(b: Buf<T>, n: nat)
    requires n <= |b.items|
    ensures TakeAll(b, n) == (b.items[..n], b.(items := b.items[n..]))
    decreases n
  {
    if n > 0 {
      TakeAllTakesPrefix(b.Pop(), n - 1);
      assert [b.items[0]] + b.items[1..][..n - 1] == b.items[..n];
      assert b.items[1..][n - 1..] == b.items[n..];
    }
  }

  /** FIFO round trip: putting v1..vn into a queue and then getting as many
      items as it holds returns what was there first, then v1..vn in order,
      and leaves the queue empty. */
  lemma FifoRoundTrip<T>(b: Buf<T>, vs: seq<T>)
    requires b.Bounded() ==> |b.items| + |vs| <= b.maxsize
    ensures |PutAll(b, vs).items| == |b.items| + |vs|
    ensures TakeAll(PutAll(b, vs), |b.items| + |vs|) == (b.items + vs, b.(items := []))
  {
    PutAllAppends(b, vs);
    var all := b.items + vs;
    TakeAllTakesPrefix(PutAll(b, vs), |all|);
    assert all[..|all|] == all && all[|all|..] == [];
  }

  /** The registry object itself: `_buffers` becomes the map `buffers`. */
  class BufferManager<T> {
    var buffers: Registry<T>

    ghost predicate Valid()
      reads this
    {
      WellFormed(buffers)
    }

    constructor ()
      ensures Valid() && buffers == map[]
    {
      buffers := map[];
    }

    /** `name in manager` */
    function Contains(name: string): (r: bool)
      reads this
      ensures r <==> name in buffers
      ensures r <==> Guard(buffers, name, true).Pass?
    {
      name in buffers
    }

    /** Registers `name` with an empty queue of the given capacity; a name that
        is already registered is refused and nothing changes. */
    method RegisterBuffer(name: string, maxsize: int := 0) returns (r: Outcome<BufferError>)
      requires Valid()
      modifies this
      ensures Valid()
      ensures name in old(buffers) ==> r == Fail(AlreadyRegistered(name)) && buffers == old(buffers)
      ensures name !in old(buffers) ==>
                r == Pass && buffers == old(buffers)[name := Buf([], maxsize)]
    {
      r := Guard(buffers, name, false);
      if r.Fail? {
        return;
      }
      buffers := buffers[name := Buf([], maxsize)];
    }

    /** Puts `item` at the tail of the queue `name`. A blocking put on a full
        queue would wait for a consumer, so the caller must leave room; a
        non-blocking put on a full queue raises `QueueFull`. */
    method Put(name: string, item: T, block: bool := true) returns (r: Outcome<BufferError>)
      requires Valid()
      requires block && name in buffers ==> !buffers[name].IsFull()
      modifies this
      ensures Valid()
      ensures name !in old(buffers) ==> r == Fail(NotRegistered(name)) && buffers == old(buffers)
      ensures name in old(buffers) && old(buffers[name]).IsFull() ==>
                r == Fail(QueueFull) && buffers == old(buffers)
      ensures name in old(buffers) && !old(buffers[name]).IsFull() ==>
                r == Pass && buffers == old(buffers)[name := old(buffers[name]).Push(item)]
    {
      r := Guard(buffers, name, true);
      if r.Fail? {
        return;
      }
      if buffers[name].IsFull() {
        return Fail(QueueFull);
      }
      buffers := buffers[name := buffers[name].Push(item)];
    }

    /** Non-blocking put that reports a full queue as `false` instead of raising. */
    method TryPut(name: string, item: T) returns (r: Result<bool, BufferError>)
      requires Valid()
      modifies this
      ensures Valid()
      ensures name !in old(buffers) ==> r == Failure(NotRegistered(name)) && buffers == old(buffers)
      ensures name in old(buffers) && old(buffers[name]).IsFull() ==>
                r == Success(false) && buffers == old(buffers)
      ensures name in old(buffers) && !old(buffers[name]).IsFull() ==>
                r == Success(true) && buffers == old(buffers)[name := old(buffers[name]).Push(item)]
    {
      var g := Guard(buffers, name, true);
      if g.Fail? {
        return Failure(g.error);
      }
      if buffers[name].IsFull() {
        return Success(false);
      }
      buffers := buffers[name := buffers[name].Push(item)];
      r := Success(true);
    }

    /** Removes and returns the head of the queue `name`. A blocking get on an
        empty queue would wait for a producer, so the caller must know it is
        non-empty; a non-blocking get on an empty queue raises `QueueEmpty`. */
    method Get(name: string, block: bool := true) returns (r: Result<T, BufferError>)
      requires Valid()
      requires block && name in buffers ==> !buffers[name].IsEmpty()
      modifies this
      ensures Valid()
      ensures name !in old(buffers) ==> r == Failure(NotRegistered(name)) && buffers == old(buffers)
      ensures name in old(buffers) && old(buffers[name]).IsEmpty() ==>
                r == Failure(QueueEmpty) && buffers == old(buffers)
      ensures name in old(buffers) && !old(buffers[name]).IsEmpty() ==>
                r == Success(old(buffers[name]).Head()) &&
                buffers == old(buffers)[name := old(buffers[name]).Pop()]
    {
      var g := Guard(buffers, name, true);
      if g.Fail? {
        return Failure(g.error);
      }
      if buffers[name].IsEmpty() {
        return Failure(QueueEmpty);
      }
      var b := buffers[name];
      buffers := buffers[name := b.Pop()];
      r := Success(b.Head());
    }

    /** Whether the queue `name` holds no item; changes nothing. */
    method IsEmpty(name: string) returns (r: Result<bool, BufferError>)
      requires Valid()
      ensures r.Failure? <==> name !in buffers
      ensures r.Failure? ==> r.error == NotRegistered(name)
      ensures r.Success? ==> (r.value <==> |buffers[name].items| == 0)
    {
      var g := Guard(buffers, name, true);
      if g.Fail? {
        return Failure(g.error);
      }
      r := Success(buffers[name].IsEmpty());
    }

    /** Whether the queue `name` is full: bounded and holding exactly `maxsize`
        items. An unbounded queue is never full. Changes nothing. */
    method IsFull(name: string) returns (r: Result<bool, BufferError>)
      requires Valid()
      ensures r.Failure? <==> name !in buffers
      ensures r.Failure? ==> r.error == NotRegistered(name)
      ensures r.Success? ==>
                (r.value <==> buffers[name].maxsize > 0 && |buffers[name].items| == buffers[name].maxsize)
      ensures r.Success? && buffers[name].maxsize <= 0 ==> !r.value
    {
      var g := Guard(buffers, name, true);
      if g.Fail? {
        return Failure(g.error);
      }
      FullIffAtCapacity(buffers[name]);
      r := Success(buffers[name].IsFull());
    }

    /** The diagnostic snapshot: every registered name with its queue's size. */
    function GetInfo(): (info: map<string, nat>)
      reads this
      ensures info.Keys == buffers.Keys
      ensures forall name :: name in info ==> info[name] == |buffers[name].items|
    {
      Sizes(buffers)
    }
  }
}
