/** The queue of tasks and of finished tasks, as one thread at a time sees it. A call that finds nothing
    to take and waits for another thread leaves the queue as it is, and is said to wait. */
module AsyncQueue {
  import opened Basics

  /** Position of the first entry with the id at or after `from`, or the length. */
  function FirstWith<T>(queue: seq<(int, T)>, id: int, from: nat): nat
    requires from <= |queue|
  {
    FirstIndex(queue, (e: (int, T)) => e.0 == id, from)
  }

  datatype Answer<+T> = Waits | Missing | Found(item: T)

  class AsyncQueue<T> {
    var queue: seq<(int, T)>
    var mutex: nat
    var awaiting: nat

    /** What holds between calls. */
    ghost predicate Valid()
      reads this
    {
      mutex == 1 && awaiting == |queue|
    }

    constructor ()
      ensures Valid() && queue == []
    {
      queue := [];
      mutex := 1;
      awaiting := 0;
    }

    method Push(id: int, task: T)
      requires Valid()
      modifies this
      ensures Valid() && queue == old(queue) + [(id, task)]
    {
      mutex := mutex - 1;
      queue := queue + [(id, task)];
      mutex := mutex + 1;
      awaiting := awaiting + 1;
    }

    method TryPop() returns (task: Option<T>)
      requires Valid()
      modifies this
      ensures Valid()
      ensures task == if old(queue) == [] then None else Some(old(queue)[0].1)
      ensures queue == if old(queue) == [] then [] else old(queue)[1..]
    {
      if awaiting > 0 {
        awaiting := awaiting - 1;
        mutex := mutex - 1;
        task := Some(queue[0].1);
        queue := queue[1..];
        mutex := mutex + 1;
      } else {
        task := None;
      }
    }

    /** The first entry with the id is taken out; without one nothing happens. On an empty queue the call
        waits for a token before it searches. */
    method TryPopById(id: int) returns (answer: Answer<T>)
      requires Valid()
      modifies this
      ensures Valid()
      ensures var k := FirstWith(old(queue), id, 0);
        if k < |old(queue)| then answer == Found(old(queue)[k].1) && queue == RemoveAt(old(queue), k)
        else answer == (if old(queue) == [] then Waits else Missing) && queue == old(queue)
    {
      if awaiting == 0 {
        return Waits;
      }
      awaiting := awaiting - 1;
      mutex := mutex - 1;
      for i := 0 to |queue|
        invariant queue == old(queue) && mutex == 0 && awaiting == |queue| - 1
        invariant FirstWith(queue, id, 0) == FirstWith(queue, id, i)
      {
        if queue[i].0 == id {
          answer := Found(queue[i].1);
          queue := RemoveAt(queue, i);
          mutex := mutex + 1;
          return;
        }
      }
      mutex := mutex + 1;
      awaiting := awaiting + 1;
      answer := Missing;
    }

    /** The same, but without an entry the search starts over for as long as the queue stays as it is. */
    method PopById(id: int) returns (answer: Answer<T>)
      requires Valid()
      modifies this
      ensures Valid()
      ensures var k := FirstWith(old(queue), id, 0);
        if k < |old(queue)| then answer == Found(old(queue)[k].1) && queue == RemoveAt(old(queue), k)
        else answer == Waits && queue == old(queue)
    {
      if awaiting == 0 {
        return Waits;
      }
      awaiting := awaiting - 1;
      mutex := mutex - 1;
      for i := 0 to |queue|
        invariant queue == old(queue) && mutex == 0 && awaiting == |queue| - 1
        invariant FirstWith(queue, id, 0) == FirstWith(queue, id, i)
      {
        if queue[i].0 == id {
          answer := Found(queue[i].1);
          queue := RemoveAt(queue, i);
          mutex := mutex + 1;
          return;
        }
      }
      mutex := mutex + 1;
      awaiting := awaiting + 1;
      answer := Waits;
    }

    method Size() returns (size: nat)
      requires Valid()
      modifies this`mutex
      ensures Valid() && size == |queue|
    {
      mutex := mutex - 1;
      size := |queue|;
      mutex := mutex + 1;
    }
  }
}
