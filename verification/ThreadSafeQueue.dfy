/** The linked list inside the queue: nodes, front and back links, and a 32-bit counter. */
module ThreadSafeQueue {
  import opened Basics

  class QueueNode<T> {
    const item: T
    var next: QueueNode?<T>

    constructor (item: T)
      ensures this.item == item && next == null
    {
      this.item := item;
      next := null;
    }
  }

  ghost function ItemsOf<T>(chain: seq<QueueNode<T>>): seq<T> {
    seq(|chain|, i requires 0 <= i < |chain| => chain[i].item)
  }

  lemma ItemsOfLast<T>(chain: seq<QueueNode<T>>, node: QueueNode<T>)
    ensures ItemsOf(chain + [node]) == ItemsOf(chain) + [node.item]
  {
  }

  /** The counter of 32 bits goes up by one, and from its greatest value to 0. */
  lemma CountsUp(n: nat)
    ensures (n + 1) % COUNTER_LIMIT == if n % COUNTER_LIMIT == COUNTER_LIMIT - 1 then 0 else n % COUNTER_LIMIT + 1
  {
  }

  class Queue<T> {
    var front: QueueNode?<T>
    var back: QueueNode?<T>
    var count: nat
    var interrupted: bool
    /** The nodes from front to back, and those given back to the allocator. */
    ghost var chain: seq<QueueNode<T>>
    ghost var allocations: set<QueueNode<T>>
    ghost var reclaimed: set<QueueNode<T>>

    /** The links follow the chain. */
    ghost predicate Linked()
      reads this, chain
    {
      && (forall i, j :: 0 <= i < j < |chain| ==> chain[i] != chain[j])
      && (forall i :: 0 <= i < |chain| - 1 ==> chain[i].next == chain[i + 1])
      && (if chain == [] then front == null && back == null
          else front == chain[0] && back == chain[|chain| - 1] && chain[|chain| - 1].next == null)
    }

    /** Every node is in the chain or given back, and never both. */
    ghost predicate Accounted()
      reads this
    {
      && count == |chain| % COUNTER_LIMIT
      && reclaimed <= allocations
      && (forall n :: n in chain ==> n in allocations)
      && (forall n :: n in allocations ==> n in reclaimed || n in chain)
      && (forall n :: n in chain ==> n !in reclaimed)
    }

    ghost predicate Valid()
      reads this, chain
    {
      Linked() && Accounted()
    }

    ghost function Items(): seq<T>
      reads this
    {
      ItemsOf(chain)
    }

    constructor ()
      ensures Valid() && Items() == [] && allocations == {} && !interrupted && fresh(this)
    {
      front, back, count, interrupted := null, null, 0, false;
      chain, allocations, reclaimed := [], {}, {};
    }

    /** Hang a new node on the back. */
    method LinkBack(node: QueueNode<T>)
      requires Linked() && node !in chain
      modifies this`front, this`back, this`chain, node`next, chain
      ensures Linked() && chain == old(chain) + [node]
    {
      if back == null {
        node.next := back;
        back := node;
        front := node;
      } else {
        node.next := back.next;
        back.next := node;
        back := node;
      }
      chain := chain + [node];
    }

    /** `tryPush`, where allocation succeeds. */
    method TryPush(item: T)
      requires Valid()
      modifies this, chain
      ensures Valid() && Items() == old(Items()) + [item]
      ensures |chain| == |old(chain)| + 1 && chain[..|old(chain)|] == old(chain)
      ensures fresh(chain[|old(chain)|])
      ensures allocations == old(allocations) + {chain[|old(chain)|]} && reclaimed == old(reclaimed)
      ensures interrupted == old(interrupted)
    {
      var node := new QueueNode(item);
      ItemsOfLast(chain, node);
      CountsUp(|chain|);
      LinkBack(node);
      hide Linked, ItemsOf;
      count := if count == COUNTER_LIMIT - 1 then 0 else count + 1;
      allocations := allocations + {node};
    }

    /** The private `tryPop`: unlink the front node, without giving it back. */
    method UnlinkFront() returns (node: QueueNode?<T>)
      requires Valid()
      modifies this`front, this`back, this`count, this`chain, this`allocations
      ensures old(chain) == [] ==> node == null && chain == [] && Valid()
      ensures old(chain) != [] ==> node == old(chain)[0] && chain == old(chain)[1..]
      ensures front == (if chain == [] then null else chain[0])
      ensures back == (if chain == [] then null else chain[|chain| - 1])
      ensures count == |chain| % COUNTER_LIMIT && allocations == old(allocations)
    {
      if front == null {
        return null;
      }
      var previous := front;
      if previous == back {
        assert chain[|chain| - 1] == chain[0];
        front, back := null, null;
      } else {
        front := front.next;
      }
      count := if count == 0 then COUNTER_LIMIT - 1 else count - 1;
      chain := chain[1..];
      return previous;
    }

    /** `reclaimNode`: a node is given back only when it is out of the chain and only once. */
    method ReclaimNode(node: QueueNode<T>)
      requires node !in chain && node !in reclaimed && node in allocations
      modifies this`reclaimed
      ensures reclaimed == old(reclaimed) + {node}
    {
      reclaimed := reclaimed + {node};
    }

    /** `tryPop`. */
    method TryPop() returns (item: Option<T>)
      requires Valid()
      modifies this
      ensures Valid() && interrupted == old(interrupted) && allocations == old(allocations)
      ensures old(chain) == [] ==> item == None && chain == [] && reclaimed == old(reclaimed)
      ensures old(chain) != [] ==>
        && item == Some(old(Items())[0]) && Items() == old(Items())[1..]
        && chain == old(chain)[1..] && reclaimed == old(reclaimed) + {old(chain)[0]}
    {
      var node := UnlinkFront();
      if node == null {
        return None;
      }
      item := Some(node.item);
      ReclaimNode(node);
    }

    /** The destructor: every node ever allocated has been given back. */
    method Drain()
      requires Valid()
      modifies this
      ensures Valid() && chain == [] && front == null && back == null && count == 0
      ensures reclaimed == allocations == old(allocations)
    {
      var more := true;
      while more
        invariant Valid() && allocations == old(allocations)
        invariant forall n :: n in chain ==> n in old(chain)
        invariant !more ==> chain == []
        decreases |chain|, more
      {
        var item := TryPop();
        more := item.Some?;
      }
    }

    method Interrupt()
      modifies this`interrupted
      ensures interrupted
    {
      interrupted := true;
    }

    method Reset()
      modifies this`interrupted
      ensures !interrupted
    {
      interrupted := false;
    }

    /** The sleep predicate reads the counter where a pop reads the front link: they agree unless
        the chain holds a positive multiple of 2^32 nodes. */
    method Empty() returns (empty: bool)
      requires Valid()
      ensures empty <==> |Items()| % COUNTER_LIMIT == 0
      ensures (empty <==> front == null) <==> (Items() == [] || |Items()| % COUNTER_LIMIT != 0)
    {
      empty := count == 0;
    }
  }
}
