// The shared-memory ring that carries messages between two instances on one machine.
module SharedMessages {
  import opened LinkTypes

  const MAX_MESSAGES: nat := 100

  datatype Slot<T> = Slot(source: nat, message: T)

  class Ring<T(0)> {
    const messages: array<Slot<T>>
    var front: nat
    var back: nat
    // What has ever been accepted, and how much of it has been taken out.
    ghost var accepted: seq<Slot<T>>
    ghost var taken: nat

    ghost predicate Valid()
      reads this, messages
    {
      && messages.Length == MAX_MESSAGES && front < MAX_MESSAGES && back < MAX_MESSAGES
      && taken <= |accepted|
      && |accepted| - taken == (if front <= back then back - front else back + MAX_MESSAGES - front)
      && forall k :: 0 <= k < |accepted| - taken ==> messages[SlotOf(front, k)] == accepted[taken + k]
    }

    // The slot of the k-th waiting message.
    static ghost function SlotOf(front: nat, k: nat): (i: nat)
      requires front < MAX_MESSAGES && k < MAX_MESSAGES
      ensures i < MAX_MESSAGES
    {
      if front + k < MAX_MESSAGES then front + k else front + k - MAX_MESSAGES
    }

    ghost function Waiting(): seq<Slot<T>>
      requires taken <= |accepted|
      reads this
    {
      accepted[taken..]
    }

    constructor (filler: Slot<T>)
      ensures Valid() && accepted == [] && taken == 0 && fresh(messages)
    {
      messages := new Slot<T>[MAX_MESSAGES](_ => filler);
      front, back, accepted, taken := 0, 0, [], 0;
    }

    // A message that finds 99 others waiting is dropped.
    method Push(source: nat, message: T)
      requires Valid()
      modifies this`back, this`accepted, messages
      ensures Valid()
      ensures accepted
           == if |old(Waiting())| < 99 then old(accepted) + [Slot(source, message)] else old(accepted)
    {
      if (back + 1) % MAX_MESSAGES == front {
        return;
      }
      assert back == SlotOf(front, |accepted| - taken);
      assert forall k :: 0 <= k < |accepted| - taken ==> SlotOf(front, k) != back;
      messages[back] := Slot(source, message);
      back := (back + 1) % MAX_MESSAGES;
      accepted := accepted + [Slot(source, message)];
    }

    // Messages come out in the order they were accepted, each once.
    method Pop() returns (slot: Option<Slot<T>>)
      requires Valid()
      modifies this`front, this`taken
      ensures Valid()
      ensures slot == if old(Waiting()) == [] then None else Some(old(accepted)[old(taken)])
      ensures taken == if slot.Some? then old(taken) + 1 else old(taken)
    {
      if front == back {
        return None;
      }
      assert SlotOf(front, 0) == front;
      slot := Some(messages[front]);
      ghost var was := front;
      front := (front + 1) % MAX_MESSAGES;
      assert forall k :: 0 <= k < MAX_MESSAGES - 1 ==> SlotOf(front, k) == SlotOf(was, k + 1);
      taken := taken + 1;
    }

    // Whatever is waiting is lost.
    method Clear()
      requires Valid()
      modifies this`front, this`back, this`taken
      ensures Valid() && Waiting() == []
    {
      front, back, taken := 0, 0, |accepted|;
    }
  }
}
