/** The in-memory queue object and its message records, mutated in place. */
module MemoryQueues {
  import opened SlotQueue

  class MemoryQueuedMessage {
    ghost const id: Id
    const msg: Body
    var pending: bool
    var idx: int

    constructor (msg: Body, ghost id: Id)
      ensures this.msg == msg && this.id == id && !pending && idx == -1
    {
      this.msg, this.id := msg, id;
      pending, idx := false, -1;
    }
  }

  datatype Got = Closed | Block | Message(qm: MemoryQueuedMessage)

  class MemoryQueue {
    var buf: seq<MemoryQueuedMessage?>
    var shuttingDown: bool
    /** Every message ever queued here; all[h].id == h. */
    ghost var all: seq<MemoryQueuedMessage>

    ghost predicate Valid()
      reads this, all
    {
      && (forall h | 0 <= h < |all| :: all[h].id == h && 0 <= all[h].idx < |buf|)
      && (forall i | 0 <= i < |buf| && buf[i] != null :: buf[i].id < |all| && all[buf[i].id] == buf[i] && buf[i].idx == i)
    }

    ghost function Slots(): (s: seq<Option<Id>>)
      reads this
      ensures |s| == |buf|
    {
      seq(|buf|, i requires 0 <= i < |buf| reads this => if buf[i] == null then None else Some(buf[i].id))
    }

    /** The abstract state; a message's record is its fields, wherever it is. */
    ghost function View(): (q: QueueState)
      reads this, all
      requires Valid()
      ensures SlotQueue.WellFormed(q) && |q.records| == |all|
    {
      QueueState(
        Slots(),
        seq(|all|, h requires 0 <= h < |all| && Valid() reads this, all =>
              Record(all[h].msg, all[h].pending, all[h].idx)),
        shuttingDown)
    }

    constructor ()
      ensures Valid() && View() == EMPTY && all == []
    {
      buf, shuttingDown, all := [], false, [];
    }

    /** Puts a record in the first free slot, or in a new one. */
    method Place(qm: MemoryQueuedMessage)
      requires qm.idx == -1
      modifies this`buf, qm`idx
      ensures qm.idx == FirstFree(old(Slots()), 0)
      ensures buf == if qm.idx < |old(buf)| then old(buf)[qm.idx := qm] else old(buf) + [qm]
    {
      for i := 0 to |buf|
        invariant qm.idx == -1 && buf == old(buf) && FirstFree(old(Slots()), 0) == FirstFree(old(Slots()), i)
      {
        if buf[i] == null {
          qm.idx := i;
          buf := buf[i := qm];
          break;
        }
      }
      if qm.idx < 0 {
        qm.idx := |buf|;
        buf := buf + [qm];
      }
    }

    method Queue(msg: Body) returns (qm: MemoryQueuedMessage)
      requires Valid()
      modifies this`buf, this`all
      ensures Valid() && View() == Enqueue(old(View()), msg)
      ensures fresh(qm) && all == old(all) + [qm]
    {
      hide FirstFree, SlotQueue.WellFormed;
      ghost var before := old(View());
      qm := new MemoryQueuedMessage(msg, |all|);
      Place(qm);
      all := all + [qm];
      assert forall h | 0 <= h < |before.records| :: all[h] == old(all[h]) && all[h] != qm;
      assert Valid();
      assert Slots() == Enqueue(before, msg).buf;
      assert View().records == before.records + [Record(msg, false, qm.idx)];
    }

    /** Marks the first message that is not pending and returns it, or null. */
    method GetNextMessage() returns (qm: MemoryQueuedMessage?)
      requires Valid()
      modifies all
      ensures Valid() && all == old(all)
      ensures var i := FirstReady(old(View()), 0);
              if i == |buf| then qm == null && View() == old(View())
              else qm != null && qm in all && Some(qm.id) == old(View()).buf[i] && View() == SetPending(old(View()), qm.id, true)
    {
      for i := 0 to |buf|
        invariant View() == old(View()) && Valid()
        invariant FirstReady(old(View()), 0) == FirstReady(old(View()), i)
      {
        var m := buf[i];
        if m != null && !m.pending {
          m.pending := true;
          assert Slots() == old(Slots());
          return m;
        }
      }
      return null;
    }

    /** One pass of the Get loop under the lock: give up, wait, or take a message. */
    method Get(cancelled: bool) returns (r: Got)
      requires Valid()
      modifies all
      ensures Valid() && all == old(all)
      ensures r.Closed? <==> cancelled || shuttingDown
      ensures r.Block? <==> !cancelled && !shuttingDown && FirstReady(old(View()), 0) == |buf|
      ensures !r.Message? ==> View() == old(View())
      ensures r.Message? ==>
                && r.qm in all
                && Some(r.qm.id) == old(View()).buf[FirstReady(old(View()), 0)]
                && View() == SetPending(old(View()), r.qm.id, true)
    {
      if cancelled || shuttingDown {
        return Closed;
      }
      var m := GetNextMessage();
      if m == null {
        return Block;
      }
      return Message(m);
    }

    /** Clears the message's slot without looking at what is in it. */
    method Remove(qm: MemoryQueuedMessage)
      requires Valid() && qm in all
      modifies this`buf
      ensures Valid() && View() == SlotQueue.Remove(old(View()), qm.id)
    {
      buf := buf[qm.idx := null];
      assert Slots() == SlotQueue.Remove(old(View()), qm.id).buf;
    }

    method Requeue(qm: MemoryQueuedMessage)
      requires Valid() && qm in all
      modifies qm`pending
      ensures Valid() && View() == SetPending(old(View()), qm.id, false)
    {
      qm.pending := false;
      assert Slots() == old(Slots());
    }

    method Shutdown()
      requires Valid()
      modifies this`shuttingDown
      ensures Valid() && View() == old(View()).(shuttingDown := true)
    {
      shuttingDown := true;
    }
  }
}
