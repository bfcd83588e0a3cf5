/** `struct group_dev` as an object: the bodies of the system calls as one thread executes them
    with nobody else inside, the traversal of `fflush_workqueue`, and the loops of `group_free`.
    The contracts use the same functions as the steps of the concurrent model. */
module Device {
  import opened Lists
  import opened Model

  /** A device flushed with a live workqueue. */
  function Flushed(d: Store): Store { Splice(d).(delayList := [], flushing := false) }

  /** A device after work `w` ran: the oldest pending message is published, and the work is unlinked
      unless a flush did that. */
  function Fired(d: Store, w: nat): Store
    requires w in d.delayList || d.flushing
  {
    var d1 := if d.pendingList == [] then d else Publish(TakePending(d), Last(d.pendingList));
    if d.flushing then d1 else d1.(delayList := Without(d.delayList, w))
  }

  class GroupDev {
    var messageList: seq<Message>
    var pendingList: seq<Message>
    var delayList: seq<nat>
    var messagesNumber: U32
    var delay: nat
    var flushing: bool
    var wqLive: bool
    var messagesMade: nat
    var worksMade: nat
    var worksFreed: seq<nat>

    function View(): Store
      reads this
    {
      Store(messageList, pendingList, delayList, messagesNumber, delay, flushing)
    }

    constructor (wqLive: bool)
      ensures View() == Store([], [], [], 0, 0, false)
      ensures this.wqLive == wqLive && messagesMade == 0 && worksMade == 0 && worksFreed == []
    {
      messageList, pendingList, delayList := [], [], [];
      messagesNumber, delay, flushing := 0, 0, false;
      messagesMade, worksMade, worksFreed := 0, 0, [];
      this.wqLive := wqLive;
    }

    /** group_write. `allocOk`, `copyOk` and `workOk` are the outcomes of the two kzalloc calls
        together, of copy_from_user and of the kmalloc in add_delayed_work. */
    method Write(buf: seq<Byte>, limits: Limits, allocOk: bool, copyOk: bool, workOk: bool) returns (ret: int)
      modifies this
      ensures wqLive == old(wqLive) && worksFreed == old(worksFreed)
      ensures var accepted := |buf| > 0 && allocOk && old(messagesNumber) < limits.maxStorage && copyOk;
              && messagesMade == old(messagesMade) + (if accepted then 1 else 0)
              && worksMade == old(worksMade) + (if accepted && old(delay) != 0 && wqLive && workOk then 1 else 0)
      ensures |buf| == 0 || !allocOk ==> ret == -1 && View() == old(View())
      ensures |buf| > 0 && allocOk && old(messagesNumber) >= limits.maxStorage ==> ret == 0 && View() == old(View())
      ensures |buf| > 0 && allocOk && old(messagesNumber) < limits.maxStorage && !copyOk ==>
                ret == -1 && View() == old(View())
      ensures |buf| > 0 && allocOk && old(messagesNumber) < limits.maxStorage && copyOk ==>
                var m := Message(old(messagesMade), Prefix(buf, limits.maxMessage));
                && ret == |m.data|
                && (old(delay) == 0 ==> View() == Publish(Count(old(View())), m))
                && (old(delay) != 0 ==>
                      View() == Pend(Count(old(View())), m).(delayList :=
                        if old(wqLive) && workOk then [old(worksMade)] + old(delayList) else old(delayList)))
    {
      ret := -1;
      if |buf| == 0 { return; }
      var length := if |buf| > limits.maxMessage then limits.maxMessage else |buf|;
      if !allocOk { return; }
      if messagesNumber >= limits.maxStorage { return 0; }
      if !copyOk { return; }
      var msg := Message(messagesMade, buf[..length]);
      messagesMade := messagesMade + 1;
      messagesNumber := Inc32(messagesNumber);
      if delay != 0 {
        pendingList := [msg] + pendingList;
        AddDelayedWork(workOk);
      } else {
        messageList := [msg] + messageList;
      }
      ret := length;
    }

    /** add_delayed_work. */
    method AddDelayedWork(workOk: bool)
      modifies this`delayList, this`worksMade
      ensures delayList == if wqLive && workOk then [old(worksMade)] + old(delayList) else old(delayList)
      ensures worksMade == if wqLive && workOk then old(worksMade) + 1 else old(worksMade)
    {
      if !wqLive || !workOk { return; }
      delayList := [worksMade] + delayList;
      worksMade := worksMade + 1;
    }

    /** group_read. A read consumes the message even when it asks for less than its size, and
        also when the copy to user space fails. */
    method Read(len: nat, copyOk: bool) returns (ret: int, out: seq<Byte>)
      modifies this`messageList, this`messagesNumber
      ensures old(messageList) == [] ==> ret == 0 && out == [] && View() == old(View())
      ensures old(messageList) != [] ==>
                && View() == TakeOldest(old(View()))
                && (copyOk ==> out == Prefix(Last(old(messageList)).data, len) && ret == |out|)
                && (!copyOk ==> ret == -1 && out == [])
    {
      ret, out := -1, [];
      if messageList == [] { return 0, []; }
      var msg := Last(messageList);
      messageList := messageList[..|messageList| - 1];
      messagesNumber := Dec32(messagesNumber);
      var length := if len > |msg.data| then |msg.data| else len;
      if !copyOk { return; }
      out := msg.data[..length];
      ret := length;
    }

    /** The SET_SEND_DELAY command; a negative delay is refused. */
    method SetDelay(arg: int) returns (ret: int)
      modifies this`delay
      ensures if arg < 0 then ret == -1 && View() == old(View()) else ret == 0 && View() == old(View()).(delay := arg)
    {
      if arg < 0 { return -1; }
      delay := arg;
      ret := 0;
    }

    /** _fflush_workqueue. */
    method SplicePending()
      modifies this`messageList, this`pendingList
      ensures View() == Splice(old(View()))
    {
      messageList := messageList + pendingList;
      pendingList := [];
    }

    /** delayed_work_fun, for a work that is linked or that a flush has just unlinked. */
    method RunWork(w: nat)
      requires w in delayList || flushing
      modifies this`messageList, this`pendingList, this`delayList, this`worksFreed
      ensures worksFreed == old(worksFreed) + [w]
      ensures View() == Fired(old(View()), w)
    {
      if pendingList != [] {
        var msg := Last(pendingList);
        pendingList := pendingList[..|pendingList| - 1];
        messageList := [msg] + messageList;
      }
      if !flushing {
        delayList := Without(delayList, w);
      }
      worksFreed := worksFreed + [w];
    }

    /** fflush_workqueue: the traversal unlinks each work from the tail and runs it at once. */
    method FflushWorkqueue()
      modifies this
      ensures wqLive == old(wqLive) && worksMade == old(worksMade) && messagesMade == old(messagesMade)
      ensures wqLive ==> View() == Flushed(old(View())) && worksFreed == old(worksFreed) + ReadOrder(old(delayList))
      ensures !wqLive ==> View() == Splice(old(View())) && worksFreed == old(worksFreed)
    {
      SplicePending();
      if !wqLive { return; }
      flushing := true;
      ghost var works := delayList;
      ghost var spliced := messageList;
      while delayList != []
        invariant wqLive && flushing && pendingList == [] && messageList == spliced
        invariant messagesNumber == old(messagesNumber) && delay == old(delay)
        invariant worksMade == old(worksMade) && messagesMade == old(messagesMade)
        invariant worksFreed + ReadOrder(delayList) == old(worksFreed) + ReadOrder(works)
        decreases |delayList|
      {
        ReadOrderLast(delayList);
        var work := Last(delayList);
        ghost var freed, rest := worksFreed, delayList[..|delayList| - 1];
        delayList := delayList[..|delayList| - 1];
        RunWork(work);
        assert freed + ([work] + ReadOrder(rest)) == (freed + [work]) + ReadOrder(rest);
      }
      flushing := false;
    }

    /** group_free, from the flush to the last loop. `stranded` says that the loop over the
        pending list was entered; that loop reads the list head as a message and is not
        modelled further. */
    method Free() returns (stranded: bool, freed: seq<Message>)
      modifies this
      ensures wqLive == old(wqLive) && worksMade == old(worksMade) && messagesMade == old(messagesMade)
      ensures stranded <==> !old(wqLive) && old(pendingList) != []
      ensures old(wqLive) ==>
                && freed == ReadOrder(old(pendingList)) + ReadOrder(old(messageList))
                && worksFreed == old(worksFreed) + ReadOrder(old(delayList))
                && View() == Flushed(old(View())).(messageList := [])
      ensures !old(wqLive) && !stranded ==>
                freed == ReadOrder(old(messageList)) && View() == old(View()).(messageList := [])
      ensures !old(wqLive) ==> worksFreed == old(worksFreed)
    {
      freed := [];
      if wqLive { FflushWorkqueue(); }
      stranded := pendingList != [];
      if stranded { return; }
      ghost var all, view := messageList, View();
      ghost var works := worksFreed;
      while messageList != []
        invariant View() == view.(messageList := messageList) && worksFreed == works
        invariant wqLive == old(wqLive) && worksMade == old(worksMade) && messagesMade == old(messagesMade)
        invariant freed + ReadOrder(messageList) == ReadOrder(all)
        decreases |messageList|
      {
        ReadOrderLast(messageList);
        var msg := Last(messageList);
        ghost var before, rest := freed, messageList[..|messageList| - 1];
        messageList := messageList[..|messageList| - 1];
        freed := freed + [msg];
        assert before + ([msg] + ReadOrder(rest)) == (before + [msg]) + ReadOrder(rest);
      }
      ReadOrderJoin(old(messageList), old(pendingList));
    }
  }
}
