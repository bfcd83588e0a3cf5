/** The user library: sending a C string through a group and retrieving it. */
module Library {
  import opened Lists
  import opened Model
  import opened Device

  // ---- C strings -----------------------------------------------------------------------

  /** The bytes before the first NUL. */
  function CString(s: seq<Byte>): (r: seq<Byte>)
    ensures r <= s
  {
    if s == [] || s[0] == 0 then [] else [s[0]] + CString(s[1..])
  }

  lemma {:induction false} CStringEnds(s: seq<Byte>, n: nat)
    requires n < |s| && s[n] == 0 && forall i :: 0 <= i < n ==> s[i] != 0
    ensures CString(s) == s[..n]
  {
    if n > 0 {
      CStringEnds(s[1..], n - 1);
      assert s[..n] == [s[0]] + s[1..][..n - 1];
    }
  }

  /** A terminator at `n` hides what follows. */
  lemma {:induction false} CStringCut(s: seq<Byte>, n: nat)
    requires n < |s|
    ensures CString(s[n := 0]) == CString(s[..n])
  {
    if n == 0 {
    } else if s[0] != 0 {
      CStringCut(s[1..], n - 1);
      assert s[n := 0][1..] == s[1..][n - 1 := 0];
      assert s[..n][1..] == s[1..][..n - 1];
    }
  }

  method StrLen(s: array<Byte>) returns (n: nat)
    requires exists i :: 0 <= i < s.Length && s[i] == 0
    ensures n == |CString(s[..])|
  {
    n := 0;
    while s[n] != 0
      invariant n < s.Length && (forall i :: 0 <= i < n ==> s[i] != 0)
      invariant exists i :: n <= i < s.Length && s[i] == 0
      decreases s.Length - n
    {
      n := n + 1;
    }
    CStringEnds(s[..], n);
  }

  // ---- send_message and retrieve_message -----------------------------------------------

  /** What a send writes of a buffer: the C string, cut at the cached maximum. */
  function Sent(buf: seq<Byte>, cached: nat): seq<Byte>
    requires cached <= |buf|
  {
    CString(buf[..cached])
  }

  /** What the kernel services used by one write answer. */
  datatype Outcomes = Outcomes(allocOk: bool, copyOk: bool, workOk: bool)

  /** The device after a write of `text` for which there is room. */
  function Stored(dev: Store, text: seq<Byte>, id: nat, w: nat, queued: bool, maxMessage: nat): (r: Store)
    ensures r.messagesNumber == Inc32(dev.messagesNumber)
    ensures ReadOrder(r.messageList) + ReadOrder(r.pendingList)
            == if dev.delay == 0
               then ReadOrder(dev.messageList) + [Message(id, Prefix(text, maxMessage))] + ReadOrder(dev.pendingList)
               else ReadOrder(dev.messageList) + ReadOrder(dev.pendingList) + [Message(id, Prefix(text, maxMessage))]
  {
    var m := Message(id, Prefix(text, maxMessage));
    ReadOrderAdd(m, dev.messageList);
    ReadOrderAdd(m, dev.pendingList);
    if dev.delay == 0 then Publish(Count(dev), m)
    else Pend(Count(dev), m).(delayList := if queued then [w] + dev.delayList else dev.delayList)
  }

  /** send_message overwrites `msg[cached]` to bound strlen and puts the byte back. */
  method SendMessage(dev: GroupDev, fd: int, cached: nat, msg: array?<Byte>, limits: Limits, k: Outcomes)
    returns (ret: int)
    requires fd >= 0 && cached > 0 && msg != null ==> msg.Length > cached
    modifies dev, msg
    ensures msg != null ==> msg[..] == old(if msg == null then [] else msg[..])
    ensures dev.wqLive == old(dev.wqLive) && dev.worksFreed == old(dev.worksFreed)
    ensures fd < 0 || cached == 0 || msg == null ==> ret == -1 && dev.View() == old(dev.View())
    ensures fd >= 0 && cached > 0 && msg != null ==>
              var text := Sent(old(if msg == null then [] else msg[..]), cached);
              var full := old(dev.messagesNumber) >= limits.maxStorage;
              && (text == [] || !k.allocOk ==> ret == -1 && dev.View() == old(dev.View()))
              && (text != [] && k.allocOk && full ==> ret == 0 && dev.View() == old(dev.View()))
              && (text != [] && k.allocOk && !full && !k.copyOk ==> ret == -1 && dev.View() == old(dev.View()))
              && (text != [] && k.allocOk && !full && k.copyOk ==>
                    && ret == Min(|text|, limits.maxMessage)
                    && dev.View() == Stored(old(dev.View()), text, old(dev.messagesMade), old(dev.worksMade),
                                            old(dev.wqLive) && k.workOk, limits.maxMessage))
  {
    if fd < 0 || cached == 0 || msg == null { return -1; }
    ghost var bytes := msg[..];
    var victim := msg[cached];
    msg[cached] := 0;
    assert msg[..] == bytes[cached := 0];
    var length := StrLen(msg);
    msg[cached] := victim;
    assert msg[..] == bytes;
    CStringCut(bytes, cached);
    assert length == |Sent(bytes, cached)| && length <= cached;
    assert bytes[..length] == Sent(bytes, cached);
    if length <= 0 { return -1; }
    ret := dev.Write(msg[..length], limits, k.allocOk, k.copyOk, k.workOk);
  }

  /** retrieve_message; `copyOk` is the outcome of copy_to_user. */
  method RetrieveMessage(dev: GroupDev, fd: int, len: nat, copyOk: bool) returns (ret: int, out: seq<Byte>)
    modifies dev`messageList, dev`messagesNumber
    ensures fd < 0 || old(dev.messageList) == [] ==> out == [] && dev.View() == old(dev.View())
    ensures fd < 0 ==> ret == -1
    ensures fd >= 0 && old(dev.messageList) == [] ==> ret == 0
    ensures fd >= 0 && old(dev.messageList) != [] ==>
              && dev.View() == TakeOldest(old(dev.View()))
              && (copyOk ==> out == Prefix(Last(old(dev.messageList)).data, len) && ret == |out|)
              && (!copyOk ==> out == [] && ret == -1)
  {
    if fd < 0 { return -1, []; }
    ret, out := dev.Read(len, copyOk);
  }

  // ---- End to end ----------------------------------------------------------------------

  /** What the `len` bytes of a retrieve show of a sent buffer. */
  function Delivered(buf: seq<Byte>, cached: nat, kernel: nat, len: nat): seq<Byte> {
    Prefix(CString(buf), Min(cached, Min(kernel, len)))
  }

  lemma {:induction false} CStringOfPrefix(s: seq<Byte>, n: nat)
    requires n <= |s|
    ensures CString(s[..n]) == Prefix(CString(s), n)
  {
    if n > 0 && s[0] != 0 {
      CStringOfPrefix(s[1..], n - 1);
      assert s[..n][1..] == s[1..][..n - 1];
      assert CString(s) == [s[0]] + CString(s[1..]);
    }
  }

  /** The three cuts of a message amount to one. */
  lemma CutsCompose(buf: seq<Byte>, cached: nat, kernel: nat, len: nat)
    requires cached <= |buf|
    ensures Prefix(Prefix(Sent(buf, cached), kernel), len) == Delivered(buf, cached, kernel, len)
    ensures |Delivered(buf, cached, kernel, len)| == Min(|CString(buf)|, Min(cached, Min(kernel, len)))
  {
    CStringOfPrefix(buf, cached);
  }

  predicate Contents(b: seq<seq<Byte>>, dev: GroupDev)
    reads dev
  {
    && |dev.messageList| == |b| == dev.messagesNumber && dev.delay == 0
    && forall j :: 0 <= j < |b| ==> ReadOrder(dev.messageList)[j].data == b[j]
  }

  /** One more message on an undelayed device with room. */
  lemma Appends(l: seq<Message>, m: Message, b: seq<seq<Byte>>)
    requires |l| == |b| && forall j :: 0 <= j < |b| ==> ReadOrder(l)[j].data == b[j]
    ensures forall j :: 0 <= j < |b| + 1 ==> ReadOrder([m] + l)[j].data == (b + [m.data])[j]
  {
    ReadOrderAdd(m, l);
  }

  /** Sends of texts that fit into an empty undelayed group, then as many retrieves, return the
      texts in order, each cut to the smallest of its limits; the senders' buffers are intact and
      the group is empty again. */
  method Exchange(dev: GroupDev, fd: int, cached: nat, msgs: seq<array<Byte>>, lens: seq<nat>, limits: Limits)
    returns (outs: seq<seq<Byte>>)
    requires fd >= 0 && cached > 0 && |lens| == |msgs| <= limits.maxStorage
    requires forall i :: 0 <= i < |msgs| ==> msgs[i].Length > cached && CString(msgs[i][..]) != []
    requires Contents([], dev)
    modifies dev, set i | 0 <= i < |msgs| :: msgs[i]
    ensures Contents([], dev)
    ensures forall i :: 0 <= i < |msgs| ==> msgs[i][..] == old(msgs[i][..])
    ensures |outs| == |msgs|
    ensures forall i :: 0 <= i < |msgs| ==>
              outs[i] == Delivered(old(msgs[i][..]), cached, limits.maxMessage, lens[i])
  {
    ghost var stored := SendAll(dev, fd, cached, msgs, limits);
    outs := RetrieveAll(dev, fd, stored, lens);
    forall i | 0 <= i < |msgs| ensures outs[i] == Delivered(old(msgs[i][..]), cached, limits.maxMessage, lens[i]) {
      CutsCompose(msgs[i][..], cached, limits.maxMessage, lens[i]);
    }
  }

  /** A send into an undelayed group with room adds its text behind the others. */
  method SendOne(dev: GroupDev, fd: int, cached: nat, msg: array<Byte>, limits: Limits, ghost stored: seq<seq<Byte>>)
    requires fd >= 0 && cached > 0 && msg.Length > cached && CString(msg[..]) != []
    requires Contents(stored, dev) && |stored| < limits.maxStorage
    modifies dev, msg
    ensures msg[..] == old(msg[..])
    ensures Contents(stored + [Prefix(Sent(msg[..], cached), limits.maxMessage)], dev)
  {
    CStringOfPrefix(msg[..], cached);
    ghost var m := Message(dev.messagesMade, Prefix(Sent(msg[..], cached), limits.maxMessage));
    Appends(dev.messageList, m, stored);
    var ret := SendMessage(dev, fd, cached, msg, limits, Outcomes(true, true, true));
  }

  method SendAll(dev: GroupDev, fd: int, cached: nat, msgs: seq<array<Byte>>, limits: Limits)
    returns (ghost stored: seq<seq<Byte>>)
    requires fd >= 0 && cached > 0 && |msgs| <= limits.maxStorage
    requires forall i :: 0 <= i < |msgs| ==> msgs[i].Length > cached && CString(msgs[i][..]) != []
    requires Contents([], dev)
    modifies dev, set i | 0 <= i < |msgs| :: msgs[i]
    ensures forall i :: 0 <= i < |msgs| ==> msgs[i][..] == old(msgs[i][..])
    ensures |stored| == |msgs| && Contents(stored, dev)
    ensures forall i :: 0 <= i < |msgs| ==> stored[i] == Prefix(Sent(msgs[i][..], cached), limits.maxMessage)
  {
    stored := [];
    for k := 0 to |msgs|
      invariant forall i :: 0 <= i < |msgs| ==> msgs[i][..] == old(msgs[i][..])
      invariant |stored| == k && Contents(stored, dev)
      invariant forall i :: 0 <= i < k ==> stored[i] == Prefix(Sent(msgs[i][..], cached), limits.maxMessage)
    {
      SendOne(dev, fd, cached, msgs[k], limits, stored);
      stored := stored + [Prefix(Sent(msgs[k][..], cached), limits.maxMessage)];
    }
  }

  method RetrieveAll(dev: GroupDev, fd: int, ghost stored: seq<seq<Byte>>, lens: seq<nat>)
    returns (outs: seq<seq<Byte>>)
    requires fd >= 0 && |lens| == |stored| && Contents(stored, dev)
    modifies dev
    ensures |outs| == |stored| && Contents([], dev)
    ensures forall i :: 0 <= i < |stored| ==> outs[i] == Prefix(stored[i], lens[i])
  {
    outs := [];
    for k := 0 to |lens|
      invariant |outs| == k && Contents(stored[k..], dev)
      invariant forall i :: 0 <= i < k ==> outs[i] == Prefix(stored[i], lens[i])
    {
      ReadOrderLast(dev.messageList);
      assert Last(dev.messageList).data == stored[k..][0];
      var ret, out := RetrieveMessage(dev, fd, lens[k], true);
      outs := outs + [out];
    }
  }
}
