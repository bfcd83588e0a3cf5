/** The registry of group devices: a list searched by minor number that behaves as a map, and
    the cleanup of all groups. Installs are sequential, as the code takes no lock. */
module Registry {
  import opened Lists
  import opened Model
  import opened Device

  const GROUP_DEV_COUNT: nat := 256

  /** A descriptor is an `unsigned char`. */
  type Minor = x: nat | x < 256

  // ---- The list of minors --------------------------------------------------------------

  /** install_group on the list of minors, head first; `ok` is the outcome of `_install_group`. */
  function Installed(l: seq<Minor>, desc: Minor, ok: bool): seq<Minor> {
    if desc in l || GROUP_DEV_COUNT < |l| + 1 || !ok then l else [desc] + l
  }

  function InstalledAll(l: seq<Minor>, descs: seq<Minor>, oks: seq<bool>): seq<Minor>
    requires |descs| == |oks|
    decreases descs
  {
    if descs == [] then l
    else InstalledAll(Installed(l, descs[0], oks[0]), descs[1..], oks[1..])
  }

  /** A list of distinct numbers below `n` has at most `n` entries. */
  lemma {:induction false} Pigeonhole(l: seq<nat>, n: nat)
    requires Distinct(l) && forall x :: x in l ==> x < n
    ensures |l| <= n
  {
    if l != [] {
      assert l[0] in l;
      if n - 1 in l {
        var rest := Without(l, n - 1);
        assert forall x :: x in rest ==> x in l && x != n - 1;
        Pigeonhole(rest, n - 1);
      } else {
        Pigeonhole(l, n - 1);
      }
    }
  }

  /** The capacity check never rejects a fresh descriptor. */
  lemma RoomForFresh(l: seq<Minor>, desc: Minor)
    requires Distinct(l) && desc !in l
    ensures |l| < GROUP_DEV_COUNT
  {
    Pigeonhole([desc] + l, GROUP_DEV_COUNT);
  }

  /** After any sequence of installs the minors are distinct, and a descriptor is installed
      exactly if it was before or some attempt to install it succeeded. */
  lemma {:induction false} InstallsAreAMap(l: seq<Minor>, descs: seq<Minor>, oks: seq<bool>)
    requires Distinct(l) && |descs| == |oks|
    ensures Distinct(InstalledAll(l, descs, oks)) && |InstalledAll(l, descs, oks)| <= GROUP_DEV_COUNT
    ensures forall x :: x in InstalledAll(l, descs, oks) <==>
              x in l || exists i :: 0 <= i < |descs| && descs[i] == x && oks[i]
    decreases descs
  {
    if descs == [] {
      Pigeonhole(l, GROUP_DEV_COUNT);
    } else {
      var l1 := Installed(l, descs[0], oks[0]);
      if descs[0] !in l {
        RoomForFresh(l, descs[0]);
      }
      InstallsAreAMap(l1, descs[1..], oks[1..]);
      forall x ensures x in InstalledAll(l, descs, oks) <==>
                 x in l || exists i :: 0 <= i < |descs| && descs[i] == x && oks[i]
      {
        Attempts(l, descs, oks, x);
      }
    }
  }

  lemma Attempts(l: seq<Minor>, descs: seq<Minor>, oks: seq<bool>, x: Minor)
    requires Distinct(l) && |descs| == |oks| > 0
    ensures (exists i :: 0 <= i < |descs| && descs[i] == x && oks[i]) <==>
            (descs[0] == x && oks[0]) || exists i :: 0 <= i < |descs[1..]| && descs[1..][i] == x && oks[1..][i]
  {
    if i :| 0 <= i < |descs| && descs[i] == x && oks[i] && i > 0 {
      assert descs[1..][i - 1] == x && oks[1..][i - 1];
    }
    if i :| 0 <= i < |descs[1..]| && descs[1..][i] == x && oks[1..][i] {
      assert descs[i + 1] == x && oks[i + 1];
    }
  }

  // ---- struct group_devices ------------------------------------------------------------

  datatype Entry = Entry(minor: Minor, dev: GroupDev)

  function MinorsOf(es: seq<Entry>): seq<Minor> { seq(|es|, i requires 0 <= i < |es| => es[i].minor) }

  /** What group_free makes of a device: its fields, the works freed over its life, and the messages
      it frees. */
  datatype Remains = Remains(view: Store, works: seq<nat>, messages: seq<Message>)

  /** group_free does not meet a stranded message: there is a workqueue, or nothing is pending. */
  predicate Clearable(dev: GroupDev)
    reads dev
  {
    dev.wqLive || dev.pendingList == []
  }

  /** With a workqueue everything is flushed, every work run and freed, and every message freed in
      the order in which it would have been read; without one the published messages are freed. */
  ghost function Outcome(dev: GroupDev): Remains
    reads dev
    requires Clearable(dev)
  {
    if dev.wqLive then
      Remains(Flushed(dev.View()).(messageList := []), dev.worksFreed + ReadOrder(dev.delayList),
              ReadOrder(dev.pendingList) + ReadOrder(dev.messageList))
    else Remains(dev.View().(messageList := []), dev.worksFreed, ReadOrder(dev.messageList))
  }

  /** Freeing from the tail follows the read order. */
  lemma FreesNext(freed: seq<Minor>, l: seq<Entry>)
    requires l != []
    ensures freed + MinorsOf(ReadOrder(l)) == (freed + [Last(l).minor]) + MinorsOf(ReadOrder(l[..|l| - 1]))
  {
    ReadOrderLast(l);
    MinorsOfJoin(Last(l), ReadOrder(l[..|l| - 1]));
    Associates(freed, [Last(l).minor], MinorsOf(ReadOrder(l[..|l| - 1])));
  }

  lemma MinorsOfJoin(e: Entry, es: seq<Entry>)
    ensures MinorsOf([e] + es) == [e.minor] + MinorsOf(es)
  {
  }

  lemma Associates(a: seq<Minor>, b: seq<Minor>, c: seq<Minor>)
    ensures a + (b + c) == (a + b) + c
  {
  }

  class Groups {
    var used: nat
    var list: seq<Entry>

    ghost predicate Valid()
      reads this
    {
      && used == |list|
      && Distinct(MinorsOf(list))
      && forall i, j :: 0 <= i < j < |list| ==> list[i].dev != list[j].dev
    }

    function Minors(): seq<Minor>
      reads this
    {
      MinorsOf(list)
    }

    /** init_group_devs. */
    constructor ()
      ensures Valid() && list == []
    {
      used, list := 0, [];
    }

    /** get_group and _get_group: a search from the head of the list. */
    method GetGroup(desc: Minor) returns (gd: GroupDev?)
      requires Valid()
      ensures gd == null <==> desc !in Minors()
      ensures gd != null ==> exists i :: 0 <= i < |list| && list[i] == Entry(desc, gd)
    {
      if list == [] { return null; }
      for i := 0 to |list|
        invariant forall j :: 0 <= j < i ==> list[j].minor != desc
      {
        if list[i].minor == desc {
          assert Minors()[i] == desc;
          return list[i].dev;
        }
      }
      return null;
    }

    /** install_group; `ok` and `wqOk` are the outcomes of `_install_group` and of the creation
        of its workqueue. Reinstalling changes nothing, and a fresh descriptor fails only if
        `_install_group` fails. */
    method Install(desc: Minor, ok: bool, wqOk: bool) returns (ret: int)
      requires Valid()
      modifies this
      ensures Valid() && Minors() == Installed(old(Minors()), desc, ok)
      ensures ret == 0 <==> desc in Minors()
      ensures ret == 0 || ret == -1
      ensures desc in old(Minors()) || !ok ==> list == old(list)
      ensures desc !in old(Minors()) && ok ==>
                && |list| == |old(list)| + 1 && list[1..] == old(list)
                && list[0].minor == desc && fresh(list[0].dev)
                && list[0].dev.View() == Store([], [], [], 0, 0, false) && list[0].dev.wqLive == wqOk
    {
      ret := -1;
      var gd := GetGroup(desc);
      if gd != null { return 0; }
      RoomForFresh(Minors(), desc);
      if GROUP_DEV_COUNT < used + 1 { return; }
      if !ok { return; }
      var dev := new GroupDev(wqOk);
      list := [Entry(desc, dev)] + list;
      used := used + 1;
      assert MinorsOf(list) == [desc] + MinorsOf(list[1..]);
      ret := 0;
    }

    /** One turn of the loop of group_free_all: the oldest group is unlinked and freed, and with it
        its works and messages. */
    method FreeOldest() returns (minor: Minor, messages: seq<Message>)
      requires list != []
      modifies this`list, Last(list).dev
      ensures list == old(list)[..|old(list)| - 1]
      ensures minor == Last(old(list)).minor
      ensures var dev := Last(old(list)).dev;
              old(Clearable(dev)) ==> Remains(dev.View(), dev.worksFreed, messages) == old(Outcome(dev))
    {
      var tmp := Last(list);
      list := list[..|list| - 1];
      minor := tmp.minor;
      var stranded;
      stranded, messages := tmp.dev.Free();
    }

    /** group_free_all: every group is unlinked and freed once, the oldest first. `freed` are the
        minors in that order, `messages` the messages freed with each of them. */
    method FreeAll() returns (toFree: int, freed: seq<Minor>, messages: seq<seq<Message>>)
      requires Valid()
      modifies this, set e | e in list :: e.dev
      ensures toFree == 0 && list == []
      ensures freed == MinorsOf(ReadOrder(old(list)))
      ensures |messages| == |old(list)|
      ensures forall i :: 0 <= i < |old(list)| ==>
                var dev := old(list)[i].dev;
                old(Clearable(dev)) ==>
                  Remains(dev.View(), dev.worksFreed, messages[|old(list)| - 1 - i]) == old(Outcome(dev))
    {
      toFree := used;
      freed, messages := [], [];
      ghost var all := list;
      while list != []
        invariant toFree == |list| && |list| <= |all| && list == all[..|list|]
        invariant freed + MinorsOf(ReadOrder(list)) == MinorsOf(ReadOrder(all))
        invariant |messages| == |all| - |list|
        invariant forall i :: 0 <= i < |list| ==> unchanged(all[i].dev)
        invariant forall i :: |list| <= i < |all| && old(Clearable(all[i].dev)) ==>
                    Remains(all[i].dev.View(), all[i].dev.worksFreed, messages[|all| - 1 - i]) == old(Outcome(all[i].dev))
        decreases |list|
      {
        FreesNext(freed, list);
        var minor, some := FreeOldest();
        freed := freed + [minor];
        messages := messages + [some];
        toFree := toFree - 1;
      }
    }
  }
}
