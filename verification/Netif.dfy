/** The interface layer below the PCBs: which protocols of which interface are ready,
    and the one UDP socket they share (mdns_networking_lwip.c). */
module Netif {
  import opened Packets

  datatype Error = Ok | InvalidState | NoMem

  /** s_interfaces[i] */
  datatype Interface = Interface(ready: bool, v4: bool, v6: bool)

  function Bit(n: Interface, protocol: Protocol): bool {
    match protocol case V4 => n.v4 case V6 => n.v6
  }

  function SetBit(n: Interface, protocol: Protocol, on: bool): Interface {
    match protocol case V4 => n.(v4 := on) case V6 => n.(v6 := on)
  }

  /** What the stack answers to one start of a PCB. */
  datatype Answers = Answers(join: Error, socket: bool, bind: bool)

  // ------------------------------------------------------ what it stands for

  /** The ready PCBs. */
  function Ready(interfaces: seq<Interface>): set<Key> {
    set i: nat, p: Protocol | i < |interfaces| && p in {V4, V6}
      && interfaces[i].ready && Bit(interfaces[i], p) :: Key(i, p)
  }

  /** An interface is ready exactly when one of its protocols is up, and the socket is
      open exactly while some PCB is ready. */
  predicate Consistent(interfaces: seq<Interface>, open: bool) {
    && (forall i :: 0 <= i < |interfaces| ==> (interfaces[i].ready <==> interfaces[i].v4 || interfaces[i].v6))
    && (open <==> Ready(interfaces) != {})
  }

  /** The abstract effect of a start: the set of ready PCBs and the result. */
  function Started(up: set<Key>, k: Key, a: Answers): (set<Key>, Error) {
    if k in up then (up, InvalidState)
    else if a.join != Ok then (up, a.join)
    else if up != {} then (up + {k}, Ok)
    else if !a.socket then (up, NoMem)
    else if !a.bind then (up, InvalidState)
    else (up + {k}, Ok)
  }

  /** A start succeeds exactly if the PCB was not ready, its group can be joined, and the
      socket is in use already or can be opened and bound; then the PCB joins the others. */
  lemma StartSucceeds(up: set<Key>, k: Key, a: Answers)
    ensures var (up', err) := Started(up, k, a);
      && (err == Ok <==> k !in up && a.join == Ok && (up != {} || (a.socket && a.bind)))
      && (k in up' <==> k in up || err == Ok) && forall j :: j != k ==> (j in up' <==> j in up)
  {
  }

  lemma ReadyHas(interfaces: seq<Interface>, k: Key)
    ensures k in Ready(interfaces) <==>
      k.netif < |interfaces| && interfaces[k.netif].ready && Bit(interfaces[k.netif], k.protocol)
  {
    assert k.protocol == V4 || k.protocol == V6;
    assert k == Key(k.netif, k.protocol);
  }

  /** Switching one bit of an interface changes one PCB. */
  lemma SwitchOne(interfaces: seq<Interface>, k: Key, on: bool)
    requires k.netif < |interfaces|
    requires interfaces[k.netif].ready <==> interfaces[k.netif].v4 || interfaces[k.netif].v6
    ensures var n := SetBit(interfaces[k.netif], k.protocol, on);
      Ready(interfaces[k.netif := n.(ready := n.v4 || n.v6)])
      == if on then Ready(interfaces) + {k} else Ready(interfaces) - {k}
  {
    var n := SetBit(interfaces[k.netif], k.protocol, on);
    var after := interfaces[k.netif := n.(ready := n.v4 || n.v6)];
    forall j: Key ensures j in Ready(after) <==> if j == k then on else j in Ready(interfaces) {
      ReadyHas(after, j);
      ReadyHas(interfaces, j);
    }
  }

  class Networking {
    var interfaces: seq<Interface>
    var open: bool

    ghost predicate Valid()
      reads this
    {
      Consistent(interfaces, open)
    }

    constructor (count: nat)
      ensures Valid() && |interfaces| == count && Ready(interfaces) == {}
    {
      interfaces := seq(count, i => Interface(false, false, false));
      open := false;
    }

    /** mdns_is_netif_ready */
    method IsNetifReady(k: Key) returns (ready: bool)
      requires k.netif < |interfaces|
      ensures ready <==> k in Ready(interfaces)
    {
      ReadyHas(interfaces, k);
      ready := interfaces[k.netif].ready && Bit(interfaces[k.netif], k.protocol);
    }

    /** _udp_pcb_is_in_use */
    method IsInUse() returns (used: bool)
      ensures used <==> Ready(interfaces) != {}
    {
      var i := 0;
      while i < |interfaces|
        invariant i <= |interfaces|
        invariant forall k :: k in Ready(interfaces) ==> k.netif >= i
      {
        var v4 := IsNetifReady(Key(i, V4));
        if v4 {
          return true;
        }
        var v6 := IsNetifReady(Key(i, V6));
        if v6 {
          return true;
        }
        forall k | k in Ready(interfaces) ensures k.netif >= i + 1 {
          assert k == Key(k.netif, V4) || k == Key(k.netif, V6);
        }
        i := i + 1;
      }
      assert forall k :: k !in Ready(interfaces);
      return false;
    }

    /** _udp_pcb_main_init */
    method MainInit(socket: bool, bind: bool) returns (err: Error)
      modifies this`open
      ensures open == (err == Ok)
      ensures err == if old(open) then Ok else if !socket then NoMem else if !bind then InvalidState else Ok
    {
      if open {
        return Ok;
      }
      open := socket;
      if !open {
        return NoMem;
      }
      if !bind {
        open := false;
        return InvalidState;
      }
      return Ok;
    }

    /** _udp_pcb_init */
    method PcbInit(k: Key, a: Answers) returns (err: Error)
      requires Valid() && k.netif < |interfaces|
      modifies this
      ensures Valid() && |interfaces| == |old(interfaces)|
      ensures (Ready(interfaces), err) == Started(Ready(old(interfaces)), k, a)
      ensures err != Ok ==> interfaces == old(interfaces) && open == old(open)
    {
      var ready := IsNetifReady(k);
      if ready {
        return InvalidState;
      }
      if a.join != Ok {
        return a.join;
      }
      err := MainInit(a.socket, a.bind);
      if err != Ok {
        return;
      }
      assert err == Ok ==> Ready(old(interfaces)) != {} || (a.socket && a.bind);
      SwitchOne(interfaces, k, true);
      interfaces := interfaces[k.netif := SetBit(interfaces[k.netif], k.protocol, true)];
      interfaces := interfaces[k.netif := interfaces[k.netif].(ready := true)];
      assert interfaces == old(interfaces)[k.netif := SetBit(old(interfaces)[k.netif], k.protocol, true).(ready := true)];
      assert k in Ready(interfaces);
    }

    /** _udp_pcb_deinit */
    method PcbDeinit(k: Key)
      requires Valid() && k.netif < |interfaces|
      modifies this
      ensures Valid() && |interfaces| == |old(interfaces)|
      ensures Ready(interfaces) == Ready(old(interfaces)) - {k}
    {
      SwitchOne(interfaces, k, false);
      interfaces := interfaces[k.netif := SetBit(interfaces[k.netif], k.protocol, false)];
      if !interfaces[k.netif].v4 && !interfaces[k.netif].v6 {
        interfaces := interfaces[k.netif := interfaces[k.netif].(ready := false)];
        var used := IsInUse();
        if !used {
          open := false;
        }
      } else {
        var other := Key(k.netif, if k.protocol == V4 then V6 else V4);
        ReadyHas(interfaces, other);
      }
    }
  }
}
