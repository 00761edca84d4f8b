/** Removing a delegated host with its services, and the entries that still refer to it. */
module HostRemoval {
  import opened Options
  import opened Packets
  import opened Answers
  import opened Scheduler
  import opened Responder
  import opened ResponderKeeps
  import opened InterfaceKeeps
  import opened ServiceRemoval
  import opened ResponderRuns
  import opened QuestionRefs

  predicate OnHost(svc: Service, h: nat) {
    svc.host == Some(h)
  }

  /** The walk over the list of services: those of the host go. */
  function RemoveServicesOf(sv: Server, todo: seq<nat>, h: nat): Server
    requires Known(sv, todo) && KeysIn(sv.sched.tx, sv.pcbs)
    decreases |todo|
  {
    if todo == [] then sv
    else
      assert Known(sv, todo[1..]) by { KnownTail(sv, todo); }
      assert todo[0] in sv.info;
      if OnHost(sv.info[todo[0]], h) then
        RemovalFits(sv, todo[0]);
        RemoveServicesOf(RemoveService(sv, todo[0]), todo[1..], h)
      else RemoveServicesOf(sv, todo[1..], h)
  }

  lemma KnownTail(sv: Server, todo: seq<nat>)
    requires Known(sv, todo) && todo != []
    ensures Known(sv, todo[1..]) && todo[0] in sv.info
  {
  }

  lemma RemovalFits(sv: Server, s: nat)
    requires s in sv.info && KeysIn(sv.sched.tx, sv.pcbs)
    ensures var sv' := RemoveService(sv, s);
      KeysIn(sv'.sched.tx, sv'.pcbs) && sv'.info == sv.info && sv'.pcbs.Keys == sv.pcbs.Keys && sv'.up == sv.up
  {
    KeptKeys(sv.sched.tx, sv.pcbs, sv.up, s, sv.info[s]);
    RemovedKeys(sv, s);
  }

  /** _mdns_delegate_hostname_remove: the services of the host and then the host. */
  function RemoveHost(sv: Server, hosts: seq<nat>, h: nat): (Server, seq<nat>)
    requires Known(sv, sv.registry) && KeysIn(sv.sched.tx, sv.pcbs)
  {
    (RemoveServicesOf(sv, sv.registry, h), DropFirst(hosts, h))
  }

  // ------------------------------------------------------------- the services

  function Others(list: seq<nat>, info: map<nat, Service>, h: nat): seq<nat>
    requires forall s :: s in list ==> s in info
  {
    if list == [] then []
    else
      assert forall s :: s in list[1..] ==> s in list;
      (if OnHost(info[list[0]], h) then [] else [list[0]]) + Others(list[1..], info, h)
  }

  lemma NoDupParts(front: seq<nat>, s: nat, rest: seq<nat>)
    requires NoDup(front + [s] + rest)
    ensures s !in front && DropFirst(front + [s] + rest, s) == front + rest
    ensures front + [s] + rest == (front + [s]) + rest
  {
    var all := front + [s] + rest;
    assert all[|front|] == s;
    forall i | 0 <= i < |front| ensures front[i] != s { assert all[i] == front[i]; }
    DropBehind(front, s, rest);
  }

  lemma {:induction false} DropBehind(front: seq<nat>, s: nat, rest: seq<nat>)
    requires s !in front
    ensures DropFirst(front + [s] + rest, s) == front + rest
  {
    var all := front + [s] + rest;
    if front == [] {
      assert all[0] == s && all[1..] == rest;
    } else {
      assert all[0] == front[0] && all[1..] == front[1..] + [s] + rest;
      DropBehind(front[1..], s, rest);
      assert [front[0]] + (front[1..] + rest) == front + rest;
    }
  }

  /** The walk keeps the invariant; of the services it has passed those of the host are
      gone and the others are there in their order. */
  lemma {:induction false} WalkKeeps(sv: Server, front: seq<nat>, todo: seq<nat>, h: nat)
    requires Sound(sv, {}) && sv.registry == front + todo
    ensures Known(sv, todo) && KeysIn(sv.sched.tx, sv.pcbs)
    ensures var sv' := RemoveServicesOf(sv, todo, h);
      Sound(sv', {}) && sv'.info == sv.info && sv'.registry == front + Others(todo, sv.info, h)
    decreases |todo|
  {
    hide Sound, RemoveService, NoDup, DropFirst;
    WalkFits(sv, front, todo);
    if todo != [] {
      var s, rest := todo[0], todo[1..];
      assert front + todo == front + [s] + rest && s in todo;
      if OnHost(sv.info[s], h) {
        RemoveServiceKeeps(sv, s);
        RemovalFits(sv, s);
        NoDupParts(front, s, rest);
        assert RemoveService(sv, s).registry == front + rest by { RemovedRegistry(sv, s); }
        WalkKeeps(RemoveService(sv, s), front, rest, h);
      } else {
        WalkKeeps(sv, front + [s], rest, h);
        assert (front + [s]) + Others(rest, sv.info, h) == front + ([s] + Others(rest, sv.info, h));
      }
    }
  }

  lemma RemovedRegistry(sv: Server, s: nat)
    requires s in sv.info && KeysIn(sv.sched.tx, sv.pcbs)
    ensures RemoveService(sv, s).registry == DropFirst(sv.registry, s)
  {
  }

  lemma WalkFits(sv: Server, front: seq<nat>, todo: seq<nat>)
    requires Sound(sv, {}) && sv.registry == front + todo
    ensures Known(sv, todo) && KeysIn(sv.sched.tx, sv.pcbs) && NoDup(front + todo)
    ensures forall s :: s in todo ==> s in sv.registry && s in sv.info
  {
    hide PcbsOk, Orderly, TwinsOk, DupsOk;
    SoundUsable(sv);
  }

  /** Removing a host keeps the invariant and removes exactly its services. */
  lemma RemoveHostKeeps(sv: Server, hosts: seq<nat>, h: nat)
    requires Sound(sv, {})
    ensures Known(sv, sv.registry) && KeysIn(sv.sched.tx, sv.pcbs)
    ensures var sv' := RemoveHost(sv, hosts, h).0;
      Sound(sv', {}) && sv'.registry == Others(sv.registry, sv.info, h)
  {
    hide Sound;
    assert sv.registry == [] + sv.registry;
    WalkKeeps(sv, [], sv.registry, h);
    assert [] + Others(sv.registry, sv.info, h) == Others(sv.registry, sv.info, h);
  }

  // ----------------------------------------------------- entries for the host

  /** The entry refers to the host, and to no service of `gone`. */
  predicate RefersTo(a: Answer, h: nat, gone: set<nat>) {
    a.host == Some(h) && (a.service.Some? ==> a.service.value !in gone)
  }

  ghost predicate Holds(p: Packet, h: nat, gone: set<nat>) {
    exists a :: RefersTo(a, h, gone) && (a in p.answers || a in p.servers || a in p.additional)
  }

  ghost predicate Held(tx: seq<Packet>, h: nat, gone: set<nat>) {
    exists p :: p in tx && Holds(p, h, gone)
  }

  lemma DropHolds(p: Packet, b: Pcb, isUp: bool, s: nat, svc: Service, h: nat, gone: set<nat>)
    ensures var p' := DropFromPacket(p, b, isUp, s, svc);
      && (Holds(p', h, gone) <==> Holds(p, h, gone + {s})) && (Holds(p', h, gone) ==> !Emptied(p'))
  {
    hide DropEntries, DropQuestion;
    DropEntriesExact(p.answers, s);
    DropEntriesExact(p.servers, s);
    DropEntriesExact(p.additional, s);
    var p' := DropFromPacket(p, b, isUp, s, svc);
    if Holds(p, h, gone + {s}) {
      var a :| RefersTo(a, h, gone + {s}) && (a in p.answers || a in p.servers || a in p.additional);
      assert RefersTo(a, h, gone) && (a in p'.answers || a in p'.servers || a in p'.additional);
    }
    if Holds(p', h, gone) {
      var a :| RefersTo(a, h, gone) && (a in p'.answers || a in p'.servers || a in p'.additional);
      assert RefersTo(a, h, gone + {s}) && (a in p.answers || a in p.servers || a in p.additional);
    }
  }

  lemma {:induction false} LoopHolds(tx: seq<Packet>, pcbs: map<Key, Pcb>, up: set<Key>, s: nat, svc: Service, h: nat, gone: set<nat>)
    requires KeysIn(tx, pcbs)
    ensures Held(DropLoop(tx, pcbs, up, s, svc).0, h, gone) <==> Held(tx, h, gone + {s})
    decreases |tx|
  {
    hide DropFromPacket, DropFromPcb, Holds;
    if tx != [] {
      var p := tx[0];
      var pcbs1, rest := DropLoopCons(tx, pcbs, up, s, svc);
      LoopHolds(tx[1..], pcbs1, up, s, svc, h, gone);
      DropHolds(p, pcbs[p.pcb], p.pcb in up, s, svc, h, gone);
      assert tx == [p] + tx[1..];
      var p' := DropFromPacket(p, pcbs[p.pcb], p.pcb in up, s, svc);
      var kept := DropLoop(tx, pcbs, up, s, svc).0;
      assert Held(tx, h, gone + {s}) <==> Holds(p, h, gone + {s}) || Held(tx[1..], h, gone + {s});
      if !Emptied(p') { assert p' in kept && forall q :: q in kept <==> q == p' || q in rest; }
    }
  }

  function ServicesOf(list: seq<nat>, info: map<nat, Service>, h: nat): set<nat>
    requires forall s :: s in list ==> s in info
  {
    set s | s in list && OnHost(info[s], h)
  }

  lemma {:induction false} WalkHolds(sv: Server, todo: seq<nat>, h: nat)
    requires Known(sv, todo) && KeysIn(sv.sched.tx, sv.pcbs)
    ensures Held(RemoveServicesOf(sv, todo, h).sched.tx, h, {}) <==> Held(sv.sched.tx, h, ServicesOf(todo, sv.info, h))
    decreases |todo|
  {
    hide Held, RemoveService;
    if todo == [] {
      assert ServicesOf(todo, sv.info, h) == {};
    } else {
      var s, rest := todo[0], todo[1..];
      KnownTail(sv, todo);
      assert todo == [s] + rest;
      if OnHost(sv.info[s], h) {
        RemovalFits(sv, s);
        WalkHolds(RemoveService(sv, s), rest, h);
        RemovalHolds(sv, s, h, ServicesOf(rest, sv.info, h));
        assert ServicesOf(todo, sv.info, h) == ServicesOf(rest, sv.info, h) + {s};
      } else {
        WalkHolds(sv, rest, h);
        assert ServicesOf(todo, sv.info, h) == ServicesOf(rest, sv.info, h);
      }
    }
  }

  lemma RemovalHolds(sv: Server, s: nat, h: nat, gone: set<nat>)
    requires s in sv.info && KeysIn(sv.sched.tx, sv.pcbs)
    ensures Held(RemoveService(sv, s).sched.tx, h, gone) <==> Held(sv.sched.tx, h, gone + {s})
  {
    hide Held;
    LoopHolds(sv.sched.tx, sv.pcbs, sv.up, s, sv.info[s], h, gone);
  }

  /** Every entry of a scheduled packet refers to a host that exists. */
  ghost predicate HostsOk(tx: seq<Packet>, hosts: seq<nat>) {
    forall h :: Held(tx, h, {}) ==> h == SELF_HOST || h in hosts
  }

  /** Other hosts lose no entry they need: nothing new is held. */
  lemma {:induction false} WalkOnlyDrops(sv: Server, todo: seq<nat>, h: nat, g: nat)
    requires Known(sv, todo) && KeysIn(sv.sched.tx, sv.pcbs)
    ensures Held(RemoveServicesOf(sv, todo, h).sched.tx, g, {}) ==> Held(sv.sched.tx, g, {})
    decreases |todo|
  {
    hide Held, RemoveService;
    if todo != [] {
      var s, rest := todo[0], todo[1..];
      KnownTail(sv, todo);
      if OnHost(sv.info[s], h) {
        RemovalFits(sv, s);
        WalkOnlyDrops(RemoveService(sv, s), rest, h, g);
        RemovalHolds(sv, s, g, {});
        if Held(sv.sched.tx, g, {} + {s}) { LessGone(sv.sched.tx, g, {} + {s}); }
      } else {
        WalkOnlyDrops(sv, rest, h, g);
      }
    }
  }

  lemma LessGone(tx: seq<Packet>, g: nat, gone: set<nat>)
    requires Held(tx, g, gone)
    ensures Held(tx, g, {})
  {
    var p :| p in tx && Holds(p, g, gone);
    var a :| RefersTo(a, g, gone) && (a in p.answers || a in p.servers || a in p.additional);
    assert RefersTo(a, g, {});
    assert Holds(p, g, {});
  }

  /** After a delegated host is removed and freed, the entries of the scheduled packets
      refer to hosts that exist exactly if, before, each entry for the host belonged to
      one of its services. */
  lemma HostFreed(sv: Server, hosts: seq<nat>, h: nat)
    requires Sound(sv, {}) && h != SELF_HOST && h in hosts && NoDup(hosts) && HostsOk(sv.sched.tx, hosts)
    ensures Known(sv, sv.registry) && KeysIn(sv.sched.tx, sv.pcbs)
    ensures var (sv', hosts') := RemoveHost(sv, hosts, h);
      && h !in hosts'
      && (HostsOk(sv'.sched.tx, hosts') <==> !Held(sv.sched.tx, h, ServicesOf(sv.registry, sv.info, h)))
  {
    hide Sound, Held, RemoveServicesOf;
    RemoveHostKeeps(sv, hosts, h);
    DropFirstExact(hosts, h);
    WalkHolds(sv, sv.registry, h);
    var (sv', hosts') := RemoveHost(sv, hosts, h);
    forall g | Held(sv'.sched.tx, g, {}) && g != h ensures g == SELF_HOST || g in hosts' {
      WalkOnlyDrops(sv, sv.registry, h, g);
    }
  }

  // -------------------------------------------------------------- an input

  /** The announcement of service 1 with the addresses of its host. */
  function News(k: Key, info: map<nat, Service>): Packet
    requires 1 in info
  {
    CreateAnnounce(0, k, [1], info, true).(sendAt := 0)
  }

  lemma Announced(k: Key, info: map<nat, Service>)
    requires 1 in info
    ensures var sv := Calm(k, [1], info); var e := Announcing(k, [1], true, 0, 0);
      && Sound(sv, {}) && Possible(sv, e) && Sound(Step(sv, e), {})
      && Step(sv, e) == sv.(sched := Sched(0, [News(k, info)], []), pcbs := map[k := Pcb(Announce1, [], false, false, 0)])
  {
    hide Sound, CreateAnnounce, InitProbe, AddToAnnounce, AddAnnounced, AppendHosts;
    var sv := Calm(k, [1], info);
    CalmSound(k, [1], info);
    StepKeeps(sv, Announcing(k, [1], true, 0, 0));
  }

  lemma HostEntries(k: Key, info: map<nat, Service>)
    requires 1 in info && info[1].host == Some(5)
    ensures var p := News(k, info);
      && p.servers == [Answer(A, None, Some(5), true, false), Answer(AAAA, None, Some(5), true, false)]
      && p.additional == [] && forall a :: a in p.answers ==> a.host == None
  {
    hide AddAnnounced, AppendHost;
    AnnouncedHosts([], [1]);
    HostPair(5);
    assert AppendHosts([], [1], info, true, false) == AppendHost([], Some(5), true, false);
  }

  lemma HostPair(h: nat)
    ensures AppendHost([], Some(h), true, false)
      == [Answer(A, None, Some(h), true, false), Answer(AAAA, None, Some(h), true, false)]
  {
    var one := AllocAnswer([], A, None, Some(h), true, false);
    assert one == [Answer(A, None, Some(h), true, false)];
    assert !HasEntry(one, AAAA, None, Some(h));
  }

  lemma {:induction false} AnnouncedHosts(list: seq<Answer>, services: seq<nat>)
    requires forall a :: a in list ==> a.host == None
    ensures forall a :: a in AddAnnounced(list, services) ==> a.host == None
    decreases |services|
  {
    hide HasEntry;
    if services != [] { AnnouncedHosts(AnnounceOne(list, services[0]), services[1..]); }
  }

  lemma NewsHeld(k: Key, info: map<nat, Service>)
    requires 1 in info && info[1].host == Some(5)
    ensures HostsOk([News(k, info)], [5]) && Held([News(k, info)], 5, {1})
  {
    hide News;
    HostEntries(k, info);
    var p := News(k, info);
    var a := p.servers[0];
    assert RefersTo(a, 5, {1}) && a in p.servers;
    assert Holds(p, 5, {1}) && p in [p];
  }

  /** A PCB that is up announces service 1 of the delegated host 5, with the addresses;
      then the host is removed: the entries for its addresses are still scheduled. */
  lemma FreedHostStays(k: Key, service: string, proto: string)
    ensures var info := map[1 := Service(None, service, proto, Some(5))]; var e := Announcing(k, [1], true, 0, 0);
      var sv := Calm(k, [1], info);
      && Sound(sv, {}) && Possible(sv, e) && Sound(Step(sv, e), {})
      && Known(Step(sv, e), [1]) && Step(sv, e).registry == [1] && KeysIn(Step(sv, e).sched.tx, Step(sv, e).pcbs)
      && HostsOk(Step(sv, e).sched.tx, [5])
      && RemoveHost(Step(sv, e), [5], 5).0.registry == [] && RemoveHost(Step(sv, e), [5], 5).1 == []
      && !HostsOk(RemoveHost(Step(sv, e), [5], 5).0.sched.tx, [])
  {
    hide Sound, Held, HostsOk, RemoveServicesOf, Step, News;
    var info := map[1 := Service(None, service, proto, Some(5))];
    Announced(k, info);
    NewsHeld(k, info);
    var sv := Step(Calm(k, [1], info), Announcing(k, [1], true, 0, 0));
    HostFreed(sv, [5], 5);
    RemoveHostKeeps(sv, [5], 5);
    assert ServicesOf([1], info, 5) == {1};
    assert [1][1..] == [] && [5][1..] == [];
    assert Others([1], info, 5) == [];
  }
}
