/** The strings that the questions of scheduled packets borrow from services, and what
    removing a service does to them. */
module QuestionRefs {
  import opened Options
  import opened Packets
  import opened Answers
  import opened Scheduler
  import opened Responder
  import opened ResponderKeeps
  import opened InterfaceKeeps
  import opened TransmitKeeps
  import opened ServiceRemoval
  import opened ResponderRuns

  /** The question borrows a string of the service: its type, its instance name or its
      host name. */
  predicate AsksAbout(q: Question, s: nat) {
    q.owner == Some(s) || q.host == InstanceOf(s) || q.host == HostOf(s)
  }

  ghost predicate AsksIn(questions: seq<Question>, known: seq<nat>) {
    forall q, s :: q in questions && AsksAbout(q, s) ==> s in known
  }

  /** No question of the list borrows from a service outside `known`. */
  ghost predicate QuestionsOk(tx: seq<Packet>, known: seq<nat>) {
    forall p :: p in tx ==> AsksIn(p.questions, known)
  }

  // -------------------------------------------------- dropping one question

  /** Every question about the service is the one that the removal drops: the first
      that asks for the service's type, in the packet of a PCB that probes it. */
  ghost predicate Forgettable(questions: seq<Question>, drops: bool, s: nat, svc: Service) {
    forall i :: 0 <= i < |questions| && AsksAbout(questions[i], s) ==>
      drops && AsksFor(questions[i], svc) && forall j :: 0 <= j < i ==> !AsksFor(questions[j], svc)
  }

  ghost predicate Silent(questions: seq<Question>, s: nat) {
    forall i :: 0 <= i < |questions| ==> !AsksAbout(questions[i], s)
  }

  lemma {:induction false} DropForgets(questions: seq<Question>, s: nat, svc: Service)
    ensures Silent(DropQuestion(questions, svc), s) <==> Forgettable(questions, true, s, svc)
    decreases |questions|
  {
    if questions != [] {
      var q, rest := questions[0], questions[1..];
      DropForgets(rest, s, svc);
      var r := DropQuestion(questions, svc);
      if AsksFor(q, svc) {
        if !Silent(rest, s) {
          var i :| 0 <= i < |rest| && AsksAbout(rest[i], s);
          assert AsksAbout(questions[i + 1], s) && AsksFor(questions[0], svc);
        } else {
          assert forall i :: 0 < i < |questions| ==> questions[i] == rest[i - 1];
        }
      } else {
        ConsForgettable(q, rest, s, svc);
        ConsSilent(q, DropQuestion(rest, svc), s);
        assert questions == [q] + rest;
      }
    }
  }

  lemma ConsSilent(q: Question, rest: seq<Question>, s: nat)
    ensures Silent([q] + rest, s) <==> !AsksAbout(q, s) && Silent(rest, s)
  {
    var all := [q] + rest;
    assert forall i :: 0 <= i < |rest| ==> all[i + 1] == rest[i];
    if !AsksAbout(q, s) && Silent(rest, s) {
      forall i | 0 <= i < |all| ensures !AsksAbout(all[i], s) {
        if i > 0 { assert all[i] == rest[i - 1]; }
      }
    } else if AsksAbout(q, s) {
      assert AsksAbout(all[0], s);
    }
  }

  lemma ConsForgettable(q: Question, rest: seq<Question>, s: nat, svc: Service)
    requires !AsksFor(q, svc)
    ensures Forgettable([q] + rest, true, s, svc) <==> !AsksAbout(q, s) && Forgettable(rest, true, s, svc)
  {
    var all := [q] + rest;
    assert forall i :: 0 <= i < |rest| ==> all[i + 1] == rest[i];
    if Forgettable(all, true, s, svc) {
      assert all[0] == q;
      forall i | 0 <= i < |rest| && AsksAbout(rest[i], s)
        ensures AsksFor(rest[i], svc) && forall j :: 0 <= j < i ==> !AsksFor(rest[j], svc)
      {
        assert AsksAbout(all[i + 1], s);
        forall j | 0 <= j < i ensures !AsksFor(rest[j], svc) { assert !AsksFor(all[j + 1], svc); }
      }
    }
    if !AsksAbout(q, s) && Forgettable(rest, true, s, svc) {
      forall i | 0 <= i < |all| && AsksAbout(all[i], s)
        ensures AsksFor(all[i], svc) && forall j :: 0 <= j < i ==> !AsksFor(all[j], svc)
      {
        assert i > 0 && all[i] == rest[i - 1];
        forall j | 0 <= j < i ensures !AsksFor(all[j], svc) {
          if j > 0 { assert all[j] == rest[j - 1]; }
        }
      }
    }
  }

  // ------------------------------------------------- removal from the list

  predicate Drops(b: Pcb, isUp: bool, s: nat) {
    isUp && IsProbing(b) && s in b.probeServices
  }

  ghost predicate AllSilent(tx: seq<Packet>, s: nat) {
    forall p :: p in tx ==> Silent(p.questions, s)
  }

  lemma PacketForgets(p: Packet, b: Pcb, isUp: bool, s: nat, svc: Service)
    ensures Silent(DropFromPacket(p, b, isUp, s, svc).questions, s) <==> Forgettable(p.questions, Drops(b, isUp, s), s, svc)
  {
    hide DropEntries;
    if Drops(b, isUp, s) { DropForgets(p.questions, s, svc); }
  }

  ghost predicate AllForgettable(mine: seq<Packet>, drops: bool, s: nat, svc: Service) {
    forall p :: p in mine ==> Forgettable(p.questions, drops, s, svc)
  }

  /** The packets of a PCB that is not probing lose no question. */
  lemma {:induction false} QuietMine(mine: seq<Packet>, b: Pcb, isUp: bool, s: nat, svc: Service)
    requires !(isUp && IsProbing(b))
    ensures AllSilent(MineAfter(mine, b, isUp, s, svc), s) <==> AllForgettable(mine, false, s, svc)
    decreases |mine|
  {
    hide Forgettable, Silent, DropEntries, DropQuestion;
    if mine != [] {
      var p, rest := mine[0], mine[1..];
      assert mine == [p] + rest;
      AfterCons(p, rest, b, isUp, s, svc);
      PacketForgets(p, b, isUp, s, svc);
      var p' := DropFromPacket(p, b, isUp, s, svc);
      var b' := DropFromPcb(b, isUp, s, p.answers != [] && p'.answers == []);
      QuietMine(rest, b', isUp, s, svc);
      ConsAll(p', MineAfter(rest, b', isUp, s, svc), s);
      assert AllForgettable(mine, false, s, svc) <==>
        Forgettable(p.questions, false, s, svc) && AllForgettable(rest, false, s, svc);
    }
  }

  lemma ConsAll(p: Packet, rest: seq<Packet>, s: nat)
    ensures AllSilent((if Emptied(p) then [] else [p]) + rest, s) <==> Silent(p.questions, s) && AllSilent(rest, s)
  {
    var all := (if Emptied(p) then [] else [p]) + rest;
    assert Emptied(p) ==> Silent(p.questions, s);
    assert !Emptied(p) ==> p in all;
  }

  lemma MineForgets(mine: seq<Packet>, b: Pcb, isUp: bool, s: nat, svc: Service)
    requires isUp && IsProbing(b) ==> |mine| == 1
    ensures AllSilent(MineAfter(mine, b, isUp, s, svc), s) <==> AllForgettable(mine, Drops(b, isUp, s), s, svc)
  {
    hide Forgettable, Silent, DropEntries, DropQuestion, DropFromPcb;
    if isUp && IsProbing(b) {
      var p := mine[0];
      assert mine == [p] + [];
      AfterCons(p, [], b, isUp, s, svc);
      PacketForgets(p, b, isUp, s, svc);
      ConsAll(DropFromPacket(p, b, isUp, s, svc), [], s);
    } else {
      QuietMine(mine, b, isUp, s, svc);
    }
  }

  ghost predicate RemovalForgettable(sv: Server, s: nat)
    requires s in sv.info && KeysIn(sv.sched.tx, sv.pcbs)
  {
    forall p :: p in sv.sched.tx ==>
      Forgettable(p.questions, Drops(sv.pcbs[p.pcb], p.pcb in sv.up, s), s, sv.info[s])
  }

  lemma ProbingHasOne(sv: Server, k: Key)
    requires Sound(sv, {}) && k in sv.up && k in sv.pcbs && IsProbing(sv.pcbs[k])
    ensures |Mine(sv.sched.tx, k)| == 1
  {
    hide Orderly, PacketsOk, RegistryOk, DupsOk, TwinsOk, Mine;
    assert PcbOk(sv, {}, k);
  }

  lemma KeyForgets(sv: Server, s: nat, k: Key)
    requires Sound(sv, {}) && s in sv.info && KeysIn(sv.sched.tx, sv.pcbs) && k in sv.pcbs
    ensures AllSilent(Mine(RemoveService(sv, s).sched.tx, k), s)
      <==> AllForgettable(Mine(sv.sched.tx, k), Drops(sv.pcbs[k], k in sv.up, s), s, sv.info[s])
  {
    hide Sound, DropLoop, MineAfter, AllSilent, AllForgettable, Mine;
    if k in sv.up && IsProbing(sv.pcbs[k]) { ProbingHasOne(sv, k); }
    DropLoopMine(sv.sched.tx, sv.pcbs, sv.up, s, sv.info[s], k);
    MineForgets(Mine(sv.sched.tx, k), sv.pcbs[k], k in sv.up, s, sv.info[s]);
  }

  /** After the removal no scheduled question borrows from the service exactly if
      before it every question that did was the one that is dropped. */
  lemma RemovalForgets(sv: Server, s: nat)
    requires Sound(sv, {}) && s in sv.registry
    ensures KeysIn(sv.sched.tx, sv.pcbs)
    ensures AllSilent(RemoveService(sv, s).sched.tx, s) <==> RemovalForgettable(sv, s)
  {
    hide Forgettable, Silent, DropLoop, PcbOk;
    var sv' := RemoveService(sv, s);
    KeptKeys(sv.sched.tx, sv.pcbs, sv.up, s, sv.info[s]);
    forall k | k in sv.pcbs
      ensures AllSilent(Mine(sv'.sched.tx, k), s)
        <==> AllForgettable(Mine(sv.sched.tx, k), Drops(sv.pcbs[k], k in sv.up, s), s, sv.info[s])
    {
      KeyForgets(sv, s, k);
    }
    ByKey(sv.sched.tx, sv'.sched.tx, sv.pcbs, sv.up, s, sv.info[s]);
  }

  lemma ByKey(tx: seq<Packet>, tx': seq<Packet>, pcbs: map<Key, Pcb>, up: set<Key>, s: nat, svc: Service)
    requires KeysIn(tx, pcbs) && KeysIn(tx', pcbs)
    requires forall k :: k in pcbs ==>
      (AllSilent(Mine(tx', k), s) <==> AllForgettable(Mine(tx, k), Drops(pcbs[k], k in up, s), s, svc))
    ensures AllSilent(tx', s) <==>
      forall p :: p in tx ==> Forgettable(p.questions, Drops(pcbs[p.pcb], p.pcb in up, s), s, svc)
  {
    hide Forgettable, Silent, Mine;
    if AllSilent(tx', s) {
      forall p | p in tx ensures Forgettable(p.questions, Drops(pcbs[p.pcb], p.pcb in up, s), s, svc) {
        MineIn(tx, p.pcb);
        MineIn(tx', p.pcb);
        assert AllForgettable(Mine(tx, p.pcb), Drops(pcbs[p.pcb], p.pcb in up, s), s, svc);
      }
    }
    if forall p :: p in tx ==> Forgettable(p.questions, Drops(pcbs[p.pcb], p.pcb in up, s), s, svc) {
      forall p | p in tx' ensures Silent(p.questions, s) {
        MineIn(tx, p.pcb);
        MineIn(tx', p.pcb);
        assert AllForgettable(Mine(tx, p.pcb), Drops(pcbs[p.pcb], p.pcb in up, s), s, svc);
        assert AllSilent(Mine(tx', p.pcb), s);
      }
    }
  }

  // --------------------------------------------------- what a probe packet asks

  lemma {:induction false} AddProbesAsks(p: Packet, done: seq<nat>, services: seq<nat>, info: map<nat, Service>, first: bool)
    requires (forall s :: s in done + services ==> s in info) && NoDup(done + services)
    requires |p.questions| == |done| && forall i :: 0 <= i < |done| ==> p.questions[i] == ServiceQuestion(done[i], info[done[i]], first)
    ensures var r := AddProbes(p, services, info, first).questions; var all := done + services;
      |r| == |all| && forall i :: 0 <= i < |all| ==> r[i] == ServiceQuestion(all[i], info[all[i]], first)
    decreases |services|
  {
    hide AllocAnswer;
    var all := done + services;
    if services == [] {
      assert all == done;
    } else {
      var s := services[0];
      var q := ServiceQuestion(s, info[s], first);
      assert all[|done|] == s && s in all;
      forall i | 0 <= i < |done| ensures done[i] != s {
        assert all[i] == done[i] && all[|done|] == s;
      }
      assert !HasQuestion(p.questions, q);
      var p' := p.(questions := p.questions + [q], servers := AllocAnswer(p.servers, SRV, Some(s), None, false, false));
      assert (done + [s]) + services[1..] == all;
      AddProbesAsks(p', done + [s], services[1..], info, first);
    }
  }

  lemma {:induction false} HostQuestionsAsk(list: seq<Question>, services: seq<nat>, unicast: bool)
    ensures var r := HostQuestions(list, services, unicast);
      && list <= r
      && (forall i :: |list| <= i < |r| ==> r[i].owner == None && r[i].service == None
                                            && r[i].host.HostOf? && r[i].host.service in services)
      && (forall s :: s in services ==> exists i :: 0 <= i < |r| && r[i].host == HostOf(s) && r[i].owner == None && r[i].qtype == ANY)
    decreases |services|
  {
    if services != [] {
      var q := HostQuestion(HostOf(services[0]), unicast);
      var list' := AddQuestion(list, q);
      HostQuestionsAsk(list', services[1..], unicast);
      var r := HostQuestions(list', services[1..], unicast);
      var i: nat;
      if HasQuestion(list, q) {
        i :| 0 <= i < |list| && SameQuestion(list[i], q);
      } else {
        i := |list|;
      }
      assert r[i] == list'[i] && r[i].host == HostOf(services[0]);
      forall s | s in services ensures exists i :: 0 <= i < |r| && r[i].host == HostOf(s) && r[i].owner == None && r[i].qtype == ANY {
        if s != services[0] { assert s in services[1..]; }
      }
    }
  }

  predicate SameType(a: Service, b: Service) {
    a.service == b.service && a.proto == b.proto
  }

  /** No service in front of s in the list has its type. */
  ghost predicate FirstOfType(services: seq<nat>, info: map<nat, Service>, s: nat)
    requires s in info && forall t :: t in services ==> t in info
  {
    forall i, j :: 0 <= j < i < |services| && services[i] == s ==> !SameType(info[services[j]], info[s])
  }

  /** From the n-th on, a question asks for the host name of the service. */
  ghost predicate AsksHost(questions: seq<Question>, n: nat, s: nat) {
    exists i :: n <= i < |questions| && questions[i].host == HostOf(s)
  }

  lemma ProbeAsks(id: nat, k: Key, services: seq<nat>, info: map<nat, Service>, first: bool, ip: bool)
    requires (forall s :: s in services ==> s in info) && NoDup(services)
    ensures var qs := CreateProbe(id, k, services, info, first, ip).questions; var n := |services|;
      && n <= |qs| && (!ip ==> |qs| == n)
      && (forall i :: 0 <= i < n ==> qs[i] == ServiceQuestion(services[i], info[services[i]], first))
      && (forall i :: n <= i < |qs| ==> qs[i].owner == None && qs[i].service == None
                                         && (qs[i].host == ServerName || (qs[i].host.HostOf? && qs[i].host.service in services)))
      && (ip ==> forall s :: s in services ==> AsksHost(qs, n, s))
  {
    hide AllocAnswer, AddProbes, HostQuestions, HasQuestion, NoDup, AsksHost;
    assert [] + services == services;
    AddProbesAsks(NewPacket(id, k), [], services, info, first);
    var p := AddProbes(NewPacket(id, k), services, info, first);
    if ip { AddressesAsk(p.questions, AddQuestion(p.questions, HostQuestion(ServerName, first)), services, first); }
  }

  lemma AddressesAsk(asked: seq<Question>, list: seq<Question>, services: seq<nat>, first: bool)
    requires list == AddQuestion(asked, HostQuestion(ServerName, first)) && |asked| == |services|
    requires forall i :: 0 <= i < |asked| ==> asked[i].owner.Some?
    ensures var r := HostQuestions(list, services, first); var n := |services|;
      && asked <= r
      && (forall i :: n <= i < |r| ==> r[i].owner == None && r[i].service == None
                                        && (r[i].host == ServerName || (r[i].host.HostOf? && r[i].host.service in services)))
      && (forall s :: s in services ==> AsksHost(r, n, s))
  {
    hide HostQuestions;
    HostQuestionsAsk(list, services, first);
    var r := HostQuestions(list, services, first);
    assert forall i :: 0 <= i < |asked| ==> r[i] == asked[i];
    forall s | s in services ensures AsksHost(r, |services|, s) {
      var i :| 0 <= i < |r| && r[i].host == HostOf(s) && r[i].owner == None && r[i].qtype == ANY;
    }
  }

  /** A probe packet forgets a service exactly if it asks for no address and no service
      in front of this one has the same type. */
  lemma ProbeForgets(id: nat, k: Key, services: seq<nat>, info: map<nat, Service>, first: bool, ip: bool, s: nat)
    requires (forall t :: t in services ==> t in info) && NoDup(services) && s in services
    ensures Forgettable(CreateProbe(id, k, services, info, first, ip).questions, true, s, info[s])
      <==> !ip && FirstOfType(services, info, s)
  {
    hide CreateProbe;
    ProbeAsks(id, k, services, info, first, ip);
    var qs := CreateProbe(id, k, services, info, first, ip).questions;
    if ip {
      var i :| |services| <= i < |qs| && qs[i].host == HostOf(s);
      assert AsksAbout(qs[i], s) && !AsksFor(qs[i], info[s]);
    } else {
      forall i | 0 <= i < |qs|
        ensures AsksAbout(qs[i], s) <==> services[i] == s
        ensures AsksFor(qs[i], info[s]) <==> SameType(info[services[i]], info[s])
      {
        assert qs[i] == ServiceQuestion(services[i], info[services[i]], first);
      }
      assert Forgettable(qs, true, s, info[s]) <==> FirstOfType(services, info, s);
    }
  }

  // -------------------------------------------------------------- two inputs

  /** One PCB that is up and done with its announcements. */
  ghost function Calm(k: Key, registry: seq<nat>, info: map<nat, Service>): Server {
    Server(Sched(0, [], []), map[k := Pcb(Running, [], false, false, 0)], {k}, registry, info, true, map[])
  }

  /** The same PCB once it probes the services; `ip` says whether for the addresses too. */
  ghost function Probed(k: Key, services: seq<nat>, info: map<nat, Service>, ip: bool): Server
    requires forall s :: s in services ==> s in info
  {
    var p := CreateProbe(0, k, services, info, true, ip).(sendAt := 120);
    Server(Sched(0, [p], []), map[k := Pcb(Probe1, services, ip, true, 0)], {k}, services, info, true, map[])
  }

  lemma CalmSound(k: Key, registry: seq<nat>, info: map<nat, Service>)
    requires NoDup(registry) && |registry| <= MAX_SERVICES && forall s :: s in registry ==> s in info
    ensures Sound(Calm(k, registry, info), {})
  {
    assert PcbOk(Calm(k, registry, info), {}, k);
  }

  lemma Probing(k: Key, services: seq<nat>, info: map<nat, Service>, ip: bool)
    requires NoDup(services) && 0 < |services| <= MAX_SERVICES && forall s :: s in services ==> s in info
    ensures var sv := Calm(k, services, info); var e := Probes(k, services, ip, true, 0, 0);
      && Sound(sv, {}) && Possible(sv, e) && Step(sv, e) == Probed(k, services, info, ip)
    ensures Sound(Probed(k, services, info, ip), {})
  {
    hide CreateProbe, Sound;
    var sv := Calm(k, services, info);
    CalmSound(k, services, info);
    assert services + [] == services;
    StepKeeps(sv, Probes(k, services, ip, true, 0, 0));
  }

  /** When a probed service is removed, no question about it is left exactly if no
      address is probed and no service in front of it has its type. */
  lemma ProbedRemoval(k: Key, services: seq<nat>, info: map<nat, Service>, ip: bool, s: nat)
    requires NoDup(services) && 0 < |services| <= MAX_SERVICES && forall t :: t in services ==> t in info
    requires s in services
    ensures var sv := Probed(k, services, info, ip);
      && KeysIn(sv.sched.tx, sv.pcbs)
      && (AllSilent(RemoveService(sv, s).sched.tx, s) <==> !ip && FirstOfType(services, info, s))
  {
    hide CreateProbe, Forgettable, Sound, AllSilent, FirstOfType, RemoveService;
    Probing(k, services, info, ip);
    var sv := Probed(k, services, info, ip);
    var p := CreateProbe(0, k, services, info, true, ip).(sendAt := 120);
    RemovalForgets(sv, s);
    ProbeForgets(0, k, services, info, true, ip, s);
    CreateProbeCovers(0, k, services, info, true, ip);
    assert sv.sched.tx == [p] && p in sv.sched.tx && p.pcb == k;
    assert RemovalForgettable(sv, s) <==> Forgettable(p.questions, true, s, info[s]);
  }

  /** While the addresses are probed, the question for the service's host name stays. */
  lemma HostQuestionStays(k: Key, svc: Service)
    ensures var sv := Probed(k, [1], map[1 := svc], true);
      Sound(sv, {}) && KeysIn(sv.sched.tx, sv.pcbs) && !AllSilent(RemoveService(sv, 1).sched.tx, 1)
  {
    hide Sound, AllSilent, RemoveService, Probed;
    Probing(k, [1], map[1 := svc], true);
    ProbedRemoval(k, [1], map[1 := svc], true, 1);
  }

  /** Of two services of one type the removal of the second takes the question about
      the first, and leaves its own. */
  lemma WrongQuestionGoes(k: Key, svc: Service)
    ensures var sv := Probed(k, [1, 2], map[1 := svc, 2 := svc], false);
      && Sound(sv, {}) && KeysIn(sv.sched.tx, sv.pcbs) && !AllSilent(sv.sched.tx, 1)
      && AllSilent(RemoveService(sv, 2).sched.tx, 1) && !AllSilent(RemoveService(sv, 2).sched.tx, 2)
  {
    hide Sound, AllSilent, RemoveService, Probed;
    var info := map[1 := svc, 2 := svc];
    assert !FirstOfType([1, 2], info, 2) by { assert [1, 2][1] == 2 && SameType(info[[1, 2][0]], info[2]); }
    Probing(k, [1, 2], info, false);
    ProbedRemoval(k, [1, 2], info, false, 2);
    SecondRemoved(k, info);
  }

  lemma OneRemoved(sv: Server, p: Packet, s: nat)
    requires sv.sched.tx == [p] && p.pcb in sv.pcbs && s in sv.info
    ensures var p' := DropFromPacket(p, sv.pcbs[p.pcb], p.pcb in sv.up, s, sv.info[s]);
      RemoveService(sv, s).sched.tx == if Emptied(p') then [] else [p']
  {
    hide DropFromPacket, DropFromPcb;
    var pcbs1, rest := DropLoopCons(sv.sched.tx, sv.pcbs, sv.up, s, sv.info[s]);
    assert rest == [];
  }

  lemma PacketDrops(p: Packet, b: Pcb, s: nat, svc: Service)
    requires IsProbing(b) && s in b.probeServices
    ensures DropFromPacket(p, b, true, s, svc).questions == DropQuestion(p.questions, svc)
  {
  }

  lemma TypeAsked(s: nat, svc: Service, other: Service)
    ensures AsksFor(ServiceQuestion(s, svc, true), other) <==> SameType(svc, other)
  {
  }

  lemma OwnQuestion(s: nat, svc: Service)
    ensures forall t :: AsksAbout(ServiceQuestion(s, svc, true), t) <==> t == s
  {
  }

  lemma SecondRemoved(k: Key, info: map<nat, Service>)
    requires 1 in info && 2 in info && SameType(info[1], info[2])
    requires KeysIn(Probed(k, [1, 2], info, false).sched.tx, Probed(k, [1, 2], info, false).pcbs)
    ensures var sv := Probed(k, [1, 2], info, false);
      AllSilent(RemoveService(sv, 2).sched.tx, 1) && !AllSilent(sv.sched.tx, 1)
  {
    hide CreateProbe, RemoveService, DropFromPacket, ServiceQuestion;
    var sv := Probed(k, [1, 2], info, false);
    CreateProbeCovers(0, k, [1, 2], info, true, false);
    ProbeAsks(0, k, [1, 2], info, true, false);
    var p := sv.sched.tx[0];
    assert p.questions == [ServiceQuestion(1, info[1], true), ServiceQuestion(2, info[2], true)];
    OwnQuestion(1, info[1]);
    assert AsksAbout(p.questions[0], 1);
    assert AsksFor(ServiceQuestion(1, info[1], true), info[2]) by { TypeAsked(1, info[1], info[2]); }
    assert DropQuestion(p.questions, info[2]) == [ServiceQuestion(2, info[2], true)];
    OneRemoved(sv, p, 2);
    assert DropFromPacket(p, sv.pcbs[k], true, 2, info[2]).questions == [ServiceQuestion(2, info[2], true)] by {
      PacketDrops(p, sv.pcbs[k], 2, info[2]);
    }
    assert !AsksAbout(ServiceQuestion(2, info[2], true), 1) by { OwnQuestion(2, info[2]); }
  }

  // ------------------------------------------------------------- whole runs

  lemma {:induction false} AddProbesRefs(p: Packet, services: seq<nat>, info: map<nat, Service>, first: bool, known: seq<nat>)
    requires (forall s :: s in services ==> s in info && s in known) && AsksIn(p.questions, known)
    ensures AsksIn(AddProbes(p, services, info, first).questions, known)
    decreases |services|
  {
    hide AllocAnswer;
    if services != [] {
      var s := services[0];
      var q := ServiceQuestion(s, info[s], first);
      var p' := if HasQuestion(p.questions, q) then p
                else p.(questions := p.questions + [q], servers := AllocAnswer(p.servers, SRV, Some(s), None, false, false));
      assert s in services && forall t :: AsksAbout(q, t) ==> t == s;
      AddProbesRefs(p', services[1..], info, first, known);
    }
  }

  lemma {:induction false} HostQuestionsRefs(list: seq<Question>, services: seq<nat>, unicast: bool, known: seq<nat>)
    requires (forall s :: s in services ==> s in known) && AsksIn(list, known)
    ensures AsksIn(HostQuestions(list, services, unicast), known)
    decreases |services|
  {
    hide HasQuestion;
    if services != [] {
      HostQuestionsRefs(AddQuestion(list, HostQuestion(HostOf(services[0]), unicast)), services[1..], unicast, known);
    }
  }

  lemma CreateProbeRefs(id: nat, k: Key, services: seq<nat>, info: map<nat, Service>, first: bool, ip: bool, known: seq<nat>)
    requires forall s :: s in services ==> s in info && s in known
    ensures AsksIn(CreateProbe(id, k, services, info, first, ip).questions, known)
  {
    hide AddProbes, HostQuestions, HasQuestion;
    AddProbesRefs(NewPacket(id, k), services, info, first, known);
    var p := AddProbes(NewPacket(id, k), services, info, first);
    HostQuestionsRefs(AddQuestion(p.questions, HostQuestion(ServerName, first)), services, first, known);
  }

  /** Scheduling a packet whose questions are in order. */
  lemma InsertRefs(tx: seq<Packet>, p: Packet, known: seq<nat>)
    requires QuestionsOk(tx, known) && AsksIn(p.questions, known)
    ensures QuestionsOk(Insert(tx, p), known)
  {
    InsertIn(tx, p);
  }

  lemma {:induction false} WithoutRefs(tx: seq<Packet>, k: Key, known: seq<nat>)
    requires QuestionsOk(tx, known)
    ensures QuestionsOk(Without(tx, k), known)
  {
    hide AsksIn;
    if tx != [] {
      assert tx == [tx[0]] + tx[1..];
      WithoutRefs(tx[1..], k, known);
    }
  }

  lemma InitProbeRefs(sv: Server, k: Key, services: seq<nat>, probeIp: bool, id: nat, jitter: nat)
    requires k in sv.pcbs && Known(sv, services) && Known(sv, sv.pcbs[k].probeServices)
    requires Subset(services, sv.registry) && Subset(sv.pcbs[k].probeServices, sv.registry)
    requires QuestionsOk(sv.sched.tx, sv.registry)
    ensures var sv' := InitProbe(sv, k, services, probeIp, id, jitter);
      sv'.registry == sv.registry && QuestionsOk(sv'.sched.tx, sv.registry)
  {
    hide CreateProbe, Insert, Without, AsksIn, QuestionsOk;
    WithoutRefs(sv.sched.tx, k, sv.registry);
    var b := sv.pcbs[k];
    if sv.named {
      var asked := if IsProbing(b) then NotProbed(services, b.probeServices) else services;
      NotProbedIn(services, b.probeServices);
      var merged := asked + b.probeServices;
      var p := CreateProbe(id, k, merged, sv.info, true, b.probeIp || probeIp).(sendAt := sv.sched.now + FirstDelay(b, jitter));
      CreateProbeRefs(id, k, merged, sv.info, true, b.probeIp || probeIp, sv.registry);
      InsertRefs(Without(sv.sched.tx, k), p, sv.registry);
    }
  }

  lemma AnnounceRefs(sv: Server, k: Key, services: seq<nat>, includeIp: bool, id: nat, jitter: nat)
    requires k in sv.pcbs && Known(sv, services) && Known(sv, sv.pcbs[k].probeServices)
    requires Subset(services, sv.registry) && Subset(sv.pcbs[k].probeServices, sv.registry)
    requires QuestionsOk(sv.sched.tx, sv.registry)
    ensures var sv' := Announce(sv, k, services, includeIp, id, jitter);
      sv'.registry == sv.registry && QuestionsOk(sv'.sched.tx, sv.registry)
  {
    hide InitProbe, Insert, AddAnnounced, AppendHosts, DeallocEntry, AsksIn;
    var b := sv.pcbs[k];
    if k in sv.up {
      if IsProbing(b) {
        InitProbeRefs(sv, k, services, includeIp, id, jitter);
      } else if IsAnnouncing(b) {
        var i := FirstOf(sv.sched.tx, k);
        if i < |sv.sched.tx| { assert sv.sched.tx[i] in sv.sched.tx; }
      } else if b.state == Running && sv.named {
        var p := CreateAnnounce(id, k, services, sv.info, includeIp).(sendAt := sv.sched.now);
        assert AsksIn([], sv.registry) by { NoneAsked(sv.registry); }
        InsertRefs(sv.sched.tx, p, sv.registry);
      }
    }
  }

  lemma NoneAsked(known: seq<nat>)
    ensures AsksIn([], known)
  {
  }

  lemma EnableRefs(sv: Server, k: Key, bindOk: bool, id: nat, jitter: nat)
    requires k in sv.pcbs && AllKnown(sv) && Subset(sv.pcbs[k].probeServices, sv.registry)
    requires QuestionsOk(sv.sched.tx, sv.registry)
    ensures var sv' := Enable(sv, k, bindOk, id, jitter);
      sv'.registry == sv.registry && QuestionsOk(sv'.sched.tx, sv.registry)
  {
    hide InitProbe, QuestionsOk;
    if k in sv.up || bindOk {
      InitProbeRefs(sv.(up := sv.up + {k}), k, sv.registry, true, id, jitter);
    }
  }

  ghost predicate ListsIn(sv: Server) {
    forall k :: k in sv.pcbs ==> Subset(sv.pcbs[k].probeServices, sv.registry)
  }

  lemma DisableRefs(sv: Server, k: Key, bindOk: bool, id: nat, jitter: nat)
    requires k in sv.pcbs && AllKnown(sv) && ListsIn(sv) && QuestionsOk(sv.sched.tx, sv.registry)
    ensures var sv' := Disable(sv, k, bindOk, id, jitter);
      sv'.registry == sv.registry && QuestionsOk(sv'.sched.tx, sv.registry)
  {
    hide Enable, QuestionsOk, Without, Subset;
    WithoutRefs(sv.sched.tx, k, sv.registry);
    if k in sv.up && Partner(sv, k).Some? {
      var o := Partner(sv, k).value;
      var down := Deinit(Cleared(sv, k), k);
      if o in down.pcbs && down.pcbs[o].state == Dup {
        assert o != k;
        EnableRefs(SetPcb(down, o, down.pcbs[o].(state := Off)), o, bindOk, id, jitter);
      }
    }
  }

  lemma MarkDupRefs(sv: Server, k: Key, id: nat, jitter: nat)
    requires k in sv.pcbs && AllKnown(sv) && ListsIn(sv) && QuestionsOk(sv.sched.tx, sv.registry)
    ensures var sv' := MarkDup(sv, k, id, jitter);
      sv'.registry == sv.registry && QuestionsOk(sv'.sched.tx, sv.registry)
  {
    hide Announce, QuestionsOk, Without;
    WithoutRefs(sv.sched.tx, k, sv.registry);
    var partner := Partner(sv, k);
    if partner.Some? && partner.value in sv.up && partner.value in sv.pcbs {
      var down := if k in sv.up then Deinit(Cleared(sv, k), k) else sv;
      AnnounceRefs(SetPcb(down, k, down.pcbs[k].(state := Dup)), partner.value, [], true, id, jitter);
    }
  }

  lemma ReprobeRefs(sv: Server, k: Key, services: seq<nat>, probeIp: bool, clearOld: bool, id: nat, jitter: nat)
    requires k in sv.pcbs && Known(sv, services) && Known(sv, sv.pcbs[k].probeServices)
    requires Subset(services, sv.registry) && ListsIn(sv) && QuestionsOk(sv.sched.tx, sv.registry)
    ensures var sv' := Reprobe(sv, k, services, probeIp, clearOld, id, jitter);
      sv'.registry == sv.registry && QuestionsOk(sv'.sched.tx, sv.registry)
  {
    hide InitProbe, QuestionsOk;
    var sv1 := if clearOld then SetPcb(sv, k, sv.pcbs[k].(probeServices := [], probeRunning := false)) else sv;
    InitProbeRefs(sv1, k, services, probeIp, id, jitter);
  }

  lemma {:induction false} MulticastRefs(questions: seq<Question>, known: seq<nat>)
    requires AsksIn(questions, known)
    ensures AsksIn(Multicast(questions), known)
  {
    if questions != [] {
      assert questions == [questions[0]] + questions[1..];
      MulticastRefs(questions[1..], known);
      var q := questions[0].(unicast := false);
      assert forall s :: AsksAbout(q, s) <==> AsksAbout(questions[0], s);
    }
  }

  lemma HandleRefs(sv: Server, p: Packet, allocOk: bool, id: nat)
    requires p.pcb in sv.pcbs && ServersKnown(sv, p)
    requires QuestionsOk(sv.sched.tx, sv.registry) && AsksIn(p.questions, sv.registry)
    ensures var sv' := Handle(sv, p, allocOk, id);
      sv'.registry == sv.registry && QuestionsOk(sv'.sched.tx, sv.registry)
  {
    hide Insert, Multicast, AnnounceEntries, AsksIn, QuestionsOk;
    var b := sv.pcbs[p.pcb];
    MulticastRefs(p.questions, sv.registry);
    NoneAsked(sv.registry);
    if b.state == Announce1 || b.state == Announce2 || (InProbe(b) && !(b.state == Probe3 && allocOk)) {
      HandleAgain(sv, p, allocOk, id);
      InsertRefs(sv.sched.tx, Again(p, b, sv.sched.now).0, sv.registry);
    } else if b.state == Probe3 {
      HandleAnnounced(sv, p, id);
      InsertRefs(sv.sched.tx, AnnounceFromProbe(id, p, sv.info).(sendAt := sv.sched.now + 250), sv.registry);
    }
  }

  lemma ReprobeLists(sv: Server, k: Key, id: nat, jitter: nat)
    requires k in sv.pcbs && AllKnown(sv) && ListsIn(sv)
    ensures ListsIn(Reprobe(sv, k, sv.registry, true, true, id, jitter))
  {
    hide Insert, Without, CreateProbe;
    NotProbedIn(sv.registry, []);
    var sv' := Reprobe(sv, k, sv.registry, true, true, id, jitter);
    forall j | j in sv'.pcbs ensures Subset(sv'.pcbs[j].probeServices, sv'.registry) {
      if j != k { assert sv'.pcbs[j] == sv.pcbs[j]; }
    }
  }

  lemma ReprobeAllRefs(sv: Server, keys: seq<Key>, ids: seq<nat>, jitters: seq<nat>)
    requires |ids| == |keys| == |jitters| && AllKnown(sv) && forall k :: k in keys ==> k in sv.pcbs
    requires ListsIn(sv) && QuestionsOk(sv.sched.tx, sv.registry)
    ensures var sv' := ReprobeAll(sv, keys, ids, jitters);
      sv'.registry == sv.registry && QuestionsOk(sv'.sched.tx, sv.registry)
    decreases |keys|
  {
    hide Reprobe, QuestionsOk, ListsIn;
    if keys != [] {
      assert keys[0] in keys;
      var sv1 := if keys[0] in sv.up then Reprobe(sv, keys[0], sv.registry, true, true, ids[0], jitters[0]) else sv;
      ReprobeRefs(sv, keys[0], sv.registry, true, true, ids[0], jitters[0]);
      ReprobeLists(sv, keys[0], ids[0], jitters[0]);
      ReprobeKnown(sv, keys[0], ids[0], jitters[0]);
      ReprobeAllRefs(sv1, keys[1..], ids[1..], jitters[1..]);
    }
  }

  lemma {:induction false} DropQuestionRefs(questions: seq<Question>, svc: Service, known: seq<nat>)
    requires AsksIn(questions, known)
    ensures AsksIn(DropQuestion(questions, svc), known)
  {
    if questions != [] {
      assert questions == [questions[0]] + questions[1..];
      DropQuestionRefs(questions[1..], svc, known);
    }
  }

  lemma {:induction false} DropLoopRefs(tx: seq<Packet>, pcbs: map<Key, Pcb>, up: set<Key>, s: nat, svc: Service, known: seq<nat>)
    requires KeysIn(tx, pcbs) && QuestionsOk(tx, known)
    ensures QuestionsOk(DropLoop(tx, pcbs, up, s, svc).0, known)
    decreases |tx|
  {
    hide DropEntries, DropQuestion, DropFromPcb, AsksIn;
    if tx != [] {
      var p := tx[0];
      assert tx == [p] + tx[1..];
      DropQuestionRefs(p.questions, svc, known);
      var pcbs1, rest := DropLoopCons(tx, pcbs, up, s, svc);
      DropLoopRefs(tx[1..], pcbs1, up, s, svc, known);
    }
  }

  lemma FewerKnown(tx: seq<Packet>, known: seq<nat>, s: nat)
    requires QuestionsOk(tx, known) && NoDup(known)
    ensures QuestionsOk(tx, DropFirst(known, s)) <==> AllSilent(tx, s)
  {
    DropFirstExact(known, s);
    if AllSilent(tx, s) {
      forall p, q, t | p in tx && q in p.questions && AsksAbout(q, t) ensures t in DropFirst(known, s) {
        assert AsksIn(p.questions, known) && Silent(p.questions, s);
      }
    }
    if QuestionsOk(tx, DropFirst(known, s)) {
      forall p, i | p in tx && 0 <= i < |p.questions| ensures !AsksAbout(p.questions[i], s) {
        assert AsksIn(p.questions, DropFirst(known, s)) && p.questions[i] in p.questions;
      }
    }
  }

  /** Removing a service keeps every question in order exactly if every question about
      the service is one the removal drops. */
  lemma RemovalRefs(sv: Server, s: nat)
    requires Sound(sv, {}) && s in sv.registry && QuestionsOk(sv.sched.tx, sv.registry)
    ensures KeysIn(sv.sched.tx, sv.pcbs)
    ensures QuestionsOk(RemoveService(sv, s).sched.tx, RemoveService(sv, s).registry) <==> RemovalForgettable(sv, s)
  {
    hide PcbOk, QuestionsOk, AllSilent, RemovalForgettable, Orderly, DropLoop;
    RemovalForgets(sv, s);
    DropLoopRefs(sv.sched.tx, sv.pcbs, sv.up, s, sv.info[s], sv.registry);
    FewerKnown(RemoveService(sv, s).sched.tx, sv.registry, s);
  }

  lemma {:induction false} DropAnswersRefs(tx: seq<Packet>, k: Key, rtype: RecordType, service: Option<nat>, known: seq<nat>)
    requires QuestionsOk(tx, known)
    ensures QuestionsOk(DropAnswers(tx, k, rtype, service), known)
  {
    hide AsksIn, DeallocEntry;
    if tx != [] {
      assert tx == [tx[0]] + tx[1..];
      DropAnswersRefs(tx[1..], k, rtype, service, known);
    }
  }

  lemma TimerRefs(s: Sched, sends: seq<bool>, known: seq<nat>)
    requires |sends| == |s.tx| && QuestionsOk(s.tx, known)
    ensures QuestionsOk(TimerRun(s, sends).tx, known)
  {
    hide AsksIn;
    TimerAt(s, sends);
    var t := TimerRun(s, sends);
    forall p | p in t.tx ensures AsksIn(p.questions, known) {
      var i :| 0 <= i < |t.tx| && t.tx[i] == p;
      assert s.tx[i] in s.tx;
    }
  }

  lemma ActionRefs(sv: Server, allocOk: bool, id: nat)
    requires Sound(sv, {}) && sv.sched.actions != [] && QuestionsOk(sv.sched.tx, sv.registry) && Usable(sv)
    ensures var sv' := HandleAction(sv, allocOk, id);
      sv'.registry == sv.registry && QuestionsOk(sv'.sched.tx, sv.registry)
  {
    hide Sound, AsksIn, Handle;
    if Accepts(sv.sched) {
      var taken := sv.(sched := Take(sv.sched));
      assert sv.sched.tx[0] in sv.sched.tx && forall p :: p in sv.sched.tx[1..] ==> p in sv.sched.tx;
      HandleRefs(taken, sv.sched.tx[0].(queued := false), allocOk, id);
    }
  }

  /** What an event must meet for the questions to stay in order: an answer copies the
      strings of its questions, and a removal drops every question about the service. */
  ghost predicate Tidy(sv: Server, e: Event)
    requires Sound(sv, {}) && Possible(sv, e)
  {
    match e
    case Answering(p, _) => AsksIn(p.questions, [])
    case Removes(s) => SoundUsable(sv); RemovalForgettable(sv, s)
    case _ => true
  }

  lemma SoundLists(sv: Server)
    requires Sound(sv, {})
    ensures ListsIn(sv)
  {
    forall k | k in sv.pcbs ensures Subset(sv.pcbs[k].probeServices, sv.registry) {
      assert PcbOk(sv, {}, k);
    }
  }

  /** One event keeps every question in order exactly if it is tidy. */
  lemma StepRefs(sv: Server, e: Event)
    requires Sound(sv, {}) && Possible(sv, e) && QuestionsOk(sv.sched.tx, sv.registry)
    requires e.Answering? ==> AsksIn(e.packet.questions, [])
    ensures QuestionsOk(Step(sv, e).sched.tx, Step(sv, e).registry) <==> Tidy(sv, e)
  {
    hide Sound, PcbOk, Insert, Without, Enable, Disable, MarkDup, Announce, Reprobe, ReprobeAll, RemoveService, FailuresLast, AsksIn, HandleAction, RemovalForgettable, DropAnswers, TimerRun;
    SoundUsable(sv);
    SoundLists(sv);
    match e
    case Clock(ms) =>
    case TimerRuns(sends) => TimerRefs(sv.sched, sends, sv.registry);
    case TakesAction(allocOk, id) => ActionRefs(sv, allocOk, id);
    case Enables(k, bindOk, id, jitter) => EnableRefs(sv, k, bindOk, id, jitter);
    case Disables(k, bindOk, id, jitter) => DisableRefs(sv, k, bindOk, id, jitter);
    case MarksDuplicate(k, id, jitter) => MarkDupRefs(sv, k, id, jitter);
    case Announcing(k, services, includeIp, id, jitter) => AnnounceRefs(sv, k, services, includeIp, id, jitter);
    case Probes(k, services, probeIp, clearOld, id, jitter) => ReprobeRefs(sv, k, services, probeIp, clearOld, id, jitter);
    case Renames(keys, ids, jitters) => ReprobeAllRefs(SetTx(sv, []).(named := true), keys, ids, jitters);
    case Answering(p, delay) => OwnStrings(sv, p, delay);
    case Suppresses(k, rtype, service) => DropAnswersRefs(sv.sched.tx, k, rtype, service, sv.registry);
    case LosesConflict(k) =>
    case Adds(s, svc) => MoreKnown(sv.sched.tx, sv.registry, [s] + sv.registry);
    case Changes(s, svc) =>
    case Removes(s) => RemovalRefs(sv, s);
  }

  lemma OwnStrings(sv: Server, p: Packet, delay: nat)
    requires p.pcb in sv.pcbs && QuestionsOk(sv.sched.tx, sv.registry) && AsksIn(p.questions, [])
    ensures QuestionsOk(ScheduleAnswer(sv, p, delay).sched.tx, sv.registry)
  {
    hide Insert;
    assert AsksIn(p.questions, sv.registry);
    InsertRefs(sv.sched.tx, p.(sendAt := sv.sched.now + delay), sv.registry);
  }

  lemma MoreKnown(tx: seq<Packet>, known: seq<nat>, more: seq<nat>)
    requires QuestionsOk(tx, known) && forall s :: s in known ==> s in more
    ensures QuestionsOk(tx, more)
  {
    forall p | p in tx ensures AsksIn(p.questions, more) { assert AsksIn(p.questions, known); }
  }

  /** Every event of the run is tidy. */
  ghost predicate AllTidy(sv: Server, events: seq<Event>)
    requires Sound(sv, {}) && ResponderRuns.IsRun(sv, events)
    decreases |events|
  {
    events == [] || (Tidy(sv, events[0]) && (StepKeeps(sv, events[0]); AllTidy(Step(sv, events[0]), events[1..])))
  }

  ghost predicate CopiesStrings(events: seq<Event>) {
    forall i :: 0 <= i < |events| && events[i].Answering? ==> AsksIn(events[i].packet.questions, [])
  }

  /** Before and after every event of the run the questions are in order. */
  ghost predicate AlwaysOk(sv: Server, events: seq<Event>)
    requires Sound(sv, {}) && ResponderRuns.IsRun(sv, events)
    decreases |events|
  {
    QuestionsOk(sv.sched.tx, sv.registry)
    && (events == [] || (StepKeeps(sv, events[0]); AlwaysOk(Step(sv, events[0]), events[1..])))
  }

  /** Over a whole run no scheduled question ever borrows from a service that is not
      registered, exactly if every removal drops every question about its service. */
  lemma {:induction false} RunRefs(sv: Server, events: seq<Event>)
    requires Sound(sv, {}) && ResponderRuns.IsRun(sv, events) && QuestionsOk(sv.sched.tx, sv.registry) && CopiesStrings(events)
    ensures AlwaysOk(sv, events) <==> AllTidy(sv, events)
    decreases |events|
  {
    hide Sound, Step, Possible, Tidy, QuestionsOk, AsksIn;
    if events != [] {
      StepRefs(sv, events[0]);
      StepKeeps(sv, events[0]);
      if Tidy(sv, events[0]) {
        assert CopiesStrings(events[1..]);
        RunRefs(Step(sv, events[0]), events[1..]);
      }
    }
  }
}
