/** Removing a service: what becomes of the scheduled packets and of the probes. */
module ServiceRemoval {
  import opened Options
  import opened Packets
  import opened Answers
  import opened Scheduler
  import opened Responder
  import opened InterfaceKeeps

  // ------------------------------------------------------------ entry lists

  function EntriesOf(list: seq<Answer>, t: Option<nat>): seq<Answer> {
    if list == [] then []
    else (if list[0].service == t then [list[0]] else []) + EntriesOf(list[1..], t)
  }

  /** Every entry of the service goes; the entries of every other service, and those
      of no service, stay in their order. */
  lemma {:induction false} DropEntriesExact(list: seq<Answer>, s: nat)
    ensures !Mentions(DropEntries(list, s), Some(s))
    ensures forall t :: t != Some(s) ==> EntriesOf(DropEntries(list, s), t) == EntriesOf(list, t)
    ensures forall a :: a in DropEntries(list, s) <==> a in list && a.service != Some(s)
  {
    if list != [] {
      var rest := DropEntries(list[1..], s);
      DropEntriesExact(list[1..], s);
      assert list == [list[0]] + list[1..];
      var r := DropEntries(list, s);
      if list[0].service != Some(s) {
        assert r[1..] == rest;
      } else {
        assert r == rest;
      }
      forall t | t != Some(s) ensures EntriesOf(r, t) == EntriesOf(list, t) {
        assert EntriesOf(list, t) == (if list[0].service == t then [list[0]] else []) + EntriesOf(rest, t);
        if list[0].service == Some(s) { assert EntriesOf(list, t) == EntriesOf(rest, t); }
      }
      forall i | 0 <= i < |r| ensures r[i].service != Some(s) { assert r[i] in r; }
    }
  }

  lemma DropEntriesRefs(list: seq<Answer>, s: nat, registry: seq<nat>, left: seq<nat>)
    requires RefsIn(list, registry) && forall x :: x in registry && x != s ==> x in left
    ensures RefsIn(DropEntries(list, s), left)
    ensures forall t :: t != Some(s) && Mentions(list, t) ==> Mentions(DropEntries(list, s), t)
  {
    DropEntriesExact(list, s);
    var r := DropEntries(list, s);
    forall i | 0 <= i < |r| && r[i].service.Some? ensures r[i].service.value in left {
      assert r[i] in r;
      var j :| 0 <= j < |list| && list[j] == r[i];
    }
    forall t | t != Some(s) && Mentions(list, t) ensures Mentions(r, t) {
      var j :| 0 <= j < |list| && list[j].service == t;
      assert list[j] in r;
      var i :| 0 <= i < |r| && r[i] == list[j];
    }
  }

  lemma {:induction false} DropFirstExact(list: seq<nat>, s: nat)
    requires NoDup(list)
    ensures NoDup(DropFirst(list, s))
    ensures forall x :: x in DropFirst(list, s) <==> x in list && x != s
    ensures |DropFirst(list, s)| == if s in list then |list| - 1 else |list|
    ensures s !in list ==> DropFirst(list, s) == list
    ensures s in list && |list| == 1 ==> list == [s] && DropFirst(list, s) == []
  {
    if list != [] {
      assert list == [list[0]] + list[1..];
      if list[0] != s {
        DropFirstExact(list[1..], s);
        var rest := DropFirst(list[1..], s);
        forall i | 0 <= i < |rest| ensures rest[i] != list[0] { assert rest[i] in list[1..]; }
      }
    }
  }

  // ----------------------------------------------- the packets of one PCB

  /** What the removal makes of a PCB and of its packets, one after the other. */
  function PcbAfter(mine: seq<Packet>, b: Pcb, isUp: bool, s: nat): Pcb {
    if mine == [] then b
    else
      var gone := mine[0].answers != [] && DropEntries(mine[0].answers, s) == [];
      PcbAfter(mine[1..], DropFromPcb(b, isUp, s, gone), isUp, s)
  }

  function MineAfter(mine: seq<Packet>, b: Pcb, isUp: bool, s: nat, svc: Service): seq<Packet> {
    if mine == [] then []
    else
      var p' := DropFromPacket(mine[0], b, isUp, s, svc);
      var gone := mine[0].answers != [] && p'.answers == [];
      (if Emptied(p') then [] else [p']) + MineAfter(mine[1..], DropFromPcb(b, isUp, s, gone), isUp, s, svc)
  }

  lemma AfterCons(p: Packet, rest: seq<Packet>, b: Pcb, isUp: bool, s: nat, svc: Service)
    ensures var p' := DropFromPacket(p, b, isUp, s, svc);
      var b' := DropFromPcb(b, isUp, s, p.answers != [] && p'.answers == []);
      && PcbAfter([p] + rest, b, isUp, s) == PcbAfter(rest, b', isUp, s)
      && MineAfter([p] + rest, b, isUp, s, svc) == (if Emptied(p') then [] else [p']) + MineAfter(rest, b', isUp, s, svc)
  {
    assert ([p] + rest)[1..] == rest;
  }

  lemma MineCons(p: Packet, tx: seq<Packet>, k: Key)
    ensures Mine([p] + tx, k) == (if p.pcb == k then [p] else []) + Mine(tx, k)
  {
    assert ([p] + tx)[1..] == tx;
  }

  lemma DropLoopCons(tx: seq<Packet>, pcbs: map<Key, Pcb>, up: set<Key>, s: nat, svc: Service)
      returns (pcbs1: map<Key, Pcb>, kept: seq<Packet>)
    requires tx != [] && KeysIn(tx, pcbs)
    ensures var p := tx[0];
      var p' := DropFromPacket(p, pcbs[p.pcb], p.pcb in up, s, svc);
      && pcbs1 == pcbs[p.pcb := DropFromPcb(pcbs[p.pcb], p.pcb in up, s, p.answers != [] && p'.answers == [])]
      && KeysIn(tx[1..], pcbs1) && pcbs1.Keys == pcbs.Keys
      && DropLoop(tx[1..], pcbs1, up, s, svc).0 == kept
      && DropLoop(tx, pcbs, up, s, svc).0 == (if Emptied(p') then kept else [p'] + kept)
      && DropLoop(tx, pcbs, up, s, svc).1 == DropLoop(tx[1..], pcbs1, up, s, svc).1
      && p'.pcb == p.pcb
  {
    var p := tx[0];
    var p' := DropFromPacket(p, pcbs[p.pcb], p.pcb in up, s, svc);
    pcbs1 := pcbs[p.pcb := DropFromPcb(pcbs[p.pcb], p.pcb in up, s, p.answers != [] && p'.answers == [])];
    kept := DropLoop(tx[1..], pcbs1, up, s, svc).0;
    assert [] + kept == kept;
  }

  /** The loop treats the PCBs independently. */
  lemma {:induction false} DropLoopMine(tx: seq<Packet>, pcbs: map<Key, Pcb>, up: set<Key>, s: nat, svc: Service, k: Key)
    requires KeysIn(tx, pcbs) && k in pcbs
    ensures DropLoop(tx, pcbs, up, s, svc).1.Keys == pcbs.Keys
    ensures DropLoop(tx, pcbs, up, s, svc).1[k] == PcbAfter(Mine(tx, k), pcbs[k], k in up, s)
    ensures Mine(DropLoop(tx, pcbs, up, s, svc).0, k) == MineAfter(Mine(tx, k), pcbs[k], k in up, s, svc)
    decreases |tx|
  {
    if tx != [] {
      var p, rest := tx[0], tx[1..];
      var pcbs1, kept := DropLoopCons(tx, pcbs, up, s, svc);
      DropLoopMine(rest, pcbs1, up, s, svc, k);
      MineCons(DropFromPacket(p, pcbs[p.pcb], p.pcb in up, s, svc), kept, k);
      if p.pcb == k {
        AfterCons(p, Mine(rest, k), pcbs[k], k in up, s, svc);
      } else {
        assert Mine(tx, k) == Mine(rest, k);
      }
    }
  }

  /** `kept` is `tx` with every list rid of the service, at most one question of a
      packet dropped, and the packets left empty by that taken out. */
  ghost predicate Rid(tx: seq<Packet>, kept: seq<Packet>, s: nat, svc: Service) {
    if tx == [] then kept == []
    else
      exists p' {:trigger Strip(p', s)} ::
        (p' == Strip(tx[0], s) || p' == Strip(tx[0], s).(questions := DropQuestion(tx[0].questions, svc)))
        && (if Emptied(p') then Rid(tx[1..], kept, s, svc)
            else kept != [] && kept[0] == p' && Rid(tx[1..], kept[1..], s, svc))
  }

  lemma {:induction false} DropLoopRid(tx: seq<Packet>, pcbs: map<Key, Pcb>, up: set<Key>, s: nat, svc: Service)
    requires KeysIn(tx, pcbs)
    ensures Rid(tx, DropLoop(tx, pcbs, up, s, svc).0, s, svc)
    ensures Thinned(tx, DropLoop(tx, pcbs, up, s, svc).0)
    decreases |tx|
  {
    if tx != [] {
      var p := tx[0];
      var b := pcbs[p.pcb];
      var p' := DropFromPacket(p, b, p.pcb in up, s, svc);
      var b' := DropFromPcb(b, p.pcb in up, s, p.answers != [] && p'.answers == []);
      DropLoopRid(tx[1..], pcbs[p.pcb := b'], up, s, svc);
      var kept := DropLoop(tx, pcbs, up, s, svc).0;
      assert Strip(p', s) == Strip(p', s);
      var rest := DropLoop(tx[1..], pcbs[p.pcb := b'], up, s, svc).0;
      if Emptied(p') { assert kept == rest; } else { assert kept[1..] == rest; }
    }
  }

  // ------------------------------------------------------------ each PCB

  lemma ProbingAfter(p: Packet, b: Pcb, s: nat, svc: Service, left: seq<nat>)
    requires InProbe(b) && ProbePacket(p, b) && NoDup(b.probeServices)
    ensures var b' := PcbAfter([p], b, true, s); var mine := MineAfter([p], b, true, s, svc);
      && b'.probeServices == DropFirst(b.probeServices, s)
      && (if b.probeServices == [s] && !b.probeIp then b' == b.(state := Running, probeRunning := false, probeServices := [])
          else b' == b.(probeServices := b'.probeServices) && |mine| == 1 && ProbePacket(mine[0], b'))
  {
    DropEntriesExact(p.servers, s);
    DropFirstExact(b.probeServices, s);
    var p' := DropFromPacket(p, b, true, s, svc);
    assert DropEntries(p.answers, s) == [] && DropEntries(p.additional, s) == [];
    assert MineAfter([], DropFromPcb(b, true, s, false), true, s, svc) == [];
    assert [p][1..] == [];
    var b' := DropFromPcb(b, true, s, false);
    if b.probeServices != [s] || b.probeIp {
      DropCovers(p, b, s, p', b');
    }
  }

  lemma DropCovers(p: Packet, b: Pcb, s: nat, p': Packet, b': Pcb)
    requires InProbe(b) && ProbePacket(p, b) && NoDup(b.probeServices) && (b.probeServices != [s] || b.probeIp)
    requires p'.servers == DropEntries(p.servers, s) && p'.answers == [] && p'.additional == [] && !p'.distributed
    requires b'.probeServices == DropFirst(b.probeServices, s) && b'.probeIp == b.probeIp
    ensures ProbePacket(p', b') && !Emptied(p')
  {
    hide Mentions, DropEntries, DropFirst, NoDup;
    DropFirstExact(b.probeServices, s);
    var r := DropEntries(p.servers, s);
    ProbeEntriesKept(p.servers, s);
    forall t | t != Some(s) && Mentions(p.servers, t) ensures Mentions(r, t) {
      MentionKept(p.servers, s, t);
    }
    if b.probeIp {
      MentionsSome(r, None);
    } else {
      if |b.probeServices| == 1 { assert b.probeServices == [b.probeServices[0]]; }
      assert b'.probeServices != [];
      MentionsSome(r, Some(b'.probeServices[0]));
    }
  }

  lemma ProbeEntriesKept(list: seq<Answer>, s: nat)
    requires ProbeEntries(list)
    ensures ProbeEntries(DropEntries(list, s))
  {
    hide DropEntries;
    DropEntriesExact(list, s);
    var r := DropEntries(list, s);
    forall i | 0 <= i < |r|
      ensures if r[i].service.Some? then r[i].rtype == SRV else r[i].rtype == A || r[i].rtype == AAAA
    {
      assert r[i] in r;
      var j :| 0 <= j < |list| && list[j] == r[i];
    }
  }

  lemma MentionKept(list: seq<Answer>, s: nat, t: Option<nat>)
    requires t != Some(s) && Mentions(list, t)
    ensures Mentions(DropEntries(list, s), t)
  {
    hide DropEntries;
    DropEntriesExact(list, s);
    var r := DropEntries(list, s);
    var j :| 0 <= j < |list| && list[j].service == t;
    assert list[j] in r;
    var i :| 0 <= i < |r| && r[i] == list[j];
  }

  lemma MentionsSome(list: seq<Answer>, t: Option<nat>)
    requires Mentions(list, t)
    ensures list != []
  {
  }

  /** A probe list forgets the service exactly if the PCB is probing, is up, and has
      a packet in the list: the loop visits PCBs through their packets. */
  lemma {:induction false} ForgottenWhen(mine: seq<Packet>, b: Pcb, isUp: bool, s: nat)
    requires NoDup(b.probeServices)
    ensures s in PcbAfter(mine, b, isUp, s).probeServices
      <==> s in b.probeServices && !(isUp && IsProbing(b) && mine != [])
    decreases |mine|
  {
    hide DropEntries, DropFirst;
    if mine != [] {
      DropFirstExact(b.probeServices, s);
      var gone := mine[0].answers != [] && DropEntries(mine[0].answers, s) == [];
      ForgottenWhen(mine[1..], DropFromPcb(b, isUp, s, gone), isUp, s);
    }
  }

  /** Outside probing the PCB stays as it is, or stops announcing. */
  lemma {:induction false} RunsOrAnnounces(mine: seq<Packet>, b: Pcb, s: nat)
    requires IsAnnouncing(b) || b.state == Running
    ensures PcbAfter(mine, b, true, s) == b || PcbAfter(mine, b, true, s) == b.(state := Running)
    ensures b.state == Running ==> PcbAfter(mine, b, true, s) == b
    decreases |mine|
  {
    if mine != [] {
      var gone := mine[0].answers != [] && DropEntries(mine[0].answers, s) == [];
      RunsOrAnnounces(mine[1..], DropFromPcb(b, true, s, gone), s);
    }
  }

  /** An announcing PCB stops announcing exactly if one of its packets loses its last
      answer: all its answers, and there are some, are of the service. */
  lemma {:induction false} StopsWhen(mine: seq<Packet>, b: Pcb, s: nat)
    requires IsAnnouncing(b)
    ensures PcbAfter(mine, b, true, s).state == Running <==> exists i :: 0 <= i < |mine| && OnlyFor(mine[i].answers, s)
    ensures PcbAfter(mine, b, true, s).state != Running ==> PcbAfter(mine, b, true, s) == b
    decreases |mine|
  {
    hide DropEntries;
    if mine != [] {
      var p, rest := mine[0], mine[1..];
      OnlyForIs(p.answers, s);
      var gone := p.answers != [] && DropEntries(p.answers, s) == [];
      assert forall i :: 0 < i < |mine| ==> mine[i] == rest[i - 1];
      if gone {
        RunsOrAnnounces(rest, b.(state := Running), s);
        assert OnlyFor(mine[0].answers, s);
      } else {
        StopsWhen(rest, b, s);
        if i :| 0 <= i < |rest| && OnlyFor(rest[i].answers, s) { assert OnlyFor(mine[i + 1].answers, s); }
      }
    }
  }

  ghost predicate OnlyFor(list: seq<Answer>, s: nat) {
    list != [] && forall a :: a in list ==> a.service == Some(s)
  }

  lemma OnlyForIs(list: seq<Answer>, s: nat)
    ensures OnlyFor(list, s) <==> list != [] && DropEntries(list, s) == []
  {
    DropEntriesExact(list, s);
    if DropEntries(list, s) != [] { assert DropEntries(list, s)[0] in list; }
  }

  /** While it announces, something to announce stays scheduled. */
  lemma {:induction false} SolidAfter(mine: seq<Packet>, b: Pcb, s: nat, svc: Service)
    requires IsAnnouncing(b) && HasSolid(mine) && IsAnnouncing(PcbAfter(mine, b, true, s))
    ensures HasSolid(MineAfter(mine, b, true, s, svc))
    decreases |mine|
  {
    var p, tail := mine[0], mine[1..];
    assert mine == [p] + tail;
    AfterCons(p, tail, b, true, s, svc);
    var p' := DropFromPacket(p, b, true, s, svc);
    var gone := p.answers != [] && p'.answers == [];
    RunsOrAnnounces(tail, DropFromPcb(b, true, s, gone), s);
    var all := MineAfter(mine, b, true, s, svc);
    if Solid(p) {
      SolidSurvives(p, p', s);
      SolidIn(all, p');
    } else {
      var i :| 0 <= i < |mine| && Solid(mine[i]);
      SolidIn(tail, tail[i - 1]);
      SolidAfter(tail, b, s, svc);
      var rest := MineAfter(tail, b, true, s, svc);
      var j :| 0 <= j < |rest| && Solid(rest[j]);
      assert rest[j] in all;
      SolidIn(all, rest[j]);
    }
  }

  lemma SolidSurvives(p: Packet, p': Packet, s: nat)
    requires Solid(p) && p'.answers == DropEntries(p.answers, s) && p'.servers == DropEntries(p.servers, s)
    requires p'.distributed == p.distributed && !(p.answers != [] && p'.answers == [])
    ensures Solid(p') && !Emptied(p')
  {
    if Mentions(p.servers, None) {
      DropEntriesExact(p.servers, s);
      var j :| 0 <= j < |p.servers| && p.servers[j].service == None;
      assert p.servers[j] in p'.servers;
      var i :| 0 <= i < |p'.servers| && p'.servers[i] == p.servers[j];
    }
  }

  lemma ProbeRemoved(b: Pcb, mine: seq<Packet>, named: bool, registry: seq<nat>, s: nat, svc: Service)
    requires InProbe(b) && PcbSound(b, mine, true, named, registry) && NoDup(registry)
    ensures PcbSound(PcbAfter(mine, b, true, s), MineAfter(mine, b, true, s, svc), true, named, DropFirst(registry, s))
    ensures s !in PcbAfter(mine, b, true, s).probeServices
  {
    assert mine == [mine[0]];
    ProbingAfter(mine[0], b, s, svc, DropFirst(registry, s));
    DropFirstExact(b.probeServices, s);
    DropFirstExact(registry, s);
  }

  lemma OtherRemoved(b: Pcb, mine: seq<Packet>, isUp: bool, named: bool, registry: seq<nat>, s: nat, svc: Service)
    requires !InProbe(b) && PcbSound(b, mine, isUp, named, registry)
    ensures PcbSound(PcbAfter(mine, b, isUp, s), MineAfter(mine, b, isUp, s, svc), isUp, named, DropFirst(registry, s))
    ensures PcbAfter(mine, b, isUp, s).probeServices == []
    ensures PcbAfter(mine, b, isUp, s).state == Dup <==> b.state == Dup
  {
    if isUp {
      RunsOrAnnounces(mine, b, s);
      if IsAnnouncing(b) && IsAnnouncing(PcbAfter(mine, b, true, s)) { SolidAfter(mine, b, s, svc); }
    }
  }

  lemma PcbRemoved(sv: Server, sv': Server, k: Key, s: nat)
    requires k in sv.pcbs && k in sv'.pcbs && s in sv.info && NoDup(sv.registry)
    requires PcbSound(sv.pcbs[k], Mine(sv.sched.tx, k), k in sv.up, sv.named, sv.registry)
    requires sv'.pcbs[k] == PcbAfter(Mine(sv.sched.tx, k), sv.pcbs[k], k in sv.up, s)
    requires Mine(sv'.sched.tx, k) == MineAfter(Mine(sv.sched.tx, k), sv.pcbs[k], k in sv.up, s, sv.info[s])
    requires sv'.up == sv.up && sv'.named == sv.named && sv'.registry == DropFirst(sv.registry, s)
    ensures PcbSound(sv'.pcbs[k], Mine(sv'.sched.tx, k), k in sv'.up, sv'.named, sv'.registry)
    ensures s !in sv'.pcbs[k].probeServices
    ensures sv'.pcbs[k].state == Dup <==> sv.pcbs[k].state == Dup
  {
    if InProbe(sv.pcbs[k]) {
      ProbeRemoved(sv.pcbs[k], Mine(sv.sched.tx, k), sv.named, sv.registry, s, sv.info[s]);
    } else {
      OtherRemoved(sv.pcbs[k], Mine(sv.sched.tx, k), k in sv.up, sv.named, sv.registry, s, sv.info[s]);
    }
  }

  /** The entries of the scheduled packets are known services, the removed one not
      among them. */
  lemma {:induction false} KeptRefs(tx: seq<Packet>, pcbs: map<Key, Pcb>, up: set<Key>, s: nat, svc: Service, registry: seq<nat>,
                                     kept: seq<Packet>)
    requires KeysIn(tx, pcbs) && NoDup(registry) && kept == DropLoop(tx, pcbs, up, s, svc).0
    requires forall i :: 0 <= i < |tx| ==> tx[i].pcb in up && PacketRefsIn(tx[i], registry)
    ensures forall i :: 0 <= i < |kept| ==> kept[i].pcb in up && PacketRefsIn(kept[i], DropFirst(registry, s))
    decreases |tx|
  {
    if tx != [] {
      var p := tx[0];
      var pcbs1, rest := DropLoopCons(tx, pcbs, up, s, svc);
      DropFirstExact(registry, s);
      KeptRefs(tx[1..], pcbs1, up, s, svc, registry, rest);
      DropEntriesRefs(p.answers, s, registry, DropFirst(registry, s));
      DropEntriesRefs(p.servers, s, registry, DropFirst(registry, s));
      DropEntriesRefs(p.additional, s, registry, DropFirst(registry, s));
    }
  }

  lemma RegistryRemoved(sv: Server, s: nat)
    requires RegistryOk(sv) && s in sv.registry
    ensures RegistryOk(sv.(registry := DropFirst(sv.registry, s)))
  {
    DropFirstExact(sv.registry, s);
  }

  /** Removing a service keeps the invariant; so no entry of a scheduled packet and no probe
      list refers to it any more. */
  lemma RemoveServiceKeeps(sv: Server, s: nat)
    requires Sound(sv, {}) && s in sv.registry
    ensures KeysIn(sv.sched.tx, sv.pcbs)
    ensures Sound(RemoveService(sv, s), {})
    ensures forall k :: k in RemoveService(sv, s).pcbs ==> s !in RemoveService(sv, s).pcbs[k].probeServices
  {
    assert KeysIn(sv.sched.tx, sv.pcbs);
    var sv' := RemoveService(sv, s);
    RegistryRemoved(sv, s);
    KeptRefs(sv.sched.tx, sv.pcbs, sv.up, s, sv.info[s], sv.registry, sv'.sched.tx);
    DropLoopRid(sv.sched.tx, sv.pcbs, sv.up, s, sv.info[s]);
    ThinnedKeeps(sv.sched, sv'.sched.tx);
    forall k | k in sv.pcbs
      ensures k in sv'.pcbs && PcbOk(sv', {}, k) && s !in sv'.pcbs[k].probeServices
      ensures sv'.pcbs[k].state == Dup <==> sv.pcbs[k].state == Dup
    {
      assert PcbOk(sv, {}, k);
      DropLoopMine(sv.sched.tx, sv.pcbs, sv.up, s, sv.info[s], k);
      PcbRemoved(sv, sv', k, s);
    }
    RemovedKeys(sv, s);
  }

  lemma RemovedKeys(sv: Server, s: nat)
    requires s in sv.info && KeysIn(sv.sched.tx, sv.pcbs)
    ensures RemoveService(sv, s).pcbs.Keys == sv.pcbs.Keys
  {
    assert sv.sched.tx != [] ==> sv.sched.tx[0].pcb in sv.pcbs;
    if k :| k in sv.pcbs {
      DropLoopMine(sv.sched.tx, sv.pcbs, sv.up, s, sv.info[s], k);
    }
  }

  lemma NotMentioned(p: Packet, known: seq<nat>, s: nat)
    requires PacketRefsIn(p, known) && s !in known
    ensures !Mentions(p.answers, Some(s)) && !Mentions(p.servers, Some(s)) && !Mentions(p.additional, Some(s))
  {
  }

  /** What the removal does to the list as a whole: no entry for the service is left
      in any list, nothing else is lost, and only emptied packets leave. */
  lemma RemoveServiceExact(sv: Server, s: nat)
    requires Sound(sv, {}) && s in sv.registry
    ensures KeysIn(sv.sched.tx, sv.pcbs)
    ensures Rid(sv.sched.tx, RemoveService(sv, s).sched.tx, s, sv.info[s])
    ensures forall i :: 0 <= i < |RemoveService(sv, s).sched.tx| ==>
      var p := RemoveService(sv, s).sched.tx[i];
      !Mentions(p.answers, Some(s)) && !Mentions(p.servers, Some(s)) && !Mentions(p.additional, Some(s))
    ensures s !in RemoveService(sv, s).registry
  {
    assert KeysIn(sv.sched.tx, sv.pcbs);
    DropLoopRid(sv.sched.tx, sv.pcbs, sv.up, s, sv.info[s]);
    KeptNotMentioned(sv.sched.tx, sv.pcbs, sv.up, s, sv.info[s], sv.registry, RemoveService(sv, s).sched.tx);
    DropFirstExact(sv.registry, s);
  }

  lemma KeptNotMentioned(tx: seq<Packet>, pcbs: map<Key, Pcb>, up: set<Key>, s: nat, svc: Service, registry: seq<nat>,
                         kept: seq<Packet>)
    requires KeysIn(tx, pcbs) && NoDup(registry) && kept == DropLoop(tx, pcbs, up, s, svc).0
    requires forall i :: 0 <= i < |tx| ==> tx[i].pcb in up && PacketRefsIn(tx[i], registry)
    ensures forall i :: 0 <= i < |kept| ==>
        !Mentions(kept[i].answers, Some(s)) && !Mentions(kept[i].servers, Some(s)) && !Mentions(kept[i].additional, Some(s))
  {
    KeptRefs(tx, pcbs, up, s, svc, registry, kept);
    DropFirstExact(registry, s);
    forall i | 0 <= i < |kept|
      ensures !Mentions(kept[i].answers, Some(s)) && !Mentions(kept[i].servers, Some(s)) && !Mentions(kept[i].additional, Some(s))
    {
      NotMentioned(kept[i], DropFirst(registry, s), s);
    }
  }

  lemma {:induction false} KeptKeys(tx: seq<Packet>, pcbs: map<Key, Pcb>, up: set<Key>, s: nat, svc: Service)
    requires KeysIn(tx, pcbs)
    ensures KeysIn(DropLoop(tx, pcbs, up, s, svc).0, pcbs)
    decreases |tx|
  {
    if tx != [] {
      var pcbs1, rest := DropLoopCons(tx, pcbs, up, s, svc);
      KeptKeys(tx[1..], pcbs1, up, s, svc);
    }
  }

}
