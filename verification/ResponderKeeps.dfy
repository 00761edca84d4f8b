/** Each operation of the responder keeps its invariant. */
module ResponderKeeps {
  import opened Options
  import opened Packets
  import opened Answers
  import opened Scheduler
  import opened Responder

  // ------------------------------------------------- lists without duplicates

  function Elements(s: seq<nat>): set<nat> {
    set x | x in s
  }

  lemma {:induction false} NoDupSize(s: seq<nat>)
    ensures |Elements(s)| <= |s|
    ensures NoDup(s) ==> |Elements(s)| == |s|
  {
    if s != [] {
      NoDupSize(s[1..]);
      assert s == [s[0]] + s[1..];
      assert Elements(s) == Elements(s[1..]) + {s[0]};
    }
  }

  lemma NoDupBound(a: seq<nat>, b: seq<nat>)
    requires NoDup(a) && Subset(a, b)
    ensures |a| <= |b|
  {
    NoDupSize(a);
    NoDupSize(b);
    assert Elements(a) <= Elements(b);
    SubsetSize(Elements(a), Elements(b));
  }

  lemma {:induction false} SubsetSize(a: set<nat>, b: set<nat>)
    requires a <= b
    ensures |a| <= |b|
  {
    if a != {} {
      var x :| x in a;
      SubsetSize(a - {x}, b - {x});
    }
  }

  lemma {:induction false} NotProbedNoDup(services: seq<nat>, probing: seq<nat>)
    requires NoDup(services)
    ensures NoDup(NotProbed(services, probing))
    ensures NoDup(probing) ==> NoDup(NotProbed(services, probing) + probing)
  {
    if services != [] {
      NotProbedNoDup(services[1..], probing);
      NotProbedIn(services[1..], probing);
    }
    NotProbedIn(services, probing);
    var rest := NotProbed(services, probing);
    forall i, j | 0 <= i < j < |rest + probing| && NoDup(probing) ensures (rest + probing)[i] != (rest + probing)[j] {
      if i < |rest| <= j { assert rest[i] in rest && probing[j - |rest|] in probing; }
    }
  }

  /** Starting a probe on a PCB that is probing already asks for the union of the
      old list and the new services, each once, and cuts nothing off. */
  lemma InitProbeList(sv: Server, k: Key, services: seq<nat>, probeIp: bool, id: nat, jitter: nat)
    requires k in sv.pcbs && RegistryOk(sv) && sv.named
    requires PcbReady(sv.pcbs[k], sv.registry)
    requires NoDup(services) && Subset(services, sv.registry)
    ensures var b, b' := sv.pcbs[k], InitProbe(sv, k, services, probeIp, id, jitter).pcbs[k];
      && b'.probeServices == NotProbed(services, b.probeServices) + b.probeServices
      && NoDup(b'.probeServices) && Subset(b'.probeServices, sv.registry)
      && (forall s :: s in b'.probeServices <==> s in b.probeServices || s in services)
      && b' == Pcb(Probe1, b'.probeServices, b.probeIp || probeIp, true, b.failedProbes)
  {
    hide NotProbed, Insert, Without, CreateProbe;
    var b := sv.pcbs[k];
    NotProbedNoDup(services, b.probeServices);
    NotProbedIn(services, b.probeServices);
    var merged := NotProbed(services, b.probeServices) + b.probeServices;
    NoDupBound(merged, sv.registry);
    if !IsProbing(b) {
      NotProbedNone(services);
    }
  }

  lemma {:induction false} NotProbedNone(services: seq<nat>)
    ensures NotProbed(services, []) == services
  {
    if services != [] { NotProbedNone(services[1..]); }
  }

  // ----------------------------------------------------- one PCB at a time

  /** An operation on one PCB leaves the others as they were. */
  ghost predicate OnlyTouches(sv: Server, sv': Server, k: Key) {
    && sv'.pcbs.Keys == sv.pcbs.Keys && sv'.twin == sv.twin && sv'.named == sv.named
    && sv'.registry == sv.registry && sv'.info == sv.info
    && (forall j :: j in sv.pcbs && j != k ==>
          sv'.pcbs[j] == sv.pcbs[j] && Mine(sv'.sched.tx, j) == Mine(sv.sched.tx, j) && (j in sv'.up <==> j in sv.up))
  }

  lemma OnePcb(sv: Server, sv': Server, pending: set<Key>, k: Key)
    requires PcbsOk(sv, pending) && OnlyTouches(sv, sv', k) && k in sv.pcbs && sv'.up <= sv'.pcbs.Keys
    requires PcbSound(sv'.pcbs[k], Mine(sv'.sched.tx, k), k in sv'.up, sv'.named, sv'.registry)
    ensures PcbsOk(sv', pending - {k})
  {
    forall j | j in sv'.pcbs ensures PcbOk(sv', pending - {k}, j) {
      assert j in sv.pcbs && PcbOk(sv, pending, j);
    }
  }

  lemma OneSound(sv: Server, sv': Server, pending: set<Key>, k: Key)
    requires Sound(sv, pending) && OnlyTouches(sv, sv', k) && k in sv.pcbs
    requires Orderly(sv'.sched) && PacketsOk(sv') && DupsOk(sv') && sv'.up <= sv'.pcbs.Keys
    requires PcbSound(sv'.pcbs[k], Mine(sv'.sched.tx, k), k in sv'.up, sv'.named, sv'.registry)
    ensures Sound(sv', pending - {k})
  {
    OnePcb(sv, sv', pending, k);
  }

  lemma DupsSame(sv: Server, sv': Server, k: Key)
    requires DupsOk(sv) && sv'.twin == sv.twin && sv.up <= sv'.up && sv'.pcbs.Keys == sv.pcbs.Keys
    requires forall j :: j in sv.pcbs && j != k ==> sv'.pcbs[j] == sv.pcbs[j]
    requires k in sv'.pcbs && sv'.pcbs[k].state != Dup
    ensures DupsOk(sv')
  {
    forall j | j in sv'.pcbs && sv'.pcbs[j].state == Dup
      ensures j.netif in sv'.twin && Key(sv'.twin[j.netif], j.protocol) in sv'.up
    {
      assert j in sv.pcbs && j != k;
    }
  }

  /** The request made of a probe: distinct known services, or the host addresses. */
  ghost predicate Request(sv: Server, services: seq<nat>, probeIp: bool) {
    NoDup(services) && Subset(services, sv.registry) && (services != [] || probeIp)
  }

  lemma PacketsInsert(sv: Server, p: Packet)
    requires PacketsOk(sv) && p.pcb in sv.up && PacketRefsIn(p, sv.registry)
    ensures PacketsOk(SetTx(sv, Insert(sv.sched.tx, p)))
  {
    InsertIn(sv.sched.tx, p);
    var tx := Insert(sv.sched.tx, p);
    forall i | 0 <= i < |tx| ensures tx[i].pcb in sv.up && PacketRefsIn(tx[i], sv.registry) {
      assert tx[i] in tx;
      if tx[i] != p {
        var j :| 0 <= j < |sv.sched.tx| && sv.sched.tx[j] == tx[i];
      }
    }
  }

  lemma PacketsWithout(sv: Server, k: Key)
    requires PacketsOk(sv)
    ensures PacketsOk(SetTx(sv, Without(sv.sched.tx, k)))
    ensures PacketsOk(SetTx(sv, Without(sv.sched.tx, k)).(up := sv.up - {k}))
  {
    WithoutThins(sv.sched.tx, k);
    var tx := Without(sv.sched.tx, k);
    forall i | 0 <= i < |tx| ensures tx[i].pcb in sv.up - {k} && PacketRefsIn(tx[i], sv.registry) {
      assert tx[i] in tx;
      var j :| 0 <= j < |sv.sched.tx| && sv.sched.tx[j] == tx[i];
    }
  }

  /** Clearing the PCB's packets: the list stays orderly, the others keep theirs. */
  lemma ClearKeeps(sv: Server, k: Key)
    requires Orderly(sv.sched) && PacketsOk(sv)
    ensures var sv' := SetTx(sv, Without(sv.sched.tx, k));
      Orderly(sv'.sched) && PacketsOk(sv') && Mine(sv'.sched.tx, k) == []
      && forall j :: j != k ==> Mine(sv'.sched.tx, j) == Mine(sv.sched.tx, j)
  {
    WithoutThins(sv.sched.tx, k);
    ThinnedKeeps(sv.sched, Without(sv.sched.tx, k));
    PacketsWithout(sv, k);
    forall j ensures Mine(Without(sv.sched.tx, k), j) == if j == k then [] else Mine(sv.sched.tx, j) {
      MineWithout(sv.sched.tx, k, j);
    }
  }

  /** Scheduling one packet of a PCB. */
  lemma ScheduleKeeps(sv: Server, p: Packet)
    requires Orderly(sv.sched) && PacketsOk(sv) && p.pcb in sv.up && PacketRefsIn(p, sv.registry)
    requires !p.queued && p.sendAt >= sv.sched.now && p.id !in Ids(sv.sched.tx)
    ensures var sv' := SetTx(sv, Insert(sv.sched.tx, p));
      Orderly(sv'.sched) && PacketsOk(sv')
      && (forall j :: j != p.pcb ==> Mine(sv'.sched.tx, j) == Mine(sv.sched.tx, j))
      && (Mine(sv.sched.tx, p.pcb) == [] ==> Mine(sv'.sched.tx, p.pcb) == [p])
      && (forall q :: q in Mine(sv.sched.tx, p.pcb) ==> q in Mine(sv'.sched.tx, p.pcb))
      && p in Mine(sv'.sched.tx, p.pcb)
  {
    InsertKeeps(sv.sched, p);
    PacketsInsert(sv, p);
    forall j ensures j != p.pcb ==> Mine(Insert(sv.sched.tx, p), j) == Mine(sv.sched.tx, j) {
      MineInsert(sv.sched.tx, p, j);
    }
    MineInsert(sv.sched.tx, p, p.pcb);
  }

  // --------------------------------------------------------- starting a probe

  /** The packet a probe schedules. */
  lemma ProbePacketOk(sv: Server, k: Key, merged: seq<nat>, ip: bool, id: nat, delay: nat)
    requires Known(sv, merged) && Subset(merged, sv.registry) && (merged != [] || ip)
    ensures var p := CreateProbe(id, k, merged, sv.info, true, ip).(sendAt := sv.sched.now + delay);
      p.id == id && p.pcb == k && !p.queued && PacketRefsIn(p, sv.registry)
      && forall failed :: ProbePacket(p, Pcb(Probe1, merged, ip, true, failed))
  {
    CreateProbeCovers(id, k, merged, sv.info, true, ip);
    var p := CreateProbe(id, k, merged, sv.info, true, ip);
    assert p.servers != [] by {
      if merged != [] { assert Mentions(p.servers, Some(merged[0])); }
    }
  }

  /** What InitProbe does once the old packets of the PCB are gone. */
  lemma InitProbeAs(sv: Server, k: Key, services: seq<nat>, probeIp: bool, id: nat, jitter: nat) returns (p: Packet)
    requires k in sv.pcbs && RegistryOk(sv) && sv.named && PcbReady(sv.pcbs[k], sv.registry)
    requires Request(sv, services, probeIp)
    ensures var cleared := SetTx(sv, Without(sv.sched.tx, k)); var sv' := InitProbe(sv, k, services, probeIp, id, jitter);
      && sv' == SetPcb(SetTx(cleared, Insert(cleared.sched.tx, p)), k, sv'.pcbs[k])
      && p.id == id && p.pcb == k && !p.queued && PacketRefsIn(p, sv.registry)
      && p.sendAt == sv.sched.now + FirstDelay(sv.pcbs[k], jitter)
      && ProbePacket(p, sv'.pcbs[k]) && sv'.pcbs[k].state == Probe1 && sv'.pcbs[k].probeRunning
      && NoDup(sv'.pcbs[k].probeServices) && Subset(sv'.pcbs[k].probeServices, sv.registry)
  {
    hide InitProbe, CreateProbe, ProbePacket, PacketRefsIn, Insert, NoDup, RefsIn, Mentions, Without, NotProbed;
    var b := sv.pcbs[k];
    var sv' := InitProbe(sv, k, services, probeIp, id, jitter);
    var merged := NotProbed(services, b.probeServices) + b.probeServices;
    NotProbedIn(services, b.probeServices);
    InitProbeShape(sv, k, services, probeIp, id, jitter, merged);
    InitProbeList(sv, k, services, probeIp, id, jitter);
    var ip := b.probeIp || probeIp;
    assert merged != [] || ip by { if services != [] { assert services[0] in merged; } }
    var cleared := SetTx(sv, Without(sv.sched.tx, k));
    ProbePacketOk(cleared, k, merged, ip, id, FirstDelay(b, jitter));
    p := CreateProbe(id, k, merged, sv.info, true, ip).(sendAt := sv.sched.now + FirstDelay(b, jitter));
  }

  lemma InitProbeShape(sv: Server, k: Key, services: seq<nat>, probeIp: bool, id: nat, jitter: nat, merged: seq<nat>)
    requires k in sv.pcbs && Known(sv, services) && Known(sv, sv.pcbs[k].probeServices) && Known(sv, merged) && sv.named
    requires merged == NotProbed(services, sv.pcbs[k].probeServices) + sv.pcbs[k].probeServices
    requires !IsProbing(sv.pcbs[k]) ==> sv.pcbs[k].probeServices == []
    ensures var b, sv' := sv.pcbs[k], InitProbe(sv, k, services, probeIp, id, jitter);
      var cleared := SetTx(sv, Without(sv.sched.tx, k));
      var p := CreateProbe(id, k, merged, sv.info, true, b.probeIp || probeIp).(sendAt := sv.sched.now + FirstDelay(b, jitter));
      k in sv'.pcbs && sv' == SetPcb(SetTx(cleared, Insert(cleared.sched.tx, p)), k, sv'.pcbs[k])
  {
    hide CreateProbe, Insert, Without, NotProbed;
    if !IsProbing(sv.pcbs[k]) { NotProbedNone(services); }
  }

  /** The PCB's packets replaced by one packet, and its fields by others. */
  lemma ReplacedKeeps(sv: Server, pending: set<Key>, k: Key, p: Packet, b: Pcb, sv': Server)
    requires Sound(sv, pending) && k in sv.up
    requires p.pcb == k && !p.queued && p.sendAt >= sv.sched.now && PacketRefsIn(p, sv.registry)
    requires p.id !in Ids(Without(sv.sched.tx, k))
    requires PcbSound(b, [p], true, sv.named, sv.registry)
    requires sv' == SetPcb(SetTx(sv, Insert(Without(sv.sched.tx, k), p)), k, b)
    ensures Sound(sv', pending - {k})
  {
    hide Orderly, Mine, Without, Insert;
    ClearKeeps(sv, k);
    var cleared := Cleared(sv, k);
    ScheduleKeeps(cleared, p);
    DupsSame(sv, sv', k);
    assert sv'.sched == SetTx(cleared, Insert(cleared.sched.tx, p)).sched;
    assert PacketsOk(sv');
    OneSound(sv, sv', pending, k);
  }

  lemma InitProbeNamed(sv: Server, pending: set<Key>, k: Key, services: seq<nat>, probeIp: bool, id: nat, jitter: nat)
    requires Sound(sv, pending) && k in sv.up && sv.named
    requires Request(sv, services, probeIp) && id !in Ids(Without(sv.sched.tx, k))
    ensures Sound(InitProbe(sv, k, services, probeIp, id, jitter), pending - {k})
  {
    hide Orderly, Mine, Without, Insert;
    assert PcbOk(sv, pending, k);
    var p := InitProbeAs(sv, k, services, probeIp, id, jitter);
    var sv' := InitProbe(sv, k, services, probeIp, id, jitter);
    ReplacedKeeps(sv, pending, k, p, sv'.pcbs[k], sv');
  }

  lemma RunningSound(b: Pcb, mine: seq<Packet>, named: bool, registry: seq<nat>)
    requires PcbReady(b, registry) && Idle(b)
    ensures PcbSound(b.(state := Running), mine, true, named, registry)
  {
  }

  /** A PCB without a host name to probe for just runs, with no packet of its own. */
  lemma UnnamedKeeps(sv: Server, pending: set<Key>, k: Key, sv': Server)
    requires Sound(sv, pending) && k in sv.up && !sv.named && Idle(sv.pcbs[k])
    requires sv' == SetPcb(Cleared(sv, k), k, sv.pcbs[k].(state := Running))
    ensures Sound(sv', pending - {k})
  {
    hide Orderly, Without, Mine, PcbSound;
    assert PcbOk(sv, pending, k);
    ClearKeeps(sv, k);
    DupsSame(sv, sv', k);
    RunningSound(sv.pcbs[k], [], sv.named, sv.registry);
    OneSound(sv, sv', pending, k);
  }

  /** Starting or restarting a probe on a PCB that is up keeps the invariant, and a
      PCB about to be probed again is sound afterwards. It has one packet then, or none
      while the responder has no host name. */
  lemma InitProbeKeeps(sv: Server, pending: set<Key>, k: Key, services: seq<nat>, probeIp: bool, id: nat, jitter: nat)
    requires Sound(sv, pending) && k in sv.up && (k in pending ==> sv.named || Idle(sv.pcbs[k]))
    requires Request(sv, services, probeIp) && id !in Ids(Without(sv.sched.tx, k))
    ensures var sv' := InitProbe(sv, k, services, probeIp, id, jitter);
      && Sound(sv', pending - {k})
      && |Mine(sv'.sched.tx, k)| == if sv.named then 1 else 0
  {
    var sv' := InitProbe(sv, k, services, probeIp, id, jitter);
    if sv.named {
      InitProbeNamed(sv, pending, k, services, probeIp, id, jitter);
      InitProbeList(sv, k, services, probeIp, id, jitter);
      ProbingPacket(sv', pending - {k}, k);
    } else {
      assert PcbOk(sv, pending, k);
      UnnamedKeeps(sv, pending, k, sv');
      MineWithout(sv.sched.tx, k, k);
    }
  }

  lemma ProbingPacket(sv: Server, pending: set<Key>, k: Key)
    requires Sound(sv, pending) && k in sv.pcbs && k !in pending && InProbe(sv.pcbs[k])
    ensures |Mine(sv.sched.tx, k)| == 1 && ProbePacket(Mine(sv.sched.tx, k)[0], sv.pcbs[k])
    ensures Mine(sv.sched.tx, k)[0] in sv.sched.tx && Mine(sv.sched.tx, k)[0].pcb == k
  {
    assert PcbOk(sv, pending, k);
    MineIn(sv.sched.tx, k);
    assert Mine(sv.sched.tx, k)[0] in Mine(sv.sched.tx, k);
  }

  /** Forgetting the probe list of a PCB that is about to be probed again. */
  lemma ForgetKeeps(sv: Server, pending: set<Key>, k: Key, sv': Server)
    requires Sound(sv, pending) && k in sv.up
    requires sv' == SetPcb(sv, k, sv.pcbs[k].(probeServices := [], probeRunning := false))
    ensures Sound(sv', pending + {k})
    ensures !sv.named && k !in pending ==> sv' == sv
  {
    hide Orderly, Mine, PcbSound;
    assert PcbOk(sv, pending, k);
    forall j | j in sv'.pcbs ensures PcbOk(sv', pending + {k}, j) {
      assert j in sv.pcbs && PcbOk(sv, pending, j);
    }
    if !sv.named && k !in pending {
      UnnamedIdle(sv.pcbs[k], Mine(sv.sched.tx, k), k in sv.up, sv.registry);
    }
  }

  lemma UnnamedIdle(b: Pcb, mine: seq<Packet>, isUp: bool, registry: seq<nat>)
    requires PcbSound(b, mine, isUp, false, registry)
    ensures b.(probeServices := [], probeRunning := false) == b
  {
  }

  lemma ReprobeKeeps(sv: Server, pending: set<Key>, k: Key, services: seq<nat>, probeIp: bool, clearOld: bool, id: nat, jitter: nat)
    requires Sound(sv, pending) && k in sv.up && (k in pending ==> sv.named)
    requires Request(sv, services, probeIp) && id !in Ids(Without(sv.sched.tx, k))
    ensures Sound(Reprobe(sv, k, services, probeIp, clearOld, id, jitter), pending - {k})
  {
    assert PcbOk(sv, pending, k);
    if !clearOld {
      InitProbeKeeps(sv, pending, k, services, probeIp, id, jitter);
    } else {
      var sv' := SetPcb(sv, k, sv.pcbs[k].(probeServices := [], probeRunning := false));
      ForgetKeeps(sv, pending, k, sv');
      if sv.named {
        InitProbeKeeps(sv', pending + {k}, k, services, probeIp, id, jitter);
        assert (pending + {k}) - {k} == pending - {k};
      } else {
        InitProbeKeeps(sv, pending, k, services, probeIp, id, jitter);
      }
    }
  }
}
