/** Announcing, enabling, disabling and marking interfaces as duplicates keep the
    responder's invariant. */
module InterfaceKeeps {
  import opened Options
  import opened Packets
  import opened Answers
  import opened Scheduler
  import opened Responder
  import opened ResponderKeeps

  // ------------------------------------------------------------- announcing

  lemma {:induction false} MineReplace(tx: seq<Packet>, i: nat, p: Packet, k: Key)
    requires i < |tx| && p.pcb == tx[i].pcb
    ensures k != p.pcb ==> Mine(tx[i := p], k) == Mine(tx, k)
    ensures k == p.pcb ==> |Mine(tx[i := p], k)| == |Mine(tx, k)|
    ensures forall q :: q in Mine(tx, k) && q != tx[i] ==> q in Mine(tx[i := p], k)
    ensures k == p.pcb ==> p in Mine(tx[i := p], k)
  {
    if i == 0 {
      assert tx[i := p][1..] == tx[1..];
    } else {
      MineReplace(tx[1..], i - 1, p, k);
      assert tx[i := p][1..] == tx[1..][i - 1 := p];
    }
  }

  lemma {:induction false} ReplaceThins(tx: seq<Packet>, i: nat, p: Packet)
    requires i < |tx| && SameHeader(tx[i], p)
    ensures Thinned(tx, tx[i := p])
  {
    if i == 0 {
      ThinnedSelf(tx[1..]);
      assert tx[i := p][1..] == tx[1..];
    } else {
      ReplaceThins(tx[1..], i - 1, p);
      assert tx[i := p][1..] == tx[1..][i - 1 := p];
    }
  }

  lemma {:induction false} DeallocRefs(list: seq<Answer>, rtype: RecordType, service: Option<nat>, known: seq<nat>)
    requires RefsIn(list, known)
    ensures RefsIn(DeallocEntry(list, rtype, service), known)
  {
    if list != [] {
      var rest := list[1..];
      assert RefsIn(rest, known);
      DeallocRefs(rest, rtype, service, known);
    }
  }

  lemma AddToAnnounceOk(p: Packet, services: seq<nat>, info: map<nat, Service>, includeIp: bool, registry: seq<nat>)
    requires (forall s :: s in services ==> s in info) && Subset(services, registry) && PacketRefsIn(p, registry)
    ensures var p' := AddToAnnounce(p, services, info, includeIp);
      SameHeader(p, p') && PacketRefsIn(p', registry) && (Solid(p) ==> Solid(p'))
  {
    DeallocRefs(p.additional, A, None, registry);
    DeallocRefs(DeallocEntry(p.additional, A, None), AAAA, None, registry);
  }

  lemma EditedPackets(sv: Server, i: nat, p: Packet, sv': Server)
    requires PacketsOk(sv) && i < |sv.sched.tx| && SameHeader(sv.sched.tx[i], p) && PacketRefsIn(p, sv.registry)
    requires sv'.sched.tx == sv.sched.tx[i := p] && sv'.up == sv.up && sv'.registry == sv.registry
    ensures PacketsOk(sv')
  {
    hide PacketRefsIn;
  }

  lemma SameSetting(sv: Server, sv': Server)
    requires RegistryOk(sv) && TwinsOk(sv)
    requires sv'.registry == sv.registry && sv'.info == sv.info && sv'.twin == sv.twin && sv'.pcbs.Keys == sv.pcbs.Keys
    ensures RegistryOk(sv') && TwinsOk(sv')
  {
  }

  /** An edit of one packet of a PCB, with the PCB's fields. */
  lemma EditedKeeps(sv: Server, pending: set<Key>, i: nat, p: Packet, b: Pcb, sv': Server)
    requires Sound(sv, pending) && i < |sv.sched.tx| && p.pcb !in pending
    requires SameHeader(sv.sched.tx[i], p) && PacketRefsIn(p, sv.registry) && p.pcb in sv.pcbs
    requires sv' == SetPcb(SetTx(sv, sv.sched.tx[i := p]), p.pcb, b)
    requires b.state != Dup
    requires PcbSound(b, Mine(sv.sched.tx[i := p], p.pcb), p.pcb in sv.up, sv.named, sv.registry)
    ensures Sound(sv', pending)
  {
    hide Orderly, PcbSound, Mine, PacketsOk, RegistryOk, TwinsOk;
    var tx := sv.sched.tx[i := p];
    EditedPackets(sv, i, p, sv');
    assert RegistryOk(sv') && TwinsOk(sv') by { SameSetting(sv, sv'); }
    ReplaceThins(sv.sched.tx, i, p);
    ThinnedKeeps(sv.sched, tx);
    forall j ensures j != p.pcb ==> Mine(tx, j) == Mine(sv.sched.tx, j) {
      MineReplace(sv.sched.tx, i, p, j);
    }
    DupsSame(sv, sv', p.pcb);
    OneSound(sv, sv', pending, p.pcb);
    assert pending - {p.pcb} == pending;
  }

  /** One more packet for a PCB, with the PCB's fields. */
  lemma AddedKeeps(sv: Server, pending: set<Key>, p: Packet, b: Pcb, sv': Server)
    requires Sound(sv, pending) && p.pcb in sv.up
    requires !p.queued && p.sendAt >= sv.sched.now && PacketRefsIn(p, sv.registry) && p.id !in Ids(sv.sched.tx)
    requires sv' == SetPcb(SetTx(sv, Insert(sv.sched.tx, p)), p.pcb, b)
    requires b.state != Dup
    requires PcbSound(b, Mine(Insert(sv.sched.tx, p), p.pcb), true, sv.named, sv.registry)
    ensures Sound(sv', pending - {p.pcb})
  {
    ScheduleKeeps(sv, p);
    DupsSame(sv, sv', p.pcb);
    OneSound(sv, sv', pending, p.pcb);
  }

  lemma CreateAnnounceOk(id: nat, k: Key, services: seq<nat>, info: map<nat, Service>, includeIp: bool, registry: seq<nat>)
    requires (forall s :: s in services ==> s in info) && Subset(services, registry) && (services != [] || includeIp)
    ensures var p := CreateAnnounce(id, k, services, info, includeIp);
      PacketRefsIn(p, registry) && Solid(p) && p.id == id && p.pcb == k && !p.queued
  {
  }

  lemma SolidIn(mine: seq<Packet>, p: Packet)
    requires p in mine && Solid(p)
    ensures HasSolid(mine)
  {
  }

  lemma SolidStays(tx: seq<Packet>, i: nat, p: Packet, k: Key)
    requires i < |tx| && tx[i].pcb == p.pcb == k && (Solid(tx[i]) ==> Solid(p)) && HasSolid(Mine(tx, k))
    ensures HasSolid(Mine(tx[i := p], k))
  {
    MineReplace(tx, i, p, k);
    var m :| 0 <= m < |Mine(tx, k)| && Solid(Mine(tx, k)[m]);
    var q := if Mine(tx, k)[m] == tx[i] then p else Mine(tx, k)[m];
    assert Mine(tx, k)[m] in Mine(tx, k);
    SolidIn(Mine(tx[i := p], k), q);
  }

  lemma AnnouncingKeeps(sv: Server, k: Key, i: nat, p: Packet, sv': Server)
    requires Sound(sv, {}) && k in sv.up && IsAnnouncing(sv.pcbs[k])
    requires i < |sv.sched.tx| && SameHeader(sv.sched.tx[i], p) && PacketRefsIn(p, sv.registry) && p.pcb == k
    requires Solid(sv.sched.tx[i]) ==> Solid(p)
    requires sv' == SetPcb(SetTx(sv, sv.sched.tx[i := p]), k, sv.pcbs[k].(state := Announce1))
    ensures Sound(sv', {})
  {
    hide Orderly, PacketsOk, RegistryOk, TwinsOk, DupsOk, Mine;
    assert PcbOk(sv, {}, k);
    SolidStays(sv.sched.tx, i, p, k);
    EditedKeeps(sv, {}, i, p, sv.pcbs[k].(state := Announce1), sv');
  }

  lemma RunningKeeps(sv: Server, k: Key, p: Packet, sv': Server)
    requires Sound(sv, {}) && k in sv.up && sv.pcbs[k].state == Running && sv.named
    requires p.pcb == k && !p.queued && p.sendAt >= sv.sched.now && PacketRefsIn(p, sv.registry) && p.id !in Ids(sv.sched.tx)
    requires Solid(p)
    requires sv' == SetPcb(SetTx(sv, Insert(sv.sched.tx, p)), k, sv.pcbs[k].(state := Announce1))
    ensures Sound(sv', {})
  {
    hide Orderly, Mine, Without, Insert;
    assert PcbOk(sv, {}, k);
    MineInsert(sv.sched.tx, p, k);
    SolidIn(Mine(Insert(sv.sched.tx, p), k), p);
    AddedKeeps(sv, {}, p, sv.pcbs[k].(state := Announce1), sv');
    assert {} - {k} == {};
  }

  /** Announcing keeps the invariant in every state of the PCB. */
  lemma AnnounceKeeps(sv: Server, k: Key, services: seq<nat>, includeIp: bool, id: nat, jitter: nat)
    requires Sound(sv, {}) && k in sv.pcbs
    requires Request(sv, services, includeIp) && id !in Ids(sv.sched.tx)
    ensures Known(sv, sv.pcbs[k].probeServices)
    ensures Sound(Announce(sv, k, services, includeIp, id, jitter), {})
  {
    assert PcbOk(sv, {}, k);
    var tx := sv.sched.tx;
    if k in sv.up {
      if IsProbing(sv.pcbs[k]) {
        FewerIds(tx, k);
        InitProbeKeeps(sv, {}, k, services, includeIp, id, jitter);
        assert {} - {k} == {};
      } else if IsAnnouncing(sv.pcbs[k]) {
        var i := FirstOf(tx, k);
        if i < |tx| {
          var p := AddToAnnounce(tx[i], services, sv.info, includeIp);
          AddToAnnounceOk(tx[i], services, sv.info, includeIp, sv.registry);
          AnnouncingKeeps(sv, k, i, p, Announce(sv, k, services, includeIp, id, jitter));
        }
      } else if sv.pcbs[k].state == Running && sv.named {
        var p := CreateAnnounce(id, k, services, sv.info, includeIp).(sendAt := sv.sched.now);
        CreateAnnounceOk(id, k, services, sv.info, includeIp, sv.registry);
        RunningKeeps(sv, k, p, Announce(sv, k, services, includeIp, id, jitter));
      }
    }
  }

  lemma {:induction false} AddAnnouncedCovers(list: seq<Answer>, services: seq<nat>)
    ensures forall s :: s in services ==> Announces(AddAnnounced(list, services), s)
    decreases |services|
  {
    hide AnnounceOne, Announces;
    if services != [] {
      var one := AnnounceOne(list, services[0]);
      AddAnnouncedCovers(one, services[1..]);
      assert AddAnnounced(list, [services[0]]) == one by { assert [services[0]][1..] == []; assert AddAnnounced(one, []) == one; }
      AnnouncesOne(list, services[0]);
      AnnouncesGrow(one, AddAnnounced(one, services[1..]), services[0]);
      assert services == [services[0]] + services[1..];
    }
  }

  /** The packet speaks for every one of the services. */
  ghost predicate SpeaksFor(p: Packet, services: seq<nat>, probing: bool) {
    forall s :: s in services ==> if probing then Mentions(p.servers, Some(s)) else Announces(p.answers, s)
  }

  ghost predicate Reaches(tx: seq<Packet>, k: Key, services: seq<nat>, probing: bool, p: Packet) {
    p in tx && p.pcb == k && SpeaksFor(p, services, probing)
  }

  /** The first packet of the PCB became `p`, with more answers than it had. */
  ghost predicate Extended(tx: seq<Packet>, k: Key, tx': seq<Packet>, p: Packet) {
    var i := FirstOf(tx, k);
    && i < |tx| && tx' == tx[i := p]
    && SameHeader(tx[i], p) && tx[i].answers <= p.answers
    && p.distributed == tx[i].distributed && p.announces == tx[i].announces
  }

  /** What announcing puts into the list, on a PCB that is up: a probe about every one
      of the services, or a packet with the four records of each. While the PCB
      announces, that is its first packet, and it keeps the answers it had. */
  lemma AnnounceReaches(sv: Server, k: Key, services: seq<nat>, includeIp: bool, id: nat, jitter: nat) returns (p: Packet)
    requires Sound(sv, {}) && k in sv.up && sv.named
    requires Request(sv, services, includeIp) && id !in Ids(sv.sched.tx)
    ensures k in sv.pcbs && Known(sv, services) && Known(sv, sv.pcbs[k].probeServices)
    ensures var sv' := Announce(sv, k, services, includeIp, id, jitter); var probing := InProbe(sv.pcbs[k]);
      && sv'.pcbs[k].state == (if probing then Probe1 else Announce1)
      && Reaches(sv'.sched.tx, k, services, probing, p)
      && (IsAnnouncing(sv.pcbs[k]) ==> Extended(sv.sched.tx, k, sv'.sched.tx, p))
      && (sv.pcbs[k].state == Running ==> p.sendAt == sv.sched.now && p.id == id && p.announces)
  {
    hide Sound, Reaches, Extended, InitProbe, AddToAnnounce, CreateAnnounce, Insert;
    UpStates(sv, k);
    RequestKnown(sv, services, includeIp);
    if InProbe(sv.pcbs[k]) {
      p := ProbeReaches(sv, k, services, includeIp, id, jitter);
    } else if IsAnnouncing(sv.pcbs[k]) {
      p := AddToAnnounce(sv.sched.tx[FirstOf(sv.sched.tx, k)], services, sv.info, includeIp);
      ExtendReaches(sv.sched.tx, k, services, sv.info, includeIp, p);
    } else {
      p := CreateAnnounce(id, k, services, sv.info, includeIp).(sendAt := sv.sched.now);
      StartReaches(sv.sched.tx, k, services, sv.info, includeIp, id, p);
    }
  }

  lemma RequestKnown(sv: Server, services: seq<nat>, includeIp: bool)
    requires RegistryOk(sv) && Request(sv, services, includeIp)
    ensures Known(sv, services)
  {
  }

  lemma UpStates(sv: Server, k: Key)
    requires Sound(sv, {}) && k in sv.up
    ensures RegistryOk(sv) && k in sv.pcbs && PcbReady(sv.pcbs[k], sv.registry) && Known(sv, sv.pcbs[k].probeServices)
    ensures InProbe(sv.pcbs[k]) || IsAnnouncing(sv.pcbs[k]) || sv.pcbs[k].state == Running
    ensures IsAnnouncing(sv.pcbs[k]) ==> FirstOf(sv.sched.tx, k) < |sv.sched.tx|
  {
    hide Orderly, PacketsOk, DupsOk, TwinsOk, Mine;
    assert PcbOk(sv, {}, k);
    if IsAnnouncing(sv.pcbs[k]) { SomeMine(sv.sched.tx, k); }
  }

  lemma ExtendReaches(tx: seq<Packet>, k: Key, services: seq<nat>, info: map<nat, Service>, includeIp: bool, p: Packet)
    requires (forall s :: s in services ==> s in info) && FirstOf(tx, k) < |tx|
    requires p == AddToAnnounce(tx[FirstOf(tx, k)], services, info, includeIp)
    ensures Reaches(tx[FirstOf(tx, k) := p], k, services, false, p)
    ensures Extended(tx, k, tx[FirstOf(tx, k) := p], p)
  {
    hide AddToAnnounce, SpeaksFor;
    var i := FirstOf(tx, k);
    AddToAnnounceReaches(tx[i], services, info, includeIp);
    assert tx[i := p][i] == p;
  }

  lemma StartReaches(tx: seq<Packet>, k: Key, services: seq<nat>, info: map<nat, Service>, includeIp: bool, id: nat, p: Packet)
    requires forall s :: s in services ==> s in info
    requires p == CreateAnnounce(id, k, services, info, includeIp).(sendAt := p.sendAt)
    ensures Reaches(Insert(tx, p), k, services, false, p) && p.id == id && p.announces
  {
    hide Insert, Announces, AddAnnounced, AppendHosts;
    InsertIn(tx, p);
    AddAnnouncedCovers([], services);
  }

  lemma ProbeReaches(sv: Server, k: Key, services: seq<nat>, includeIp: bool, id: nat, jitter: nat) returns (p: Packet)
    requires Sound(sv, {}) && k in sv.up && sv.named && InProbe(sv.pcbs[k]) && PcbReady(sv.pcbs[k], sv.registry)
    requires Request(sv, services, includeIp) && id !in Ids(sv.sched.tx)
    ensures Known(sv, sv.pcbs[k].probeServices)
    ensures var sv' := InitProbe(sv, k, services, includeIp, id, jitter);
      sv'.pcbs[k].state == Probe1 && Reaches(sv'.sched.tx, k, services, true, p)
  {
    hide Orderly, Mine, Insert, Without;
    FewerIds(sv.sched.tx, k);
    InitProbeKeeps(sv, {}, k, services, includeIp, id, jitter);
    InitProbeList(sv, k, services, includeIp, id, jitter);
    var sv' := InitProbe(sv, k, services, includeIp, id, jitter);
    assert {} - {k} == {};
    ProbingPacket(sv', {}, k);
    p := Mine(sv'.sched.tx, k)[0];
  }

  lemma AddToAnnounceReaches(p: Packet, services: seq<nat>, info: map<nat, Service>, includeIp: bool)
    requires forall s :: s in services ==> s in info
    ensures var p' := AddToAnnounce(p, services, info, includeIp);
      SameHeader(p, p') && p.answers <= p'.answers && SpeaksFor(p', services, false)
      && p'.distributed == p.distributed && p'.announces == p.announces
  {
    hide Announces;
    var list := AddAnnounced(p.answers, services);
    AddAnnouncedCovers(p.answers, services);
    var more := AddToAnnounce(p, services, info, includeIp).answers;
    forall s | s in services ensures Announces(more, s) { AnnouncesGrow(list, more, s); }
  }

  lemma SomeMine(tx: seq<Packet>, k: Key)
    requires Mine(tx, k) != []
    ensures FirstOf(tx, k) < |tx|
  {
    MineIn(tx, k);
    assert Mine(tx, k)[0] in tx;
  }

  lemma FewerIds(tx: seq<Packet>, k: Key)
    ensures Ids(Without(tx, k)) <= Ids(tx)
  {
    WithoutThins(tx, k);
    ThinnedIds(tx, Without(tx, k));
  }

  // ------------------------------------------------- interfaces up and down

  lemma KnownAll(sv: Server, pending: set<Key>)
    requires Sound(sv, pending)
    ensures AllKnown(sv)
  {
    forall k | k in sv.pcbs ensures Known(sv, sv.pcbs[k].probeServices) {
      assert PcbOk(sv, pending, k);
    }
  }

  lemma NoneMine(tx: seq<Packet>, k: Key)
    requires Mine(tx, k) == []
    ensures Without(tx, k) == tx
  {
    if tx != [] { NoneMine(tx[1..], k); }
  }

  /** A PCB that is opened counts as pending until its probe is started. */
  lemma OpenedKeeps(sv: Server, k: Key)
    requires Sound(sv, {}) && k in sv.pcbs
    ensures Sound(sv.(up := sv.up + {k}), {k})
  {
    var sv' := sv.(up := sv.up + {k});
    forall j | j in sv'.pcbs ensures PcbOk(sv', {k}, j) {
      assert j in sv.pcbs && PcbOk(sv, {}, j);
    }
  }

  lemma ResetKeeps(sv: Server, k: Key)
    requires Sound(sv, {}) && k in sv.pcbs
    ensures Sound(SetPcb(sv, k, sv.pcbs[k].(failedProbes := 0)), {})
  {
    var sv' := SetPcb(sv, k, sv.pcbs[k].(failedProbes := 0));
    forall j | j in sv'.pcbs ensures PcbOk(sv', {}, j) {
      assert j in sv.pcbs && PcbOk(sv, {}, j);
    }
  }

  lemma EnableKeeps(sv: Server, k: Key, bindOk: bool, id: nat, jitter: nat)
    requires Sound(sv, {}) && k in sv.pcbs && id !in Ids(sv.sched.tx)
    ensures AllKnown(sv)
    ensures Sound(Enable(sv, k, bindOk, id, jitter), {})
  {
    hide Orderly, Mine, Without, Insert;
    KnownAll(sv, {});
    assert PcbOk(sv, {}, k);
    FewerIds(sv.sched.tx, k);
    if k !in sv.up && !bindOk {
      ResetKeeps(sv, k);
    } else if k in sv.up {
      assert sv.(up := sv.up + {k}) == sv;
      InitProbeKeeps(sv, {}, k, sv.registry, true, id, jitter);
      assert {} - {k} == {};
    } else {
      OpenedKeeps(sv, k);
      InitProbeKeeps(sv.(up := sv.up + {k}), {k}, k, sv.registry, true, id, jitter);
      assert {k} - {k} == {};
    }
  }

  /** Closing a PCB: no packet, no probe; duplicates of it wait for a retry. */
  lemma DeinitKeeps(sv: Server, k: Key, sv': Server)
    requires Sound(sv, {}) && k in sv.up && sv' == Deinit(Cleared(sv, k), k)
    ensures Orderly(sv'.sched) && PacketsOk(sv') && PcbsOk(sv', {})
    ensures forall j :: j in sv'.pcbs && sv'.pcbs[j].state == Dup ==> j != k && sv.pcbs[j].state == Dup
    ensures Ids(sv'.sched.tx) <= Ids(sv.sched.tx)
  {
    hide Orderly, Without, Mine, Ids, PcbSound;
    ClearKeeps(sv, k);
    PacketsWithout(sv, k);
    FewerIds(sv.sched.tx, k);
    DownSound(Pcb(Off, [], false, false, 0), sv.named, sv.registry);
    OnePcb(sv, sv', {}, k);
    assert {} - {k} == {};
  }

  /** The only PCB that can wait for `k` is its partner. */
  lemma OnlyPartnerWaits(sv: Server, k: Key, j: Key)
    requires TwinsOk(sv) && DupsOk(sv) && j in sv.pcbs && sv.pcbs[j].state == Dup && k in sv.pcbs
    ensures Key(sv.twin[j.netif], j.protocol) in sv.up && j != Key(sv.twin[j.netif], j.protocol)
    ensures Key(sv.twin[j.netif], j.protocol) == k ==> Partner(sv, k) == Some(j)
  {
  }

  lemma DownAlone(sv: Server, k: Key, down: Server)
    requires Sound(sv, {}) && k in sv.up && down == Deinit(Cleared(sv, k), k)
    requires Partner(sv, k).Some? && Partner(sv, k).value in sv.pcbs ==> sv.pcbs[Partner(sv, k).value].state != Dup
    ensures Sound(down, {})
  {
    DeinitKeeps(sv, k, down);
    forall j | j in down.pcbs && down.pcbs[j].state == Dup
      ensures j.netif in down.twin && Key(down.twin[j.netif], j.protocol) in down.up
    {
      OnlyPartnerWaits(sv, k, j);
    }
  }

  lemma DownWaited(sv: Server, k: Key, down: Server, o: Key)
    requires Sound(sv, {}) && k in sv.up && down == Deinit(Cleared(sv, k), k)
    requires Partner(sv, k) == Some(o) && o in down.pcbs && down.pcbs[o].state == Dup
    ensures o != k && Orderly(down.sched) && PacketsOk(down) && PcbsOk(down, {}) && RegistryOk(down) && TwinsOk(down)
    ensures Ids(down.sched.tx) <= Ids(sv.sched.tx)
    ensures forall j :: j in down.pcbs && down.pcbs[j].state == Dup && j != o ==>
      j.netif in down.twin && Key(down.twin[j.netif], j.protocol) in down.up
  {
    DeinitKeeps(sv, k, down);
    forall j | j in down.pcbs && down.pcbs[j].state == Dup && j != o
      ensures j.netif in down.twin && Key(down.twin[j.netif], j.protocol) in down.up
    {
      OnlyPartnerWaits(sv, k, j);
    }
  }

  lemma OffAlready(sv: Server, k: Key)
    requires k in sv.pcbs && sv.pcbs[k].state == Off
    ensures SetPcb(sv, k, sv.pcbs[k].(state := Off)) == sv
  {
    assert sv.pcbs[k].(state := Off) == sv.pcbs[k];
    assert sv.pcbs[k := sv.pcbs[k]] == sv.pcbs;
  }

  /** Closing a PCB keeps the invariant, whether or not a duplicate waits for it and
      whether or not that duplicate can be opened. */
  lemma DisableKeeps(sv: Server, k: Key, bindOk: bool, id: nat, jitter: nat)
    requires Sound(sv, {}) && k in sv.pcbs && id !in Ids(sv.sched.tx)
    ensures AllKnown(sv)
    ensures Sound(Disable(sv, k, bindOk, id, jitter), {})
  {
    hide Enable, PcbsOk, Orderly, RegistryOk, Without;
    KnownAll(sv, {});
    if k !in sv.up {
      OffKeeps(sv, k);
    } else {
      var down := Deinit(Cleared(sv, k), k);
      var o := Partner(sv, k);
      if o.Some? && o.value in down.pcbs && down.pcbs[o.value].state == Dup {
        DownWaited(sv, k, down, o.value);
        RetryKeeps(down, o.value, bindOk, id, jitter);
        var off := SetPcb(down, o.value, down.pcbs[o.value].(state := Off));
        EnableOther(off, o.value, k, bindOk, id, jitter);
        OffAlready(Enable(off, o.value, bindOk, id, jitter), k);
      } else {
        DownAlone(sv, k, down);
        OffAlready(down, k);
      }
    }
  }

  lemma OffKeeps(sv: Server, k: Key)
    requires Sound(sv, {}) && k in sv.pcbs && k !in sv.up
    ensures Sound(SetPcb(sv, k, sv.pcbs[k].(state := Off)), {})
  {
    hide Orderly, PcbsOk, RegistryOk;
    var sv' := SetPcb(sv, k, sv.pcbs[k].(state := Off));
    DupsSame(sv, sv', k);
    OffPcbs(sv, k, sv');
    assert RegistryOk(sv') by { SameRegistry(sv, sv'); }
  }

  lemma EnableOther(sv: Server, k: Key, j: Key, bindOk: bool, id: nat, jitter: nat)
    requires k in sv.pcbs && j in sv.pcbs && j != k && AllKnown(sv)
    ensures Enable(sv, k, bindOk, id, jitter).pcbs[j] == sv.pcbs[j]
    ensures Enable(sv, k, bindOk, id, jitter).pcbs.Keys == sv.pcbs.Keys
  {
  }

  /** A duplicate whose partner went down is enabled again. */
  lemma RetryKeeps(down: Server, o: Key, bindOk: bool, id: nat, jitter: nat)
    requires Orderly(down.sched) && PacketsOk(down) && PcbsOk(down, {}) && RegistryOk(down) && TwinsOk(down)
    requires o in down.pcbs && down.pcbs[o].state == Dup && id !in Ids(down.sched.tx)
    requires forall j :: j in down.pcbs && down.pcbs[j].state == Dup && j != o ==>
      j.netif in down.twin && Key(down.twin[j.netif], j.protocol) in down.up
    ensures AllKnown(SetPcb(down, o, down.pcbs[o].(state := Off)))
    ensures Sound(Enable(SetPcb(down, o, down.pcbs[o].(state := Off)), o, bindOk, id, jitter), {})
  {
    hide Enable, Sound, Orderly, Mine;
    var off := SetPcb(down, o, down.pcbs[o].(state := Off));
    OffSound(down, o, off);
    EnableKeeps(off, o, bindOk, id, jitter);
  }

  lemma OffSound(down: Server, o: Key, off: Server)
    requires Orderly(down.sched) && PacketsOk(down) && PcbsOk(down, {}) && RegistryOk(down) && TwinsOk(down)
    requires o in down.pcbs && down.pcbs[o].state == Dup && off == SetPcb(down, o, down.pcbs[o].(state := Off))
    requires forall j :: j in down.pcbs && down.pcbs[j].state == Dup && j != o ==>
      j.netif in down.twin && Key(down.twin[j.netif], j.protocol) in down.up
    ensures Sound(off, {})
  {
    assert o !in down.up by { assert PcbOk(down, {}, o); }
    OffPcbs(down, o, off);
    assert DupsOk(off);
  }

  lemma SameRegistry(sv: Server, sv': Server)
    requires RegistryOk(sv) && sv'.registry == sv.registry && sv'.info == sv.info
    ensures RegistryOk(sv')
  {
  }

  /** Neither up nor with a packet. */
  lemma DownSound(b: Pcb, named: bool, registry: seq<nat>)
    requires PcbReady(b, registry) && b.probeServices == [] && !b.probeIp && !b.probeRunning
    ensures PcbSound(b.(state := Off), [], false, named, registry)
  {
  }

  lemma OffPcbs(down: Server, o: Key, off: Server)
    requires PcbsOk(down, {}) && o in down.pcbs && o !in down.up
    requires off == SetPcb(down, o, down.pcbs[o].(state := Off))
    ensures PcbsOk(off, {})
  {
    hide Mine;
    assert PcbOk(down, {}, o);
    OnePcb(down, off, {}, o);
    assert {} - {o} == {};
  }

  lemma DupMarked(sv: Server, k: Key, o: Key, down: Server)
    requires Sound(sv, {}) && k in sv.pcbs && Partner(sv, k) == Some(o) && o in sv.up
    requires down == if k in sv.up then Deinit(Cleared(sv, k), k) else sv
    ensures Sound(SetPcb(down, k, down.pcbs[k].(state := Dup)), {})
    ensures Ids(down.sched.tx) <= Ids(sv.sched.tx)
  {
    if k in sv.up { DeinitKeeps(sv, k, down); }
    MarkedKeeps(sv, down, k, o);
  }

  /** Marking a PCB as a duplicate keeps the invariant: it is down, and the partner
      it gives way to is up on the same protocol. */
  lemma MarkDupKeeps(sv: Server, k: Key, id: nat, jitter: nat)
    requires Sound(sv, {}) && k in sv.pcbs && id !in Ids(sv.sched.tx)
    ensures AllKnown(sv)
    ensures Sound(MarkDup(sv, k, id, jitter), {})
  {
    hide Orderly, Mine, Without, Insert, PacketsOk, RegistryOk, TwinsOk, DupsOk;
    KnownAll(sv, {});
    var partner := Partner(sv, k);
    if partner.Some? && partner.value in sv.up {
      var down := if k in sv.up then Deinit(Cleared(sv, k), k) else sv;
      DupMarked(sv, k, partner.value, down);
      AnnounceKeeps(SetPcb(down, k, down.pcbs[k].(state := Dup)), partner.value, [], true, id, jitter);
    }
  }

  lemma MarkedKeeps(sv: Server, down: Server, k: Key, o: Key)
    requires Sound(sv, {}) && k in sv.pcbs && Partner(sv, k) == Some(o) && o in sv.up
    requires Orderly(down.sched) && PacketsOk(down) && PcbsOk(down, {}) && k !in down.up && k in down.pcbs
    requires forall j :: j in down.pcbs && down.pcbs[j].state == Dup && j != k ==> j in sv.pcbs && sv.pcbs[j].state == Dup
    requires down.twin == sv.twin && down.registry == sv.registry && down.info == sv.info && down.named == sv.named
    requires down.pcbs.Keys == sv.pcbs.Keys && sv.up - {k} <= down.up
    ensures Sound(SetPcb(down, k, down.pcbs[k].(state := Dup)), {})
  {
    var sv' := SetPcb(down, k, down.pcbs[k].(state := Dup));
    MarkedDups(sv, down, k, o, sv');
    MarkedPcb(down, k, sv');
  }

  lemma MarkedPcb(down: Server, k: Key, sv': Server)
    requires PcbsOk(down, {}) && k !in down.up && k in down.pcbs && down.up <= down.pcbs.Keys
    requires sv' == SetPcb(down, k, down.pcbs[k].(state := Dup))
    ensures PcbsOk(sv', {})
  {
    hide Mine;
    assert PcbOk(down, {}, k);
    OnePcb(down, sv', {}, k);
    assert {} - {k} == {};
  }

  lemma MarkedDups(sv: Server, down: Server, k: Key, o: Key, sv': Server)
    requires Sound(sv, {}) && k in sv.pcbs && Partner(sv, k) == Some(o) && o in sv.up && k in down.pcbs
    requires forall j :: j in down.pcbs && down.pcbs[j].state == Dup && j != k ==> j in sv.pcbs && sv.pcbs[j].state == Dup
    requires down.twin == sv.twin && sv.up - {k} <= down.up
    requires sv' == SetPcb(down, k, down.pcbs[k].(state := Dup))
    ensures DupsOk(sv')
  {
    hide Orderly, PacketsOk, RegistryOk;
    forall j | j in sv'.pcbs && sv'.pcbs[j].state == Dup
      ensures j.netif in sv'.twin && Key(sv'.twin[j.netif], j.protocol) in sv'.up
    {
      if j != k {
        OnlyPartnerWaits(sv, k, j);
        assert PcbOk(sv, {}, j);
      }
    }
  }
}
