/** Whole runs of the responder: every reachable state is sound, and no PCB starts to
    announce before its probe packet was sent three times. */
module ResponderRuns {
  import opened Options
  import opened Packets
  import opened Answers
  import opened Scheduler
  import opened Responder
  import opened ResponderKeeps
  import opened InterfaceKeeps
  import opened TransmitKeeps
  import opened ServiceRemoval

  // ------------------------------------------------------- restarting all PCBs

  lemma ThinnedDistinct(before: seq<Packet>, after: seq<Packet>)
    requires Thinned(before, after) && DistinctIds(before)
    ensures DistinctIds(after)
  {
    var at := ThinnedPlaces(before, after);
  }

  lemma ReprobeIds(sv: Server, k: Key, id: nat, jitter: nat)
    requires k in sv.pcbs && AllKnown(sv) && sv.named && RegistryOk(sv)
    requires DistinctIds(sv.sched.tx) && id !in Ids(Without(sv.sched.tx, k)) && sv.pcbs[k].state != Init
    ensures Ids(Reprobe(sv, k, sv.registry, true, true, id, jitter).sched.tx) <= Ids(sv.sched.tx) + {id}
  {
    hide Insert, Without, CreateProbe, Thinned;
    RegistryRequest(sv);
    var forgot := SetPcb(sv, k, sv.pcbs[k].(probeServices := [], probeRunning := false));
    var p := InitProbeAs(forgot, k, sv.registry, true, id, jitter);
    WithoutThins(sv.sched.tx, k);
    ThinnedDistinct(sv.sched.tx, Without(sv.sched.tx, k));
    FewerIds(sv.sched.tx, k);
    InsertDistinct(Without(sv.sched.tx, k), p);
  }

  lemma ReprobeOne(sv: Server, pending: set<Key>, k: Key, id: nat, jitter: nat)
    requires Sound(sv, pending) && sv.named && k in sv.up && id !in Ids(sv.sched.tx)
    ensures AllKnown(sv)
    ensures var sv' := Reprobe(sv, k, sv.registry, true, true, id, jitter);
      && Sound(sv', pending - {k}) && Ids(sv'.sched.tx) <= Ids(sv.sched.tx) + {id}
      && sv'.pcbs.Keys == sv.pcbs.Keys && sv'.up == sv.up && sv'.named && sv'.registry == sv.registry
  {
    hide InitProbe;
    assert PcbOk(sv, pending, k);
    KnownAll(sv, pending);
    FewerIds(sv.sched.tx, k);
    RegistryRequest(sv);
    ReprobeKeeps(sv, pending, k, sv.registry, true, true, id, jitter);
    ReprobeIds(sv, k, id, jitter);
    ReprobeKnown(sv, k, id, jitter);
  }

  /** The PCB probes for every service and for the addresses. */
  lemma ReprobeResult(sv: Server, k: Key, id: nat, jitter: nat)
    requires k in sv.pcbs && AllKnown(sv) && sv.named && |sv.registry| <= MAX_SERVICES
    ensures Reprobe(sv, k, sv.registry, true, true, id, jitter).pcbs
      == sv.pcbs[k := Pcb(Probe1, sv.registry, true, true, sv.pcbs[k].failedProbes)]
  {
    hide Insert, Without, CreateProbe, NotProbed;
    NotProbedNone(sv.registry);
    assert sv.registry + [] == sv.registry;
  }

  /** The PCB has just started to probe for everything. */
  predicate Restarted(sv: Server, k: Key) {
    k in sv.pcbs && sv.pcbs[k] == Pcb(Probe1, sv.registry, true, true, sv.pcbs[k].failedProbes)
  }

  lemma ReprobeAllStates(sv: Server, keys: seq<Key>, ids: seq<nat>, jitters: seq<nat>)
    requires AllKnown(sv) && sv.named && |sv.registry| <= MAX_SERVICES && |ids| == |keys| == |jitters|
    requires forall k :: k in keys ==> k in sv.pcbs
    ensures var sv' := ReprobeAll(sv, keys, ids, jitters);
      && sv'.up == sv.up && sv'.registry == sv.registry && sv'.pcbs.Keys == sv.pcbs.Keys
      && forall j :: j in sv.pcbs ==> sv'.pcbs[j] == sv.pcbs[j] || Restarted(sv', j)
    ensures forall j :: j in keys && j in sv.up ==> Restarted(ReprobeAll(sv, keys, ids, jitters), j)
    decreases |keys|
  {
    hide Reprobe;
    if keys != [] {
      var k := keys[0];
      assert k in keys && keys == [k] + keys[1..];
      ReprobeResult(sv, k, ids[0], jitters[0]);
      ReprobeKnown(sv, k, ids[0], jitters[0]);
      var sv1 := if k in sv.up then Reprobe(sv, k, sv.registry, true, true, ids[0], jitters[0]) else sv;
      ReprobeAllStates(sv1, keys[1..], ids[1..], jitters[1..]);
    }
  }

  lemma ReprobeAllKeeps(sv: Server, pending: set<Key>, keys: seq<Key>, ids: seq<nat>, jitters: seq<nat>)
    requires Sound(sv, pending) && sv.named && |ids| == |keys| == |jitters|
    requires (forall k :: k in keys ==> k in sv.pcbs) && pending <= sv.up && (forall k :: k in pending ==> k in keys)
    requires NoDup(ids) && forall id :: id in ids ==> id !in Ids(sv.sched.tx)
    ensures AllKnown(sv)
    ensures Sound(ReprobeAll(sv, keys, ids, jitters), {})
    decreases |keys|
  {
    hide Sound, Reprobe;
    KnownAll(sv, pending);
    if keys == [] {
      assert pending == {};
    } else {
      var k := keys[0];
      assert k in keys && ids[0] in ids;
      if k in sv.up {
        ReprobeOne(sv, pending, k, ids[0], jitters[0]);
        var sv' := Reprobe(sv, k, sv.registry, true, true, ids[0], jitters[0]);
        ReprobeAllKeeps(sv', pending - {k}, keys[1..], ids[1..], jitters[1..]);
      } else {
        ReprobeAllKeeps(sv, pending, keys[1..], ids[1..], jitters[1..]);
      }
    }
  }

  lemma RegistryRequest(sv: Server)
    requires RegistryOk(sv)
    ensures Request(sv, sv.registry, true)
  {
  }

  lemma ClearedAll(sv: Server)
    requires Sound(sv, {})
    ensures Sound(SetTx(sv, []).(named := true), sv.up)
  {
    var sv' := SetTx(sv, []).(named := true);
    ThinnedNone(sv.sched.tx);
    ThinnedKeeps(sv.sched, []);
    forall j | j in sv'.pcbs ensures PcbOk(sv', sv.up, j) { assert PcbOk(sv, {}, j); }
  }

  lemma ThinnedNone(tx: seq<Packet>)
    ensures Thinned(tx, [])
  {
    if tx != [] { ThinnedNone(tx[1..]); }
  }

  /** Setting the host name throws every packet away and leaves every PCB that is up
      probing again with exactly one packet. */
  lemma RestartAllKeeps(sv: Server, keys: seq<Key>, ids: seq<nat>, jitters: seq<nat>)
    requires Sound(sv, {}) && |ids| == |keys| == |jitters| && NoDup(ids)
    requires forall k :: k in keys <==> k in sv.pcbs
    ensures AllKnown(sv)
    ensures var sv' := RestartAll(sv, keys, ids, jitters);
      && Sound(sv', {}) && sv'.up == sv.up
      && forall k :: k in sv.up ==>
           && Restarted(sv', k) && |Mine(sv'.sched.tx, k)| == 1
           && Covers(Mine(sv'.sched.tx, k)[0], sv.registry, true)
    ensures forall p :: p in RestartAll(sv, keys, ids, jitters).sched.tx ==> p.pcb in sv.up
  {
    hide ReprobeAll, Restarted;
    KnownAll(sv, {});
    ClearedAll(sv);
    var cleared := SetTx(sv, []).(named := true);
    ReprobeAllKeeps(cleared, sv.up, keys, ids, jitters);
    ReprobeAllStates(cleared, keys, ids, jitters);
    var sv' := RestartAll(sv, keys, ids, jitters);
    forall k | k in sv.up
      ensures Restarted(sv', k) && |Mine(sv'.sched.tx, k)| == 1 && Covers(Mine(sv'.sched.tx, k)[0], sv.registry, true)
    {
      RestartedPacket(sv', k);
    }
  }

  lemma RestartedPacket(sv: Server, k: Key)
    requires Sound(sv, {}) && Restarted(sv, k) && k in sv.up
    ensures |Mine(sv.sched.tx, k)| == 1 && Covers(Mine(sv.sched.tx, k)[0], sv.registry, true)
  {
    assert PcbOk(sv, {}, k);
  }

  // --------------------------------------------------------------------- runs

  /** What can happen to the responder. `id` and `ids` are the addresses the
      allocator hands out, `jitter` the random part of a delay. */
  datatype Event =
    | Clock(ms: nat)
    | TimerRuns(sends: seq<bool>)
    | TakesAction(allocOk: bool, id: nat)
    | Enables(k: Key, bindOk: bool, id: nat, jitter: nat)
    | Disables(k: Key, bindOk: bool, id: nat, jitter: nat)
    | MarksDuplicate(k: Key, id: nat, jitter: nat)
    | Announcing(k: Key, services: seq<nat>, includeIp: bool, id: nat, jitter: nat)
    | Probes(k: Key, services: seq<nat>, probeIp: bool, clearOld: bool, id: nat, jitter: nat)
    | Renames(keys: seq<Key>, ids: seq<nat>, jitters: seq<nat>)
    | Answering(packet: Packet, delay: nat)
    | Suppresses(k: Key, rtype: RecordType, service: Option<nat>)
    | LosesConflict(k: Key)
    | Adds(s: nat, svc: Service)
    | Changes(s: nat, svc: Service)
    | Removes(s: nat)

  /** The hypotheses: an address handed out is not that of a packet in the list, no
      send succeeds after one that failed in the same timer run, probes and answers
      caused by received packets are for PCBs that are up. */
  ghost predicate Possible(sv: Server, e: Event) {
    match e
    case Clock(_) => true
    case TimerRuns(sends) => |sends| == |sv.sched.tx| && FailuresLast(sv.sched, sends)
    case TakesAction(_, id) => sv.sched.actions != [] && id !in Ids(sv.sched.tx)
    case Enables(k, _, id, _) => k in sv.pcbs && id !in Ids(sv.sched.tx)
    case Disables(k, _, id, _) => k in sv.pcbs && id !in Ids(sv.sched.tx)
    case MarksDuplicate(k, id, _) => k in sv.pcbs && id !in Ids(sv.sched.tx)
    case Announcing(k, services, includeIp, id, _) =>
      k in sv.pcbs && Request(sv, services, includeIp) && id !in Ids(sv.sched.tx)
    case Probes(k, services, probeIp, _, id, _) =>
      k in sv.up && Request(sv, services, probeIp) && id !in Ids(sv.sched.tx)
    case Renames(keys, ids, jitters) =>
      |ids| == |keys| == |jitters| && NoDup(ids) && forall k :: k in keys <==> k in sv.pcbs
    case Answering(p, _) =>
      p.pcb in sv.up && !p.queued && !p.announces && PacketRefsIn(p, sv.registry) && p.id !in Ids(sv.sched.tx)
    case Suppresses(_, _, _) => true
    case LosesConflict(k) => k in sv.pcbs
    case Adds(s, _) => s !in sv.registry && |sv.registry| < MAX_SERVICES
    case Changes(_, _) => true
    case Removes(s) => s in sv.registry
  }

  /** What the functions need to know of the state; every sound state has it. */
  ghost predicate Usable(sv: Server) {
    && AllKnown(sv) && KeysIn(sv.sched.tx, sv.pcbs) && sv.up <= sv.pcbs.Keys
    && forall i :: 0 <= i < |sv.sched.tx| ==> ServersKnown(sv, sv.sched.tx[i])
  }

  lemma SoundUsable(sv: Server)
    requires Sound(sv, {})
    ensures Usable(sv)
  {
    KnownAll(sv, {});
  }

  ghost function Step(sv: Server, e: Event): Server
    requires Sound(sv, {}) && Possible(sv, e)
  {
    SoundUsable(sv);
    match e
    case Clock(ms) => sv.(sched := sv.sched.(now := sv.sched.now + ms))
    case TimerRuns(sends) => sv.(sched := TimerRun(sv.sched, sends))
    case TakesAction(allocOk, id) => HandleAction(sv, allocOk, id)
    case Enables(k, bindOk, id, jitter) => Enable(sv, k, bindOk, id, jitter)
    case Disables(k, bindOk, id, jitter) => Disable(sv, k, bindOk, id, jitter)
    case MarksDuplicate(k, id, jitter) => MarkDup(sv, k, id, jitter)
    case Announcing(k, services, includeIp, id, jitter) => Announce(sv, k, services, includeIp, id, jitter)
    case Probes(k, services, probeIp, clearOld, id, jitter) => Reprobe(sv, k, services, probeIp, clearOld, id, jitter)
    case Renames(keys, ids, jitters) => RestartAll(sv, keys, ids, jitters)
    case Answering(p, delay) => ScheduleAnswer(sv, p, delay)
    case Suppresses(k, rtype, service) => SetTx(sv, DropAnswers(sv.sched.tx, k, rtype, service))
    case LosesConflict(k) => ProbeFailed(sv, k)
    case Adds(s, svc) => AddService(sv, s, svc)
    case Changes(s, svc) => sv.(info := sv.info[s := svc])
    case Removes(s) => RemoveService(sv, s)
  }

  /** Every event keeps the invariant. */
  lemma StepKeeps(sv: Server, e: Event)
    requires Sound(sv, {}) && Possible(sv, e)
    ensures Sound(Step(sv, e), {})
  {
    hide Sound, PcbOk;
    match e
    case Clock(ms) => TickKeeps(sv, ms);
    case TimerRuns(sends) => TimerRunKeeps(sv, sends);
    case TakesAction(allocOk, id) => ActionKeeps(sv, allocOk, id);
    case Enables(k, bindOk, id, jitter) => EnableKeeps(sv, k, bindOk, id, jitter);
    case Disables(k, bindOk, id, jitter) => DisableKeeps(sv, k, bindOk, id, jitter);
    case MarksDuplicate(k, id, jitter) => MarkDupKeeps(sv, k, id, jitter);
    case Announcing(k, services, includeIp, id, jitter) => AnnounceKeeps(sv, k, services, includeIp, id, jitter);
    case Probes(k, services, probeIp, clearOld, id, jitter) =>
      FewerIds(sv.sched.tx, k);
      ReprobeKeeps(sv, {}, k, services, probeIp, clearOld, id, jitter);
      assert {} - {k} == {};
    case Renames(keys, ids, jitters) => RestartAllKeeps(sv, keys, ids, jitters);
    case Answering(p, delay) => AnswerKeeps(sv, p, delay);
    case Suppresses(k, rtype, service) => SuppressKeeps(sv, k, rtype, service);
    case LosesConflict(k) => ProbeFailedKeeps(sv, k);
    case Adds(s, svc) => AddServiceKeeps(sv, s, svc);
    case Changes(s, svc) => ChangeServiceKeeps(sv, s, svc);
    case Removes(s) => RemoveServiceKeeps(sv, s);
  }

  /** The responder as it starts: every PCB off, nothing scheduled. */
  ghost predicate Initial(sv: Server) {
    && sv.sched.tx == [] && sv.sched.actions == [] && sv.up == {} && sv.registry == [] && !sv.named
    && (forall k :: k in sv.pcbs ==> sv.pcbs[k] == Pcb(Off, [], false, false, 0))
    && TwinsOk(sv)
  }

  lemma InitialSound(sv: Server)
    requires Initial(sv)
    ensures Sound(sv, {})
  {
    forall k | k in sv.pcbs ensures PcbOk(sv, {}, k) {}
  }

  ghost predicate IsRun(sv: Server, events: seq<Event>)
    requires Sound(sv, {})
    decreases |events|
  {
    events == [] ||
    (Possible(sv, events[0]) && (StepKeeps(sv, events[0]); IsRun(Step(sv, events[0]), events[1..])))
  }

  ghost function After(sv: Server, events: seq<Event>): Server
    requires Sound(sv, {}) && IsRun(sv, events)
    decreases |events|
  {
    if events == [] then sv else (StepKeeps(sv, events[0]); After(Step(sv, events[0]), events[1..]))
  }

  /** What the invariant says of one PCB, spelled out. */
  ghost predicate Promised(sv: Server, k: Key)
    requires k in sv.pcbs
  {
    var b, mine := sv.pcbs[k], Mine(sv.sched.tx, k);
    && (b.probeRunning <==> InProbe(b))
    && (!InProbe(b) ==> b.probeServices == [] && !b.probeIp)
    && NoDup(b.probeServices) && Subset(b.probeServices, sv.registry) && |b.probeServices| <= MAX_SERVICES
    && (InProbe(b) ==> |mine| == 1 && mine[0].answers == [] && Covers(mine[0], b.probeServices, b.probeIp))
    && (IsAnnouncing(b) ==> mine != [])
    && (k !in sv.up ==> mine == [] && (b.state == Off || b.state == Dup))
    && (b.state == Dup ==> k !in sv.up && Partner(sv, k).Some? && Partner(sv, k).value in sv.up
                           && Partner(sv, k).value in sv.pcbs && sv.pcbs[Partner(sv, k).value].state != Dup)
  }

  lemma SoundPromises(sv: Server, k: Key)
    requires Sound(sv, {}) && k in sv.pcbs
    ensures Promised(sv, k)
    ensures forall i :: 0 <= i < |sv.sched.tx| ==> sv.sched.tx[i].pcb in sv.up && PacketRefsIn(sv.sched.tx[i], sv.registry)
  {
    assert PcbOk(sv, {}, k);
    var b := sv.pcbs[k];
    NoDupBound(b.probeServices, sv.registry);
    if b.state == Dup {
      assert PcbOk(sv, {}, Partner(sv, k).value);
    }
  }

  /** In every reachable state: the bookkeeping of every PCB is right, probing PCBs
      have their one packet, duplicates have a partner that is up, and no answer entry of
      a scheduled packet refers to a service that is not registered. */
  lemma {:induction false} RunPromises(sv: Server, events: seq<Event>, k: Key)
    requires Sound(sv, {}) && IsRun(sv, events) && k in After(sv, events).pcbs
    ensures Sound(After(sv, events), {})
    ensures Promised(After(sv, events), k)
    ensures forall i :: 0 <= i < |After(sv, events).sched.tx| ==>
      PacketRefsIn(After(sv, events).sched.tx[i], After(sv, events).registry)
    decreases |events|
  {
    if events == [] {
      SoundPromises(sv, k);
    } else {
      StepKeeps(sv, events[0]);
      RunPromises(Step(sv, events[0]), events[1..], k);
    }
  }

  /** So from the start of the responder on, whatever happens. */
  lemma FromStart(sv: Server, events: seq<Event>, k: Key)
    requires Initial(sv)
    ensures Sound(sv, {})
    ensures IsRun(sv, events) && k in After(sv, events).pcbs ==>
        && Sound(After(sv, events), {}) && Promised(After(sv, events), k)
        && forall i :: 0 <= i < |After(sv, events).sched.tx| ==>
             PacketRefsIn(After(sv, events).sched.tx[i], After(sv, events).registry)
  {
    hide Promised, PacketRefsIn, PcbOk;
    InitialSound(sv);
    if IsRun(sv, events) && k in After(sv, events).pcbs { RunPromises(sv, events, k); }
  }

  /** A probe started on behalf of a received packet keeps the invariant exactly if
      the PCB is up; the code that starts it does not look. */
  lemma ProbeNeedsUp(sv: Server, k: Key, services: seq<nat>, probeIp: bool, id: nat, jitter: nat)
    requires Sound(sv, {}) && k in sv.pcbs && sv.named && Request(sv, services, probeIp) && id !in Ids(sv.sched.tx)
    ensures AllKnown(sv)
    ensures Sound(InitProbe(sv, k, services, probeIp, id, jitter), {}) <==> k in sv.up
  {
    KnownAll(sv, {});
    if k in sv.up {
      FewerIds(sv.sched.tx, k);
      InitProbeKeeps(sv, {}, k, services, probeIp, id, jitter);
      assert {} - {k} == {};
    } else {
      assert !PcbOk(InitProbe(sv, k, services, probeIp, id, jitter), {}, k);
    }
  }

  /** Disabling a PCB always gives a duplicate that waited for it its chance: it is
      no duplicate afterwards, and it is up if its interface could be opened. */
  lemma DisableRetries(sv: Server, k: Key, o: Key, bindOk: bool, id: nat, jitter: nat)
    requires Sound(sv, {}) && k in sv.pcbs && id !in Ids(sv.sched.tx)
    requires o in sv.pcbs && sv.pcbs[o].state == Dup && Partner(sv, o) == Some(k)
    ensures AllKnown(sv)
    ensures var sv' := Disable(sv, k, bindOk, id, jitter);
      && k !in sv'.up && sv'.pcbs[k].state == Off && o in sv'.pcbs && sv'.pcbs[o].state != Dup
      && (bindOk <==> o in sv'.up)
  {
    hide Sound, Without, Insert, CreateProbe, NotProbed;
    KnownAll(sv, {});
    WaitsFor(sv, k, o);
  }

  lemma WaitsFor(sv: Server, k: Key, o: Key)
    requires Sound(sv, {}) && o in sv.pcbs && sv.pcbs[o].state == Dup && Partner(sv, o) == Some(k)
    ensures k in sv.up && o !in sv.up && Partner(sv, k) == Some(o) && o != k
  {
    SoundPromises(sv, o);
  }
}
