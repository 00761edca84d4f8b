/** Section 8.1 of RFC 6762 over whole runs: a PCB announces only after its probe
    packet was sent three times, each more than 250 ms after the one before. */
module ProbeHistory {
  import opened Options
  import opened Packets
  import opened Answers
  import opened Scheduler
  import opened Responder
  import opened ResponderKeeps
  import opened InterfaceKeeps
  import opened TransmitKeeps
  import opened ServiceRemoval
  import opened ResponderRuns

  /** One transmission of the packet of a probing PCB. */
  datatype Shot = Shot(state: PcbState, id: nat, at: nat)

  // ------------------------------------------- what an operation may disturb

  /** Same packets at the same times, whatever they hold. */
  ghost predicate SameTimes(a: seq<Packet>, b: seq<Packet>) {
    |a| == |b| && forall i :: 0 <= i < |a| ==> a[i].id == b[i].id && a[i].sendAt == b[i].sendAt
  }

  /** Unless the PCB starts probing afresh, a probe goes on unchanged, and it does not
      turn into announcing. */
  ghost predicate Undisturbed(sv: Server, sv': Server, k: Key) {
    && k in sv.pcbs && k in sv'.pcbs
    && (InProbe(sv'.pcbs[k]) ==>
          || sv'.pcbs[k].state == Probe1
          || (sv'.pcbs[k].state == sv.pcbs[k].state && SameTimes(Mine(sv.sched.tx, k), Mine(sv'.sched.tx, k))))
    && (IsAnnouncing(sv'.pcbs[k]) ==> !InProbe(sv.pcbs[k]))
  }

  ghost predicate Same(sv: Server, sv': Server, k: Key) {
    k in sv.pcbs && k in sv'.pcbs && sv'.pcbs[k] == sv.pcbs[k] && Mine(sv'.sched.tx, k) == Mine(sv.sched.tx, k)
  }

  /** What InitProbe does, as far as the packets and the state go. */
  lemma ProbeStarted(sv: Server, k: Key, services: seq<nat>, probeIp: bool, id: nat, jitter: nat)
      returns (p: Packet, b: Pcb)
    requires k in sv.pcbs && Known(sv, services) && Known(sv, sv.pcbs[k].probeServices) && sv.named
    ensures p.pcb == k && b.state == Probe1
    ensures InitProbe(sv, k, services, probeIp, id, jitter)
      == SetPcb(SetTx(sv, Insert(Without(sv.sched.tx, k), p)), k, b)
  {
    hide Insert, Without, CreateProbe;
    var c := sv.pcbs[k];
    var asked := if IsProbing(c) then NotProbed(services, c.probeServices) else services;
    NotProbedIn(services, c.probeServices);
    var merged := asked + c.probeServices;
    CreateProbeCovers(id, k, merged, sv.info, true, c.probeIp || probeIp);
    p := CreateProbe(id, k, merged, sv.info, true, c.probeIp || probeIp).(sendAt := sv.sched.now + FirstDelay(c, jitter));
    b := Pcb(Probe1, merged[..|merged| % 256], c.probeIp || probeIp, true, c.failedProbes);
  }

  lemma ReplacedOthers(sv: Server, k: Key, p: Packet, b: Pcb, sv': Server, j: Key)
    requires k in sv.pcbs && j in sv.pcbs && j != k && p.pcb == k
    requires sv' == SetPcb(SetTx(sv, Insert(Without(sv.sched.tx, k), p)), k, b)
    ensures Same(sv, sv', j)
  {
    MineWithout(sv.sched.tx, k, j);
    MineInsert(Without(sv.sched.tx, k), p, j);
  }

  lemma InitProbeDisturbs(sv: Server, k: Key, services: seq<nat>, probeIp: bool, id: nat, jitter: nat, j: Key)
    requires k in sv.pcbs && j in sv.pcbs && Known(sv, services) && Known(sv, sv.pcbs[k].probeServices)
    ensures var sv' := InitProbe(sv, k, services, probeIp, id, jitter);
      && sv'.pcbs.Keys == sv.pcbs.Keys
      && (j != k ==> Same(sv, sv', j))
      && (sv'.pcbs[k].state == Probe1 || sv'.pcbs[k].state == Running)
  {
    if sv.named {
      hide InitProbe, Same;
      var p, b := ProbeStarted(sv, k, services, probeIp, id, jitter);
      if j != k { ReplacedOthers(sv, k, p, b, InitProbe(sv, k, services, probeIp, id, jitter), j); }
    } else {
      MineWithout(sv.sched.tx, k, j);
    }
  }

  lemma ReprobeDisturbs(sv: Server, k: Key, services: seq<nat>, probeIp: bool, clearOld: bool, id: nat, jitter: nat, j: Key)
    requires k in sv.pcbs && j in sv.pcbs && Known(sv, services) && Known(sv, sv.pcbs[k].probeServices)
    ensures var sv' := Reprobe(sv, k, services, probeIp, clearOld, id, jitter);
      && sv'.pcbs.Keys == sv.pcbs.Keys
      && (j != k ==> Same(sv, sv', j))
      && (sv'.pcbs[k].state == Probe1 || sv'.pcbs[k].state == Running)
  {
    hide InitProbe;
    var sv1 := if clearOld then SetPcb(sv, k, sv.pcbs[k].(probeServices := [], probeRunning := false)) else sv;
    InitProbeDisturbs(sv1, k, services, probeIp, id, jitter, j);
  }

  lemma AnnounceDisturbs(sv: Server, k: Key, services: seq<nat>, includeIp: bool, id: nat, jitter: nat, j: Key)
    requires k in sv.pcbs && j in sv.pcbs && Known(sv, services) && Known(sv, sv.pcbs[k].probeServices)
    ensures var sv' := Announce(sv, k, services, includeIp, id, jitter);
      && sv'.pcbs.Keys == sv.pcbs.Keys
      && (j != k ==> Same(sv, sv', j)) && Undisturbed(sv, sv', j)
  {
    hide InitProbe, SameTimes, Insert, AddToAnnounce, CreateAnnounce, Mine;
    SelfTimes(Mine(sv.sched.tx, j));
    var b := sv.pcbs[k];
    if k in sv.up {
      if IsProbing(b) {
        InitProbeDisturbs(sv, k, services, includeIp, id, jitter, j);
      } else if IsAnnouncing(b) {
        var i := FirstOf(sv.sched.tx, k);
        if i < |sv.sched.tx| {
          AddToAnnounceHeader(sv.sched.tx[i], services, sv.info, includeIp);
          MineReplace(sv.sched.tx, i, AddToAnnounce(sv.sched.tx[i], services, sv.info, includeIp), j);
        }
      } else if b.state == Running && sv.named {
        CreateAnnounceHeader(id, k, services, sv.info, includeIp);
        MineInsert(sv.sched.tx, CreateAnnounce(id, k, services, sv.info, includeIp).(sendAt := sv.sched.now), j);
      }
    }
  }

  lemma AddToAnnounceHeader(p: Packet, services: seq<nat>, info: map<nat, Service>, includeIp: bool)
    requires forall s :: s in services ==> s in info
    ensures AddToAnnounce(p, services, info, includeIp).pcb == p.pcb
  {
  }

  lemma CreateAnnounceHeader(id: nat, k: Key, services: seq<nat>, info: map<nat, Service>, includeIp: bool)
    requires forall s :: s in services ==> s in info
    ensures CreateAnnounce(id, k, services, info, includeIp).pcb == k
  {
  }

  lemma SelfTimes(a: seq<Packet>)
    ensures SameTimes(a, a)
  {
  }

  lemma EnableDisturbs(sv: Server, k: Key, bindOk: bool, id: nat, jitter: nat, j: Key)
    requires k in sv.pcbs && j in sv.pcbs && AllKnown(sv)
    ensures var sv' := Enable(sv, k, bindOk, id, jitter);
      && sv'.pcbs.Keys == sv.pcbs.Keys
      && (j != k ==> Same(sv, sv', j)) && Undisturbed(sv, sv', j)
      && (k !in sv.up ==> sv'.pcbs[k].state == Probe1 || sv'.pcbs[k].state == Running || sv'.pcbs[k].state == sv.pcbs[k].state)
  {
    hide InitProbe;
    SelfTimes(Mine(sv.sched.tx, j));
    if k in sv.up || bindOk {
      InitProbeDisturbs(sv.(up := sv.up + {k}), k, sv.registry, true, id, jitter, j);
    }
  }

  lemma DisableDisturbs(sv: Server, k: Key, bindOk: bool, id: nat, jitter: nat, j: Key)
    requires TwinsOk(sv) && k in sv.pcbs && j in sv.pcbs && AllKnown(sv)
    ensures Undisturbed(sv, Disable(sv, k, bindOk, id, jitter), j)
  {
    hide Enable, SameTimes, Without, Mine;
    SelfTimes(Mine(sv.sched.tx, j));
    MineWithout(sv.sched.tx, k, j);
    if k in sv.up && Partner(sv, k).Some? {
      var o := Partner(sv, k).value;
      var down := Deinit(Cleared(sv, k), k);
      if o in down.pcbs && down.pcbs[o].state == Dup {
        var off := SetPcb(down, o, down.pcbs[o].(state := Off));
        EnableDisturbs(off, o, bindOk, id, jitter, j);
        EnableDisturbs(off, o, bindOk, id, jitter, k);
      }
    }
  }

  lemma MarkDupDisturbs(sv: Server, k: Key, id: nat, jitter: nat, j: Key)
    requires TwinsOk(sv) && k in sv.pcbs && j in sv.pcbs && AllKnown(sv)
    ensures Undisturbed(sv, MarkDup(sv, k, id, jitter), j)
  {
    hide Announce, SameTimes, Without;
    SelfTimes(Mine(sv.sched.tx, j));
    MineWithout(sv.sched.tx, k, j);
    var partner := Partner(sv, k);
    if partner.Some? && partner.value in sv.up {
      var o := partner.value;
      assert o != k;
      var down := if k in sv.up then Deinit(Cleared(sv, k), k) else sv;
      var marked := SetPcb(down, k, down.pcbs[k].(state := Dup));
      AnnounceDisturbs(marked, o, [], true, id, jitter, j);
    }
  }

  lemma ReprobeAllDisturbs(sv: Server, keys: seq<Key>, ids: seq<nat>, jitters: seq<nat>, j: Key)
    requires |ids| == |keys| == |jitters| && AllKnown(sv) && (forall k :: k in keys ==> k in sv.pcbs) && j in sv.pcbs
    ensures var sv' := ReprobeAll(sv, keys, ids, jitters);
      && sv'.pcbs.Keys == sv.pcbs.Keys
      && (j in keys && j in sv.up ==> sv'.pcbs[j].state == Probe1 || sv'.pcbs[j].state == Running)
      && (sv'.pcbs[j].state == Probe1 || sv'.pcbs[j].state == Running || Same(sv, sv', j))
    decreases |keys|
  {
    if keys != [] {
      hide Reprobe;
      assert keys[0] in keys;
      var sv1 := if keys[0] in sv.up then Reprobe(sv, keys[0], sv.registry, true, true, ids[0], jitters[0]) else sv;
      ReprobeDisturbs(sv, keys[0], sv.registry, true, true, ids[0], jitters[0], j);
      ReprobeKnown(sv, keys[0], ids[0], jitters[0]);
      ReprobeAllDisturbs(sv1, keys[1..], ids[1..], jitters[1..], j);
    }
  }

  lemma RestartAllDisturbs(sv: Server, keys: seq<Key>, ids: seq<nat>, jitters: seq<nat>, j: Key)
    requires |ids| == |keys| == |jitters| && AllKnown(sv) && (forall k :: k in keys <==> k in sv.pcbs)
    requires j in sv.pcbs && (j !in sv.up ==> sv.pcbs[j].state == Off || sv.pcbs[j].state == Dup)
    ensures Undisturbed(sv, RestartAll(sv, keys, ids, jitters), j)
  {
    hide ReprobeAll;
    ReprobeAllDisturbs(SetTx(sv, []).(named := true), keys, ids, jitters, j);
  }

  lemma DownIsDown(sv: Server, j: Key)
    requires Sound(sv, {}) && j in sv.pcbs
    ensures j !in sv.up ==> sv.pcbs[j].state == Off || sv.pcbs[j].state == Dup
    ensures TwinsOk(sv) && AllKnown(sv) && KeysIn(sv.sched.tx, sv.pcbs)
  {
    assert PcbOk(sv, {}, j);
    KnownAll(sv, {});
  }

  lemma AnswerTimes(tx: seq<Packet>, q: Packet, j: Key, b: Pcb)
    requires Rank(b.state) > Rank(Probe3)
    ensures InProbe(b) ==> SameTimes(Mine(tx, j), Mine(Insert(tx, q), j))
    ensures q.pcb != j ==> SameTimes(Mine(tx, j), Mine(Insert(tx, q), j))
  {
    MineInsert(tx, q, j);
  }

  lemma AnswerDisturbs(sv: Server, p: Packet, delay: nat, j: Key)
    requires p.pcb in sv.pcbs && j in sv.pcbs
    ensures Undisturbed(sv, ScheduleAnswer(sv, p, delay), j)
  {
    SelfTimes(Mine(sv.sched.tx, j));
    if Rank(sv.pcbs[p.pcb].state) > Rank(Probe3) {
      hide Insert, SameTimes;
      AnswerTimes(sv.sched.tx, p.(sendAt := sv.sched.now + delay), j, sv.pcbs[p.pcb]);
    }
  }

  lemma ProbeRemovedTimes(b: Pcb, mine: seq<Packet>, s: nat, svc: Service)
    requires InProbe(b) && |mine| == 1 && ProbePacket(mine[0], b) && NoDup(b.probeServices)
    ensures !IsAnnouncing(PcbAfter(mine, b, true, s))
    ensures InProbe(PcbAfter(mine, b, true, s)) ==>
      PcbAfter(mine, b, true, s).state == b.state && SameTimes(mine, MineAfter(mine, b, true, s, svc))
  {
    assert mine == [mine[0]] + [];
    ProbingAfter(mine[0], b, s, svc, []);
    AfterCons(mine[0], [], b, true, s, svc);
  }

  lemma RemoveDisturbs(sv: Server, s: nat, j: Key)
    requires Sound(sv, {}) && s in sv.registry && KeysIn(sv.sched.tx, sv.pcbs) && j in sv.pcbs
    ensures Undisturbed(sv, RemoveService(sv, s), j)
  {
    hide Orderly, DropLoop, PcbAfter, MineAfter, SameTimes;
    assert PcbOk(sv, {}, j);
    var b, mine := sv.pcbs[j], Mine(sv.sched.tx, j);
    DropLoopMine(sv.sched.tx, sv.pcbs, sv.up, s, sv.info[s], j);
    if InProbe(b) {
      ProbeRemovedTimes(b, mine, s, sv.info[s]);
    } else if j in sv.up {
      RunsOrAnnounces(mine, b, s);
    } else {
      NoPackets(b, s);
    }
  }

  lemma NoPackets(b: Pcb, s: nat)
    ensures PcbAfter([], b, false, s) == b
  {
  }

  /** An event other than taking an action disturbs no probe. */
  lemma OthersUndisturbed(sv: Server, e: Event, j: Key)
    requires Sound(sv, {}) && Possible(sv, e) && !e.TakesAction? && j in sv.pcbs
    ensures Undisturbed(sv, Step(sv, e), j)
  {
    hide Sound, PcbOk, Insert, Without, Enable, Disable, MarkDup, Announce, Reprobe, RestartAll, RemoveService, ScheduleAnswer, FailuresLast, SameTimes, Orderly, Mine, PacketsOk, RegistryOk, TwinsOk, DropAnswers, TimerRun, DupsOk, PcbsOk;
    SoundUsable(sv);
    DownIsDown(sv, j);
    SelfTimes(Mine(sv.sched.tx, j));
    match e
    case Clock(ms) =>
    case TimerRuns(sends) => TimerUndisturbed(sv, sends, j);
    case Enables(k, bindOk, id, jitter) => EnableDisturbs(sv, k, bindOk, id, jitter, j);
    case Disables(k, bindOk, id, jitter) => DisableDisturbs(sv, k, bindOk, id, jitter, j);
    case MarksDuplicate(k, id, jitter) => MarkDupDisturbs(sv, k, id, jitter, j);
    case Announcing(k, services, includeIp, id, jitter) => AnnounceDisturbs(sv, k, services, includeIp, id, jitter, j);
    case Probes(k, services, probeIp, clearOld, id, jitter) =>
      ReprobeDisturbs(sv, k, services, probeIp, clearOld, id, jitter, j);
    case Renames(keys, ids, jitters) => RestartAllDisturbs(sv, keys, ids, jitters, j);
    case Answering(p, delay) => AnswerDisturbs(sv, p, delay, j);
    case Suppresses(k, rtype, service) => SuppressUndisturbed(sv, k, rtype, service, j);
    case LosesConflict(k) =>
    case Adds(s, svc) =>
    case Changes(s, svc) =>
    case Removes(s) => RemoveDisturbs(sv, s, j);
  }

  lemma TimerUndisturbed(sv: Server, sends: seq<bool>, j: Key)
    requires |sends| == |sv.sched.tx| && j in sv.pcbs
    ensures Undisturbed(sv, sv.(sched := TimerRun(sv.sched, sends)), j)
  {
    var t := TimerRun(sv.sched, sends);
    TimerAt(sv.sched, sends);
    assert forall i :: 0 <= i < |t.tx| ==> t.tx[i] == sv.sched.tx[i].(queued := t.tx[i].queued);
    hide TimerRun;
    MineMarked(sv.sched.tx, t.tx, j);
  }

  lemma SuppressUndisturbed(sv: Server, k: Key, rtype: RecordType, service: Option<nat>, j: Key)
    requires j in sv.pcbs
    ensures Undisturbed(sv, SetTx(sv, DropAnswers(sv.sched.tx, k, rtype, service)), j)
  {
    DropAnswersMine(sv.sched.tx, k, rtype, service, j);
  }

  // ---------------------------------------------------------------- histories

  type History = map<Key, seq<Shot>>

  /** The transmissions of each PCB's probe packet since it last started to probe. */
  ghost function Recorded(sv: Server, e: Event, h: History): History
    requires Sound(sv, {}) && Possible(sv, e)
  {
    if e.TakesAction? then
      if Accepts(sv.sched) && sv.sched.tx[0].pcb in sv.pcbs && sv.sched.tx[0].pcb in h && InProbe(sv.pcbs[sv.sched.tx[0].pcb]) then
        var p := sv.sched.tx[0];
        h[p.pcb := h[p.pcb] + [Shot(sv.pcbs[p.pcb].state, p.id, sv.sched.now)]]
      else h
    else
      var sv' := Step(sv, e);
      map k | k in h :: if k in sv'.pcbs && sv'.pcbs[k].state == Probe1 then [] else h[k]
  }

  /** One packet, sent in each of the three probe states, in order, more than 250 ms
      apart; the last state may see it again if no announcement could be built. */
  ghost predicate Spaced(shots: seq<Shot>, id: nat) {
    && (forall i :: 0 <= i < |shots| ==>
          shots[i].id == id && shots[i].state == (if i == 0 then Probe1 else if i == 1 then Probe2 else Probe3))
    && (forall i :: 0 < i < |shots| ==> shots[i - 1].at + 250 < shots[i].at)
  }

  ghost predicate Fits(b: Pcb, mine: seq<Packet>, shots: seq<Shot>) {
    InProbe(b) ==>
      && |mine| == 1 && Spaced(shots, mine[0].id)
      && (shots != [] ==> mine[0].sendAt == shots[|shots| - 1].at + 250)
      && (match b.state case Probe1 => |shots| == 0 case Probe2 => |shots| == 1 case _ => |shots| >= 2)
  }

  ghost predicate HistoryOk(sv: Server, h: History) {
    forall k :: k in sv.pcbs ==> k in h && Fits(sv.pcbs[k], Mine(sv.sched.tx, k), h[k])
  }

  lemma OneMine(sv: Server, k: Key)
    requires Sound(sv, {}) && k in sv.pcbs && InProbe(sv.pcbs[k])
    ensures |Mine(sv.sched.tx, k)| == 1
  {
    assert PcbOk(sv, {}, k);
  }

  lemma OthersFit(sv: Server, e: Event, h: History, k: Key)
    requires Sound(sv, {}) && Possible(sv, e) && !e.TakesAction? && HistoryOk(sv, h) && k in sv.pcbs
    ensures var sv' := Step(sv, e);
      k in sv'.pcbs && k in Recorded(sv, e, h) && Fits(sv'.pcbs[k], Mine(sv'.sched.tx, k), Recorded(sv, e, h)[k])
  {
    hide Step, Sound, Possible;
    OthersUndisturbed(sv, e, k);
    StepKeeps(sv, e);
    if InProbe(Step(sv, e).pcbs[k]) { OneMine(Step(sv, e), k); }
  }

  lemma HandleOthers(sv: Server, p: Packet, allocOk: bool, id: nat, k: Key)
    requires p.pcb in sv.pcbs && k in sv.pcbs && ServersKnown(sv, p)
    ensures var sv' := Handle(sv, p, allocOk, id);
      && k in sv'.pcbs && (k != p.pcb ==> Same(sv, sv', k))
      && (k == p.pcb && !InProbe(sv.pcbs[k]) ==> !InProbe(sv'.pcbs[k]))
  {
    hide Insert, Multicast, Mine, AnnounceEntries;
    if InProbe(sv.pcbs[p.pcb]) && !(sv.pcbs[p.pcb].state == Probe3 && allocOk) {
      HandleAgain(sv, p, allocOk, id);
      var (q, b) := Again(p, sv.pcbs[p.pcb], sv.sched.now);
      MineInsert(sv.sched.tx, q, k);
    } else if sv.pcbs[p.pcb].state == Probe3 {
      HandleAnnounced(sv, p, id);
      MineInsert(sv.sched.tx, AnnounceFromProbe(id, p, sv.info).(sendAt := sv.sched.now + 250), k);
    } else {
      MineInsert(sv.sched.tx, p.(sendAt := sv.sched.now + 1000), k);
    }
  }

  lemma HandleProbe(sv: Server, p: Packet, allocOk: bool, id: nat)
    requires p.pcb in sv.pcbs && ServersKnown(sv, p) && InProbe(sv.pcbs[p.pcb]) && Mine(sv.sched.tx, p.pcb) == []
    ensures var sv' := Handle(sv, p, allocOk, id); var k := p.pcb;
      && k in sv'.pcbs && Advances(sv.pcbs[k].state, sv'.pcbs[k].state)
      && (InProbe(sv'.pcbs[k]) ==>
            |Mine(sv'.sched.tx, k)| == 1 && Mine(sv'.sched.tx, k)[0].id == p.id
            && Mine(sv'.sched.tx, k)[0].sendAt == sv.sched.now + 250)
  {
    hide Handle, Insert, Multicast, AnnounceFromProbe;
    if !(sv.pcbs[p.pcb].state == Probe3 && allocOk) {
      HandleAgain(sv, p, allocOk, id);
      var (q, b) := Again(p, sv.pcbs[p.pcb], sv.sched.now);
      MineInsert(sv.sched.tx, q, p.pcb);
    } else {
      HandleAnnounced(sv, p, id);
    }
  }

  /** The state after one transmission of the probe packet. */
  predicate Advances(s: PcbState, s': PcbState) {
    match s
    case Probe1 => s' == Probe2
    case Probe2 => s' == Probe3
    case Probe3 => s' == Probe3 || s' == Announce1
    case _ => true
  }

  lemma ActionOthers(sv: Server, allocOk: bool, id: nat, k: Key)
    requires Sound(sv, {}) && Possible(sv, TakesAction(allocOk, id)) && k in sv.pcbs
    requires !(Accepts(sv.sched) && sv.sched.tx[0].pcb == k)
    ensures Same(sv, Step(sv, TakesAction(allocOk, id)), k)
  {
    SoundUsable(sv);
    var taken := sv.(sched := Take(sv.sched));
    if Accepts(sv.sched) {
      HeadPacket(sv, {});
      var p := sv.sched.tx[0].(queued := false);
      hide Sound, Insert;
      HandleOthers(taken, p, allocOk, id, k);
      MineHead(sv.sched.tx, k);
    }
  }

  lemma MineHead(tx: seq<Packet>, k: Key)
    requires tx != []
    ensures Mine(tx, k) == (if tx[0].pcb == k then [tx[0]] else []) + Mine(tx[1..], k)
  {
  }

  lemma ActionAdvances(sv: Server, allocOk: bool, id: nat, k: Key)
    requires Sound(sv, {}) && Possible(sv, TakesAction(allocOk, id)) && k in sv.pcbs
    requires Accepts(sv.sched) && sv.sched.tx[0].pcb == k && InProbe(sv.pcbs[k])
    ensures var sv' := Step(sv, TakesAction(allocOk, id)); var p := sv.sched.tx[0];
      && p.sendAt < sv.sched.now && Mine(sv.sched.tx, k) == [p]
      && k in sv'.pcbs && Advances(sv.pcbs[k].state, sv'.pcbs[k].state)
      && (InProbe(sv'.pcbs[k]) ==>
            |Mine(sv'.sched.tx, k)| == 1 && Mine(sv'.sched.tx, k)[0].id == p.id
            && Mine(sv'.sched.tx, k)[0].sendAt == sv.sched.now + 250)
  {
    SoundUsable(sv);
    var taken := sv.(sched := Take(sv.sched));
    var p := sv.sched.tx[0].(queued := false);
    assert p.sendAt < sv.sched.now;
    OneMine(sv, k);
    MineHead(sv.sched.tx, k);
    hide Sound, Insert;
    assert Mine(taken.sched.tx, k) == [];
    HandleProbe(taken, p, allocOk, id);
  }

  lemma ShotFits(b: Pcb, p: Packet, now: nat, shots: seq<Shot>, b': Pcb, mine': seq<Packet>)
    requires InProbe(b) && Fits(b, [p], shots) && p.sendAt < now && Advances(b.state, b'.state)
    requires InProbe(b') ==> |mine'| == 1 && mine'[0].id == p.id && mine'[0].sendAt == now + 250
    ensures var more := shots + [Shot(b.state, p.id, now)]; Spaced(more, p.id) && Fits(b', mine', more)
    ensures b'.state == Announce1 ==> |shots| >= 2
  {
  }

  lemma ActionFits(sv: Server, allocOk: bool, id: nat, h: History, k: Key)
    requires Sound(sv, {}) && Possible(sv, TakesAction(allocOk, id)) && HistoryOk(sv, h) && k in sv.pcbs
    requires Accepts(sv.sched) && sv.sched.tx[0].pcb == k && InProbe(sv.pcbs[k])
    ensures var sv' := Step(sv, TakesAction(allocOk, id)); var h' := Recorded(sv, TakesAction(allocOk, id), h);
      && k in h' && k in sv'.pcbs
      && Spaced(h'[k], sv.sched.tx[0].id) && Fits(sv'.pcbs[k], Mine(sv'.sched.tx, k), h'[k])
      && (sv'.pcbs[k].state == Announce1 ==> |h'[k]| >= 3)
  {
    hide Sound, Step, Spaced, Fits, Advances;
    ActionAdvances(sv, allocOk, id, k);
    assert k in h && Fits(sv.pcbs[k], Mine(sv.sched.tx, k), h[k]);
    var sv' := Step(sv, TakesAction(allocOk, id));
    ShotFits(sv.pcbs[k], sv.sched.tx[0], sv.sched.now, h[k], sv'.pcbs[k], Mine(sv'.sched.tx, k));
  }

  lemma ActionRest(sv: Server, allocOk: bool, id: nat, k: Key)
    requires Sound(sv, {}) && Possible(sv, TakesAction(allocOk, id)) && k in sv.pcbs
    requires Accepts(sv.sched) && sv.sched.tx[0].pcb == k && !InProbe(sv.pcbs[k])
    ensures var sv' := Step(sv, TakesAction(allocOk, id)); k in sv'.pcbs && !InProbe(sv'.pcbs[k])
  {
    SoundUsable(sv);
    HeadPacket(sv, {});
    hide Sound, Insert;
    HandleOthers(sv.(sched := Take(sv.sched)), sv.sched.tx[0].(queued := false), allocOk, id, k);
  }

  lemma PcbFits(sv: Server, e: Event, h: History, k: Key)
    requires Sound(sv, {}) && Possible(sv, e) && HistoryOk(sv, h) && k in sv.pcbs
    ensures var sv' := Step(sv, e);
      k in sv'.pcbs && k in Recorded(sv, e, h) && Fits(sv'.pcbs[k], Mine(sv'.sched.tx, k), Recorded(sv, e, h)[k])
  {
    hide Step, Sound, Spaced;
    assert k in h && Fits(sv.pcbs[k], Mine(sv.sched.tx, k), h[k]);
    if e.TakesAction? {
      if !(Accepts(sv.sched) && sv.sched.tx[0].pcb == k) {
        ActionOthers(sv, e.allocOk, e.id, k);
      } else if InProbe(sv.pcbs[k]) {
        ActionFits(sv, e.allocOk, e.id, h, k);
      } else {
        ActionRest(sv, e.allocOk, e.id, k);
      }
    } else {
      OthersFit(sv, e, h, k);
    }
  }

  lemma HandleKeys(sv: Server, p: Packet, allocOk: bool, id: nat)
    requires p.pcb in sv.pcbs && ServersKnown(sv, p)
    ensures Handle(sv, p, allocOk, id).pcbs.Keys == sv.pcbs.Keys
  {
    hide Handle, Insert, Multicast, AnnounceFromProbe;
    var s := sv.pcbs[p.pcb].state;
    if s == Announce1 || s == Announce2 || (InProbe(sv.pcbs[p.pcb]) && !(s == Probe3 && allocOk)) {
      HandleAgain(sv, p, allocOk, id);
    } else if s == Probe3 {
      HandleAnnounced(sv, p, id);
    } else {
      HandleLast(sv, p, allocOk, id);
    }
  }

  lemma AnnounceKeys(sv: Server, k: Key, services: seq<nat>, includeIp: bool, id: nat, jitter: nat)
    requires k in sv.pcbs && Known(sv, services) && Known(sv, sv.pcbs[k].probeServices)
    ensures Announce(sv, k, services, includeIp, id, jitter).pcbs.Keys == sv.pcbs.Keys
  {
    hide Announce;
    AnnounceDisturbs(sv, k, services, includeIp, id, jitter, k);
  }

  lemma InterfaceKeys(sv: Server, k: Key, bindOk: bool, id: nat, jitter: nat)
    requires k in sv.pcbs && AllKnown(sv)
    ensures Disable(sv, k, bindOk, id, jitter).pcbs.Keys == sv.pcbs.Keys
    ensures MarkDup(sv, k, id, jitter).pcbs.Keys == sv.pcbs.Keys
  {
    hide Enable, Announce, Without;
    if Partner(sv, k).Some? {
      var o := Partner(sv, k).value;
      var down := Deinit(Cleared(sv, k), k);
      if k in sv.up && o in down.pcbs && down.pcbs[o].state == Dup {
        EnableDisturbs(SetPcb(down, o, down.pcbs[o].(state := Off)), o, bindOk, id, jitter, o);
      }
      if o in sv.up && o in sv.pcbs {
        var down' := if k in sv.up then down else sv;
        AnnounceKeys(SetPcb(down', k, down'.pcbs[k].(state := Dup)), o, [], true, id, jitter);
      }
    }
  }

  lemma StepKeys(sv: Server, e: Event)
    requires Sound(sv, {}) && Possible(sv, e)
    ensures Step(sv, e).pcbs.Keys == sv.pcbs.Keys
  {
    hide Sound, Enable, Disable, MarkDup, Announce, Reprobe, RestartAll, RemoveService, Handle, TimerRun, Insert;
    SoundUsable(sv);
    match e
    case TakesAction(allocOk, id) =>
      if Accepts(sv.sched) { HandleKeys(sv.(sched := Take(sv.sched)), sv.sched.tx[0].(queued := false), allocOk, id); }
    case Enables(k, bindOk, id, jitter) => EnableDisturbs(sv, k, bindOk, id, jitter, k);
    case Disables(k, bindOk, id, jitter) => InterfaceKeys(sv, k, bindOk, id, jitter);
    case MarksDuplicate(k, id, jitter) => InterfaceKeys(sv, k, true, id, jitter);
    case Announcing(k, services, includeIp, id, jitter) => AnnounceKeys(sv, k, services, includeIp, id, jitter);
    case Probes(k, services, probeIp, clearOld, id, jitter) =>
      ReprobeDisturbs(sv, k, services, probeIp, clearOld, id, jitter, k);
    case Renames(keys, ids, jitters) => RestartAllKeys(sv, keys, ids, jitters);
    case Removes(s) => RemovedKeys(sv, s);
    case _ =>
  }

  lemma RestartAllKeys(sv: Server, keys: seq<Key>, ids: seq<nat>, jitters: seq<nat>)
    requires |ids| == |keys| == |jitters| && AllKnown(sv) && (forall k :: k in keys ==> k in sv.pcbs)
    ensures RestartAll(sv, keys, ids, jitters).pcbs.Keys == sv.pcbs.Keys
  {
    if keys != [] {
      hide ReprobeAll;
      assert keys[0] in keys;
      ReprobeAllDisturbs(SetTx(sv, []).(named := true), keys, ids, jitters, keys[0]);
    }
  }

  // ------------------------------------------------------------- the theorem

  lemma StepHistory(sv: Server, e: Event, h: History)
    requires Sound(sv, {}) && Possible(sv, e) && HistoryOk(sv, h)
    ensures HistoryOk(Step(sv, e), Recorded(sv, e, h))
  {
    hide Step, Sound, Possible, Fits, Recorded;
    StepKeys(sv, e);
    forall k | k in Step(sv, e).pcbs
      ensures k in Recorded(sv, e, h) && Fits(Step(sv, e).pcbs[k], Mine(Step(sv, e).sched.tx, k), Recorded(sv, e, h)[k])
    {
      PcbFits(sv, e, h, k);
    }
  }

  ghost function RecordedRun(sv: Server, events: seq<Event>, h: History): History
    requires Sound(sv, {}) && ResponderRuns.IsRun(sv, events)
    decreases |events|
  {
    if events == [] then h
    else StepKeeps(sv, events[0]); RecordedRun(Step(sv, events[0]), events[1..], Recorded(sv, events[0], h))
  }

  lemma {:induction false} RunHistory(sv: Server, events: seq<Event>, h: History)
    requires Sound(sv, {}) && ResponderRuns.IsRun(sv, events) && HistoryOk(sv, h)
    ensures Sound(ResponderRuns.After(sv, events), {})
    ensures HistoryOk(ResponderRuns.After(sv, events), RecordedRun(sv, events, h))
    decreases |events|
  {
    hide Step, Sound, HistoryOk, Possible;
    if events != [] {
      StepKeeps(sv, events[0]);
      StepHistory(sv, events[0], h);
      RunHistory(Step(sv, events[0]), events[1..], Recorded(sv, events[0], h));
    }
  }

  /** On every run from the start: when a PCB goes from probing to announcing, the
      probe packet has been sent in each of the three probe states since the PCB last
      started to probe, always the same packet, each time more than 250 ms later. */
  lemma ThreeProbes(sv: Server, events: seq<Event>, e: Event, k: Key)
    requires Initial(sv) && Sound(sv, {}) && ResponderRuns.IsRun(sv, events)
    requires Sound(ResponderRuns.After(sv, events), {}) && Possible(ResponderRuns.After(sv, events), e)
    requires k in ResponderRuns.After(sv, events).pcbs && k in Step(ResponderRuns.After(sv, events), e).pcbs
    requires InProbe(ResponderRuns.After(sv, events).pcbs[k])
    requires IsAnnouncing(Step(ResponderRuns.After(sv, events), e).pcbs[k])
    ensures var none: History := map j | j in sv.pcbs :: [];
      var shots := Recorded(ResponderRuns.After(sv, events), e, RecordedRun(sv, events, none));
      && k in shots && |shots[k]| >= 3
      && shots[k][0].state == Probe1 && shots[k][1].state == Probe2 && shots[k][2].state == Probe3
      && Spaced(shots[k], shots[k][0].id)
  {
    hide Step, Sound;
    var none: History := map j | j in sv.pcbs :: [];
    assert HistoryOk(sv, none);
    RunHistory(sv, events, none);
    LastShot(ResponderRuns.After(sv, events), e, RecordedRun(sv, events, none), k);
  }

  lemma LastShot(sv: Server, e: Event, h: History, k: Key)
    requires Sound(sv, {}) && Possible(sv, e) && HistoryOk(sv, h) && k in sv.pcbs && k in Step(sv, e).pcbs
    requires InProbe(sv.pcbs[k]) && IsAnnouncing(Step(sv, e).pcbs[k])
    ensures k in Recorded(sv, e, h) && |Recorded(sv, e, h)[k]| >= 3
    ensures Spaced(Recorded(sv, e, h)[k], Recorded(sv, e, h)[k][0].id)
  {
    hide Step, Sound, Recorded;
    if e.TakesAction? {
      if Accepts(sv.sched) && sv.sched.tx[0].pcb == k {
        ActionAdvances(sv, e.allocOk, e.id, k);
        ActionFits(sv, e.allocOk, e.id, h, k);
      } else {
        ActionOthers(sv, e.allocOk, e.id, k);
      }
    } else {
      OthersUndisturbed(sv, e, k);
    }
  }
}
