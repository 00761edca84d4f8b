/** What the operations of the responder leave behind, beside the invariant they keep. */
module OperationEffects {
  import opened Options
  import opened Packets
  import opened Answers
  import opened Scheduler
  import opened Responder
  import opened ResponderKeeps
  import opened InterfaceKeeps
  import opened ResponderRuns
  import opened ProbeHistory
  import opened PacketEntries

  // --------------------------------------------------- known answers, answers

  /** A known answer takes the first matching answer out of every scheduled reply to a
      truncated query on the PCB, and changes nothing else. */
  lemma {:induction false} SuppressExact(tx: seq<Packet>, k: Key, rtype: RecordType, service: Option<nat>)
    ensures var r := DropAnswers(tx, k, rtype, service);
      |r| == |tx| && forall i :: 0 <= i < |tx| ==>
        if tx[i].pcb == k && tx[i].distributed
        then r[i] == tx[i].(answers := r[i].answers) && FirstGone(tx[i].answers, r[i].answers, rtype, service)
        else r[i] == tx[i]
  {
    hide DeallocEntry, FirstGone;
    if tx != [] {
      DeallocGone(tx[0].answers, rtype, service);
      SuppressExact(tx[1..], k, rtype, service);
      var r, rest := DropAnswers(tx, k, rtype, service), DropAnswers(tx[1..], k, rtype, service);
      forall i | 0 < i < |tx| ensures r[i] == rest[i - 1] && tx[i] == tx[1..][i - 1] {}
    }
  }

  /** An answer is scheduled, after its delay, exactly on a PCB that announces or runs. */
  lemma AnswerExact(sv: Server, p: Packet, delay: nat)
    requires p.pcb in sv.pcbs
    ensures var sv' := ScheduleAnswer(sv, p, delay); var s := sv.pcbs[p.pcb].state;
      if s == Announce1 || s == Announce2 || s == Announce3 || s == Running then
        && sv' == SetTx(sv, sv'.sched.tx)
        && forall q :: q in sv'.sched.tx <==> q in sv.sched.tx || q == p.(sendAt := sv.sched.now + delay)
      else sv' == sv
  {
    hide Insert;
    InsertIn(sv.sched.tx, p.(sendAt := sv.sched.now + delay));
  }

  // -------------------------------------------------------------- interfaces

  /** The PCB is up and has just begun to probe, for all of the registry and the addresses,
      with one packet; or it runs, without a packet, while there is no host name. */
  ghost predicate Started(sv: Server, k: Key, named: bool) {
    && k in sv.pcbs && k in sv.up
    && (if named then
          && sv.pcbs[k].state == Probe1 && sv.pcbs[k].probeIp && Subset(sv.registry, sv.pcbs[k].probeServices)
          && |Mine(sv.sched.tx, k)| == 1 && Mine(sv.sched.tx, k)[0].sendAt > sv.sched.now
        else sv.pcbs[k].state == Running && Mine(sv.sched.tx, k) == [])
  }

  /** The other PCBs are as they were. */
  ghost predicate OthersSame(sv: Server, sv': Server, k: Key) {
    && sv'.pcbs.Keys == sv.pcbs.Keys
    && forall j :: j in sv.pcbs && j != k ==> Same(sv, sv', j) && (j in sv'.up <==> j in sv.up)
  }

  lemma InitStarted(sv: Server, k: Key, id: nat, jitter: nat)
    requires k in sv.pcbs && k in sv.up && AllKnown(sv) && RegistryOk(sv) && PcbReady(sv.pcbs[k], sv.registry)
    ensures var sv' := InitProbe(sv, k, sv.registry, true, id, jitter);
      Started(sv', k, sv.named) && OthersSame(sv, sv', k)
  {
    hide InitProbe, Insert, Without, Mine, CreateProbe;
    var sv' := InitProbe(sv, k, sv.registry, true, id, jitter);
    MineWithout(sv.sched.tx, k, k);
    if sv.named {
      InitProbeList(sv, k, sv.registry, true, id, jitter);
      var p := InitProbeAs(sv, k, sv.registry, true, id, jitter);
      MineInsert(Without(sv.sched.tx, k), p, k);
    } else {
      UnnamedInit(sv, k, id, jitter);
    }
    InitProbeDisturbs(sv, k, sv.registry, true, id, jitter, k);
    forall j | j in sv.pcbs && j != k ensures Same(sv, sv', j) && (j in sv'.up <==> j in sv.up) {
      InitProbeDisturbs(sv, k, sv.registry, true, id, jitter, j);
      InitUp(sv, k, id, jitter);
    }
  }

  lemma UnnamedInit(sv: Server, k: Key, id: nat, jitter: nat)
    requires k in sv.pcbs && AllKnown(sv) && !sv.named
    ensures InitProbe(sv, k, sv.registry, true, id, jitter)
      == SetPcb(SetTx(sv, Without(sv.sched.tx, k)), k, sv.pcbs[k].(state := Running))
  {
  }

  lemma InitUp(sv: Server, k: Key, id: nat, jitter: nat)
    requires k in sv.pcbs && AllKnown(sv)
    ensures var sv' := InitProbe(sv, k, sv.registry, true, id, jitter);
      sv'.up == sv.up && sv'.registry == sv.registry && sv'.sched.now == sv.sched.now && sv'.twin == sv.twin
  {
    hide Insert, Without, CreateProbe, NotProbed;
    NotProbedIn(sv.registry, sv.pcbs[k].probeServices);
  }

  lemma ReadyPcb(sv: Server, k: Key)
    requires Sound(sv, {}) && k in sv.pcbs
    ensures AllKnown(sv) && RegistryOk(sv) && TwinsOk(sv) && PcbReady(sv.pcbs[k], sv.registry) && sv.up <= sv.pcbs.Keys
    ensures k !in sv.up ==> Mine(sv.sched.tx, k) == []
  {
    assert PcbOk(sv, {}, k);
    KnownAll(sv, {});
  }

  /** Enabling a PCB: if its interface is open or can be opened it is up and starts to
      probe; if not it stays down and only forgets its lost conflicts. Nothing happens to
      the other PCBs. */
  lemma EnableExact(sv: Server, k: Key, bindOk: bool, id: nat, jitter: nat)
    requires Sound(sv, {}) && k in sv.pcbs
    ensures AllKnown(sv)
    ensures var sv' := Enable(sv, k, bindOk, id, jitter);
      if k in sv.up || bindOk then Started(sv', k, sv.named) && OthersSame(sv, sv', k)
      else sv' == SetPcb(sv, k, sv.pcbs[k].(failedProbes := 0)) && k !in sv'.up
  {
    hide InitProbe, Started, Sound, Mine;
    ReadyPcb(sv, k);
    if k in sv.up || bindOk {
      var open := sv.(up := sv.up + {k});
      InitStarted(open, k, id, jitter);
    }
  }

  /** The PCB is down and off without a packet, as at the start if it was up, and no other
      is touched but `waits`. */
  ghost predicate LeftDown(sv: Server, sv': Server, k: Key, waits: Option<Key>) {
    && k in sv.pcbs && k in sv'.pcbs && k !in sv'.up && sv'.pcbs[k].state == Off && Mine(sv'.sched.tx, k) == []
    && (k in sv.up ==> sv'.pcbs[k] == Pcb(Off, [], false, false, 0))
    && forall j :: j in sv.pcbs && j != k && waits != Some(j) ==> Same(sv, sv', j) && (j in sv'.up <==> j in sv.up)
  }

  /** The duplicate that waits for the PCB. */
  function Waiter(sv: Server, k: Key): Option<Key> {
    var o := Partner(sv, k);
    if k in sv.up && o.Some? && o.value in sv.pcbs && o.value != k && sv.pcbs[o.value].state == Dup then o else None
  }

  /** Disabling a PCB leaves it down; only a duplicate that waited for it is touched beside. */
  lemma DisableExact(sv: Server, k: Key, bindOk: bool, id: nat, jitter: nat)
    requires Sound(sv, {}) && k in sv.pcbs
    ensures AllKnown(sv)
    ensures LeftDown(sv, Disable(sv, k, bindOk, id, jitter), k, Waiter(sv, k))
  {
    hide Sound, LeftDown, Disable;
    ReadyPcb(sv, k);
    if k !in sv.up {
      DisableOff(sv, k, bindOk, id, jitter);
    } else if Waiter(sv, k).Some? {
      DisableRetry(sv, k, Waiter(sv, k).value, bindOk, id, jitter);
    } else {
      DisableAlone(sv, k, bindOk, id, jitter);
    }
  }

  lemma DisableOff(sv: Server, k: Key, bindOk: bool, id: nat, jitter: nat)
    requires k in sv.pcbs && AllKnown(sv) && k !in sv.up && Mine(sv.sched.tx, k) == []
    ensures LeftDown(sv, Disable(sv, k, bindOk, id, jitter), k, None)
  {
    hide Enable, Mine;
  }

  lemma DisableAlone(sv: Server, k: Key, bindOk: bool, id: nat, jitter: nat)
    requires k in sv.pcbs && AllKnown(sv) && TwinsOk(sv) && k in sv.up && Waiter(sv, k) == None
    ensures LeftDown(sv, Disable(sv, k, bindOk, id, jitter), k, None)
  {
    hide Enable, Mine, Same, Without, Cleared, Deinit;
    DownIs(sv, k);
    var down := Deinit(Cleared(sv, k), k);
    assert SetPcb(down, k, down.pcbs[k].(state := Off)) == down;
    assert Disable(sv, k, bindOk, id, jitter) == down;
  }

  lemma DisableRetry(sv: Server, k: Key, o: Key, bindOk: bool, id: nat, jitter: nat)
    requires k in sv.pcbs && AllKnown(sv) && k in sv.up && Waiter(sv, k) == Some(o)
    ensures LeftDown(sv, Disable(sv, k, bindOk, id, jitter), k, Some(o))
  {
    hide Enable, Mine, Same, Without, Cleared, Deinit;
    DownIs(sv, k);
    var down := Deinit(Cleared(sv, k), k);
    RetriedIs(sv, k, o, down, bindOk, id, jitter);
    var off := SetPcb(down, o, down.pcbs[o].(state := Off));
    assert Disable(sv, k, bindOk, id, jitter) == Enable(off, o, bindOk, id, jitter);
  }

  lemma DownIs(sv: Server, k: Key)
    requires k in sv.pcbs && AllKnown(sv)
    ensures var down := Deinit(Cleared(sv, k), k);
      && AllKnown(down) && down.pcbs.Keys == sv.pcbs.Keys && down.twin == sv.twin && down.up == sv.up - {k}
      && down.pcbs[k] == Pcb(Off, [], false, false, 0) && Mine(down.sched.tx, k) == []
      && forall j :: j in sv.pcbs && j != k ==> Same(sv, down, j) && down.pcbs[j] == sv.pcbs[j]
  {
    hide Without, Mine;
    MineWithout(sv.sched.tx, k, k);
    forall j | j in sv.pcbs && j != k ensures Same(sv, Deinit(Cleared(sv, k), k), j) { MineWithout(sv.sched.tx, k, j); }
  }

  /** The duplicate that waited is enabled; the PCB stays down. */
  lemma RetriedIs(sv: Server, k: Key, o: Key, down: Server, bindOk: bool, id: nat, jitter: nat)
    requires k in sv.pcbs && o in sv.pcbs && o != k && AllKnown(down) && down.pcbs.Keys == sv.pcbs.Keys && down.up == sv.up - {k}
    requires down.pcbs[k] == Pcb(Off, [], false, false, 0) && Mine(down.sched.tx, k) == []
    requires forall j :: j in sv.pcbs && j != k ==> Same(sv, down, j)
    ensures var off := SetPcb(down, o, down.pcbs[o].(state := Off));
      && AllKnown(off)
      && var on := Enable(off, o, bindOk, id, jitter);
         && k in on.pcbs && k !in on.up && on.pcbs[k] == Pcb(Off, [], false, false, 0) && Mine(on.sched.tx, k) == []
         && SetPcb(on, k, on.pcbs[k].(state := Off)) == on
         && forall j :: j in sv.pcbs && j != k && j != o ==> Same(sv, on, j) && (j in on.up <==> j in sv.up)
  {
    hide Enable, Mine;
    var off := SetPcb(down, o, down.pcbs[o].(state := Off));
    EnableRest(off, o, bindOk, id, jitter);
    var on := Enable(off, o, bindOk, id, jitter);
    assert Same(off, on, k);
    forall j | j in sv.pcbs && j != k && j != o ensures Same(sv, on, j) && (j in on.up <==> j in sv.up) {
      assert Same(sv, down, j) && Same(off, on, j);
    }
  }

  lemma EnableRest(sv: Server, k: Key, bindOk: bool, id: nat, jitter: nat)
    requires k in sv.pcbs && AllKnown(sv)
    ensures var sv' := Enable(sv, k, bindOk, id, jitter);
      OthersSame(sv, sv', k)
  {
    hide InitProbe;
    if k in sv.up || bindOk {
      var open := sv.(up := sv.up + {k});
      InitUp(open, k, id, jitter);
      InitProbeDisturbs(open, k, sv.registry, true, id, jitter, k);
      forall j | j in sv.pcbs && j != k ensures Same(sv, InitProbe(open, k, sv.registry, true, id, jitter), j) {
        InitProbeDisturbs(open, k, sv.registry, true, id, jitter, j);
      }
    }
  }

  /** Marking a PCB as duplicate: nothing happens unless its partner is up. If it is, the
      PCB is down and waits, without a packet, and the partner probes again for the
      addresses too, or announces them. */
  lemma MarkDupExact(sv: Server, k: Key, id: nat, jitter: nat)
    requires Sound(sv, {}) && k in sv.pcbs && id !in Ids(sv.sched.tx)
    ensures AllKnown(sv)
    ensures var sv' := MarkDup(sv, k, id, jitter);
      match Partner(sv, k)
      case None => sv' == sv
      case Some(o) =>
        if o !in sv.up then sv' == sv
        else
          && k in sv'.pcbs && k !in sv'.up && sv'.pcbs[k].state == Dup && Mine(sv'.sched.tx, k) == []
          && o in sv'.pcbs && o in sv'.up && TellsAddresses(sv.pcbs[o], sv.named, sv', o)
  {
    hide Announce, Without, Sound, Mine, TellsAddresses;
    ReadyPcb(sv, k);
    var partner := Partner(sv, k);
    if partner.Some? && partner.value in sv.up {
      var o := partner.value;
      assert o != k;
      var down := if k in sv.up then Deinit(Cleared(sv, k), k) else sv;
      var marked := SetPcb(down, k, down.pcbs[k].(state := Dup));
      MineWithout(sv.sched.tx, k, k);
      MineWithout(sv.sched.tx, k, o);
      DupMarked(sv, k, o, down);
      AnnounceAddresses(marked, o, id, jitter);
      AnnounceDisturbs(marked, o, [], true, id, jitter, k);
    }
  }

  /** The PCB probes anew, for its addresses among others, or announces them; without a host
      name it does neither. */
  ghost predicate TellsAddresses(b: Pcb, named: bool, sv': Server, o: Key)
    requires o in sv'.pcbs
  {
    if InProbe(b) then sv'.pcbs[o].state == Probe1 && sv'.pcbs[o].probeIp
    else if named then
      && sv'.pcbs[o].state == Announce1
      && exists p :: p in sv'.sched.tx && p.pcb == o && (HasEntry(p.answers, A, None, Some(SELF_HOST)) || HasEntry(p.servers, A, None, Some(SELF_HOST)))
    else sv'.pcbs[o].state == Running
  }

  lemma AnnounceAddresses(sv: Server, o: Key, id: nat, jitter: nat)
    requires Sound(sv, {}) && o in sv.up && id !in Ids(sv.sched.tx)
    ensures o in sv.pcbs && AllKnown(sv)
    ensures var sv' := Announce(sv, o, [], true, id, jitter);
      o in sv'.pcbs && sv'.up == sv.up && TellsAddresses(sv.pcbs[o], sv.named, sv', o)
  {
    hide Sound, Insert, InitProbe, AddToAnnounce, CreateAnnounce, Mine, HasEntry, AddAnnounced, AppendHosts;
    UpStates(sv, o);
    KnownAll(sv, {});
    assert Known(sv, []);
    var p: Packet;
    if InProbe(sv.pcbs[o]) {
      InitProbeList(sv, o, [], true, id, jitter) by { NamedProbe(sv, o); }
      InitOne(sv, o, id, jitter);
    } else if IsAnnouncing(sv.pcbs[o]) {
      NamedProbe(sv, o);
      p := AddToAnnounce(sv.sched.tx[FirstOf(sv.sched.tx, o)], [], sv.info, true);
      AddToAnnounceHas(sv.sched.tx[FirstOf(sv.sched.tx, o)], [], sv.info, true);
      assert sv.sched.tx[FirstOf(sv.sched.tx, o) := p][FirstOf(sv.sched.tx, o)] == p;
    } else if sv.named {
      p := CreateAnnounce(id, o, [], sv.info, true).(sendAt := sv.sched.now);
      CreateAnnounceHas(id, o, [], sv.info, true);
      CreateAnnounceHeader(id, o, [], sv.info, true);
      InsertIn(sv.sched.tx, p);
    }
  }

  lemma NamedProbe(sv: Server, o: Key)
    requires Sound(sv, {}) && o in sv.pcbs && (InProbe(sv.pcbs[o]) || IsAnnouncing(sv.pcbs[o]))
    ensures sv.named && RegistryOk(sv) && PcbReady(sv.pcbs[o], sv.registry) && NoDup([])
  {
    hide Orderly, PacketsOk, TwinsOk, DupsOk, Mine;
    assert PcbOk(sv, {}, o);
  }

  lemma InitOne(sv: Server, k: Key, id: nat, jitter: nat)
    requires k in sv.pcbs && AllKnown(sv)
    ensures InitProbe(sv, k, [], true, id, jitter).up == sv.up && InitProbe(sv, k, [], true, id, jitter).pcbs.Keys == sv.pcbs.Keys
  {
    hide Insert, Without, CreateProbe, NotProbed;
    NotProbedIn([], sv.pcbs[k].probeServices);
  }

  // --------------------------------------------------------------- conflicts

  function Conflicts(k: Key, n: nat): seq<Event> {
    if n == 0 then [] else [LosesConflict(k)] + Conflicts(k, n - 1)
  }

  /** Lost conflicts are counted in sixteen bits and change nothing else; ProbeStarts says
      that more than five of them slow the next probe down. */
  lemma {:induction false} ConflictsCount(sv: Server, k: Key, n: nat)
    requires Sound(sv, {}) && k in sv.pcbs && sv.pcbs[k].failedProbes < 0x1_0000
    ensures ResponderRuns.IsRun(sv, Conflicts(k, n))
    ensures ResponderRuns.After(sv, Conflicts(k, n))
      == SetPcb(sv, k, sv.pcbs[k].(failedProbes := (sv.pcbs[k].failedProbes + n) % 0x1_0000))
    decreases n
  {
    hide Sound, Step, Possible;
    if n == 0 {
      assert SetPcb(sv, k, sv.pcbs[k]) == sv;
    } else {
      var events := Conflicts(k, n);
      assert events[0] == LosesConflict(k) && events[1..] == Conflicts(k, n - 1);
      OneConflict(sv, k);
      ConflictsCount(Step(sv, events[0]), k, n - 1);
    }
  }

  lemma OneConflict(sv: Server, k: Key)
    requires Sound(sv, {}) && k in sv.pcbs
    ensures Possible(sv, LosesConflict(k)) && Sound(Step(sv, LosesConflict(k)), {})
    ensures Step(sv, LosesConflict(k)) == SetPcb(sv, k, sv.pcbs[k].(failedProbes := (sv.pcbs[k].failedProbes + 1) % 0x1_0000))
  {
    hide Sound;
    StepKeeps(sv, LosesConflict(k));
  }
}
