/** Transmitting packets, scheduling answers and dropping them keep the responder's
    invariant. */
module TransmitKeeps {
  import opened Options
  import opened Packets
  import opened Answers
  import opened Scheduler
  import opened Responder
  import opened ResponderKeeps
  import opened InterfaceKeeps

  // -------------------------------------------------------- taking an action

  lemma HeadPacket(sv: Server, pending: set<Key>)
    requires Sound(sv, pending) && sv.sched.tx != []
    ensures sv.sched.tx[0].pcb in sv.up && sv.sched.tx[0].pcb in sv.pcbs
    ensures PacketRefsIn(sv.sched.tx[0], sv.registry) && ServersKnown(sv, sv.sched.tx[0])
  {
  }

  /** The head has left the list; its PCB is about to be updated. */
  lemma TakenKeeps(sv: Server, taken: Server)
    requires Sound(sv, {}) && sv.sched.actions != [] && Accepts(sv.sched)
    requires taken == sv.(sched := Take(sv.sched))
    ensures Sound(taken, {sv.sched.tx[0].pcb})
    ensures Mine(sv.sched.tx, sv.sched.tx[0].pcb) == [sv.sched.tx[0]] + Mine(taken.sched.tx, sv.sched.tx[0].pcb)
    ensures sv.sched.tx[0].id !in Ids(taken.sched.tx)
  {
    hide PcbOk;
    TakeKeeps(sv.sched);
    var k := sv.sched.tx[0].pcb;
    IdsTail(sv.sched.tx);
    forall j | j in taken.pcbs ensures PcbOk(taken, {k}, j) {
      TakenPcb(sv, taken, j);
    }
  }

  lemma TakenPcb(sv: Server, taken: Server, j: Key)
    requires sv.sched.actions != [] && Accepts(sv.sched) && taken == sv.(sched := Take(sv.sched))
    requires j in sv.pcbs && PcbOk(sv, {}, j)
    ensures PcbOk(taken, {sv.sched.tx[0].pcb}, j)
  {
  }

  lemma SkippedKeeps(sv: Server)
    requires Sound(sv, {}) && sv.sched.actions != [] && !Accepts(sv.sched)
    ensures Sound(sv.(sched := Take(sv.sched)), {})
  {
    TakeKeeps(sv.sched);
    var taken := sv.(sched := Take(sv.sched));
    forall j | j in taken.pcbs ensures PcbOk(taken, {}, j) {
      assert PcbOk(sv, {}, j);
    }
  }

  /** The packet is scheduled again with contents `p`, and its PCB becomes `b`. */
  lemma AgainKeeps(sv: Server, taken: Server, p: Packet, b: Pcb, sv': Server)
    requires Sound(sv, {}) && sv.sched.actions != [] && Accepts(sv.sched) && taken == sv.(sched := Take(sv.sched))
    requires p.pcb == sv.sched.tx[0].pcb && !p.queued && p.sendAt >= sv.sched.now && p.id !in Ids(taken.sched.tx)
    requires PacketRefsIn(p, sv.registry) && b.state != Dup
    requires PcbSound(b, Mine(Insert(taken.sched.tx, p), p.pcb), true, sv.named, sv.registry)
    requires sv' == SetPcb(SetTx(taken, Insert(taken.sched.tx, p)), p.pcb, b)
    ensures Sound(sv', {})
  {
    TakenKeeps(sv, taken);
    HeadPacket(sv, {});
    AddedKeeps(taken, {p.pcb}, p, b, sv');
    assert {p.pcb} - {p.pcb} == {};
  }

  /** While probing, the packet taken was the PCB's only one. */
  lemma ProbingAgain(sv: Server, taken: Server, p: Packet)
    requires Sound(sv, {}) && sv.sched.actions != [] && Accepts(sv.sched) && taken == sv.(sched := Take(sv.sched))
    requires InProbe(sv.pcbs[sv.sched.tx[0].pcb]) && p.pcb == sv.sched.tx[0].pcb
    ensures Mine(Insert(taken.sched.tx, p), p.pcb) == [p]
    ensures ProbePacket(sv.sched.tx[0], sv.pcbs[sv.sched.tx[0].pcb])
  {
    TakenKeeps(sv, taken);
    HeadPacket(sv, {});
    var k := sv.sched.tx[0].pcb;
    assert PcbOk(sv, {}, k);
    assert Mine(taken.sched.tx, k) == [];
    MineInsert(taken.sched.tx, p, k);
  }

  lemma AnnouncingAgain(sv: Server, taken: Server, p: Packet)
    requires Sound(sv, {}) && sv.sched.actions != [] && Accepts(sv.sched) && taken == sv.(sched := Take(sv.sched))
    requires IsAnnouncing(sv.pcbs[sv.sched.tx[0].pcb]) && p.pcb == sv.sched.tx[0].pcb
    requires Solid(sv.sched.tx[0]) ==> Solid(p)
    ensures HasSolid(Mine(Insert(taken.sched.tx, p), p.pcb))
  {
    hide Orderly, PacketsOk, RegistryOk, TwinsOk, DupsOk, Insert;
    TakenKeeps(sv, taken);
    HeadPacket(sv, {});
    var k := sv.sched.tx[0].pcb;
    assert PcbOk(sv, {}, k);
    var mine := Mine(sv.sched.tx, k);
    var i :| 0 <= i < |mine| && Solid(mine[i]);
    MineInsert(taken.sched.tx, p, k);
    if i == 0 {
      SolidIn(Mine(Insert(taken.sched.tx, p), k), p);
    } else {
      assert mine[i] == Mine(taken.sched.tx, k)[i - 1];
      SolidIn(Mine(Insert(taken.sched.tx, p), k), mine[i]);
    }
  }

  /** The announcement built from a probe packet. */
  lemma AnnounceFromProbeOk(sv: Server, p: Packet, b: Pcb, id: nat)
    requires ProbePacket(p, b) && PacketRefsIn(p, sv.registry) && RegistryOk(sv)
    ensures ServersKnown(sv, p)
    ensures var a := AnnounceFromProbe(id, p, sv.info);
      a.id == id && a.pcb == p.pcb && !a.queued && PacketRefsIn(a, sv.registry) && Solid(a)
      && forall s :: s in b.probeServices ==> Announces(a.answers, s)
  {
    AnnounceEntriesCover([], p.servers, sv.info);
    var a := AnnounceFromProbe(id, p, sv.info);
    forall i | 0 <= i < |a.answers| && a.answers[i].service.Some? ensures a.answers[i].service.value in sv.registry {
      var j :| 0 <= j < |p.servers| && p.servers[j].service == a.answers[i].service;
    }
    forall s | s in b.probeServices ensures Announces(a.answers, s) {
      var j :| 0 <= j < |p.servers| && p.servers[j].service == Some(s);
    }
  }

  lemma ProbeRepeated(sv: Server, taken: Server, q: Packet, b: Pcb, sv': Server)
    requires Sound(sv, {}) && sv.sched.actions != [] && Accepts(sv.sched) && taken == sv.(sched := Take(sv.sched))
    requires q.pcb == sv.sched.tx[0].pcb && q.pcb in sv.pcbs && InProbe(sv.pcbs[q.pcb]) && InProbe(b)
    requires b == sv.pcbs[q.pcb].(state := b.state)
    requires q == sv.sched.tx[0].(queued := false, sendAt := q.sendAt, questions := q.questions) && q.sendAt >= sv.sched.now
    requires sv' == SetPcb(SetTx(taken, Insert(taken.sched.tx, q)), q.pcb, b)
    ensures Sound(sv', {})
  {
    hide Orderly, Mine, Insert, RegistryOk, TwinsOk, DupsOk;
    HeadPacket(sv, {});
    TakenKeeps(sv, taken);
    assert PcbOk(sv, {}, q.pcb);
    ProbingAgain(sv, taken, q);
    AgainKeeps(sv, taken, q, b, sv');
  }

  lemma ProbeAnnounced(sv: Server, taken: Server, a: Packet, sv': Server)
    requires Sound(sv, {}) && sv.sched.actions != [] && Accepts(sv.sched) && taken == sv.(sched := Take(sv.sched))
    requires a.pcb == sv.sched.tx[0].pcb && a.pcb in sv.pcbs && InProbe(sv.pcbs[a.pcb])
    requires !a.queued && a.sendAt >= sv.sched.now && a.id !in Ids(taken.sched.tx)
    requires PacketRefsIn(a, sv.registry) && Solid(a)
    requires sv' == SetPcb(SetTx(taken, Insert(taken.sched.tx, a)), a.pcb, Pcb(Announce1, [], false, false, 0))
    ensures Sound(sv', {})
  {
    HeadPacket(sv, {});
    assert PcbOk(sv, {}, a.pcb);
    ProbingAgain(sv, taken, a);
    SolidIn([a], a);
    AgainKeeps(sv, taken, a, Pcb(Announce1, [], false, false, 0), sv');
  }

  /** What the packet sent again looks like, and the next state of its PCB. */
  function Again(p: Packet, b: Pcb, now: nat): (Packet, Pcb) {
    match b.state
    case Probe1 => (p.(questions := Multicast(p.questions), sendAt := now + 250), b.(state := Probe2))
    case Probe2 => (p.(sendAt := now + 250), b.(state := Probe3))
    case Announce1 => (p.(sendAt := now + 1000), b.(state := Announce2))
    case Announce2 => (p.(sendAt := now + 1000), b.(state := Announce3))
    case _ => (p.(sendAt := now + 250), b)
  }

  lemma HandleAgain(sv: Server, p: Packet, allocOk: bool, id: nat)
    requires p.pcb in sv.pcbs && ServersKnown(sv, p)
    requires InProbe(sv.pcbs[p.pcb]) || sv.pcbs[p.pcb].state == Announce1 || sv.pcbs[p.pcb].state == Announce2
    requires sv.pcbs[p.pcb].state == Probe3 ==> !allocOk
    ensures var (q, b) := Again(p, sv.pcbs[p.pcb], sv.sched.now);
      Handle(sv, p, allocOk, id) == SetPcb(SetTx(sv, Insert(sv.sched.tx, q)), p.pcb, b)
  {
  }

  lemma HandleAnnounced(sv: Server, p: Packet, id: nat)
    requires p.pcb in sv.pcbs && ServersKnown(sv, p) && sv.pcbs[p.pcb].state == Probe3
    ensures var a := AnnounceFromProbe(id, p, sv.info).(sendAt := sv.sched.now + 250);
      Handle(sv, p, true, id) == SetPcb(SetTx(sv, Insert(sv.sched.tx, a)), p.pcb, Pcb(Announce1, [], false, false, 0))
  {
  }

  lemma ProbeAgainHandled(sv: Server, taken: Server, p: Packet, allocOk: bool, id: nat)
    requires Sound(sv, {}) && sv.sched.actions != [] && Accepts(sv.sched) && taken == sv.(sched := Take(sv.sched))
    requires p == sv.sched.tx[0].(queued := false) && p.pcb in sv.pcbs && ServersKnown(taken, p)
    requires InProbe(sv.pcbs[p.pcb]) && (sv.pcbs[p.pcb].state == Probe3 ==> !allocOk)
    ensures Sound(Handle(taken, p, allocOk, id), {})
  {
    hide Sound;
    HandleAgain(taken, p, allocOk, id);
    var (q, b) := Again(p, sv.pcbs[p.pcb], sv.sched.now);
    ProbeRepeated(sv, taken, q, b, Handle(taken, p, allocOk, id));
  }

  lemma DonePacket(sv: Server, taken: Server, p: Packet, id: nat) returns (a: Packet)
    requires Sound(sv, {}) && sv.sched.actions != [] && Accepts(sv.sched) && taken == sv.(sched := Take(sv.sched))
    requires p == sv.sched.tx[0].(queued := false) && p.pcb in sv.pcbs && ServersKnown(taken, p)
    requires sv.pcbs[p.pcb].state == Probe3
    ensures a == AnnounceFromProbe(id, p, sv.info).(sendAt := sv.sched.now + 250)
    ensures a.id == id && a.pcb == p.pcb && !a.queued && PacketRefsIn(a, sv.registry) && Solid(a)
  {
    ProbingAgain(sv, taken, p);
    HeadPacket(sv, {});
    AnnounceFromProbeOk(taken, p, sv.pcbs[p.pcb], id);
    a := AnnounceFromProbe(id, p, sv.info).(sendAt := sv.sched.now + 250);
  }

  lemma ProbeDoneHandled(sv: Server, taken: Server, p: Packet, id: nat)
    requires Sound(sv, {}) && sv.sched.actions != [] && Accepts(sv.sched) && taken == sv.(sched := Take(sv.sched))
    requires p == sv.sched.tx[0].(queued := false) && p.pcb in sv.pcbs && ServersKnown(taken, p)
    requires sv.pcbs[p.pcb].state == Probe3 && id !in Ids(taken.sched.tx)
    ensures Sound(Handle(taken, p, true, id), {})
  {
    hide Sound;
    HandleAnnounced(taken, p, id);
    var a := DonePacket(sv, taken, p, id);
    ProbeAnnounced(sv, taken, a, Handle(taken, p, true, id));
  }

  lemma AnnounceRepeated(sv: Server, taken: Server, q: Packet, b: Pcb, sv': Server)
    requires Sound(sv, {}) && sv.sched.actions != [] && Accepts(sv.sched) && taken == sv.(sched := Take(sv.sched))
    requires q.pcb == sv.sched.tx[0].pcb && q.pcb in sv.pcbs && IsAnnouncing(sv.pcbs[q.pcb]) && IsAnnouncing(b)
    requires b == sv.pcbs[q.pcb].(state := b.state)
    requires q == sv.sched.tx[0].(queued := false, sendAt := q.sendAt) && q.sendAt >= sv.sched.now
    requires sv' == SetPcb(SetTx(taken, Insert(taken.sched.tx, q)), q.pcb, b)
    ensures Sound(sv', {})
  {
    hide Orderly, Mine, Insert, RegistryOk, TwinsOk, DupsOk;
    HeadPacket(sv, {});
    TakenKeeps(sv, taken);
    assert PcbOk(sv, {}, q.pcb);
    AnnouncingAgain(sv, taken, q);
    AgainKeeps(sv, taken, q, b, sv');
  }

  lemma AnnounceHandled(sv: Server, taken: Server, p: Packet, allocOk: bool, id: nat)
    requires Sound(sv, {}) && sv.sched.actions != [] && Accepts(sv.sched) && taken == sv.(sched := Take(sv.sched))
    requires p == sv.sched.tx[0].(queued := false) && p.pcb in sv.pcbs && ServersKnown(taken, p)
    requires sv.pcbs[p.pcb].state == Announce1 || sv.pcbs[p.pcb].state == Announce2
    ensures Sound(Handle(taken, p, allocOk, id), {})
  {
    hide Sound;
    HandleAgain(taken, p, allocOk, id);
    var (q, b) := Again(p, sv.pcbs[p.pcb], sv.sched.now);
    AnnounceRepeated(sv, taken, q, b, Handle(taken, p, allocOk, id));
  }

  lemma HandleLast(sv: Server, p: Packet, allocOk: bool, id: nat)
    requires p.pcb in sv.pcbs && ServersKnown(sv, p)
    requires !InProbe(sv.pcbs[p.pcb]) && sv.pcbs[p.pcb].state != Announce1 && sv.pcbs[p.pcb].state != Announce2
    ensures var b := sv.pcbs[p.pcb];
      Handle(sv, p, allocOk, id) == if b.state == Announce3 then SetPcb(sv, p.pcb, b.(state := Running)) else sv
  {
    hide Scheduled, Multicast, AnnounceFromProbe;
  }

  lemma LastHandled(sv: Server, taken: Server, p: Packet, allocOk: bool, id: nat)
    requires Sound(sv, {}) && sv.sched.actions != [] && Accepts(sv.sched) && taken == sv.(sched := Take(sv.sched))
    requires p == sv.sched.tx[0].(queued := false) && p.pcb in sv.pcbs && ServersKnown(taken, p)
    requires sv.pcbs[p.pcb].state == Announce3 || sv.pcbs[p.pcb].state == Running
    ensures Sound(Handle(taken, p, allocOk, id), {})
  {
    hide Sound, Handle, Mine;
    HandleLast(taken, p, allocOk, id);
    var k := p.pcb;
    HeadPacket(sv, {});
    TakenKeeps(sv, taken);
    PastProbing(sv, k);
    var b := sv.pcbs[k];
    assert Handle(taken, p, allocOk, id) == SetPcb(taken, k, b.(state := Running)) by {
      if b.state == Running { assert SetPcb(taken, k, b) == taken; }
    }
    RunningHandled(taken, k, Handle(taken, p, allocOk, id));
  }

  lemma PastProbing(sv: Server, k: Key)
    requires Sound(sv, {}) && k in sv.pcbs && !InProbe(sv.pcbs[k])
    ensures Idle(sv.pcbs[k])
  {
    hide Orderly, PacketsOk, RegistryOk, TwinsOk, DupsOk, Mine;
    assert PcbOk(sv, {}, k);
  }

  /** The packet is gone and the PCB runs. */
  lemma RunningHandled(taken: Server, k: Key, sv': Server)
    requires Sound(taken, {k}) && k in taken.up && Idle(taken.pcbs[k])
    requires sv' == SetPcb(taken, k, taken.pcbs[k].(state := Running))
    ensures Sound(sv', {})
  {
    hide Orderly, RegistryOk, Mine, PcbSound;
    assert PcbOk(taken, {k}, k);
    RunningSound(taken.pcbs[k], Mine(sv'.sched.tx, k), taken.named, taken.registry);
    DupsSame(taken, sv', k);
    OneSound(taken, sv', {k}, k);
    assert {k} - {k} == {};
  }

  /** Taking one action of the queue keeps the invariant. */
  lemma ActionKeeps(sv: Server, allocOk: bool, id: nat)
    requires Sound(sv, {}) && sv.sched.actions != [] && id !in Ids(sv.sched.tx)
    ensures Accepts(sv.sched) ==> sv.sched.tx[0].pcb in sv.pcbs && ServersKnown(sv, sv.sched.tx[0])
    ensures Sound(HandleAction(sv, allocOk, id), {})
  {
    if Accepts(sv.sched) {
      HeadPacket(sv, {});
      var taken := sv.(sched := Take(sv.sched));
      var p := sv.sched.tx[0].(queued := false);
      IdsTail(sv.sched.tx);
      assert PcbOk(sv, {}, p.pcb);
      match sv.pcbs[p.pcb].state
      case Probe1 => ProbeAgainHandled(sv, taken, p, allocOk, id);
      case Probe2 => ProbeAgainHandled(sv, taken, p, allocOk, id);
      case Probe3 => if allocOk { ProbeDoneHandled(sv, taken, p, id); } else { ProbeAgainHandled(sv, taken, p, allocOk, id); }
      case Announce1 => AnnounceHandled(sv, taken, p, allocOk, id);
      case Announce2 => AnnounceHandled(sv, taken, p, allocOk, id);
      case Announce3 => LastHandled(sv, taken, p, allocOk, id);
      case Running => LastHandled(sv, taken, p, allocOk, id);
      case _ =>
    } else {
      SkippedKeeps(sv);
    }
  }

  // -------------------------------------------------- answers to questions

  lemma SolidKept(tx: seq<Packet>, q: Packet, k: Key)
    requires HasSolid(Mine(tx, k))
    ensures HasSolid(Mine(Insert(tx, q), k))
  {
    MineInsert(tx, q, k);
    var mine := Mine(tx, k);
    var i :| 0 <= i < |mine| && Solid(mine[i]);
    assert mine[i] in mine;
    SolidIn(Mine(Insert(tx, q), k), mine[i]);
  }

  /** One more packet on a PCB that announces or runs. */
  lemma AnswerSound(b: Pcb, tx: seq<Packet>, q: Packet, k: Key, named: bool, registry: seq<nat>)
    requires PcbSound(b, Mine(tx, k), true, named, registry) && !InProbe(b)
    ensures PcbSound(b, Mine(Insert(tx, q), k), true, named, registry)
  {
    if IsAnnouncing(b) { SolidKept(tx, q, k); }
  }

  /** An answer is scheduled on a PCB that is up only behind the guard that keeps it
      out of probing. */
  lemma AnswerKeeps(sv: Server, p: Packet, delay: nat)
    requires Sound(sv, {}) && p.pcb in sv.up && !p.queued && PacketRefsIn(p, sv.registry) && p.id !in Ids(sv.sched.tx)
    ensures p.pcb in sv.pcbs && Sound(ScheduleAnswer(sv, p, delay), {})
  {
    hide Orderly, PacketsOk, DupsOk, TwinsOk, RegistryOk;
    var k := p.pcb;
    assert PcbOk(sv, {}, k);
    var b := sv.pcbs[k];
    if Rank(b.state) > Rank(Probe3) {
      var q := p.(sendAt := sv.sched.now + delay);
      AnswerSound(b, sv.sched.tx, q, k, sv.named, sv.registry);
      AnswerAdded(sv, q, SetTx(sv, Insert(sv.sched.tx, q)));
    }
  }

  lemma AnswerAdded(sv: Server, q: Packet, sv': Server)
    requires Sound(sv, {}) && q.pcb in sv.up && !q.queued && q.sendAt >= sv.sched.now
    requires PacketRefsIn(q, sv.registry) && q.id !in Ids(sv.sched.tx) && q.pcb in sv.pcbs && sv.pcbs[q.pcb].state != Dup
    requires PcbSound(sv.pcbs[q.pcb], Mine(Insert(sv.sched.tx, q), q.pcb), true, sv.named, sv.registry)
    requires sv' == SetTx(sv, Insert(sv.sched.tx, q))
    ensures Sound(sv', {})
  {
    hide Sound, PcbSound;
    assert sv'.pcbs[q.pcb := sv.pcbs[q.pcb]] == sv'.pcbs;
    AddedKeeps(sv, {}, q, sv.pcbs[q.pcb], sv');
    assert {} - {q.pcb} == {};
  }

  lemma {:induction false} DropAnswersThins(tx: seq<Packet>, k: Key, rtype: RecordType, service: Option<nat>)
    ensures Thinned(tx, DropAnswers(tx, k, rtype, service))
    ensures |DropAnswers(tx, k, rtype, service)| == |tx|
    ensures forall i :: 0 <= i < |tx| ==>
      DropAnswers(tx, k, rtype, service)[i] ==
      if tx[i].pcb == k && tx[i].distributed then tx[i].(answers := DeallocEntry(tx[i].answers, rtype, service)) else tx[i]
  {
    if tx != [] {
      DropAnswersThins(tx[1..], k, rtype, service);
      assert DropAnswers(tx, k, rtype, service)[1..] == DropAnswers(tx[1..], k, rtype, service);
    }
  }

  lemma {:induction false} DropAnswersMine(tx: seq<Packet>, k: Key, rtype: RecordType, service: Option<nat>, j: Key)
    ensures |Mine(DropAnswers(tx, k, rtype, service), j)| == |Mine(tx, j)|
    ensures forall i :: 0 <= i < |Mine(tx, j)| ==>
      var p, p' := Mine(tx, j)[i], Mine(DropAnswers(tx, k, rtype, service), j)[i];
      p'.id == p.id && p'.sendAt == p.sendAt && (!p.distributed ==> p' == p)
  {
    if tx != [] {
      DropAnswersMine(tx[1..], k, rtype, service, j);
      var rest := DropAnswers(tx[1..], k, rtype, service);
      assert DropAnswers(tx, k, rtype, service)[1..] == rest;
      assert Mine(DropAnswers(tx, k, rtype, service), j)
        == (if tx[0].pcb == j then [DropAnswers(tx, k, rtype, service)[0]] else []) + Mine(rest, j);
    }
  }

  lemma SuppressKeeps(sv: Server, k: Key, rtype: RecordType, service: Option<nat>)
    requires Sound(sv, {})
    ensures Sound(SetTx(sv, DropAnswers(sv.sched.tx, k, rtype, service)), {})
  {
    hide Orderly, PcbSound, Mine, DropAnswers;
    var tx := DropAnswers(sv.sched.tx, k, rtype, service);
    var sv' := SetTx(sv, tx);
    DropAnswersThins(sv.sched.tx, k, rtype, service);
    ThinnedKeeps(sv.sched, tx);
    forall i | 0 <= i < |tx| ensures tx[i].pcb in sv.up && PacketRefsIn(tx[i], sv.registry) {
      DeallocRefs(sv.sched.tx[i].answers, rtype, service, sv.registry);
    }
    forall j | j in sv'.pcbs ensures PcbOk(sv', {}, j) {
      assert PcbOk(sv, {}, j);
      DropAnswersMine(sv.sched.tx, k, rtype, service, j);
      SuppressedPcb(sv.pcbs[j], Mine(sv.sched.tx, j), Mine(tx, j), j in sv.up, sv.named, sv.registry);
    }
  }

  lemma SuppressedPcb(b: Pcb, mine: seq<Packet>, mine': seq<Packet>, isUp: bool, named: bool, registry: seq<nat>)
    requires PcbSound(b, mine, isUp, named, registry) && |mine'| == |mine|
    requires forall i :: 0 <= i < |mine| && !mine[i].distributed ==> mine'[i] == mine[i]
    ensures PcbSound(b, mine', isUp, named, registry)
  {
    if IsAnnouncing(b) {
      var i :| 0 <= i < |mine| && Solid(mine[i]);
      assert Solid(mine'[i]);
    }
  }

  // ------------------------------------------- the clock, the timer, services

  lemma TickKeeps(sv: Server, ms: nat)
    requires Sound(sv, {})
    ensures Sound(sv.(sched := sv.sched.(now := sv.sched.now + ms)), {})
  {
    var sv' := sv.(sched := sv.sched.(now := sv.sched.now + ms));
    forall j | j in sv'.pcbs ensures PcbOk(sv', {}, j) { assert PcbOk(sv, {}, j); }
  }

  lemma {:induction false} MineMarked(tx: seq<Packet>, tx': seq<Packet>, j: Key)
    requires |tx'| == |tx| && forall i :: 0 <= i < |tx| ==> tx'[i] == tx[i].(queued := tx'[i].queued)
    ensures |Mine(tx', j)| == |Mine(tx, j)|
    ensures forall i :: 0 <= i < |Mine(tx, j)| ==> Mine(tx', j)[i] == Mine(tx, j)[i].(queued := Mine(tx', j)[i].queued)
  {
    if tx != [] {
      MineMarked(tx[1..], tx'[1..], j);
    }
  }

  lemma MarkedPcb(b: Pcb, mine: seq<Packet>, mine': seq<Packet>, isUp: bool, named: bool, registry: seq<nat>)
    requires PcbSound(b, mine, isUp, named, registry) && |mine'| == |mine|
    requires forall i :: 0 <= i < |mine| ==> mine'[i] == mine[i].(queued := mine'[i].queued)
    ensures PcbSound(b, mine', isUp, named, registry)
  {
    if IsAnnouncing(b) {
      var i :| 0 <= i < |mine| && Solid(mine[i]);
      assert Solid(mine'[i]);
    }
  }

  lemma MarkedPackets(sv: Server, tx: seq<Packet>)
    requires PacketsOk(sv) && |tx| == |sv.sched.tx|
    requires forall i :: 0 <= i < |tx| ==> tx[i] == sv.sched.tx[i].(queued := tx[i].queued)
    ensures PacketsOk(SetTx(sv, tx))
  {
  }

  lemma MarkedPcbs(sv: Server, tx: seq<Packet>)
    requires PcbsOk(sv, {}) && |tx| == |sv.sched.tx|
    requires forall i :: 0 <= i < |tx| ==> tx[i] == sv.sched.tx[i].(queued := tx[i].queued)
    ensures PcbsOk(SetTx(sv, tx), {})
  {
    forall j | j in sv.pcbs ensures PcbOk(SetTx(sv, tx), {}, j) {
      assert PcbOk(sv, {}, j);
      MineMarked(sv.sched.tx, tx, j);
      MarkedPcb(sv.pcbs[j], Mine(sv.sched.tx, j), Mine(tx, j), j in sv.up, sv.named, sv.registry);
    }
  }

  lemma TimerRunKeeps(sv: Server, sends: seq<bool>)
    requires Sound(sv, {}) && |sends| == |sv.sched.tx| && FailuresLast(sv.sched, sends)
    ensures Sound(sv.(sched := TimerRun(sv.sched, sends)), {})
  {
    hide Orderly, FailuresLast, TimerRun, PcbOk, QueuedCount, DueCount, Mark, Sent;
    var t := TimerRun(sv.sched, sends);
    TimerKeeps(sv.sched, sends);
    TimerAt(sv.sched, sends);
    TimerNow(sv.sched, sends);
    assert forall i :: 0 <= i < |t.tx| ==> t.tx[i] == sv.sched.tx[i].(queued := t.tx[i].queued);
    MarkedPackets(sv, t.tx);
    MarkedPcbs(sv, t.tx);
    ActionsIrrelevant(SetTx(sv, t.tx), sv.(sched := t));
  }

  lemma TimerNow(s: Sched, sends: seq<bool>)
    requires |sends| == |s.tx|
    ensures TimerRun(s, sends).now == s.now
  {
  }

  /** The invariant of the PCBs and of the packets reads no pending action. */
  lemma ActionsIrrelevant(sv: Server, sv': Server)
    requires sv' == sv.(sched := sv.sched.(actions := sv'.sched.actions, now := sv'.sched.now))
    requires PcbsOk(sv, {}) && PacketsOk(sv)
    ensures PcbsOk(sv', {}) && PacketsOk(sv')
  {
    forall j | j in sv'.pcbs ensures PcbOk(sv', {}, j) { assert PcbOk(sv, {}, j); }
  }

  /** A new service may even take the address of one that was removed: no entry of a
      scheduled packet refers to that one any more. */
  lemma AddServiceKeeps(sv: Server, s: nat, svc: Service)
    requires Sound(sv, {}) && s !in sv.registry && |sv.registry| < MAX_SERVICES
    ensures var sv' := AddService(sv, s, svc);
      && Sound(sv', {}) && sv'.sched == sv.sched && sv'.pcbs == sv.pcbs
      && s in sv'.registry && s in sv'.info && sv'.info[s] == svc
      && |sv'.registry| == |sv.registry| + 1 && DropFirst(sv'.registry, s) == sv.registry
      && forall x :: x in sv.info && x != s ==> x in sv'.info && sv'.info[x] == sv.info[x]
  {
    var sv' := AddService(sv, s, svc);
    assert forall x :: x in sv.registry ==> x in sv'.registry;
    forall i | 0 <= i < |sv'.sched.tx| ensures sv'.sched.tx[i].pcb in sv'.up && PacketRefsIn(sv'.sched.tx[i], sv'.registry) {
      RefsWiden(sv.sched.tx[i], sv.registry, sv'.registry);
    }
    forall j | j in sv'.pcbs ensures PcbOk(sv', {}, j) { assert PcbOk(sv, {}, j); }
  }

  lemma RefsWiden(p: Packet, known: seq<nat>, more: seq<nat>)
    requires PacketRefsIn(p, known) && forall x :: x in known ==> x in more
    ensures PacketRefsIn(p, more)
  {
  }

  /** New texts for a service, as when it is renamed. */
  lemma ChangeServiceKeeps(sv: Server, s: nat, svc: Service)
    requires Sound(sv, {})
    ensures Sound(sv.(info := sv.info[s := svc]), {})
  {
    var sv' := sv.(info := sv.info[s := svc]);
    forall j | j in sv'.pcbs ensures PcbOk(sv', {}, j) { assert PcbOk(sv, {}, j); }
  }

  lemma ProbeFailedKeeps(sv: Server, k: Key)
    requires Sound(sv, {}) && k in sv.pcbs
    ensures Sound(ProbeFailed(sv, k), {})
  {
    var sv' := ProbeFailed(sv, k);
    forall j | j in sv'.pcbs ensures PcbOk(sv', {}, j) { assert PcbOk(sv, {}, j); }
  }
}
