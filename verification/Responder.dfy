/** The responder's PCBs: probing, announcing, duplicate interfaces, the service
    registry, and how each operation changes the scheduled packets.

    Here every operation is a function of the responder's state; ResponderCode
    proves the code against them and ResponderRuns their properties over runs. */
module Responder {
  import opened Options
  import opened Packets
  import opened Answers
  import opened Scheduler

  datatype PcbState = Off | Dup | Init | Probe1 | Probe2 | Probe3 | Announce1 | Announce2 | Announce3 | Running

  function Rank(s: PcbState): nat {
    match s
    case Off => 0
    case Dup => 1
    case Init => 2
    case Probe1 => 3
    case Probe2 => 4
    case Probe3 => 5
    case Announce1 => 6
    case Announce2 => 7
    case Announce3 => 8
    case Running => 9
  }

  datatype Pcb = Pcb(state: PcbState, probeServices: seq<nat>, probeIp: bool, probeRunning: bool, failedProbes: nat)

  /** The macro PCB_STATE_IS_PROBING, which also holds of a duplicate. */
  predicate IsProbing(b: Pcb) { 0 < Rank(b.state) < 6 }

  predicate IsAnnouncing(b: Pcb) { 5 < Rank(b.state) < 9 }

  /** One of the three probe states. */
  predicate InProbe(b: Pcb) { b.state == Probe1 || b.state == Probe2 || b.state == Probe3 }

  /** `registry` is the list of services, `info` what is known of a service, `named`
      whether the host name is set, `up` the PCBs that are ready, `twin` the other
      interface on the same subnet. */
  datatype Server = Server(sched: Sched, pcbs: map<Key, Pcb>, up: set<Key>, registry: seq<nat>,
                           info: map<nat, Service>, named: bool, twin: map<nat, nat>)

  /** probe_services_len and the loops over services count in eight bits. */
  const MAX_SERVICES: nat := 255

  function SetTx(sv: Server, tx: seq<Packet>): Server {
    sv.(sched := sv.sched.(tx := tx))
  }

  function SetPcb(sv: Server, k: Key, b: Pcb): Server {
    sv.(pcbs := sv.pcbs[k := b])
  }

  // --------------------------------------------------------- the operations

  /** The requested services that are not being probed already. */
  function NotProbed(services: seq<nat>, probing: seq<nat>): seq<nat> {
    if services == [] then []
    else (if services[0] in probing then [] else [services[0]]) + NotProbed(services[1..], probing)
  }

  ghost predicate Known(sv: Server, services: seq<nat>) {
    forall s :: s in services ==> s in sv.info
  }

  function FirstDelay(b: Pcb, jitter: nat): nat {
    (if b.failedProbes > 5 then 1000 else 120) + jitter
  }

  /** _mdns_init_pcb_probe_new_service */
  function StartProbe(sv: Server, k: Key, services: seq<nat>, probeIp: bool, id: nat, jitter: nat): Server
    requires k in sv.pcbs && Known(sv, services) && Known(sv, sv.pcbs[k].probeServices)
  {
    var b := sv.pcbs[k];
    var merged := services + b.probeServices;
    var ip := b.probeIp || probeIp;
    var p := CreateProbe(id, k, merged, sv.info, true, ip).(sendAt := sv.sched.now + FirstDelay(b, jitter));
    SetPcb(SetTx(sv, Insert(sv.sched.tx, p)), k,
           Pcb(Probe1, merged[..|merged| % 256], ip, true, b.failedProbes))
  }

  /** _mdns_init_pcb_probe */
  function InitProbe(sv: Server, k: Key, services: seq<nat>, probeIp: bool, id: nat, jitter: nat): Server
    requires k in sv.pcbs && Known(sv, services) && Known(sv, sv.pcbs[k].probeServices)
  {
    var b := sv.pcbs[k];
    var cleared := SetTx(sv, Without(sv.sched.tx, k));
    if !sv.named then SetPcb(cleared, k, b.(state := Running))
    else if IsProbing(b) then
      NotProbedIn(services, b.probeServices);
      StartProbe(cleared, k, NotProbed(services, b.probeServices), probeIp, id, jitter)
    else StartProbe(cleared, k, services, probeIp, id, jitter)
  }

  /** The old probe list is forgotten first, as when everything is probed again. */
  function Reprobe(sv: Server, k: Key, services: seq<nat>, probeIp: bool, clearOld: bool, id: nat, jitter: nat): Server
    requires k in sv.pcbs && Known(sv, services) && Known(sv, sv.pcbs[k].probeServices)
  {
    var sv' := if clearOld then SetPcb(sv, k, sv.pcbs[k].(probeServices := [], probeRunning := false)) else sv;
    InitProbe(sv', k, services, probeIp, id, jitter)
  }

  lemma {:induction false} NotProbedIn(services: seq<nat>, probing: seq<nat>)
    ensures forall s :: s in NotProbed(services, probing) <==> s in services && s !in probing
  {
    if services != [] {
      NotProbedIn(services[1..], probing);
      assert services == [services[0]] + services[1..];
    }
  }

  /** The first packet of the PCB in the list. */
  function FirstOf(tx: seq<Packet>, k: Key): (i: nat)
    ensures i <= |tx| && (i < |tx| ==> tx[i].pcb == k)
    ensures forall j :: 0 <= j < i ==> tx[j].pcb != k
  {
    if tx == [] || tx[0].pcb == k then 0 else 1 + FirstOf(tx[1..], k)
  }

  function DeallocEntry(list: seq<Answer>, rtype: RecordType, service: Option<nat>): seq<Answer> {
    if list == [] then []
    else if list[0].rtype == rtype && list[0].service == service then list[1..]
    else [list[0]] + DeallocEntry(list[1..], rtype, service)
  }

  /** What an announcement already scheduled gains. */
  function AddToAnnounce(p: Packet, services: seq<nat>, info: map<nat, Service>, includeIp: bool): Packet
    requires forall s :: s in services ==> s in info
  {
    var p' := p.(answers := AddAnnounced(p.answers, services));
    if includeIp then
      p'.(additional := DeallocEntry(DeallocEntry(p.additional, A, None), AAAA, None),
          answers := AppendHosts(p'.answers, services, info, true, false))
    else p'
  }

  /** _mdns_announce_pcb */
  function Announce(sv: Server, k: Key, services: seq<nat>, includeIp: bool, id: nat, jitter: nat): Server
    requires k in sv.pcbs && Known(sv, services) && Known(sv, sv.pcbs[k].probeServices)
  {
    var b := sv.pcbs[k];
    if k !in sv.up then sv
    else if IsProbing(b) then InitProbe(sv, k, services, includeIp, id, jitter)
    else if IsAnnouncing(b) then
      var i := FirstOf(sv.sched.tx, k);
      if i == |sv.sched.tx| then sv
      else
        var p := AddToAnnounce(sv.sched.tx[i], services, sv.info, includeIp);
        SetPcb(SetTx(sv, sv.sched.tx[i := p]), k, b.(state := Announce1))
    else if b.state == Running && sv.named then
      var p := CreateAnnounce(id, k, services, sv.info, includeIp).(sendAt := sv.sched.now);
      SetPcb(SetTx(sv, Insert(sv.sched.tx, p)), k, b.(state := Announce1))
    else sv
  }

  function Partner(sv: Server, k: Key): Option<Key> {
    if k.netif in sv.twin then Some(Key(sv.twin[k.netif], k.protocol)) else None
  }

  /** mdns_pcb_deinit_local */
  function Deinit(sv: Server, k: Key): Server {
    SetPcb(sv.(up := sv.up - {k}), k, Pcb(Off, [], false, false, 0))
  }

  function Cleared(sv: Server, k: Key): Server {
    SetTx(sv, Without(sv.sched.tx, k))
  }

  ghost predicate AllKnown(sv: Server) {
    Known(sv, sv.registry) && forall k :: k in sv.pcbs ==> Known(sv, sv.pcbs[k].probeServices)
  }

  /** _mdns_enable_pcb; `bindOk` says whether the interface could be opened. */
  function Enable(sv: Server, k: Key, bindOk: bool, id: nat, jitter: nat): Server
    requires k in sv.pcbs && AllKnown(sv)
  {
    if k !in sv.up && !bindOk then SetPcb(sv, k, sv.pcbs[k].(failedProbes := 0))
    else InitProbe(sv.(up := sv.up + {k}), k, sv.registry, true, id, jitter)
  }

  /** _mdns_disable_pcb; a duplicate that waited for this PCB gets its chance. */
  function Disable(sv: Server, k: Key, bindOk: bool, id: nat, jitter: nat): Server
    requires k in sv.pcbs && AllKnown(sv)
  {
    var sv' :=
      if k !in sv.up then sv
      else
        var down := Deinit(Cleared(sv, k), k);
        match Partner(sv, k)
        case Some(o) =>
          if o in down.pcbs && down.pcbs[o].state == Dup
          then Enable(SetPcb(down, o, down.pcbs[o].(state := Off)), o, bindOk, id, jitter)
          else down
        case None => down;
    SetPcb(sv', k, sv'.pcbs[k].(state := Off))
  }

  /** One protocol of _mdns_dup_interface. */
  function MarkDup(sv: Server, k: Key, id: nat, jitter: nat): Server
    requires k in sv.pcbs && AllKnown(sv)
  {
    match Partner(sv, k)
    case None => sv
    case Some(o) =>
      if o !in sv.up || o !in sv.pcbs then sv
      else
        var down := if k in sv.up then Deinit(Cleared(sv, k), k) else sv;
        Announce(SetPcb(down, k, down.pcbs[k].(state := Dup)), o, [], true, id, jitter)
  }

  ghost predicate ServersKnown(sv: Server, p: Packet) {
    forall i :: 0 <= i < |p.servers| && p.servers[i].service.Some? ==> p.servers[i].service.value in sv.info
  }

  function Multicast(questions: seq<Question>): (r: seq<Question>)
    ensures |r| == |questions|
  {
    if questions == [] then [] else [questions[0].(unicast := false)] + Multicast(questions[1..])
  }

  /** _mdns_tx_handle_packet, for a packet just taken from the list; `allocOk` says
      whether the announcement could be built, under the address `id`. */
  function Handle(sv: Server, p: Packet, allocOk: bool, id: nat): Server
    requires p.pcb in sv.pcbs && ServersKnown(sv, p)
  {
    var b := sv.pcbs[p.pcb];
    match b.state
    case Off => sv
    case Probe1 =>
      Scheduled(sv, p.(questions := Multicast(p.questions)), 250, b.(state := Probe2))
    case Probe2 => Scheduled(sv, p, 250, b.(state := Probe3))
    case Probe3 =>
      if !allocOk then Scheduled(sv, p, 250, b)
      else Scheduled(sv, AnnounceFromProbe(id, p, sv.info), 250, Pcb(Announce1, [], false, false, 0))
    case Announce1 => Scheduled(sv, p, 1000, b.(state := Announce2))
    case Announce2 => Scheduled(sv, p, 1000, b.(state := Announce3))
    case Announce3 => SetPcb(sv, p.pcb, b.(state := Running))
    case _ => sv
  }

  function Scheduled(sv: Server, p: Packet, delay: nat, b: Pcb): Server {
    SetPcb(SetTx(sv, Insert(sv.sched.tx, p.(sendAt := sv.sched.now + delay))), p.pcb, b)
  }

  /** One ACTION_TX_HANDLE. */
  function HandleAction(sv: Server, allocOk: bool, id: nat): Server
    requires sv.sched.actions != []
    requires Accepts(sv.sched) ==> sv.sched.tx[0].pcb in sv.pcbs && ServersKnown(sv, sv.sched.tx[0])
  {
    var taken := sv.(sched := Take(sv.sched));
    if Accepts(sv.sched) then Handle(taken, sv.sched.tx[0].(queued := false), allocOk, id) else taken
  }

  function DropEntries(list: seq<Answer>, s: nat): seq<Answer> {
    if list == [] then []
    else (if list[0].service == Some(s) then [] else [list[0]]) + DropEntries(list[1..], s)
  }

  function DropFirst(list: seq<nat>, s: nat): seq<nat> {
    if list == [] then []
    else if list[0] == s then list[1..]
    else [list[0]] + DropFirst(list[1..], s)
  }

  predicate AsksFor(q: Question, svc: Service) {
    q.qtype == ANY && q.service == Some(svc.service) && q.proto == Some(svc.proto)
  }

  /** The first question for any instance of the service's type goes. */
  function DropQuestion(questions: seq<Question>, svc: Service): seq<Question> {
    if questions == [] then []
    else if AsksFor(questions[0], svc) then questions[1..]
    else [questions[0]] + DropQuestion(questions[1..], svc)
  }

  function Strip(p: Packet, s: nat): Packet {
    p.(answers := DropEntries(p.answers, s), servers := DropEntries(p.servers, s),
       additional := DropEntries(p.additional, s))
  }

  /** What one packet of the list does to its PCB when service `s` is removed. */
  function DropFromPcb(b: Pcb, isUp: bool, s: nat, answersEmptied: bool): Pcb {
    if !isUp then b
    else if IsProbing(b) then
      if s !in b.probeServices then b
      else if |b.probeServices| > 1 then b.(probeServices := DropFirst(b.probeServices, s))
      else if b.probeIp then b.(probeServices := [])
      else b.(probeServices := [], probeRunning := false, state := Running)
    else if IsAnnouncing(b) && answersEmptied then b.(state := Running)
    else b
  }

  function DropFromPacket(p: Packet, b: Pcb, isUp: bool, s: nat, svc: Service): Packet {
    var p' := Strip(p, s);
    if isUp && IsProbing(b) && s in b.probeServices then p'.(questions := DropQuestion(p.questions, svc)) else p'
  }

  ghost predicate KeysIn(tx: seq<Packet>, pcbs: map<Key, Pcb>) {
    forall i :: 0 <= i < |tx| ==> tx[i].pcb in pcbs
  }

  /** The loop of _mdns_remove_scheduled_service_packets: the packets that stay and
      the PCBs. */
  function DropLoop(tx: seq<Packet>, pcbs: map<Key, Pcb>, up: set<Key>, s: nat, svc: Service): (seq<Packet>, map<Key, Pcb>)
    requires KeysIn(tx, pcbs)
  {
    if tx == [] then ([], pcbs)
    else
      var p := tx[0];
      var b := pcbs[p.pcb];
      var p' := DropFromPacket(p, b, p.pcb in up, s, svc);
      var b' := DropFromPcb(b, p.pcb in up, s, p.answers != [] && p'.answers == []);
      var (kept, pcbs') := DropLoop(tx[1..], pcbs[p.pcb := b'], up, s, svc);
      ((if Emptied(p') then [] else [p']) + kept, pcbs')
  }

  /** mdns_service_remove_for_host, the messages sent at once apart. */
  function RemoveService(sv: Server, s: nat): Server
    requires s in sv.info && KeysIn(sv.sched.tx, sv.pcbs)
  {
    var (kept, pcbs) := DropLoop(sv.sched.tx, sv.pcbs, sv.up, s, sv.info[s]);
    SetTx(sv, kept).(pcbs := pcbs, registry := DropFirst(sv.registry, s))
  }

  function AddService(sv: Server, s: nat, svc: Service): Server {
    sv.(registry := [s] + sv.registry, info := sv.info[s := svc])
  }

  /** A lost conflict is counted in sixteen bits. */
  function ProbeFailed(sv: Server, k: Key): Server
    requires k in sv.pcbs
  {
    SetPcb(sv, k, sv.pcbs[k].(failedProbes := (sv.pcbs[k].failedProbes + 1) % 0x1_0000))
  }

  /** _mdns_probe_all_pcbs over the PCBs `keys`, forgetting the old probe lists. */
  function ReprobeAll(sv: Server, keys: seq<Key>, ids: seq<nat>, jitters: seq<nat>): Server
    requires |ids| == |keys| == |jitters| && AllKnown(sv) && forall k :: k in keys ==> k in sv.pcbs
    decreases |keys|
  {
    if keys == [] then sv
    else
      assert keys[0] in keys;
      var sv' := if keys[0] in sv.up then Reprobe(sv, keys[0], sv.registry, true, true, ids[0], jitters[0]) else sv;
      ReprobeKnown(sv, keys[0], ids[0], jitters[0]);
      ReprobeAll(sv', keys[1..], ids[1..], jitters[1..])
  }

  lemma ReprobeKnown(sv: Server, k: Key, id: nat, jitter: nat)
    requires AllKnown(sv) && k in sv.pcbs
    ensures var sv' := Reprobe(sv, k, sv.registry, true, true, id, jitter);
      AllKnown(sv') && sv'.pcbs.Keys == sv.pcbs.Keys && sv'.up == sv.up && sv'.named == sv.named && sv'.registry == sv.registry
  {
    hide Insert, Without, CreateProbe;
    var sv' := Reprobe(sv, k, sv.registry, true, true, id, jitter);
    NotProbedIn(sv.registry, []);
    forall j | j in sv'.pcbs ensures Known(sv', sv'.pcbs[j].probeServices) {
      forall s | s in sv'.pcbs[j].probeServices ensures s in sv'.info {
        if j != k { assert s in sv.pcbs[j].probeServices; }
      }
    }
  }

  /** _mdns_restart_all_pcbs once the host name is set: every packet goes, and every
      PCB that is up probes for everything. */
  function RestartAll(sv: Server, keys: seq<Key>, ids: seq<nat>, jitters: seq<nat>): Server
    requires |ids| == |keys| == |jitters| && AllKnown(sv) && forall k :: k in keys ==> k in sv.pcbs
  {
    ReprobeAll(SetTx(sv, []).(named := true), keys, ids, jitters)
  }

  /** _mdns_remove_scheduled_answer */
  function DropAnswers(tx: seq<Packet>, k: Key, rtype: RecordType, service: Option<nat>): seq<Packet> {
    if tx == [] then []
    else
      [if tx[0].pcb == k && tx[0].distributed
       then tx[0].(answers := DeallocEntry(tx[0].answers, rtype, service)) else tx[0]]
      + DropAnswers(tx[1..], k, rtype, service)
  }

  /** The end of mdns_parse_packet and of _mdns_create_answer_from_parsed_packet: an
      answer is scheduled only on a PCB that has finished probing. */
  function ScheduleAnswer(sv: Server, p: Packet, delay: nat): Server
    requires p.pcb in sv.pcbs
  {
    if Rank(sv.pcbs[p.pcb].state) > Rank(Probe3)
    then SetTx(sv, Insert(sv.sched.tx, p.(sendAt := sv.sched.now + delay))) else sv
  }

  // -------------------------------------------------------------- invariants

  ghost function Mine(tx: seq<Packet>, k: Key): seq<Packet> {
    if tx == [] then []
    else (if tx[0].pcb == k then [tx[0]] else []) + Mine(tx[1..], k)
  }

  /** An announcement that no removal of one service can take out of the list without
      ending the announcing. */
  ghost predicate Solid(p: Packet) {
    !p.distributed && (p.answers != [] || Mentions(p.servers, None))
  }

  ghost predicate HasSolid(mine: seq<Packet>) {
    exists i :: 0 <= i < |mine| && Solid(mine[i])
  }

  /** What holds of a PCB at every moment a probe may be started on it. */
  ghost predicate PcbReady(b: Pcb, registry: seq<nat>) {
    && (!IsProbing(b) ==> b.probeServices == [])
    && NoDup(b.probeServices) && Subset(b.probeServices, registry) && b.state != Init
  }

  predicate Idle(b: Pcb) {
    b.probeServices == [] && !b.probeIp && !b.probeRunning
  }

  /** What holds of a PCB between operations, with `mine` its scheduled packets. */
  ghost predicate PcbSound(b: Pcb, mine: seq<Packet>, isUp: bool, named: bool, registry: seq<nat>) {
    && PcbReady(b, registry)
    && (isUp <==> b.state != Off && b.state != Dup)
    && (if InProbe(b) then b.probeRunning else Idle(b))
    && (!isUp ==> mine == [])
    && (InProbe(b) || IsAnnouncing(b) ==> named)
    && (InProbe(b) ==> |mine| == 1 && ProbePacket(mine[0], b))
    && (IsAnnouncing(b) ==> HasSolid(mine))
  }

  ghost predicate ProbePacket(p: Packet, b: Pcb) {
    && (b.probeServices != [] || b.probeIp)
    && ProbeEntries(p.servers) && p.servers != [] && p.answers == [] && p.additional == [] && !p.distributed
    && Covers(p, b.probeServices, b.probeIp)
  }

  ghost predicate TwinsOk(sv: Server) {
    && (forall i :: i in sv.twin ==> sv.twin[i] in sv.twin && sv.twin[sv.twin[i]] == i && sv.twin[i] != i)
    && (forall k :: k in sv.pcbs && k.netif in sv.twin ==> Key(sv.twin[k.netif], k.protocol) in sv.pcbs)
  }

  /** A duplicate is down while the other interface is up on the same protocol. */
  ghost predicate DupsOk(sv: Server) {
    forall k :: k in sv.pcbs && sv.pcbs[k].state == Dup ==>
      k.netif in sv.twin && Key(sv.twin[k.netif], k.protocol) in sv.up
  }

  ghost predicate PacketsOk(sv: Server) {
    forall i :: 0 <= i < |sv.sched.tx| ==> sv.sched.tx[i].pcb in sv.up && PacketRefsIn(sv.sched.tx[i], sv.registry)
  }

  ghost predicate RegistryOk(sv: Server) {
    NoDup(sv.registry) && |sv.registry| <= MAX_SERVICES && Known(sv, sv.registry)
  }

  ghost predicate PcbOk(sv: Server, pending: set<Key>, k: Key)
    requires k in sv.pcbs
  {
    && PcbReady(sv.pcbs[k], sv.registry)
    && (k !in pending ==> PcbSound(sv.pcbs[k], Mine(sv.sched.tx, k), k in sv.up, sv.named, sv.registry))
  }

  ghost predicate PcbsOk(sv: Server, pending: set<Key>) {
    sv.up <= sv.pcbs.Keys && forall k :: k in sv.pcbs ==> PcbOk(sv, pending, k)
  }

  /** The invariant of the responder, except that the PCBs of `pending` are about to
      be probed again. */
  ghost predicate Sound(sv: Server, pending: set<Key>) {
    && Orderly(sv.sched) && RegistryOk(sv) && TwinsOk(sv) && DupsOk(sv) && PacketsOk(sv)
    && PcbsOk(sv, pending)
  }

  // --------------------------------------------------------- list bookkeeping

  lemma {:induction false} MineInsert(tx: seq<Packet>, p: Packet, k: Key)
    ensures p.pcb != k ==> Mine(Insert(tx, p), k) == Mine(tx, k)
    ensures p.pcb == k && Mine(tx, k) == [] ==> Mine(Insert(tx, p), k) == [p]
    ensures forall q :: q in Mine(Insert(tx, p), k) <==> q in Mine(tx, k) || (q == p && p.pcb == k)
  {
    if tx == [] || tx[0].sendAt > p.sendAt {
      assert ([p] + tx)[1..] == tx;
    } else {
      MineInsert(tx[1..], p, k);
      assert ([tx[0]] + Insert(tx[1..], p))[1..] == Insert(tx[1..], p);
    }
  }

  lemma {:induction false} MineWithout(tx: seq<Packet>, gone: Key, k: Key)
    ensures Mine(Without(tx, gone), k) == if k == gone then [] else Mine(tx, k)
  {
    if tx != [] {
      MineWithout(tx[1..], gone, k);
      if tx[0].pcb != gone {
        assert ([tx[0]] + Without(tx[1..], gone))[1..] == Without(tx[1..], gone);
      }
    }
  }

  lemma {:induction false} MineIn(tx: seq<Packet>, k: Key)
    ensures forall p :: p in Mine(tx, k) <==> p in tx && p.pcb == k
  {
    if tx != [] {
      MineIn(tx[1..], k);
      assert tx == [tx[0]] + tx[1..];
    }
  }

  lemma {:induction false} InsertIn(tx: seq<Packet>, p: Packet)
    ensures forall q :: q in Insert(tx, p) <==> q in tx || q == p
  {
    if tx != [] && tx[0].sendAt <= p.sendAt {
      InsertIn(tx[1..], p);
      assert tx == [tx[0]] + tx[1..];
    }
  }
}
