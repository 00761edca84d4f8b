/** The responder's code on its fields: loops over lists, the merged probe array, the
    PCB fields. Each method is proved to do what its function in Responder says. */
module ResponderCode {
  import opened Options
  import opened Packets
  import opened Answers
  import opened Scheduler
  import opened Responder
  import HostRemoval

  // ------------------------------------------------------------------- lists

  /** _mdns_alloc_answer */
  method AllocAnswerScan(list: seq<Answer>, rtype: RecordType, service: Option<nat>, host: Option<nat>,
                         flush: bool, bye: bool) returns (r: seq<Answer>)
    ensures r == AllocAnswer(list, rtype, service, host, flush, bye)
  {
    var d := 0;
    while d < |list|
      invariant d <= |list| && forall i :: 0 <= i < d ==> !SameEntry(list[i], rtype, service, host)
    {
      if list[d].rtype == rtype && list[d].service == service && list[d].host == host {
        assert SameEntry(list[d], rtype, service, host);
        return list;
      }
      d := d + 1;
    }
    r := list + [Answer(rtype, service, host, flush, bye)];
  }

  /** _mdns_dealloc_scheduled_service_answers: the entries at the head, then the rest. */
  method DeallocServiceAnswers(list: seq<Answer>, s: nat) returns (r: seq<Answer>)
    ensures r == DropEntries(list, s)
  {
    r := list;
    while |r| > 0 && r[0].service == Some(s)
      invariant DropEntries(r, s) == DropEntries(list, s)
      decreases |r|
    {
      assert [] + DropEntries(r[1..], s) == DropEntries(r[1..], s);
      r := r[1..];
    }
    if |r| > 0 {
      var d := 0;
      while d + 1 < |r|
        invariant d < |r| && r[..d + 1] + DropEntries(r[d + 1..], s) == DropEntries(list, s)
        decreases |r| - d
      {
        assert r[d + 1..][1..] == r[d + 2..];
        if r[d + 1].service == Some(s) {
          assert [] + DropEntries(r[d + 2..], s) == DropEntries(r[d + 2..], s);
          r := r[..d + 1] + r[d + 2..];
        } else {
          assert r[..d + 2] == r[..d + 1] + [r[d + 1]];
          d := d + 1;
        }
      }
      assert r[d + 1..] == [] && r[..d + 1] == r;
    }
  }

  /** The search of _mdns_remove_scheduled_service_packets through a question list. */
  method RemoveQuestion(questions: seq<Question>, svc: Service) returns (r: seq<Question>)
    ensures r == DropQuestion(questions, svc)
  {
    r := questions;
    if |questions| > 0 {
      if AsksFor(questions[0], svc) {
        r := questions[1..];
      } else {
        var qs := 0;
        while qs + 1 < |questions| && !AsksFor(questions[qs + 1], svc)
          invariant qs < |questions|
          invariant DropQuestion(questions, svc) == questions[..qs + 1] + DropQuestion(questions[qs + 1..], svc)
        {
          assert questions[qs + 1..][1..] == questions[qs + 2..];
          assert questions[..qs + 2] == questions[..qs + 1] + [questions[qs + 1]];
          qs := qs + 1;
        }
        if qs + 1 < |questions| {
          r := questions[..qs + 1] + questions[qs + 2..];
          assert questions[qs + 1..][1..] == questions[qs + 2..];
        } else {
          assert questions[qs + 1..] == [] && questions[..qs + 1] == questions;
        }
      }
    }
  }

  /** The shift that closes the gap in a probe list, in place. */
  method CloseGap(list: array<nat>, len: nat, i: nat)
    requires i < len <= list.Length
    modifies list
    ensures list[..len - 1] == old(list[..i]) + old(list[i + 1..len])
  {
    var n := i + 1;
    while n < len
      invariant i < n <= len
      invariant forall j :: 0 <= j < i ==> list[j] == old(list[j])
      invariant forall j :: i <= j < n - 1 ==> list[j] == old(list[j + 1])
      invariant forall j :: n - 1 <= j < list.Length && j >= n ==> list[j] == old(list[j])
    {
      list[n - 1] := list[n];
      n := n + 1;
    }
    ghost var want := old(list[..i]) + old(list[i + 1..len]);
    forall j | 0 <= j < len - 1 ensures list[j] == want[j] {}
    assert list[..len - 1] == want;
  }

  lemma {:induction false} DropFirstAt(list: seq<nat>, s: nat, i: nat)
    requires i < |list| && list[i] == s && s !in list[..i]
    ensures DropFirst(list, s) == list[..i] + list[i + 1..]
  {
    if i > 0 {
      assert list[0] in list[..i];
      assert list[1..][..i - 1] == list[..i][1..];
      DropFirstAt(list[1..], s, i - 1);
      assert list[1..][..i - 1] + list[1..][i..] == list[1..i] + list[i + 1..];
    }
  }

  /** Finding the removed service in a probe list and closing the gap. */
  method RemoveProbe(probes: seq<nat>, s: nat) returns (r: seq<nat>)
    ensures r == DropFirst(probes, s)
  {
    var list := new nat[|probes|](i requires 0 <= i < |probes| => probes[i]);
    assert list[..] == probes;
    var i := 0;
    while i < list.Length && list[i] != s
      invariant i <= list.Length && s !in probes[..i] && list[..] == probes
    {
      i := i + 1;
    }
    if i < list.Length {
      DropFirstAt(probes, s, i);
      CloseGap(list, list.Length, i);
      r := list[..list.Length - 1];
    } else {
      DropFirstNone(probes, s);
      r := probes;
    }
  }

  lemma {:induction false} DropFirstNone(list: seq<nat>, s: nat)
    requires s !in list
    ensures DropFirst(list, s) == list
  {
    if list != [] { DropFirstNone(list[1..], s); }
  }

  /** The requested services that are not probed yet, by a nested search. */
  method NewProbes(services: seq<nat>, probing: seq<nat>) returns (r: seq<nat>)
    ensures r == NotProbed(services, probing)
  {
    var chosen := new nat[|services|];
    var len := 0;
    var j := 0;
    while j < |services|
      invariant j <= |services| && len <= j
      invariant chosen[..len] + NotProbed(services[j..], probing) == NotProbed(services, probing)
    {
      var found := false;
      var i := 0;
      while i < |probing| && !found
        invariant i <= |probing| && (found <==> services[j] in probing[..i])
      {
        if probing[i] == services[j] { found := true; }
        i := i + 1;
      }
      assert found <==> services[j] in probing by {
        if !found { assert probing[..i] == probing; }
      }
      assert services[j..][1..] == services[j + 1..];
      if !found {
        ghost var before := chosen[..len];
        chosen[len] := services[j];
        len := len + 1;
        assert chosen[..len] == before + [services[j]];
      } else {
        assert [] + NotProbed(services[j + 1..], probing) == NotProbed(services[j + 1..], probing);
      }
      j := j + 1;
    }
    r := chosen[..len];
  }

  /** The list a probe asks for: the new services, then those probed already. The
      array is as long as the macro says, so the second copy stays inside it only
      because a PCB that does not probe has no list. */
  method MergeProbes(services: seq<nat>, b: Pcb) returns (r: seq<nat>)
    requires !IsProbing(b) ==> b.probeServices == []
    ensures r == services + b.probeServices
  {
    var len := |services|;
    if IsProbing(b) { len := len + |b.probeServices|; }
    var merged := new nat[len];
    var i := 0;
    while i < |services|
      invariant i <= |services| && merged[..i] == services[..i]
    {
      merged[i] := services[i];
      assert merged[..i + 1] == merged[..i] + [services[i]];
      i := i + 1;
    }
    i := 0;
    while i < |b.probeServices|
      invariant i <= |b.probeServices|
      invariant merged[..|services| + i] == services + b.probeServices[..i]
    {
      merged[|services| + i] := b.probeServices[i];
      assert merged[..|services| + i + 1] == merged[..|services| + i] + [b.probeServices[i]];
      i := i + 1;
    }
    r := merged[..];
  }

  // --------------------------------------------------------------- packets

  method AppendHostEntries(list: seq<Answer>, host: Option<nat>, flush: bool, bye: bool) returns (r: seq<Answer>)
    ensures r == AppendHost(list, host, flush, bye)
  {
    r := AllocAnswerScan(list, A, None, host, flush, bye);
    r := AllocAnswerScan(r, AAAA, None, host, flush, bye);
  }

  /** _mdns_append_host_list_in_services */
  method AppendHostList(list: seq<Answer>, services: seq<nat>, info: map<nat, Service>, flush: bool, bye: bool)
      returns (r: seq<Answer>)
    requires forall s :: s in services ==> s in info
    ensures r == AppendHosts(list, services, info, flush, bye)
  {
    if |services| == 0 {
      r := AppendHostEntries(list, Some(SELF_HOST), flush, bye);
      return;
    }
    r := list;
    var i := 0;
    while i < |services|
      invariant i <= |services|
      invariant i < |services| ==> AppendHosts(r, services[i..], info, flush, bye) == AppendHosts(list, services, info, flush, bye)
      invariant i == |services| ==> r == AppendHosts(list, services, info, flush, bye)
    {
      assert services[i..][1..] == services[i + 1..];
      r := AppendHostEntries(r, info[services[i]].host, flush, bye);
      i := i + 1;
    }
  }

  /** The question is appended unless one with the same type and pointers is there. */
  method AppendQuestion(list: seq<Question>, q: Question) returns (r: seq<Question>, added: bool)
    ensures added <==> !HasQuestion(list, q)
    ensures r == if added then list + [q] else list
  {
    var i := 0;
    while i < |list|
      invariant i <= |list| && forall j :: 0 <= j < i ==> !SameQuestion(list[j], q)
    {
      if SameQuestion(list[i], q) { return list, false; }
      i := i + 1;
    }
    return list + [q], true;
  }

  /** The service loop of _mdns_create_probe_packet. */
  method AppendProbes(packet: Packet, services: seq<nat>, info: map<nat, Service>, first: bool) returns (r: Packet)
    requires forall s :: s in services ==> s in info
    ensures r == AddProbes(packet, services, info, first)
  {
    r := packet;
    var i := 0;
    while i < |services|
      invariant i <= |services|
      invariant AddProbes(r, services[i..], info, first) == AddProbes(packet, services, info, first)
    {
      var s := services[i];
      assert services[i..][0] == s && services[i..][1..] == services[i + 1..];
      var questions, added := AppendQuestion(r.questions, ServiceQuestion(s, info[s], first));
      if added {
        var servers := AllocAnswerScan(r.servers, SRV, Some(s), None, false, false);
        r := r.(questions := questions, servers := servers);
      }
      i := i + 1;
    }
  }

  /** The host questions of _mdns_create_probe_packet. */
  method AppendHostQuestions(list: seq<Question>, services: seq<nat>, unicast: bool) returns (r: seq<Question>)
    ensures r == HostQuestions(AddQuestion(list, HostQuestion(ServerName, unicast)), services, unicast)
  {
    var added: bool;
    r, added := AppendQuestion(list, HostQuestion(ServerName, unicast));
    var i := 0;
    while i < |services|
      invariant i <= |services|
      invariant HostQuestions(r, services[i..], unicast)
        == HostQuestions(AddQuestion(list, HostQuestion(ServerName, unicast)), services, unicast)
    {
      assert services[i..][0] == services[i] && services[i..][1..] == services[i + 1..];
      r, added := AppendQuestion(r, HostQuestion(HostOf(services[i]), unicast));
      i := i + 1;
    }
  }

  /** _mdns_create_probe_packet */
  method CreateProbePacket(id: nat, k: Key, services: seq<nat>, info: map<nat, Service>, first: bool, includeIp: bool)
      returns (p: Packet)
    requires forall s :: s in services ==> s in info
    ensures p == CreateProbe(id, k, services, info, first, includeIp)
  {
    p := AppendProbes(NewPacket(id, k), services, info, first);
    if includeIp {
      var questions := AppendHostQuestions(p.questions, services, first);
      var servers := AppendHostList(p.servers, services, info, false, false);
      p := p.(questions := questions, servers := servers);
    }
  }

  /** The four records of a service, each unless it is there. */
  method AppendAnnounced(list: seq<Answer>, services: seq<nat>) returns (r: seq<Answer>)
    ensures r == AddAnnounced(list, services)
  {
    r := list;
    var i := 0;
    while i < |services|
      invariant i <= |services| && AddAnnounced(r, services[i..]) == AddAnnounced(list, services)
    {
      var s := Some(services[i]);
      assert services[i..][0] == services[i] && services[i..][1..] == services[i + 1..];
      r := AllocAnswerScan(r, SDPTR, s, None, false, false);
      r := AllocAnswerScan(r, PTR, s, None, false, false);
      r := AllocAnswerScan(r, SRV, s, None, true, false);
      r := AllocAnswerScan(r, TXT, s, None, true, false);
      i := i + 1;
    }
  }

  /** _mdns_create_announce_from_probe */
  method CreateAnnounceFromProbe(id: nat, probe: Packet, info: map<nat, Service>) returns (p: Packet)
    requires forall i :: 0 <= i < |probe.servers| && probe.servers[i].service.Some? ==> probe.servers[i].service.value in info
    ensures p == AnnounceFromProbe(id, probe, info)
  {
    var list: seq<Answer> := [];
    var s := 0;
    while s < |probe.servers|
      invariant s <= |probe.servers|
      invariant AnnounceEntries(list, probe.servers[s..], info) == AnnounceEntries([], probe.servers, info)
    {
      var a := probe.servers[s];
      assert probe.servers[s..][0] == a && probe.servers[s..][1..] == probe.servers[s + 1..];
      if a.rtype == SRV && a.service.Some? {
        list := AppendAnnounced(list, [a.service.value]);
        list := AppendHostEntries(list, info[a.service.value].host, true, false);
      } else if a.rtype == A || a.rtype == AAAA {
        list := AllocAnswerScan(list, a.rtype, None, a.host, true, false);
      }
      s := s + 1;
    }
    p := NewPacket(id, probe.pcb).(announces := true, answers := list);
  }

  /** _mdns_dealloc_answer: the first entry that matches goes. */
  method RemoveEntry(list: seq<Answer>, rtype: RecordType, service: Option<nat>) returns (r: seq<Answer>)
    ensures r == DeallocEntry(list, rtype, service)
  {
    var d := 0;
    while d < |list| && !(list[d].rtype == rtype && list[d].service == service)
      invariant d <= |list| && forall j :: 0 <= j < d ==> !(list[j].rtype == rtype && list[j].service == service)
    {
      d := d + 1;
    }
    DeallocAt(list, rtype, service, d);
    r := if d < |list| then list[..d] + list[d + 1..] else list;
  }

  lemma {:induction false} DeallocAt(list: seq<Answer>, rtype: RecordType, service: Option<nat>, d: nat)
    requires d <= |list| && forall j :: 0 <= j < d ==> !(list[j].rtype == rtype && list[j].service == service)
    requires d < |list| ==> list[d].rtype == rtype && list[d].service == service
    ensures DeallocEntry(list, rtype, service) == if d < |list| then list[..d] + list[d + 1..] else list
  {
    if d > 0 {
      var rest := list[1..];
      assert forall j :: 0 <= j < |rest| ==> rest[j] == list[j + 1];
      DeallocAt(rest, rtype, service, d - 1);
      if d < |list| { SkipOne(list, d); }
    }
  }

  lemma SkipOne<T>(list: seq<T>, d: nat)
    requires 0 < d < |list|
    ensures [list[0]] + (list[1..][..d - 1] + list[1..][d..]) == list[..d] + list[d + 1..]
  {
  }

  lemma DropTurn(tx: seq<Packet>, pcbs: map<Key, Pcb>, up: set<Key>, s: nat, svc: Service)
    requires tx != [] && KeysIn(tx, pcbs)
    ensures var p := tx[0]; var b := pcbs[p.pcb]; var p' := DropFromPacket(p, b, p.pcb in up, s, svc);
      var pcbs' := pcbs[p.pcb := DropFromPcb(b, p.pcb in up, s, p.answers != [] && p'.answers == [])];
      var rest := DropLoop(tx[1..], pcbs', up, s, svc);
      DropLoop(tx, pcbs, up, s, svc) == ((if Emptied(p') then [] else [p']) + rest.0, rest.1)
  {
  }

  lemma DropDone(pcbs: map<Key, Pcb>, up: set<Key>, s: nat, svc: Service)
    ensures DropLoop([], pcbs, up, s, svc) == ([], pcbs)
  {
  }

  lemma AnswersTurn(tx: seq<Packet>, k: Key, rtype: RecordType, service: Option<nat>)
    ensures tx == [] ==> DropAnswers(tx, k, rtype, service) == []
    ensures tx != [] ==>
      DropAnswers(tx, k, rtype, service) ==
      [if tx[0].pcb == k && tx[0].distributed
       then tx[0].(answers := DeallocEntry(tx[0].answers, rtype, service)) else tx[0]]
      + DropAnswers(tx[1..], k, rtype, service)
  {
  }

  // ------------------------------------------------------------- the server

  lemma SortedWithout(tx: seq<Packet>, k: Key)
    requires Sorted(tx)
    ensures Sorted(Without(tx, k))
  {
    WithoutThins(tx, k);
    var at := ThinnedPlaces(tx, Without(tx, k));
  }

  /** The global state of the responder. */
  class MdnsServer {
    const queue: Transmitter
    var pcbs: map<Key, Pcb>
    var up: set<Key>
    var registry: seq<nat>
    var info: map<nat, Service>
    var named: bool
    var twin: map<nat, nat>

    function Model(): Server
      reads this, queue
    {
      Server(queue.Model(), pcbs, up, registry, info, named, twin)
    }

    /** A PCB that does not probe has no probe list. */
    ghost predicate Bookkept()
      reads this
    {
      forall j :: j in pcbs && !InProbe(pcbs[j]) ==> pcbs[j].probeServices == []
    }

    constructor (keys: set<Key>, twins: map<nat, nat>)
      ensures Model() == Server(Sched(0, [], []), map k | k in keys :: Pcb(Off, [], false, false, 0), {}, [], map[], false, twins)
      ensures fresh(queue)
    {
      queue := new Transmitter();
      pcbs := map k | k in keys :: Pcb(Off, [], false, false, 0);
      up, registry, info, named, twin := {}, [], map[], false, twins;
    }

    /** _mdns_init_pcb_probe_new_service */
    method InitPcbProbeNewService(k: Key, services: seq<nat>, probeIp: bool, id: nat, jitter: nat)
      requires k in pcbs && Known(Model(), services) && Known(Model(), pcbs[k].probeServices)
      requires Bookkept() && Sorted(queue.tx)
      modifies this`pcbs, queue
      ensures Model() == StartProbe(old(Model()), k, services, probeIp, id, jitter)
    {
      hide CreateProbe, Insert, Sorted;
      var b := pcbs[k];
      var merged := MergeProbes(services, b);
      var ip := b.probeIp || probeIp;
      var packet := CreateProbePacket(id, k, merged, info, true, ip);
      queue.SchedulePacket(packet, (if b.failedProbes > 5 then 1000 else 120) + jitter);
      pcbs := pcbs[k := Pcb(Probe1, merged[..|merged| % 256], ip, true, b.failedProbes)];
    }

    /** _mdns_init_pcb_probe */
    method InitPcbProbe(k: Key, services: seq<nat>, probeIp: bool, id: nat, jitter: nat)
      requires k in pcbs && Known(Model(), services) && Known(Model(), pcbs[k].probeServices)
      requires Bookkept() && Sorted(queue.tx)
      modifies this`pcbs, queue
      ensures Model() == InitProbe(old(Model()), k, services, probeIp, id, jitter)
    {
      SortedWithout(queue.tx, k);
      NotProbedIn(services, pcbs[k].probeServices);
      queue.ClearPcb(k);
      if !named {
        pcbs := pcbs[k := pcbs[k].(state := Running)];
        return;
      }
      if IsProbing(pcbs[k]) {
        var more := NewProbes(services, pcbs[k].probeServices);
        InitPcbProbeNewService(k, more, probeIp, id, jitter);
      } else {
        InitPcbProbeNewService(k, services, probeIp, id, jitter);
      }
    }

    /** _mdns_get_next_pcb_packet */
    method NextPcbPacket(k: Key) returns (i: nat)
      ensures i == FirstOf(queue.tx, k)
    {
      i := 0;
      while i < |queue.tx| && queue.tx[i].pcb != k
        invariant i <= |queue.tx| && FirstOf(queue.tx, k) == i + FirstOf(queue.tx[i..], k)
      {
        assert queue.tx[i..][1..] == queue.tx[i + 1..];
        i := i + 1;
      }
    }

    /** The branch of _mdns_announce_pcb for a PCB that announces already. */
    method ExtendAnnouncement(k: Key, i: nat, services: seq<nat>, includeIp: bool)
      requires k in pcbs && i < |queue.tx| && Known(Model(), services)
      modifies this`pcbs, queue
      ensures Model() == SetPcb(SetTx(old(Model()), old(queue.tx)[i := AddToAnnounce(old(queue.tx)[i], services, info, includeIp)]),
                                k, old(pcbs)[k].(state := Announce1))
    {
      var p := queue.tx[i];
      var answers := AppendAnnounced(p.answers, services);
      var additional := p.additional;
      if includeIp {
        additional := RemoveEntry(additional, A, None);
        additional := RemoveEntry(additional, AAAA, None);
        answers := AppendHostList(answers, services, info, true, false);
      }
      queue.tx := queue.tx[i := p.(answers := answers, additional := additional)];
      pcbs := pcbs[k := pcbs[k].(state := Announce1)];
    }

    /** _mdns_create_announce_packet */
    method CreateAnnouncePacket(id: nat, k: Key, services: seq<nat>, includeIp: bool) returns (p: Packet)
      requires Known(Model(), services)
      ensures p == CreateAnnounce(id, k, services, info, includeIp)
    {
      var answers := AppendAnnounced([], services);
      var servers: seq<Answer> := [];
      if includeIp { servers := AppendHostList([], services, info, true, false); }
      return NewPacket(id, k).(announces := true, answers := answers, servers := servers);
    }

    /** _mdns_announce_pcb */
    method AnnouncePcb(k: Key, services: seq<nat>, includeIp: bool, id: nat, jitter: nat)
      requires k in pcbs && Known(Model(), services) && Known(Model(), pcbs[k].probeServices)
      requires Bookkept() && Sorted(queue.tx)
      modifies this`pcbs, queue
      ensures Model() == Announce(old(Model()), k, services, includeIp, id, jitter)
    {
      hide InitProbe, Insert, AddToAnnounce, CreateAnnounce, Sorted;
      if k in up {
        if IsProbing(pcbs[k]) {
          InitPcbProbe(k, services, includeIp, id, jitter);
        } else if IsAnnouncing(pcbs[k]) {
          var i := NextPcbPacket(k);
          if i < |queue.tx| {
            ExtendAnnouncement(k, i, services, includeIp);
          }
        } else if pcbs[k].state == Running && named {
          pcbs := pcbs[k := pcbs[k].(state := Announce1)];
          var p := CreateAnnouncePacket(id, k, services, includeIp);
          queue.SchedulePacket(p, 0);
        }
      }
    }

    /** _mdns_enable_pcb */
    method EnablePcb(k: Key, bindOk: bool, id: nat, jitter: nat)
      requires k in pcbs && AllKnown(Model()) && Bookkept() && Sorted(queue.tx)
      modifies this`pcbs, this`up, queue
      ensures Model() == Enable(old(Model()), k, bindOk, id, jitter)
    {
      if k !in up {
        if !bindOk {
          pcbs := pcbs[k := pcbs[k].(failedProbes := 0)];
          return;
        }
        up := up + {k};
      }
      assert up == old(up) + {k};
      InitPcbProbe(k, registry, true, id, jitter);
    }

    /** Clearing the PCB's packets and closing it. */
    method ClosePcb(k: Key)
      requires k in pcbs && Sorted(queue.tx)
      modifies this`pcbs, this`up, queue
      ensures Model() == Deinit(Cleared(old(Model()), k), k) && Sorted(queue.tx)
    {
      SortedWithout(queue.tx, k);
      queue.ClearPcb(k);
      up := up - {k};
      pcbs := pcbs[k := Pcb(Off, [], false, false, 0)];
    }

    /** _mdns_disable_pcb */
    method DisablePcb(k: Key, bindOk: bool, id: nat, jitter: nat)
      requires k in pcbs && AllKnown(Model()) && Bookkept() && Sorted(queue.tx)
      modifies this`pcbs, this`up, queue
      ensures Model() == Disable(old(Model()), k, bindOk, id, jitter)
    {
      if k in up {
        ClosePcb(k);
        if k.netif in twin {
          var other := Key(twin[k.netif], k.protocol);
          if other in pcbs && pcbs[other].state == Dup {
            RetryPcb(other, bindOk, id, jitter);
          }
        }
      }
      pcbs := pcbs[k := pcbs[k].(state := Off)];
    }

    /** A duplicate is taken for closed and enabled. */
    method RetryPcb(k: Key, bindOk: bool, id: nat, jitter: nat)
      requires k in pcbs && AllKnown(Model()) && Bookkept() && Sorted(queue.tx) && pcbs[k].state == Dup
      modifies this`pcbs, this`up, queue
      ensures AllKnown(SetPcb(old(Model()), k, old(pcbs)[k].(state := Off)))
      ensures Model() == Enable(SetPcb(old(Model()), k, old(pcbs)[k].(state := Off)), k, bindOk, id, jitter)
      ensures pcbs.Keys == old(pcbs).Keys
    {
      pcbs := pcbs[k := pcbs[k].(state := Off)];
      EnablePcb(k, bindOk, id, jitter);
    }

    /** _mdns_dup_interface, for one protocol of the interface. */
    method DupPcb(k: Key, id: nat, jitter: nat)
      requires k in pcbs && AllKnown(Model()) && Bookkept() && Sorted(queue.tx)
      requires k.netif in twin && Key(twin[k.netif], k.protocol) in pcbs && twin[k.netif] != k.netif
      requires k !in up ==> !InProbe(pcbs[k])
      modifies this`pcbs, this`up, queue
      ensures Model() == MarkDup(old(Model()), k, id, jitter)
    {
      var other := Key(twin[k.netif], k.protocol);
      if other in up {
        if k in up {
          ClosePcb(k);
        }
        DupAnnounce(k, other, id, jitter);
      }
    }

    method DupAnnounce(k: Key, other: Key, id: nat, jitter: nat)
      requires k in pcbs && other in pcbs && k != other && AllKnown(Model()) && Bookkept() && Sorted(queue.tx)
      requires !InProbe(pcbs[k])
      modifies this`pcbs, queue
      ensures AllKnown(SetPcb(old(Model()), k, old(pcbs)[k].(state := Dup)))
      ensures Model() == Announce(SetPcb(old(Model()), k, old(pcbs)[k].(state := Dup)), other, [], true, id, jitter)
    {
      pcbs := pcbs[k := pcbs[k].(state := Dup)];
      AnnouncePcb(other, [], true, id, jitter);
    }

    /** The case of the PCB's state in _mdns_tx_handle_packet. */
    method TxHandlePacket(p: Packet, allocOk: bool, id: nat)
      requires p.pcb in pcbs && ServersKnown(Model(), p) && Sorted(queue.tx)
      modifies this`pcbs, queue
      ensures Model() == Handle(old(Model()), p, allocOk, id)
    {
      hide Insert, AnnounceEntries, Multicast, Sorted;
      var k, packet, sendAfter := p.pcb, p, 1000;
      if pcbs[k].state == Off { return; }
      if pcbs[k].state == Probe1 || pcbs[k].state == Probe2 {
        if pcbs[k].state == Probe1 {
          var questions := StopUnicast(packet.questions);
          packet := packet.(questions := questions);
        }
        queue.SchedulePacket(packet, 250);
        pcbs := pcbs[k := pcbs[k].(state := if pcbs[k].state == Probe1 then Probe2 else Probe3)];
        return;
      }
      if pcbs[k].state == Probe3 {
        if !allocOk {
          queue.SchedulePacket(packet, 250);
          assert pcbs[k := pcbs[k]] == pcbs;
          return;
        }
        packet := CreateAnnounceFromProbe(id, packet, info);
        pcbs := pcbs[k := Pcb(Probe3, [], false, false, 0)];
        sendAfter := 250;
      }
      TxAnnounce(k, packet, sendAfter);
    }

    /** The questions of a probe are asked as multicast from the second time on. */
    method StopUnicast(questions: seq<Question>) returns (r: seq<Question>)
      ensures r == Multicast(questions)
    {
      r := [];
      var q := 0;
      while q < |questions|
        invariant q <= |questions| && r + Multicast(questions[q..]) == Multicast(questions)
      {
        assert questions[q..][0] == questions[q] && questions[q..][1..] == questions[q + 1..];
        r := r + [questions[q].(unicast := false)];
        q := q + 1;
      }
    }

    /** The cases that fall through to an announcement, and those behind them. */
    method TxAnnounce(k: Key, packet: Packet, sendAfter: nat)
      requires k in pcbs && packet.pcb == k && Sorted(queue.tx)
      modifies this`pcbs, queue
      ensures var b := old(pcbs)[k];
        Model() == match b.state
          case Probe3 => Scheduled(old(Model()), packet, sendAfter, b.(state := Announce1))
          case Announce1 => Scheduled(old(Model()), packet, sendAfter, b.(state := Announce2))
          case Announce2 => Scheduled(old(Model()), packet, sendAfter, b.(state := Announce3))
          case Announce3 => SetPcb(old(Model()), k, b.(state := Running))
          case _ => old(Model())
    {
      match pcbs[k].state
      case Probe3 =>
        queue.SchedulePacket(packet, sendAfter);
        pcbs := pcbs[k := pcbs[k].(state := Announce1)];
      case Announce1 =>
        queue.SchedulePacket(packet, sendAfter);
        pcbs := pcbs[k := pcbs[k].(state := Announce2)];
      case Announce2 =>
        queue.SchedulePacket(packet, sendAfter);
        pcbs := pcbs[k := pcbs[k].(state := Announce3)];
      case Announce3 =>
        pcbs := pcbs[k := pcbs[k].(state := Running)];
      case _ =>
    }

    /** The ACTION_TX_HANDLE branch of _mdns_execute_action. */
    method ExecuteTxHandle(allocOk: bool, id: nat)
      requires queue.actions != [] && Sorted(queue.tx)
      requires Accepts(queue.Model()) ==> queue.tx[0].pcb in pcbs && ServersKnown(Model(), queue.tx[0])
      modifies this`pcbs, queue
      ensures Model() == HandleAction(old(Model()), allocOk, id)
    {
      var packet := queue.TakeAction();
      if packet.Some? {
        TxHandlePacket(packet.value, allocOk, id);
      }
    }

    /** What _mdns_remove_scheduled_service_packets does with one packet and its PCB. */
    method RemoveFromPacket(p: Packet, s: nat, svc: Service) returns (r: Packet)
      requires p.pcb in pcbs
      modifies this`pcbs
      ensures var b := old(pcbs)[p.pcb];
        && r == DropFromPacket(p, b, p.pcb in up, s, svc)
        && pcbs == old(pcbs)[p.pcb := DropFromPcb(b, p.pcb in up, s, p.answers != [] && r.answers == [])]
    {
      var hadAnswers := |p.answers| > 0;
      var answers := DeallocServiceAnswers(p.answers, s);
      var additional := DeallocServiceAnswers(p.additional, s);
      var servers := DeallocServiceAnswers(p.servers, s);
      r := p.(answers := answers, additional := additional, servers := servers);
      var b := pcbs[p.pcb];
      if p.pcb in up {
        if IsProbing(b) {
          if s in b.probeServices {
            if |b.probeServices| > 1 {
              var probes := RemoveProbe(b.probeServices, s);
              b := b.(probeServices := probes);
            } else {
              b := b.(probeServices := []);
              if !b.probeIp {
                b := b.(probeRunning := false, state := Running);
              }
            }
            var questions := RemoveQuestion(p.questions, svc);
            r := r.(questions := questions);
          }
        } else if IsAnnouncing(b) {
          if hadAnswers && |answers| == 0 {
            b := b.(state := Running);
          }
        }
      }
      pcbs := pcbs[p.pcb := b];
    }

    /** _mdns_remove_scheduled_service_packets, after the service left the registry. */
    method RemoveServicePackets(s: nat)
      requires s in info && KeysIn(queue.tx, pcbs)
      modifies this, queue
      ensures Model() == RemoveService(old(Model()), s)
    {
      hide DropLoop, DropFromPacket, DropFromPcb, DropFirst;
      registry := RemoveProbe(registry, s);
      var svc := info[s];
      ghost var all := DropLoop(queue.tx, pcbs, up, s, svc);
      var kept: seq<Packet> := [];
      var todo := queue.tx;
      while |todo| > 0
        invariant KeysIn(todo, pcbs) && up == old(up) && queue.Model() == old(queue.Model())
        invariant info == old(info) && named == old(named) && twin == old(twin)
        invariant registry == DropFirst(old(registry), s)
        invariant all.0 == kept + DropLoop(todo, pcbs, up, s, svc).0
        invariant all.1 == DropLoop(todo, pcbs, up, s, svc).1
        decreases |todo|
      {
        var p := todo[0];
        DropTurn(todo, pcbs, up, s, svc);
        var r := RemoveFromPacket(p, s, svc);
        if !(|r.questions| == 0 && |r.answers| == 0 && |r.servers| == 0 && |r.additional| == 0) {
          kept := kept + [r];
        }
        todo := todo[1..];
      }
      DropDone(pcbs, up, s, svc);
      queue.tx := kept;
    }

    /** _mdns_delegate_hostname_remove, with the list of delegated hosts. */
    method DelegateHostnameRemove(hosts: seq<nat>, h: nat) returns (left: seq<nat>)
      requires Known(Model(), registry) && KeysIn(queue.tx, pcbs)
      modifies this, queue
      ensures (Model(), left) == HostRemoval.RemoveHost(old(Model()), hosts, h)
    {
      hide RemoveService, DropFirst;
      var todo := registry;
      while |todo| > 0
        invariant Known(Model(), todo) && KeysIn(queue.tx, pcbs)
        invariant HostRemoval.RemoveServicesOf(Model(), todo, h)
          == HostRemoval.RemoveServicesOf(old(Model()), old(registry), h)
        decreases |todo|
      {
        var s := todo[0];
        HostRemoval.KnownTail(Model(), todo);
        if info[s].host == Some(h) {
          HostRemoval.RemovalFits(Model(), s);
          RemoveServicePackets(s);
        }
        todo := todo[1..];
      }
      left := RemoveProbe(hosts, h);
    }

    /** _mdns_remove_scheduled_answer */
    method RemoveScheduledAnswer(k: Key, rtype: RecordType, service: Option<nat>)
      modifies queue
      ensures Model() == SetTx(old(Model()), DropAnswers(old(queue.tx), k, rtype, service))
    {
      hide DropAnswers;
      var tx := queue.tx;
      var done: seq<Packet> := [];
      var q := 0;
      assert tx[q..] == tx;
      while q < |tx|
        invariant q <= |tx| && done + DropAnswers(tx[q..], k, rtype, service) == DropAnswers(tx, k, rtype, service)
        invariant queue.Model() == old(queue.Model())
      {
        assert tx[q..][0] == tx[q] && tx[q..][1..] == tx[q + 1..];
        AnswersTurn(tx[q..], k, rtype, service);
        var p := tx[q];
        if p.pcb == k && p.distributed {
          var answers := RemoveEntry(p.answers, rtype, service);
          p := p.(answers := answers);
        }
        done := done + [p];
        q := q + 1;
      }
      assert tx[q..] == [] && done + [] == done;
      AnswersTurn([], k, rtype, service);
      queue.tx := done;
    }
  }
}
