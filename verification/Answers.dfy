/** Answer lists, and the packets that probe for services and announce them. */
module Answers {
  import opened Options
  import opened Packets

  /** What the responder knows of a service; `host` is the host item its host name
      resolves to. */
  datatype Service = Service(instance: Option<string>, service: string, proto: string, host: Option<nat>)

  /** The host item of the responder itself. */
  const SELF_HOST: nat := 0

  // ------------------------------------------------------------ answer lists

  predicate SameEntry(a: Answer, rtype: RecordType, service: Option<nat>, host: Option<nat>) {
    a.rtype == rtype && a.service == service && a.host == host
  }

  predicate HasEntry(list: seq<Answer>, rtype: RecordType, service: Option<nat>, host: Option<nat>) {
    exists i :: 0 <= i < |list| && SameEntry(list[i], rtype, service, host)
  }

  /** No (type, service, host) triple twice. */
  ghost predicate NoEntryTwice(list: seq<Answer>) {
    forall i, j :: 0 <= i < j < |list| ==> !SameEntry(list[i], list[j].rtype, list[j].service, list[j].host)
  }

  function AllocAnswer(list: seq<Answer>, rtype: RecordType, service: Option<nat>, host: Option<nat>,
                       flush: bool, bye: bool): (r: seq<Answer>)
    ensures list <= r && HasEntry(r, rtype, service, host)
    ensures NoEntryTwice(list) ==> NoEntryTwice(r)
    ensures forall i :: |list| <= i < |r| ==> SameEntry(r[i], rtype, service, host)
    ensures forall i :: |list| <= i < |r| ==> r[i].flush == flush && r[i].bye == bye
  {
    if HasEntry(list, rtype, service, host) then list
    else
      var r := list + [Answer(rtype, service, host, flush, bye)];
      assert SameEntry(r[|list|], rtype, service, host);
      r
  }

  lemma EntriesGrow(list: seq<Answer>, more: seq<Answer>)
    requires list <= more
    ensures forall t, s, h :: HasEntry(list, t, s, h) ==> HasEntry(more, t, s, h)
  {
    forall t, s, h | HasEntry(list, t, s, h) ensures HasEntry(more, t, s, h) {
      var i :| 0 <= i < |list| && SameEntry(list[i], t, s, h);
      assert SameEntry(more[i], t, s, h);
    }
  }

  /** The list gains the triple and nothing else; what was there stays as it was, what is
      new has the flags that were asked for. */
  lemma AllocHas(list: seq<Answer>, rtype: RecordType, service: Option<nat>, host: Option<nat>, flush: bool, bye: bool)
    ensures var r := AllocAnswer(list, rtype, service, host, flush, bye);
      && list <= r
      && (forall t, s, h :: HasEntry(r, t, s, h) <==> HasEntry(list, t, s, h) || (t == rtype && s == service && h == host))
      && (forall i :: |list| <= i < |r| ==> r[i] == Answer(rtype, service, host, flush, bye))
  {
    var r := AllocAnswer(list, rtype, service, host, flush, bye);
    EntriesGrow(list, r);
    forall t, s, h | HasEntry(r, t, s, h) ensures HasEntry(list, t, s, h) || (t == rtype && s == service && h == host) {
      var i :| 0 <= i < |r| && SameEntry(r[i], t, s, h);
      assert i < |list| ==> SameEntry(list[i], t, s, h);
    }
  }

  /** The list refers to no service outside `known`. */
  ghost predicate RefsIn(list: seq<Answer>, known: seq<nat>) {
    forall i :: 0 <= i < |list| && list[i].service.Some? ==> list[i].service.value in known
  }

  ghost predicate PacketRefsIn(p: Packet, known: seq<nat>) {
    RefsIn(p.answers, known) && RefsIn(p.servers, known) && RefsIn(p.additional, known)
  }

  ghost predicate Mentions(list: seq<Answer>, service: Option<nat>) {
    exists i :: 0 <= i < |list| && list[i].service == service
  }

  function AppendHost(list: seq<Answer>, host: Option<nat>, flush: bool, bye: bool): (r: seq<Answer>)
    ensures list <= r && Mentions(r, None)
    ensures forall i :: |list| <= i < |r| ==> r[i].service == None && (r[i].rtype == A || r[i].rtype == AAAA)
  {
    var r := AllocAnswer(list, A, None, host, flush, bye);
    var i :| 0 <= i < |r| && SameEntry(r[i], A, None, host);
    assert r[i].service == None;
    var r' := AllocAnswer(r, AAAA, None, host, flush, bye);
    assert r'[i].service == None;
    r'
  }

  /** Addresses of the hosts of the services, or of the responder if there are none. */
  function AppendHosts(list: seq<Answer>, services: seq<nat>, info: map<nat, Service>, flush: bool, bye: bool): (r: seq<Answer>)
    requires forall s :: s in services ==> s in info
    ensures list <= r && Mentions(r, None)
    ensures forall i :: |list| <= i < |r| ==> r[i].service == None && (r[i].rtype == A || r[i].rtype == AAAA)
    decreases |services|
  {
    if services == [] then AppendHost(list, Some(SELF_HOST), flush, bye)
    else
      var r := AppendHost(list, info[services[0]].host, flush, bye);
      if |services| == 1 then r else
        assert forall s :: s in services[1..] ==> s in services;
        AppendHosts(r, services[1..], info, flush, bye)
  }

  // ------------------------------------------------------------ probe packets

  function NewPacket(id: nat, k: Key): Packet {
    Packet(id, k, 0, false, false, false, [], [], [], [])
  }

  /** Same type and same pointers. */
  predicate SameQuestion(q: Question, r: Question) {
    q.qtype == r.qtype && q.host == r.host && q.owner == r.owner
  }

  predicate HasQuestion(list: seq<Question>, q: Question) {
    exists i :: 0 <= i < |list| && SameQuestion(list[i], q)
  }

  function AddQuestion(list: seq<Question>, q: Question): seq<Question> {
    if HasQuestion(list, q) then list else list + [q]
  }

  function ServiceQuestion(s: nat, svc: Service, unicast: bool): Question {
    Question(ANY, unicast, if svc.instance.Some? && |svc.instance.value| > 0 then InstanceOf(s) else ServerName, Some(s),
             Some(svc.service), Some(svc.proto))
  }

  function HostQuestion(host: Name, unicast: bool): Question {
    Question(ANY, unicast, host, None, None, None)
  }

  /** One question and one SRV entry for each service, unless its question is there. */
  function AddProbes(p: Packet, services: seq<nat>, info: map<nat, Service>, first: bool): Packet
    requires forall s :: s in services ==> s in info
    decreases |services|
  {
    if services == [] then p
    else
      var s := services[0];
      var q := ServiceQuestion(s, info[s], first);
      var p' := if HasQuestion(p.questions, q) then p
                else p.(questions := p.questions + [q], servers := AllocAnswer(p.servers, SRV, Some(s), None, false, false));
      AddProbes(p', services[1..], info, first)
  }

  function HostQuestions(list: seq<Question>, services: seq<nat>, unicast: bool): seq<Question>
    decreases |services|
  {
    if services == [] then list
    else HostQuestions(AddQuestion(list, HostQuestion(HostOf(services[0]), unicast)), services[1..], unicast)
  }

  function CreateProbe(id: nat, k: Key, services: seq<nat>, info: map<nat, Service>, first: bool, includeIp: bool): Packet
    requires forall s :: s in services ==> s in info
  {
    var p := AddProbes(NewPacket(id, k), services, info, first);
    if includeIp then
      p.(questions := HostQuestions(AddQuestion(p.questions, HostQuestion(ServerName, first)), services, first),
         servers := AppendHosts(p.servers, services, info, false, false))
    else p
  }

  /** The entries of a probe packet: SRV for a service, A or AAAA for a host. */
  ghost predicate ProbeEntries(list: seq<Answer>) {
    forall i :: 0 <= i < |list| ==>
      if list[i].service.Some? then list[i].rtype == SRV else list[i].rtype == A || list[i].rtype == AAAA
  }

  /** The probe packet speaks for every service being probed, and for the host. */
  ghost predicate Covers(p: Packet, services: seq<nat>, ip: bool) {
    && (forall s :: s in services ==> Mentions(p.servers, Some(s)))
    && (ip ==> Mentions(p.servers, None))
  }

  ghost predicate NoDup(s: seq<nat>) {
    forall i, j :: 0 <= i < j < |s| ==> s[i] != s[j]
  }

  ghost predicate Subset(s: seq<nat>, t: seq<nat>) {
    forall x :: x in s ==> x in t
  }

  lemma {:induction false} AddProbesCovers(p: Packet, services: seq<nat>, info: map<nat, Service>, first: bool)
    requires forall s :: s in services ==> s in info
    requires forall i :: 0 <= i < |p.questions| && p.questions[i].owner.Some? ==> Mentions(p.servers, p.questions[i].owner)
    ensures var r := AddProbes(p, services, info, first);
      && p.servers <= r.servers && Covers(r, services, false)
      && (forall i :: |p.servers| <= i < |r.servers| ==> r.servers[i].service.Some? && r.servers[i].service.value in services)
      && r == p.(questions := r.questions, servers := r.servers)
    decreases |services|
  {
    if services != [] {
      var s := services[0];
      var q := ServiceQuestion(s, info[s], first);
      var p' := if HasQuestion(p.questions, q) then p
                else p.(questions := p.questions + [q], servers := AllocAnswer(p.servers, SRV, Some(s), None, false, false));
      MentionsGrow(p.servers, p'.servers);
      if !HasQuestion(p.questions, q) {
        var i :| 0 <= i < |p'.servers| && SameEntry(p'.servers[i], SRV, Some(s), None);
        assert p'.servers[i].service == Some(s);
      } else {
        var i :| 0 <= i < |p.questions| && SameQuestion(p.questions[i], q);
        assert Mentions(p.servers, p.questions[i].owner);
      }
      assert Mentions(p'.servers, Some(s));
      AddProbesCovers(p', services[1..], info, first);
      MentionsGrow(p'.servers, AddProbes(p', services[1..], info, first).servers);
      assert services == [s] + services[1..];
    }
  }

  lemma {:induction false} AddProbesEntries(p: Packet, services: seq<nat>, info: map<nat, Service>, first: bool)
    requires forall s :: s in services ==> s in info
    requires ProbeEntries(p.servers)
    ensures ProbeEntries(AddProbes(p, services, info, first).servers)
    decreases |services|
  {
    if services != [] {
      var s := services[0];
      var q := ServiceQuestion(s, info[s], first);
      var p' := if HasQuestion(p.questions, q) then p
                else p.(questions := p.questions + [q], servers := AllocAnswer(p.servers, SRV, Some(s), None, false, false));
      AddProbesEntries(p', services[1..], info, first);
    }
  }

  lemma MentionsGrow(list: seq<Answer>, more: seq<Answer>)
    requires list <= more
    ensures forall s :: Mentions(list, s) ==> Mentions(more, s)
  {
    forall s | Mentions(list, s) ensures Mentions(more, s) {
      var i :| 0 <= i < |list| && list[i].service == s;
      assert more[i].service == s;
    }
  }

  /** What a probe packet holds: an entry for every service and, with the addresses,
      one for the host, and nothing about any other service. */
  lemma CreateProbeCovers(id: nat, k: Key, services: seq<nat>, info: map<nat, Service>, first: bool, includeIp: bool)
    requires forall s :: s in services ==> s in info
    ensures var p := CreateProbe(id, k, services, info, first, includeIp);
      Covers(p, services, includeIp) && PacketRefsIn(p, services)
      && ProbeEntries(p.servers)
      && p == NewPacket(id, k).(questions := p.questions, servers := p.servers)
  {
    AddProbesCovers(NewPacket(id, k), services, info, first);
    AddProbesEntries(NewPacket(id, k), services, info, first);
    var p := AddProbes(NewPacket(id, k), services, info, first);
    MentionsGrow(p.servers, CreateProbe(id, k, services, info, first, includeIp).servers);
  }

  // ------------------------------------------------------- announce packets

  /** The four records of a service. */
  function AnnounceOne(list: seq<Answer>, service: nat): (r: seq<Answer>)
    ensures list <= r && r != []
    ensures forall i :: |list| <= i < |r| ==> r[i].service == Some(service)
  {
    var s := Some(service);
    var r := AllocAnswer(AllocAnswer(list, SDPTR, s, None, false, false), PTR, s, None, false, false);
    assert list <= r && r != [] && forall i :: |list| <= i < |r| ==> r[i].service == s;
    AllocAnswer(AllocAnswer(r, SRV, s, None, true, false), TXT, s, None, true, false)
  }

  function AddAnnounced(list: seq<Answer>, services: seq<nat>): (r: seq<Answer>)
    ensures list <= r
    ensures forall i :: |list| <= i < |r| ==> r[i].service.Some? && r[i].service.value in services
    ensures services != [] ==> r != []
    decreases |services|
  {
    if services == [] then list
    else
      var r := AnnounceOne(list, services[0]);
      assert forall x :: x in services[1..] ==> x in services;
      AddAnnounced(r, services[1..])
  }

  function CreateAnnounce(id: nat, k: Key, services: seq<nat>, info: map<nat, Service>, includeIp: bool): Packet
    requires forall s :: s in services ==> s in info
  {
    NewPacket(id, k).(announces := true, answers := AddAnnounced([], services),
                      servers := if includeIp then AppendHosts([], services, info, true, false) else [])
  }

  /** What one entry of a probe packet becomes. */
  function AnnounceOfProbe(list: seq<Answer>, a: Answer, info: map<nat, Service>): seq<Answer>
    requires a.service.Some? ==> a.service.value in info
  {
    if a.rtype == SRV && a.service.Some? then
      AppendHost(AddAnnounced(list, [a.service.value]), info[a.service.value].host, true, false)
    else if a.rtype == A || a.rtype == AAAA then AllocAnswer(list, a.rtype, None, a.host, true, false)
    else list
  }

  function AnnounceEntries(list: seq<Answer>, probed: seq<Answer>, info: map<nat, Service>): seq<Answer>
    requires forall i :: 0 <= i < |probed| && probed[i].service.Some? ==> probed[i].service.value in info
    decreases |probed|
  {
    if probed == [] then list
    else
      AnnounceEntries(AnnounceOfProbe(list, probed[0], info), probed[1..], info)
  }

  function AnnounceFromProbe(id: nat, probe: Packet, info: map<nat, Service>): Packet
    requires forall i :: 0 <= i < |probe.servers| && probe.servers[i].service.Some? ==> probe.servers[i].service.value in info
  {
    NewPacket(id, probe.pcb).(announces := true, answers := AnnounceEntries([], probe.servers, info))
  }

  ghost predicate Announces(list: seq<Answer>, s: nat) {
    HasEntry(list, SDPTR, Some(s), None) && HasEntry(list, PTR, Some(s), None)
    && HasEntry(list, SRV, Some(s), None) && HasEntry(list, TXT, Some(s), None)
  }

  lemma AnnouncesOne(list: seq<Answer>, s: nat)
    ensures Announces(AddAnnounced(list, [s]), s)
  {
    var x := Some(s);
    var r1 := AllocAnswer(list, SDPTR, x, None, false, false);
    var r2 := AllocAnswer(r1, PTR, x, None, false, false);
    var r3 := AllocAnswer(r2, SRV, x, None, true, false);
    var r4 := AllocAnswer(r3, TXT, x, None, true, false);
    EntriesGrow(r1, r4);
    EntriesGrow(r2, r4);
    EntriesGrow(r3, r4);
    assert AddAnnounced(list, [s]) == r4;
  }

  /** Probing turns into announcing the same services: the announcement carries the
      four records of every service the probe asked about, and of no other. */
  lemma {:induction false} AnnounceEntriesCover(list: seq<Answer>, probed: seq<Answer>, info: map<nat, Service>)
    requires forall i :: 0 <= i < |probed| && probed[i].service.Some? ==> probed[i].service.value in info
    requires ProbeEntries(probed)
    ensures var r := AnnounceEntries(list, probed, info);
      && list <= r && (probed != [] ==> r != [])
      && (forall i :: |list| <= i < |r| && r[i].service.Some? ==> Mentions(probed, r[i].service))
    ensures forall i :: 0 <= i < |probed| && probed[i].service.Some? ==>
      Announces(AnnounceEntries(list, probed, info), probed[i].service.value)
    decreases |probed|
  {
    hide AllocAnswer, AnnounceOne, Announces, HasEntry, AppendHost;
    if probed != [] {
      var a, rest := probed[0], probed[1..];
      var list' := AnnounceOfProbe(list, a, info);
      AnnounceEntriesCover(list', rest, info);
      var r := AnnounceEntries(list', rest, info);
      ProbedEntry(list, a, info);
      assert r == AnnounceEntries(list, probed, info);
      forall i | |list| <= i < |r| && r[i].service.Some? ensures Mentions(probed, r[i].service) {
        if i < |list'| {
          assert probed[0].service == r[i].service;
        } else {
          var j :| 0 <= j < |rest| && rest[j].service == r[i].service;
          assert probed[j + 1].service == r[i].service;
        }
      }
      forall i | 0 <= i < |probed| && probed[i].service.Some? ensures Announces(r, probed[i].service.value) {
        if i > 0 {
          assert probed[i] == rest[i - 1];
        } else {
          AnnouncesGrow(list', r, a.service.value);
        }
      }
    }
  }

  lemma AnnouncesGrow(list: seq<Answer>, more: seq<Answer>, s: nat)
    requires list <= more && Announces(list, s)
    ensures Announces(more, s)
  {
    hide HasEntry;
    EntriesGrow(list, more);
  }

  lemma ProbedEntry(list: seq<Answer>, a: Answer, info: map<nat, Service>)
    requires a.service.Some? ==> a.service.value in info
    requires if a.service.Some? then a.rtype == SRV else a.rtype == A || a.rtype == AAAA
    ensures var r := AnnounceOfProbe(list, a, info);
      && list <= r && r != [] && (a.service.Some? ==> Announces(r, a.service.value))
      && (forall i :: |list| <= i < |r| && r[i].service.Some? ==> r[i].service == a.service)
  {
    hide AllocAnswer, AnnounceOne, Announces, AppendHost;
    if a.service.Some? {
      var s := a.service.value;
      var one := AddAnnounced(list, [s]);
      assert one == AnnounceOne(list, s) by { assert [s][1..] == []; assert AddAnnounced(AnnounceOne(list, s), []) == AnnounceOne(list, s); }
      AnnouncesOne(list, s);
      AnnouncesGrow(one, AppendHost(one, info[s].host, true, false), s);
    }
  }
}
