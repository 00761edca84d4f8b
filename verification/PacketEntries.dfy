/** The entries of the packets that probe and announce: which there are, and their
    cache-flush and goodbye flags (sections 8.1, 8.3 and 10.2 of RFC 6762). */
module PacketEntries {
  import opened Options
  import opened Packets
  import opened Answers
  import opened Scheduler
  import opened Responder
  import opened ResponderKeeps
  import opened InterfaceKeeps
  import opened TransmitKeeps

  // ------------------------------------------------------------ single lists

  /** What is added behind `list` is never a goodbye, and flushes as the rule says. */
  ghost predicate NewFlags(list: seq<Answer>, r: seq<Answer>, announcing: bool) {
    list <= r && forall i :: |list| <= i < |r| ==> Flags(r[i], announcing)
  }

  /** Section 10.2: in an announcement the records that belong to one host flush, the
      shared PTR records do not; in a probe nothing does. */
  predicate Flags(a: Answer, announcing: bool) {
    !a.bye && (a.flush <==> announcing && (a.rtype == SRV || a.rtype == TXT || a.rtype == A || a.rtype == AAAA))
  }

  lemma FlagsOn(a: seq<Answer>, b: seq<Answer>, c: seq<Answer>, announcing: bool)
    requires NewFlags(a, b, announcing) && NewFlags(b, c, announcing)
    ensures NewFlags(a, c, announcing)
  {
  }

  predicate IsServiceRecord(t: RecordType) { t == SDPTR || t == PTR || t == SRV || t == TXT }

  predicate IsAddress(t: RecordType) { t == A || t == AAAA }

  lemma OneServiceHas(list: seq<Answer>, service: nat)
    ensures var r := AnnounceOne(list, service);
      && NewFlags(list, r, true)
      && forall t, s, h :: HasEntry(r, t, s, h) <==>
           HasEntry(list, t, s, h) || (h == None && s == Some(service) && IsServiceRecord(t))
  {
    hide AllocAnswer, HasEntry;
    var s := Some(service);
    var r1 := AllocAnswer(list, SDPTR, s, None, false, false);
    var r2 := AllocAnswer(r1, PTR, s, None, false, false);
    var r3 := AllocAnswer(r2, SRV, s, None, true, false);
    AllocHas(list, SDPTR, s, None, false, false);
    AllocHas(r1, PTR, s, None, false, false);
    AllocHas(r2, SRV, s, None, true, false);
    AllocHas(r3, TXT, s, None, true, false);
  }

  /** Four records for each service. */
  lemma {:induction false} AnnouncedHas(list: seq<Answer>, services: seq<nat>)
    ensures var r := AddAnnounced(list, services);
      && NewFlags(list, r, true)
      && forall t, s, h :: HasEntry(r, t, s, h) <==>
           HasEntry(list, t, s, h) || (h == None && s.Some? && s.value in services && IsServiceRecord(t))
    decreases |services|
  {
    hide AnnounceOne, HasEntry;
    if services != [] {
      var one := AnnounceOne(list, services[0]);
      OneServiceHas(list, services[0]);
      AnnouncedHas(one, services[1..]);
      assert services == [services[0]] + services[1..];
      FlagsOn(list, one, AddAnnounced(one, services[1..]), true);
    }
  }

  lemma HostHas(list: seq<Answer>, host: Option<nat>, flush: bool)
    ensures var r := AppendHost(list, host, flush, false);
      && NewFlags(list, r, flush)
      && forall t, s, h :: HasEntry(r, t, s, h) <==> HasEntry(list, t, s, h) || (IsAddress(t) && s == None && h == host)
  {
    hide AllocAnswer, HasEntry;
    AllocHas(list, A, None, host, flush, false);
    AllocHas(AllocAnswer(list, A, None, host, flush, false), AAAA, None, host, flush, false);
  }

  /** The host of one of the services, or the responder's own if there are none. */
  predicate HostAmong(h: Option<nat>, services: seq<nat>, info: map<nat, Service>)
    requires forall s :: s in services ==> s in info
  {
    if services == [] then h == Some(SELF_HOST) else exists s :: s in services && info[s].host == h
  }

  /** The two addresses of each host. */
  lemma {:induction false} HostsHave(list: seq<Answer>, services: seq<nat>, info: map<nat, Service>, flush: bool)
    requires forall s :: s in services ==> s in info
    ensures var r := AppendHosts(list, services, info, flush, false);
      && NewFlags(list, r, flush)
      && forall t, s, h :: HasEntry(r, t, s, h) <==>
           HasEntry(list, t, s, h) || (IsAddress(t) && s == None && HostAmong(h, services, info))
    decreases |services|
  {
    hide AppendHost, HasEntry;
    if services == [] {
      HostHas(list, Some(SELF_HOST), flush);
    } else {
      HostHas(list, info[services[0]].host, flush);
      assert services == [services[0]] + services[1..];
      if |services| > 1 {
        var r := AppendHost(list, info[services[0]].host, flush, false);
        HostsHave(r, services[1..], info, flush);
        FlagsOn(list, r, AppendHosts(r, services[1..], info, flush, false), flush);
      }
    }
  }

  // ------------------------------------------------------------ the packets

  /** Every entry of the list flushes as in an announcement, or as in a probe. */
  ghost predicate AllFlags(list: seq<Answer>, announcing: bool) {
    forall i :: 0 <= i < |list| ==> Flags(list[i], announcing)
  }

  lemma NoneHeld()
    ensures forall t, s, h :: !HasEntry([], t, s, h)
  {
  }

  /** A new announcement: the four records of each service, and the addresses of their
      hosts if they are asked for. */
  lemma CreateAnnounceHas(id: nat, k: Key, services: seq<nat>, info: map<nat, Service>, ip: bool)
    requires forall s :: s in services ==> s in info
    ensures var p := CreateAnnounce(id, k, services, info, ip);
      && AllFlags(p.answers, true) && AllFlags(p.servers, true) && p.additional == [] && p.questions == []
      && (forall t, s, h :: HasEntry(p.answers, t, s, h) <==> h == None && s.Some? && s.value in services && IsServiceRecord(t))
      && (forall t, s, h :: HasEntry(p.servers, t, s, h) <==> ip && IsAddress(t) && s == None && HostAmong(h, services, info))
  {
    hide AddAnnounced, AppendHosts, HasEntry;
    NoneHeld();
    AnnouncedHas([], services);
    HostsHave([], services, info, true);
  }

  predicate Matching(a: Answer, rtype: RecordType, service: Option<nat>) {
    a.rtype == rtype && a.service == service
  }

  /** The first matching entry is gone, if there is one, and nothing else. */
  ghost predicate FirstGone(a: seq<Answer>, b: seq<Answer>, rtype: RecordType, service: Option<nat>) {
    || (b == a && forall i :: 0 <= i < |a| ==> !Matching(a[i], rtype, service))
    || (exists j :: GoneAt(a, b, rtype, service, j))
  }

  predicate GoneAt(a: seq<Answer>, b: seq<Answer>, rtype: RecordType, service: Option<nat>, j: nat) {
    && j < |a| && Matching(a[j], rtype, service) && b == a[..j] + a[j + 1..]
    && forall i :: 0 <= i < j ==> !Matching(a[i], rtype, service)
  }

  lemma GoneBehind(list: seq<Answer>, t: seq<Answer>, rtype: RecordType, service: Option<nat>, j: nat)
    requires list != [] && !Matching(list[0], rtype, service) && GoneAt(list[1..], t, rtype, service, j)
    ensures GoneAt(list, [list[0]] + t, rtype, service, j + 1)
  {
    var rest := list[1..];
    assert list[..j + 1] == [list[0]] + rest[..j] && list[j + 2..] == rest[j + 1..];
    assert forall i :: 0 < i < |list| ==> list[i] == rest[i - 1];
  }

  lemma {:induction false} DeallocGone(list: seq<Answer>, rtype: RecordType, service: Option<nat>)
    ensures FirstGone(list, DeallocEntry(list, rtype, service), rtype, service)
  {
    if list != [] {
      var rest := list[1..];
      DeallocGone(rest, rtype, service);
      var r := DeallocEntry(list, rtype, service);
      assert forall i :: 0 < i < |list| ==> list[i] == rest[i - 1];
      if Matching(list[0], rtype, service) {
        assert list[..0] + list[1..] == list[1..];
        assert GoneAt(list, r, rtype, service, 0);
      } else {
        var t := DeallocEntry(rest, rtype, service);
        assert r == [list[0]] + t;
        if j: nat :| GoneAt(rest, t, rtype, service, j) {
          GoneBehind(list, t, rtype, service, j);
        } else {
          assert r == list;
        }
      }
    }
  }

  /** What an announcement that is scheduled already gains; what it had it keeps. */
  lemma AddToAnnounceHas(p: Packet, services: seq<nat>, info: map<nat, Service>, ip: bool)
    requires forall s :: s in services ==> s in info
    ensures var p' := AddToAnnounce(p, services, info, ip);
      && NewFlags(p.answers, p'.answers, true)
      && (forall t, s, h :: HasEntry(p'.answers, t, s, h) <==>
            || HasEntry(p.answers, t, s, h)
            || (h == None && s.Some? && s.value in services && IsServiceRecord(t))
            || (ip && IsAddress(t) && s == None && HostAmong(h, services, info)))
      && p' == p.(answers := p'.answers, additional := p'.additional) && (!ip ==> p'.additional == p.additional)
      && (ip ==> exists list: seq<Answer> :: FirstGone(p.additional, list, A, None) && FirstGone(list, p'.additional, AAAA, None))
  {
    hide AddAnnounced, AppendHosts, HasEntry, DeallocEntry, FirstGone;
    DeallocGone(p.additional, A, None);
    DeallocGone(DeallocEntry(p.additional, A, None), AAAA, None);
    AnnouncedHas(p.answers, services);
    var list := AddAnnounced(p.answers, services);
    HostsHave(list, services, info, true);
    if ip { FlagsOn(p.answers, list, AppendHosts(list, services, info, true, false), true); }
  }

  /** What one entry of a probe becomes. */
  predicate FromEntry(a: Answer, info: map<nat, Service>, t: RecordType, s: Option<nat>, h: Option<nat>)
    requires a.service.Some? ==> a.service.value in info
  {
    if a.rtype == SRV && a.service.Some? then
      (h == None && s == a.service && IsServiceRecord(t))
      || (IsAddress(t) && s == None && h == info[a.service.value].host)
    else IsAddress(a.rtype) && t == a.rtype && s == None && h == a.host
  }

  lemma EntryTurns(list: seq<Answer>, a: Answer, info: map<nat, Service>)
    requires a.service.Some? ==> a.service.value in info
    ensures var r := AnnounceOfProbe(list, a, info);
      && NewFlags(list, r, true)
      && forall t, s, h :: HasEntry(r, t, s, h) <==> HasEntry(list, t, s, h) || FromEntry(a, info, t, s, h)
  {
    hide AddAnnounced, AppendHost, AllocAnswer, HasEntry;
    if a.rtype == SRV && a.service.Some? {
      AnnouncedHas(list, [a.service.value]);
      var one := AddAnnounced(list, [a.service.value]);
      HostHas(one, info[a.service.value].host, true);
      FlagsOn(list, one, AppendHost(one, info[a.service.value].host, true, false), true);
    } else if IsAddress(a.rtype) {
      AllocHas(list, a.rtype, None, a.host, true, false);
    }
  }

  ghost predicate FromEntries(probed: seq<Answer>, info: map<nat, Service>, t: RecordType, s: Option<nat>, h: Option<nat>)
    requires forall i :: 0 <= i < |probed| && probed[i].service.Some? ==> probed[i].service.value in info
  {
    exists i :: 0 <= i < |probed| && FromEntry(probed[i], info, t, s, h)
  }

  lemma {:induction false} EntriesTurn(list: seq<Answer>, probed: seq<Answer>, info: map<nat, Service>)
    requires forall i :: 0 <= i < |probed| && probed[i].service.Some? ==> probed[i].service.value in info
    ensures var r := AnnounceEntries(list, probed, info);
      && NewFlags(list, r, true)
      && forall t, s, h :: HasEntry(r, t, s, h) <==> HasEntry(list, t, s, h) || FromEntries(probed, info, t, s, h)
    decreases |probed|
  {
    hide AnnounceOfProbe, HasEntry, FromEntry;
    if probed != [] {
      var next := AnnounceOfProbe(list, probed[0], info);
      EntryTurns(list, probed[0], info);
      EntriesTurn(next, probed[1..], info);
      FlagsOn(list, next, AnnounceEntries(next, probed[1..], info), true);
      forall t, s, h
        ensures FromEntries(probed, info, t, s, h) <==> FromEntry(probed[0], info, t, s, h) || FromEntries(probed[1..], info, t, s, h)
      {
        assert forall i :: 0 < i < |probed| ==> probed[i] == probed[1..][i - 1];
        if FromEntries(probed[1..], info, t, s, h) {
          var i :| 0 <= i < |probed[1..]| && FromEntry(probed[1..][i], info, t, s, h);
          assert FromEntry(probed[i + 1], info, t, s, h);
        }
      }
    }
  }

  /** The announcement made from a probe: for each SRV entry the four records of the
      service and the addresses of its host, for each address entry that address. */
  lemma FromProbeHas(id: nat, probe: Packet, info: map<nat, Service>)
    requires forall i :: 0 <= i < |probe.servers| && probe.servers[i].service.Some? ==> probe.servers[i].service.value in info
    ensures var p := AnnounceFromProbe(id, probe, info);
      && AllFlags(p.answers, true) && p.servers == [] && p.additional == [] && p.questions == []
      && forall t, s, h :: HasEntry(p.answers, t, s, h) <==> FromEntries(probe.servers, info, t, s, h)
  {
    hide AnnounceEntries, HasEntry;
    NoneHeld();
    EntriesTurn([], probe.servers, info);
  }

  // ------------------------------------------------------------- the probes

  /** A question for any record of the service: of its type, under its instance name or
      the responder's. */
  predicate AsksForService(q: Question, s: nat, svc: Service, unicast: bool) {
    && q.qtype == ANY && q.unicast == unicast && q.owner == Some(s)
    && q.service == Some(svc.service) && q.proto == Some(svc.proto)
    && q.host == (if svc.instance.Some? && |svc.instance.value| > 0 then InstanceOf(s) else ServerName)
  }

  /** A question for any record of a host name. */
  predicate AsksForHost(q: Question, unicast: bool) {
    q.qtype == ANY && q.unicast == unicast && q.owner == None && q.service == None && q.proto == None
  }

  /** Every question is for a service of `info`, and its SRV entry is there. */
  ghost predicate Backed(p: Packet, info: map<nat, Service>, unicast: bool) {
    && AllFlags(p.servers, false)
    && forall q :: q in p.questions ==>
         && q.owner.Some? && q.owner.value in info && AsksForService(q, q.owner.value, info[q.owner.value], unicast)
         && HasEntry(p.servers, SRV, q.owner, None)
  }

  ghost predicate Asking(questions: seq<Question>, s: nat) {
    exists q :: q in questions && q.owner == Some(s)
  }

  lemma AskingGrows(a: seq<Question>, b: seq<Question>, s: nat)
    requires Asking(a, s) && a <= b
    ensures Asking(b, s)
  {
    var q :| q in a && q.owner == Some(s);
    assert q in b;
  }

  lemma {:induction false} AddProbesHas(p: Packet, services: seq<nat>, info: map<nat, Service>, first: bool)
    requires (forall s :: s in services ==> s in info) && Backed(p, info, first)
    ensures var r := AddProbes(p, services, info, first);
      && Backed(r, info, first) && p.questions <= r.questions
      && (forall s :: s in services ==> Asking(r.questions, s))
      && (forall s :: Asking(r.questions, s) ==> Asking(p.questions, s) || s in services)
      && (forall t, s, h :: HasEntry(r.servers, t, s, h) <==>
            HasEntry(p.servers, t, s, h) || (t == SRV && h == None && s.Some? && s.value in services))
    decreases |services|
  {
    hide AllocAnswer, HasEntry, HasQuestion;
    if services != [] {
      assert services == [services[0]] + services[1..];
      var s := services[0];
      var q := ServiceQuestion(s, info[s], first);
      if HasQuestion(p.questions, q) {
        AskedAlready(p, s, info, first);
        AddProbesHas(p, services[1..], info, first);
        AskingGrows(p.questions, AddProbes(p, services[1..], info, first).questions, s);
      } else {
        var p' := p.(questions := p.questions + [q], servers := AllocAnswer(p.servers, SRV, Some(s), None, false, false));
        AllocHas(p.servers, SRV, Some(s), None, false, false);
        assert q in p'.questions;
        assert Backed(p', info, first);
        AddProbesHas(p', services[1..], info, first);
        AskingGrows(p'.questions, AddProbes(p', services[1..], info, first).questions, s);
      }
    }
  }

  lemma AskedAlready(p: Packet, s: nat, info: map<nat, Service>, first: bool)
    requires s in info && Backed(p, info, first) && HasQuestion(p.questions, ServiceQuestion(s, info[s], first))
    ensures Asking(p.questions, s) && HasEntry(p.servers, SRV, Some(s), None)
  {
    var i :| 0 <= i < |p.questions| && SameQuestion(p.questions[i], ServiceQuestion(s, info[s], first));
    assert p.questions[i] in p.questions;
  }

  lemma {:induction false} HostQuestionsOnly(list: seq<Question>, services: seq<nat>, unicast: bool)
    ensures var r := HostQuestions(list, services, unicast);
      && list <= r && forall i :: |list| <= i < |r| ==> AsksForHost(r[i], unicast)
    decreases |services|
  {
    if services != [] {
      HostQuestionsOnly(AddQuestion(list, HostQuestion(HostOf(services[0]), unicast)), services[1..], unicast);
    }
  }

  /** A probe packet (section 8.1): it asks for any record of each service, and with the
      addresses for any of each host name, all with the same unicast bit; and it holds, as
      what is to be claimed, an SRV entry for each service and the addresses of its hosts. */
  lemma CreateProbeHas(id: nat, k: Key, services: seq<nat>, info: map<nat, Service>, first: bool, ip: bool)
    requires forall s :: s in services ==> s in info
    ensures var p := CreateProbe(id, k, services, info, first, ip);
      && AllFlags(p.servers, false) && p.answers == [] && p.additional == []
      && (forall t, s, h :: HasEntry(p.servers, t, s, h) <==>
            || (t == SRV && h == None && s.Some? && s.value in services)
            || (ip && IsAddress(t) && s == None && HostAmong(h, services, info)))
      && (forall s :: Asking(p.questions, s) <==> s in services)
      && (forall q :: q in p.questions ==>
            if q.owner.Some? then q.owner.value in info && AsksForService(q, q.owner.value, info[q.owner.value], first)
            else ip && AsksForHost(q, first))
  {
    hide AddProbes, HostQuestions, AppendHosts, HasEntry, HasQuestion, AsksForService;
    NoneHeld();
    var p0 := NewPacket(id, k);
    AddProbesHas(p0, services, info, first);
    AddProbesCovers(p0, services, info, first);
    var p := AddProbes(p0, services, info, first);
    if ip {
      var list := AddQuestion(p.questions, HostQuestion(ServerName, first));
      HostQuestionsOnly(list, services, first);
      HostsHave(p.servers, services, info, false);
      var r := CreateProbe(id, k, services, info, first, ip);
      assert p.questions <= r.questions;
      forall s ensures Asking(r.questions, s) <==> s in services {
        if s in services { AskingGrows(p.questions, r.questions, s); }
        if Asking(r.questions, s) { OwnerInFront(p.questions, r.questions, s); }
      }
      forall q | q in r.questions && q !in p.questions ensures q.owner == None && AsksForHost(q, first) {
        var i :| 0 <= i < |r.questions| && r.questions[i] == q;
      }
    }
  }

  lemma OwnerInFront(a: seq<Question>, b: seq<Question>, s: nat)
    requires a <= b && Asking(b, s) && forall i :: |a| <= i < |b| ==> b[i].owner == None
    ensures Asking(a, s)
  {
    var q :| q in b && q.owner == Some(s);
    var i :| 0 <= i < |b| && b[i] == q;
    assert a[i] == q;
  }

  /** From the probe to the announcement: the four records of each service that was probed,
      and the addresses of its host; with the addresses probed, those of the responder if
      no service was. */
  lemma ProbedIsAnnounced(id: nat, id': nat, k: Key, services: seq<nat>, info: map<nat, Service>, first: bool, ip: bool)
    requires forall s :: s in services ==> s in info
    ensures var p := CreateProbe(id, k, services, info, first, ip);
      && (forall i :: 0 <= i < |p.servers| && p.servers[i].service.Some? ==> p.servers[i].service.value in info)
      && var a := AnnounceFromProbe(id', p, info);
         && a.pcb == k && a.announces && AllFlags(a.answers, true)
         && forall t, s, h :: HasEntry(a.answers, t, s, h) <==>
              || (h == None && s.Some? && s.value in services && IsServiceRecord(t))
              || (IsAddress(t) && s == None && (services != [] || ip) && HostAmong(h, services, info))
  {
    hide CreateProbe, HasEntry, AnnounceEntries, HostAmong;
    CreateProbeHas(id, k, services, info, first, ip);
    CreateProbeCovers(id, k, services, info, first, ip);
    var p := CreateProbe(id, k, services, info, first, ip);
    EntriesKnown(p.servers, services, info, ip);
    FromProbeHas(id', p, info);
    forall t, s, h
      ensures FromEntries(p.servers, info, t, s, h) <==>
        || (h == None && s.Some? && s.value in services && IsServiceRecord(t))
        || (IsAddress(t) && s == None && (services != [] || ip) && HostAmong(h, services, info))
    {
      FromProbeServers(p.servers, services, info, ip, t, s, h);
    }
  }

  lemma EntriesKnown(list: seq<Answer>, services: seq<nat>, info: map<nat, Service>, ip: bool)
    requires forall s :: s in services ==> s in info
    requires forall t, s, h :: HasEntry(list, t, s, h) <==>
      (t == SRV && h == None && s.Some? && s.value in services) || (ip && IsAddress(t) && s == None && HostAmong(h, services, info))
    ensures forall i :: 0 <= i < |list| && list[i].service.Some? ==> list[i].service.value in services
  {
    hide HostAmong;
    forall i | 0 <= i < |list| ensures HasEntry(list, list[i].rtype, list[i].service, list[i].host) {
      assert SameEntry(list[i], list[i].rtype, list[i].service, list[i].host);
    }
  }

  lemma FromProbeServers(list: seq<Answer>, services: seq<nat>, info: map<nat, Service>, ip: bool,
                         t: RecordType, s: Option<nat>, h: Option<nat>)
    requires (forall s :: s in services ==> s in info)
    requires forall i :: 0 <= i < |list| && list[i].service.Some? ==> list[i].service.value in info
    requires forall t, s, h :: HasEntry(list, t, s, h) <==>
      (t == SRV && h == None && s.Some? && s.value in services) || (ip && IsAddress(t) && s == None && HostAmong(h, services, info))
    ensures FromEntries(list, info, t, s, h) <==>
      || (h == None && s.Some? && s.value in services && IsServiceRecord(t))
      || (IsAddress(t) && s == None && (services != [] || ip) && HostAmong(h, services, info))
  {
    hide HasEntry;
    if FromEntries(list, info, t, s, h) {
      var i :| 0 <= i < |list| && FromEntry(list[i], info, t, s, h);
      EntryHeld(list, i);
    }
    if h == None && s.Some? && s.value in services && IsServiceRecord(t) {
      var i := HeldEntry(list, SRV, s, None);
      assert FromEntry(list[i], info, t, s, h);
    }
    if IsAddress(t) && s == None && (services != [] || ip) && HostAmong(h, services, info) {
      if services != [] {
        var x :| x in services && info[x].host == h;
        var i := HeldEntry(list, SRV, Some(x), None);
        assert FromEntry(list[i], info, t, s, h);
      } else {
        var i := HeldEntry(list, t, None, h);
        assert FromEntry(list[i], info, t, s, h);
      }
    }
  }

  lemma EntryHeld(list: seq<Answer>, i: nat)
    requires i < |list|
    ensures HasEntry(list, list[i].rtype, list[i].service, list[i].host)
  {
    assert SameEntry(list[i], list[i].rtype, list[i].service, list[i].host);
  }

  lemma HeldEntry(list: seq<Answer>, t: RecordType, s: Option<nat>, h: Option<nat>) returns (i: nat)
    requires HasEntry(list, t, s, h)
    ensures i < |list| && list[i].rtype == t && list[i].service == s && list[i].host == h
  {
    i :| 0 <= i < |list| && SameEntry(list[i], t, s, h);
  }

  // ------------------------------------------------------ the unicast bits

  lemma {:induction false} MulticastIs(questions: seq<Question>)
    ensures var r := Multicast(questions);
      |r| == |questions| && forall i :: 0 <= i < |r| ==> !r[i].unicast && r[i].(unicast := questions[i].unicast) == questions[i]
  {
    if questions != [] {
      MulticastIs(questions[1..]);
      forall i | 0 <= i < |questions|
        ensures var r := Multicast(questions); !r[i].unicast && r[i].(unicast := questions[i].unicast) == questions[i]
      {
        if i > 0 { assert Multicast(questions)[i] == Multicast(questions[1..])[i - 1]; }
      }
    }
  }

  ghost predicate AllUnicast(questions: seq<Question>, unicast: bool) {
    forall q :: q in questions ==> q.unicast == unicast
  }

  /** The packet with which a PCB starts to probe, on a responder with a host name: it is
      the only one of the PCB, it speaks for exactly what is being probed, asks for unicast
      answers, and waits 120 ms, or a second after more than five lost conflicts. */
  lemma ProbeStarts(sv: Server, k: Key, services: seq<nat>, probeIp: bool, id: nat, jitter: nat)
    requires Sound(sv, {}) && sv.named && k in sv.up && Request(sv, services, probeIp) && id !in Ids(Without(sv.sched.tx, k))
    ensures k in sv.pcbs && Known(sv, services) && Known(sv, sv.pcbs[k].probeServices)
    ensures var sv' := InitProbe(sv, k, services, probeIp, id, jitter); var b := sv'.pcbs[k];
      && Known(sv, b.probeServices) && b.state == Probe1
      && |Mine(sv'.sched.tx, k)| == 1
      && var p := Mine(sv'.sched.tx, k)[0];
         && p.id == id && AllUnicast(p.questions, true) && !p.announces
         && p.sendAt == sv.sched.now + jitter + (if sv.pcbs[k].failedProbes > 5 then 1000 else 120)
         && (forall s :: Asking(p.questions, s) <==> s in b.probeServices)
         && (forall t, s, h :: HasEntry(p.servers, t, s, h) <==>
               || (t == SRV && h == None && s.Some? && s.value in b.probeServices)
               || (b.probeIp && IsAddress(t) && s == None && HostAmong(h, b.probeServices, sv.info)))
  {
    hide Sound, Insert, Without, CreateProbe, NotProbed, HasEntry, HostAmong, Asking, AllFlags, AsksForService;
    StartFacts(sv, k, services, probeIp);
    var b := sv.pcbs[k];
    var merged := NotProbed(services, b.probeServices) + b.probeServices;
    NotProbedIn(services, b.probeServices);
    InitProbeList(sv, k, services, probeIp, id, jitter);
    InitProbeShape(sv, k, services, probeIp, id, jitter, merged);
    var ip := b.probeIp || probeIp;
    CreateProbeHas(id, k, merged, sv.info, true, ip);
    CreateProbeCovers(id, k, merged, sv.info, true, ip);
    SameBits(CreateProbe(id, k, merged, sv.info, true, ip).questions, sv.info, true);
    var p := CreateProbe(id, k, merged, sv.info, true, ip).(sendAt := sv.sched.now + FirstDelay(b, jitter));
    MineWithout(sv.sched.tx, k, k);
    MineInsert(Without(sv.sched.tx, k), p, k);
  }

  lemma SameBits(questions: seq<Question>, info: map<nat, Service>, unicast: bool)
    requires forall q :: q in questions ==>
      if q.owner.Some? then q.owner.value in info && AsksForService(q, q.owner.value, info[q.owner.value], unicast)
      else AsksForHost(q, unicast)
    ensures AllUnicast(questions, unicast)
  {
  }

  lemma StartFacts(sv: Server, k: Key, services: seq<nat>, probeIp: bool)
    requires Sound(sv, {}) && k in sv.up && Request(sv, services, probeIp)
    ensures k in sv.pcbs && RegistryOk(sv) && PcbReady(sv.pcbs[k], sv.registry)
    ensures Known(sv, services) && Known(sv, sv.pcbs[k].probeServices)
    ensures !IsProbing(sv.pcbs[k]) ==> sv.pcbs[k].probeServices == []
  {
    hide Orderly, PacketsOk, TwinsOk, DupsOk, Mine;
    assert PcbOk(sv, {}, k);
  }

  /** A probe packet that has been sent goes back as it was, but that from the second time
      on it asks for multicast answers. */
  lemma ProbeGoesOn(sv: Server, p: Packet, allocOk: bool, id: nat)
    requires p.pcb in sv.pcbs && ServersKnown(sv, p) && InProbe(sv.pcbs[p.pcb]) && !(sv.pcbs[p.pcb].state == Probe3 && allocOk)
    ensures var s := sv.pcbs[p.pcb].state;
      exists q :: q in Handle(sv, p, allocOk, id).sched.tx
        && q == p.(questions := q.questions, sendAt := sv.sched.now + 250) && |q.questions| == |p.questions|
        && (if s == Probe1 then AllUnicast(q.questions, false) else q.questions == p.questions)
        && forall i :: 0 <= i < |q.questions| ==> q.questions[i] == p.questions[i].(unicast := q.questions[i].unicast)
  {
    hide Handle, Insert, Multicast, AnnounceFromProbe;
    HandleAgain(sv, p, allocOk, id);
    MulticastIs(p.questions);
    var q := Again(p, sv.pcbs[p.pcb], sv.sched.now).0;
    InsertIn(sv.sched.tx, q);
    forall x | x in Multicast(p.questions) ensures !x.unicast {
      var i :| 0 <= i < |Multicast(p.questions)| && Multicast(p.questions)[i] == x;
    }
  }
}
