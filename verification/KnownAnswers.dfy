/** The answer to the questions that the parser leaves over: which services answer which
    question, and which answers the querier already knows (section 7.1 of RFC 6762). */
module KnownAnswers {
  import opened Options
  import opened Packets
  import opened Answers
  import Names

  type Str = seq<Names.byte>

  const PTR_TTL: nat := 4500
  const MDNS_PORT: nat := 5353

  /** A registered service; `host` is the host item its host name resolves to. */
  datatype Listing = Listing(id: nat, instance: Option<Str>, service: Str, proto: Str, hostname: Option<Str>,
                             subtypes: seq<Str>, host: Option<nat>)

  datatype Query = Query(qtype: RecordType, sub: bool, unicast: bool, host: Option<Str>, service: Option<Str>, proto: Option<Str>)

  /** A PTR record of the query's answer section. */
  datatype Known = Known(host: Option<Str>, service: Option<Str>, proto: Option<Str>, ttl: nat)

  /** The responder's own names and the names of its delegated hosts. */
  datatype Config = Config(instance: Str, hostname: Str, delegated: seq<Str>)

  /** The packet that is put together: its lists, the questions it repeats and the
      number of answered questions. */
  datatype Reply = Reply(answers: seq<Answer>, additional: seq<Answer>, repeated: seq<Query>, records: nat)

  predicate Same(a: Str, b: Str) {
    Names.SameFold(a, b)
  }

  // -------------------------------------------------------------- matching

  /** _mdns_service_match without a host name */
  predicate ServiceMatch(l: Listing, service: Option<Str>, proto: Option<Str>) {
    service.Some? && proto.Some? && l.hostname.Some? && Same(l.service, service.value) && Same(l.proto, proto.value)
  }

  /** _mdns_get_default_instance_name */
  function DefaultName(c: Config): Option<Str> {
    if |c.instance| > 0 then Some(c.instance) else if |c.hostname| > 0 then Some(c.hostname) else None
  }

  /** _mdns_get_service_instance_name */
  function InstanceName(l: Listing, c: Config): Option<Str> {
    if l.instance.Some? && |l.instance.value| > 0 then l.instance else DefaultName(c)
  }

  function OrDefault(name: Option<Str>, c: Config): Option<Str> {
    if name.Some? then name else DefaultName(c)
  }

  /** _mdns_service_match_instance without a host name */
  predicate InstanceMatch(l: Listing, instance: Option<Str>, service: Option<Str>, proto: Option<Str>, c: Config) {
    var ours, theirs := OrDefault(l.instance, c), OrDefault(instance, c);
    service.Some? && proto.Some? && Same(l.service, service.value) && Same(l.proto, proto.value)
    && ours.Some? && theirs.Some? && Same(ours.value, theirs.value)
  }

  /** _mdns_service_match_ptr_question */
  predicate PtrMatch(l: Listing, q: Query, c: Config) {
    var name := InstanceName(l, c);
    && ServiceMatch(l, q.service, q.proto)
    && (if q.sub then q.host.Some? && exists i :: 0 <= i < |l.subtypes| && Same(l.subtypes[i], q.host.value)
        else q.host.None? || (name.Some? && Same(name.value, q.host.value)))
  }

  /** One record of the querier says that it knows the PTR record of the service. */
  predicate Tells(r: Known, l: Listing, c: Config) {
    && r.ttl > PTR_TTL / 2
    && (if l.instance.Some? && r.host.Some? then InstanceMatch(l, r.host, r.service, r.proto, c)
        else l.instance.None? && r.host.None? && ServiceMatch(l, r.service, r.proto))
  }

  predicate KnownAnswer(l: Listing, records: seq<Known>, c: Config) {
    exists i :: 0 <= i < |records| && Tells(records[i], l, c)
  }

  /** _mdns_get_service_item_instance */
  function FindService(list: seq<Listing>, q: Query, c: Config): Option<Listing> {
    if list == [] then None
    else if (if q.host.Some? then InstanceMatch(list[0], q.host, q.service, q.proto, c)
             else ServiceMatch(list[0], q.service, q.proto))
    then Some(list[0])
    else FindService(list[1..], q, c)
  }

  /** mdns_get_host_item: a delegated host is numbered from one. */
  function HostItem(c: Config, name: Option<Str>): Option<nat> {
    if name.None? || Same(c.hostname, name.value) then Some(SELF_HOST) else HostFrom(c.delegated, name.value, 1)
  }

  function HostFrom(hosts: seq<Str>, name: Str, id: nat): Option<nat> {
    if hosts == [] then None
    else if Same(hosts[0], name) then Some(id) else HostFrom(hosts[1..], name, id + 1)
  }

  // -------------------------------------------------------------- answering

  /** _mdns_create_answer_from_service: `shared` sends the addresses to the additional
      section, and so does a service of a delegated host, with SRV and TXT as well. */
  function FromService(r: Reply, l: Listing, qtype: RecordType, shared: bool, flush: bool): Reply {
    var s := Some(l.id);
    var delegated := l.host != Some(SELF_HOST);
    match qtype
    case PTR => AllRecords(r, l, shared, flush)
    case ANY => AllRecords(r, l, shared, flush)
    case SRV =>
      r.(answers := AllocAnswer(r.answers, SRV, s, None, flush, false),
         additional := AllocAnswer(AllocAnswer(r.additional, A, s, l.host, flush, false), AAAA, s, l.host, flush, false))
    case TXT => r.(answers := AllocAnswer(r.answers, TXT, s, None, flush, false))
    case SDPTR => r.(answers := AllocAnswer(r.answers, SDPTR, s, None, false, false))
    case _ => r
  }

  function AllRecords(r: Reply, l: Listing, shared: bool, flush: bool): Reply {
    var s := Some(l.id);
    var delegated := l.host != Some(SELF_HOST);
    var answers := AllocAnswer(r.answers, PTR, s, None, false, false);
    if delegated then
      r.(answers := answers,
         additional := AllocAnswer(AllocAnswer(AllocAnswer(AllocAnswer(r.additional, SRV, s, None, flush, false),
           TXT, s, None, flush, false), A, s, l.host, flush, false), AAAA, s, l.host, flush, false))
    else
      var more := AllocAnswer(AllocAnswer(answers, SRV, s, None, flush, false), TXT, s, None, flush, false);
      if shared then
        r.(answers := more,
           additional := AllocAnswer(AllocAnswer(r.additional, A, s, l.host, flush, false), AAAA, s, l.host, flush, false))
      else
        r.(answers := AllocAnswer(AllocAnswer(more, A, s, l.host, flush, false), AAAA, s, l.host, flush, false))
  }

  /** The services that match a question, one after another. */
  function FromServices(r: Reply, list: seq<Listing>, q: Query, records: seq<Known>, c: Config, shared: bool, flush: bool): Reply
    decreases |list|
  {
    if list == [] then r
    else if PtrMatch(list[0], q, c) && !KnownAnswer(list[0], records, c) then
      var r' := FromService(r, list[0], q.qtype, shared, flush);
      FromServices(r'.(records := r.records + 1), list[1..], q, records, c, shared, flush)
    else FromServices(r, list[1..], q, records, c, shared, flush)
  }

  /** _mdns_append_host_list: the loop moves on before it appends, so the first delegated
      host is left out and an entry without a host comes last. */
  function AppendHostList(answers: seq<Answer>, c: Config, flush: bool): seq<Answer> {
    var own := if |c.hostname| > 0 then AppendHost(answers, Some(SELF_HOST), flush, false) else answers;
    AppendDelegated(own, 1, |c.delegated|, flush)
  }

  function AppendDelegated(answers: seq<Answer>, i: nat, n: nat, flush: bool): seq<Answer>
    decreases n + 1 - i
  {
    if i > n then answers
    else AppendDelegated(AppendHost(answers, if i < n then Some(i + 1) else None, flush, false), i + 1, n, flush)
  }

  /** One question of the query. */
  function Answered(r: Reply, q: Query, list: seq<Listing>, records: seq<Known>, c: Config, probe: bool, flush: bool): Option<Reply> {
    var shared := q.qtype == PTR || q.qtype == SDPTR || !probe;
    if q.qtype == SRV || q.qtype == TXT then
      match FindService(list, q, c)
      case None => None
      case Some(l) => Some(FromService(r, l, q.qtype, shared, flush).(records := r.records + 1))
    else if q.service.Some? && q.proto.Some? then
      Some(FromServices(r, list, q, records, c, shared, flush))
    else if q.qtype == A || q.qtype == AAAA then
      var host := HostItem(c, q.host);
      Some(r.(answers := AllocAnswer(AllocAnswer(r.answers, A, None, host, flush, false), AAAA, None, host, flush, false),
              records := r.records + 1))
    else if q.qtype == ANY then
      Some(r.(answers := AppendHostList(r.answers, c, flush), records := r.records + 1))
    else
      Some(r.(answers := AllocAnswer(r.answers, q.qtype, None, None, flush, false), records := r.records + 1))
  }

  /** A querier that does not listen on the mDNS port gets its questions back. */
  function Repeat(r: Reply, q: Query, port: nat): Reply {
    if port != MDNS_PORT && q.qtype in {ANY, A, AAAA} then r.(repeated := r.repeated + [q]) else r
  }

  function AnswerAll(r: Reply, queries: seq<Query>, list: seq<Listing>, records: seq<Known>, c: Config, probe: bool, port: nat): Reply
    decreases |queries|
  {
    if queries == [] then r
    else
      var q := queries[0];
      var r' := match Answered(r, q, list, records, c, probe, port == MDNS_PORT)
                case None => r
                case Some(next) => Repeat(next, q, port);
      AnswerAll(r', queries[1..], list, records, c, probe, port)
  }

  const NOTHING := Reply([], [], [], 0)

  // --------------------------------------------------------------- the law

  /** A question that asks for the services of a type, or for one of them. */
  predicate AsksServices(q: Query) {
    q.service.Some? && q.proto.Some? && (q.qtype == PTR || q.qtype == ANY)
  }

  /** Some question asks for the service and no known answer covers it. */
  ghost predicate Wanted(id: nat, queries: seq<Query>, list: seq<Listing>, records: seq<Known>, c: Config) {
    exists i, j :: 0 <= i < |queries| && 0 <= j < |list| && list[j].id == id
      && AsksServices(queries[i]) && PtrMatch(list[j], queries[i], c) && !KnownAnswer(list[j], records, c)
  }

  predicate HasPtr(r: Reply, id: nat) {
    HasEntry(r.answers, PTR, Some(id), None)
  }

  ghost predicate Tidy(r: Reply) {
    NoEntryTwice(r.answers) && NoEntryTwice(r.additional)
  }

  lemma AllocKeeps(list: seq<Answer>, rtype: RecordType, service: Option<nat>, host: Option<nat>, flush: bool,
                   t: RecordType, s: Option<nat>, h: Option<nat>)
    ensures HasEntry(AllocAnswer(list, rtype, service, host, flush, false), t, s, h)
      <==> HasEntry(list, t, s, h) || (t == rtype && s == service && h == host)
  {
    var r := AllocAnswer(list, rtype, service, host, flush, false);
    if HasEntry(r, t, s, h) {
      var i :| 0 <= i < |r| && SameEntry(r[i], t, s, h);
      assert i < |list| ==> list[i] == r[i];
    }
    if HasEntry(list, t, s, h) {
      var i :| 0 <= i < |list| && SameEntry(list[i], t, s, h);
      assert r[i] == list[i];
    }
  }

  /** Answering for a service adds its PTR entry exactly when the question asks for one. */
  lemma FromServicePtr(r: Reply, l: Listing, qtype: RecordType, shared: bool, flush: bool, id: nat)
    ensures var r' := FromService(r, l, qtype, shared, flush);
      && (HasPtr(r', id) <==> HasPtr(r, id) || (id == l.id && (qtype == PTR || qtype == ANY)))
      && (Tidy(r) ==> Tidy(r'))
  {
    hide AllocAnswer, HasEntry, NoEntryTwice;
    var s := Some(l.id);
    var a0 := r.answers;
    var a1 := AllocAnswer(a0, PTR, s, None, false, false);
    var a2 := AllocAnswer(a1, SRV, s, None, flush, false);
    var a3 := AllocAnswer(a2, TXT, s, None, flush, false);
    var a4 := AllocAnswer(a3, A, s, l.host, flush, false);
    AllocKeeps(a0, PTR, s, None, false, PTR, Some(id), None);
    AllocKeeps(a1, SRV, s, None, flush, PTR, Some(id), None);
    AllocKeeps(a2, TXT, s, None, flush, PTR, Some(id), None);
    AllocKeeps(a3, A, s, l.host, flush, PTR, Some(id), None);
    AllocKeeps(a4, AAAA, s, l.host, flush, PTR, Some(id), None);
    AllocKeeps(a0, SRV, s, None, flush, PTR, Some(id), None);
    AllocKeeps(a0, TXT, s, None, flush, PTR, Some(id), None);
    AllocKeeps(a0, SDPTR, s, None, false, PTR, Some(id), None);
  }

  lemma {:induction false} FromServicesPtr(r: Reply, list: seq<Listing>, q: Query, records: seq<Known>, c: Config,
                                           shared: bool, flush: bool, id: nat)
    requires q.service.Some? && q.proto.Some?
    ensures var r' := FromServices(r, list, q, records, c, shared, flush);
      && (HasPtr(r', id) <==> HasPtr(r, id) || Wanted(id, [q], list, records, c))
      && (Tidy(r) ==> Tidy(r'))
    decreases |list|
  {
    hide FromService, HasEntry, NoEntryTwice, KnownAnswer, PtrMatch;
    if list != [] {
      var l := list[0];
      var next := if PtrMatch(l, q, c) && !KnownAnswer(l, records, c)
                  then FromService(r, l, q.qtype, shared, flush).(records := r.records + 1) else r;
      FromServicePtr(r, l, q.qtype, shared, flush, id);
      FromServicesPtr(next, list[1..], q, records, c, shared, flush, id);
      WantedSplit(id, q, list, records, c);
    }
  }

  lemma WantedSplit(id: nat, q: Query, list: seq<Listing>, records: seq<Known>, c: Config)
    requires list != []
    ensures Wanted(id, [q], list, records, c) <==>
      (list[0].id == id && AsksServices(q) && PtrMatch(list[0], q, c) && !KnownAnswer(list[0], records, c))
      || Wanted(id, [q], list[1..], records, c)
  {
    hide AsksServices, PtrMatch, KnownAnswer;
    var one := [q];
    if Wanted(id, one, list, records, c) {
      var i, j :| 0 <= i < |one| && 0 <= j < |list| && list[j].id == id
        && AsksServices(one[i]) && PtrMatch(list[j], one[i], c) && !KnownAnswer(list[j], records, c);
      if j > 0 { assert list[1..][j - 1] == list[j] && one[i] == q; }
    }
    if Wanted(id, one, list[1..], records, c) {
      var i, j :| 0 <= i < |one| && 0 <= j < |list[1..]| && list[1..][j].id == id
        && AsksServices(one[i]) && PtrMatch(list[1..][j], one[i], c) && !KnownAnswer(list[1..][j], records, c);
      assert list[j + 1] == list[1..][j];
    }
    if list[0].id == id && AsksServices(q) && PtrMatch(list[0], q, c) && !KnownAnswer(list[0], records, c) {
      assert one[0] == q;
    }
  }

  lemma AppendHostKeeps(list: seq<Answer>, host: Option<nat>, flush: bool, id: nat)
    ensures HasEntry(AppendHost(list, host, flush, false), PTR, Some(id), None) <==> HasEntry(list, PTR, Some(id), None)
    ensures NoEntryTwice(list) ==> NoEntryTwice(AppendHost(list, host, flush, false))
  {
    hide AllocAnswer, HasEntry, NoEntryTwice;
    var r := AllocAnswer(list, A, None, host, flush, false);
    AllocKeeps(list, A, None, host, flush, PTR, Some(id), None);
    AllocKeeps(r, AAAA, None, host, flush, PTR, Some(id), None);
  }

  lemma {:induction false} HostListKeeps(list: seq<Answer>, i: nat, n: nat, flush: bool, id: nat)
    ensures HasEntry(AppendDelegated(list, i, n, flush), PTR, Some(id), None) <==> HasEntry(list, PTR, Some(id), None)
    ensures NoEntryTwice(list) ==> NoEntryTwice(AppendDelegated(list, i, n, flush))
    decreases n + 1 - i
  {
    hide AppendHost, HasEntry, NoEntryTwice;
    if i <= n {
      var host := if i < n then Some(i + 1) else None;
      AppendHostKeeps(list, host, flush, id);
      HostListKeeps(AppendHost(list, host, flush, false), i + 1, n, flush, id);
    }
  }

  lemma AnsweredPtr(r: Reply, q: Query, list: seq<Listing>, records: seq<Known>, c: Config, probe: bool, flush: bool, id: nat)
    ensures match Answered(r, q, list, records, c, probe, flush)
      case None => !Wanted(id, [q], list, records, c)
      case Some(r') =>
        && (HasPtr(r', id) <==> HasPtr(r, id) || Wanted(id, [q], list, records, c))
        && (Tidy(r) ==> Tidy(r'))
  {
    hide FromService, FromServices, AllocAnswer, HasEntry, NoEntryTwice, KnownAnswer, PtrMatch, InstanceMatch, AppendHost, AppendDelegated;
    var shared := q.qtype == PTR || q.qtype == SDPTR || !probe;
    if q.qtype == SRV || q.qtype == TXT {
      if FindService(list, q, c).Some? {
        FromServicePtr(r, FindService(list, q, c).value, q.qtype, shared, flush, id);
      }
    } else if q.service.Some? && q.proto.Some? {
      FromServicesPtr(r, list, q, records, c, shared, flush, id);
    } else {
      var host := HostItem(c, q.host);
      AllocKeeps(r.answers, A, None, host, flush, PTR, Some(id), None);
      AllocKeeps(AllocAnswer(r.answers, A, None, host, flush, false), AAAA, None, host, flush, PTR, Some(id), None);
      AllocKeeps(r.answers, q.qtype, None, None, flush, PTR, Some(id), None);
      var own := if |c.hostname| > 0 then AppendHost(r.answers, Some(SELF_HOST), flush, false) else r.answers;
      AppendHostKeeps(r.answers, Some(SELF_HOST), flush, id);
      HostListKeeps(own, 1, |c.delegated|, flush, id);
    }
  }

  lemma WantedFirst(id: nat, queries: seq<Query>, list: seq<Listing>, records: seq<Known>, c: Config)
    requires queries != []
    ensures Wanted(id, queries, list, records, c) <==>
      Wanted(id, [queries[0]], list, records, c) || Wanted(id, queries[1..], list, records, c)
  {
    hide AsksServices, PtrMatch, KnownAnswer;
    var one, rest := [queries[0]], queries[1..];
    assert queries == one + rest;
    if Wanted(id, queries, list, records, c) {
      var i, j :| 0 <= i < |queries| && 0 <= j < |list| && list[j].id == id
        && AsksServices(queries[i]) && PtrMatch(list[j], queries[i], c) && !KnownAnswer(list[j], records, c);
      if i > 0 { assert rest[i - 1] == queries[i]; } else { assert one[0] == queries[i]; }
    }
    if Wanted(id, rest, list, records, c) {
      var i, j :| 0 <= i < |rest| && 0 <= j < |list| && list[j].id == id
        && AsksServices(rest[i]) && PtrMatch(list[j], rest[i], c) && !KnownAnswer(list[j], records, c);
      assert queries[i + 1] == rest[i];
    }
    if Wanted(id, one, list, records, c) {
      var i, j :| 0 <= i < |one| && 0 <= j < |list| && list[j].id == id
        && AsksServices(one[i]) && PtrMatch(list[j], one[i], c) && !KnownAnswer(list[j], records, c);
      assert queries[0] == one[i];
    }
  }

  /** The services whose PTR record is sent are exactly those that a question asks for
      and that no known answer covers; no entry stands twice in a list. */
  lemma {:induction false} Suppression(r: Reply, queries: seq<Query>, list: seq<Listing>, records: seq<Known>, c: Config,
                                       probe: bool, port: nat, id: nat)
    ensures var r' := AnswerAll(r, queries, list, records, c, probe, port);
      && (HasPtr(r', id) <==> HasPtr(r, id) || Wanted(id, queries, list, records, c))
      && (Tidy(r) ==> Tidy(r'))
    decreases |queries|
  {
    hide Answered, Wanted, HasEntry, NoEntryTwice;
    if queries == [] {
      assert !Wanted(id, queries, list, records, c) by { NothingWanted(id, list, records, c); }
    } else {
      var q := queries[0];
      AnsweredPtr(r, q, list, records, c, probe, port == MDNS_PORT, id);
      WantedFirst(id, queries, list, records, c);
      var r' := match Answered(r, q, list, records, c, probe, port == MDNS_PORT)
                case None => r
                case Some(next) => Repeat(next, q, port);
      Suppression(r', queries[1..], list, records, c, probe, port, id);
    }
  }

  lemma NothingWanted(id: nat, list: seq<Listing>, records: seq<Known>, c: Config)
    ensures !Wanted(id, [], list, records, c)
  {
  }

  lemma SuppressionFromScratch(queries: seq<Query>, list: seq<Listing>, records: seq<Known>, c: Config, probe: bool, port: nat)
    ensures var r := AnswerAll(NOTHING, queries, list, records, c, probe, port);
      && (forall id :: HasPtr(r, id) <==> Wanted(id, queries, list, records, c))
      && Tidy(r)
  {
    hide Wanted, AnswerAll;
    var r := AnswerAll(NOTHING, queries, list, records, c, probe, port);
    Suppression(NOTHING, queries, list, records, c, probe, port, 0);
    forall id ensures HasPtr(r, id) <==> Wanted(id, queries, list, records, c) {
      Suppression(NOTHING, queries, list, records, c, probe, port, id);
    }
  }

  // ----------------------------------------- what a known answer should cover

  /** The record names the PTR record of the service: its type, and the name under which
      the responder publishes the instance. */
  predicate NamesInstance(r: Known, l: Listing, c: Config) {
    var name := InstanceName(l, c);
    && r.service.Some? && r.proto.Some? && Same(l.service, r.service.value) && Same(l.proto, r.proto.value)
    && r.host.Some? && name.Some? && Same(name.value, r.host.value)
  }

  /** Section 7.1 of RFC 6762: at least half of the time to live is left. */
  predicate Fresh(r: Known) {
    2 * r.ttl >= PTR_TTL
  }

  /** Half of it, to the second. */
  predicate JustHalf(r: Known) {
    2 * r.ttl == PTR_TTL
  }

  predicate OwnName(l: Listing) {
    l.instance.Some? && |l.instance.value| > 0
  }

  ghost predicate Covered(l: Listing, records: seq<Known>, c: Config) {
    exists i :: 0 <= i < |records| && Fresh(records[i]) && NamesInstance(records[i], l, c)
  }

  /** For a service with an instance name of its own a record counts as a known answer
      exactly if it covers the service, but for one that is just at half its time. */
  lemma OwnNameCovers(r: Known, l: Listing, c: Config)
    requires OwnName(l)
    ensures Tells(r, l, c) <==> Fresh(r) && !JustHalf(r) && NamesInstance(r, l, c)
  {
  }

  /** The records at which the code and section 7.1 part for a service without one. */
  function Parting(l: Listing, c: Config): Known {
    Known(if DefaultName(c).Some? then DefaultName(c) else l.instance, Some(l.service), Some(l.proto), PTR_TTL)
  }

  lemma SelfSame(a: Str)
    ensures Same(a, a)
  {
  }

  lemma PartingParts(l: Listing, c: Config)
    requires !OwnName(l) && (l.instance.Some? || l.hostname.Some? || DefaultName(c).Some?)
    ensures var r := Parting(l, c); Tells(r, l, c) <==> !NamesInstance(r, l, c)
  {
    hide Names.SameFold;
    SelfSame(l.service);
    SelfSame(l.proto);
    SelfSame([]);
    if DefaultName(c).Some? {
      SelfSame(DefaultName(c).value);
      if l.instance.Some? {
        assert !Same([], DefaultName(c).value) by { DifferentLength([], DefaultName(c).value); }
      }
    }
  }

  lemma DifferentLength(a: Str, b: Str)
    requires |a| != |b|
    ensures !Same(a, b)
  {
  }

  /** Away from that one second, the loop leaves a service out for its known answers exactly
      when they cover it, if and only if it has an instance name of its own. A service
      registered without one, or with an empty one, is published under the default
      name, which the comparison does not look at. (Without any name at all there is
      nothing to compare.) */
  lemma SuppressedAsCovered(l: Listing, c: Config)
    ensures (forall records: seq<Known> :: (forall i :: 0 <= i < |records| ==> !JustHalf(records[i])) ==>
               (KnownAnswer(l, records, c) <==> Covered(l, records, c)))
      <==> OwnName(l) || (l.instance.None? && l.hostname.None? && DefaultName(c).None?)
  {
    hide Tells, NamesInstance;
    if OwnName(l) {
      forall records: seq<Known> | forall i :: 0 <= i < |records| ==> !JustHalf(records[i])
        ensures KnownAnswer(l, records, c) <==> Covered(l, records, c)
      {
        forall i | 0 <= i < |records| ensures Tells(records[i], l, c) <==> Fresh(records[i]) && NamesInstance(records[i], l, c) {
          OwnNameCovers(records[i], l, c);
        }
      }
    } else if l.instance.None? && l.hostname.None? && DefaultName(c).None? {
      forall r: Known ensures !Tells(r, l, c) && !NamesInstance(r, l, c) { Nameless(r, l, c); }
    } else {
      var r := Parting(l, c);
      var one := [r];
      PartingParts(l, c);
      assert one[0] == r && Fresh(r) && !JustHalf(r);
      assert KnownAnswer(l, one, c) <==> Tells(r, l, c);
      assert Covered(l, one, c) <==> NamesInstance(r, l, c);
      assert forall i :: 0 <= i < |one| ==> !JustHalf(one[i]);
    }
  }

  lemma Nameless(r: Known, l: Listing, c: Config)
    requires l.instance.None? && l.hostname.None? && DefaultName(c).None?
    ensures !Tells(r, l, c) && !NamesInstance(r, l, c)
  {
  }

  /** Whatever name and time the records hold, they do not suppress such a service in the
      loop; what they do to the questions before it is told in KnownPackets. */
  lemma DefaultInstanceIsNotSuppressed(l: Listing, records: seq<Known>, c: Config)
    requires !OwnName(l) && forall i :: 0 <= i < |records| ==> records[i].host.Some? && |records[i].host.value| > 0
    ensures !KnownAnswer(l, records, c)
  {
    forall i | 0 <= i < |records| ensures !Tells(records[i], l, c) {
      if l.instance.Some? { DifferentLength([], records[i].host.value); }
    }
  }

  /** A known answer at half its time covers the service and does not count. */
  lemma HalfIsTooLittle(l: Listing, c: Config)
    requires OwnName(l)
    ensures var r := Known(l.instance, Some(l.service), Some(l.proto), PTR_TTL / 2);
      Covered(l, [r], c) && !KnownAnswer(l, [r], c)
  {
    hide Names.SameFold;
    var r := Known(l.instance, Some(l.service), Some(l.proto), PTR_TTL / 2);
    SelfSame(l.service);
    SelfSame(l.proto);
    SelfSame(l.instance.value);
    assert [r][0] == r && Fresh(r) && NamesInstance(r, l, c);
  }

  /** With an instance name, the known answers count as they should exactly if one that
      covers the service has more than half its time left, or none covers it. */
  lemma CountsAsCovered(l: Listing, records: seq<Known>, c: Config)
    requires OwnName(l)
    ensures (KnownAnswer(l, records, c) <==> Covered(l, records, c))
      <==> !Covered(l, records, c)
           || exists i :: 0 <= i < |records| && Fresh(records[i]) && NamesInstance(records[i], l, c) && !JustHalf(records[i])
  {
    hide Tells, NamesInstance;
    forall i | 0 <= i < |records|
      ensures Tells(records[i], l, c) <==> Fresh(records[i]) && !JustHalf(records[i]) && NamesInstance(records[i], l, c)
    {
      OwnNameCovers(records[i], l, c);
    }
  }

  // -------------------------------------------------------- the list of hosts

  lemma AppendHostHas(list: seq<Answer>, host: Option<nat>, flush: bool, t: RecordType, h: Option<nat>)
    ensures HasEntry(AppendHost(list, host, flush, false), t, None, h)
      <==> HasEntry(list, t, None, h) || ((t == A || t == AAAA) && h == host)
  {
    hide AllocAnswer, HasEntry;
    AllocKeeps(list, A, None, host, flush, t, None, h);
    AllocKeeps(AllocAnswer(list, A, None, host, flush, false), AAAA, None, host, flush, t, None, h);
  }

  lemma {:induction false} DelegatedHas(list: seq<Answer>, i: nat, n: nat, flush: bool, t: RecordType, h: Option<nat>)
    ensures HasEntry(AppendDelegated(list, i, n, flush), t, None, h)
      <==> HasEntry(list, t, None, h) || ((t == A || t == AAAA) && i <= n && (h == None || i < h.value <= n))
    decreases n + 1 - i
  {
    hide AppendHost, HasEntry;
    if i <= n {
      var host := if i < n then Some(i + 1) else None;
      AppendHostHas(list, host, flush, t, h);
      DelegatedHas(AppendHost(list, host, flush, false), i + 1, n, flush, t, h);
    }
  }

  /** The address entries of the list: the own host if it has a name, the delegated
      hosts from the second on, and one for no host if there is any delegated host. */
  lemma HostListHas(answers: seq<Answer>, c: Config, flush: bool, t: RecordType, h: Option<nat>)
    ensures HasEntry(AppendHostList(answers, c, flush), t, None, h)
      <==> HasEntry(answers, t, None, h)
           || ((t == A || t == AAAA)
               && ((h == Some(SELF_HOST) && |c.hostname| > 0)
                   || (h == None && c.delegated != [])
                   || (h.Some? && 2 <= h.value <= |c.delegated|)))
  {
    hide AppendHost, AppendDelegated, HasEntry;
    var own := if |c.hostname| > 0 then AppendHost(answers, Some(SELF_HOST), flush, false) else answers;
    AppendHostHas(answers, Some(SELF_HOST), flush, t, h);
    DelegatedHas(own, 1, |c.delegated|, flush, t, h);
  }

  /** Every delegated host has its two entries, and no entry is for no host. */
  ghost predicate ListsHosts(list: seq<Answer>, c: Config) {
    && (forall i :: 1 <= i <= |c.delegated| ==>
          HasEntry(list, A, None, Some(i)) && HasEntry(list, AAAA, None, Some(i)))
    && !HasEntry(list, A, None, None) && !HasEntry(list, AAAA, None, None)
  }

  /** The list of all hosts is right exactly if there is no delegated host. */
  lemma HostListRight(c: Config, flush: bool)
    ensures ListsHosts(AppendHostList([], c, flush), c) <==> c.delegated == []
  {
    hide AppendHostList;
    HostListHas([], c, flush, A, None);
    HostListHas([], c, flush, AAAA, None);
  }

  /** One delegated host: it is not in the list, and an entry for no host is. */
  lemma OneDelegatedHost(c: Config, flush: bool)
    requires |c.delegated| == 1
    ensures var list := AppendHostList([], c, flush);
      !HasEntry(list, A, None, Some(1)) && !HasEntry(list, AAAA, None, Some(1)) && HasEntry(list, A, None, None)
  {
    hide AppendHostList;
    HostListHas([], c, flush, A, Some(1));
    HostListHas([], c, flush, AAAA, Some(1));
    HostListHas([], c, flush, A, None);
  }

  // -------------------------------------------------------------- the loops

  method IsRecordKnown(l: Listing, records: seq<Known>, c: Config) returns (exist: bool)
    ensures exist == KnownAnswer(l, records, c)
  {
    var i := 0;
    while i < |records|
      invariant i <= |records| && forall k :: 0 <= k < i ==> !Tells(records[k], l, c)
    {
      if Tells(records[i], l, c) {
        return true;
      }
      i := i + 1;
    }
    return false;
  }

  method AnswerServices(r: Reply, list: seq<Listing>, q: Query, records: seq<Known>, c: Config, shared: bool, flush: bool)
    returns (reply: Reply)
    ensures reply == FromServices(r, list, q, records, c, shared, flush)
  {
    hide FromService, PtrMatch, KnownAnswer;
    reply := r;
    var rest := list;
    while |rest| > 0
      invariant FromServices(reply, rest, q, records, c, shared, flush) == FromServices(r, list, q, records, c, shared, flush)
      decreases |rest|
    {
      var l := rest[0];
      if PtrMatch(l, q, c) {
        var exist := IsRecordKnown(l, records, c);
        if !exist {
          var n := reply.records;
          reply := FromService(reply, l, q.qtype, shared, flush);
          reply := reply.(records := n + 1);
        }
      }
      rest := rest[1..];
    }
  }

  method FindServiceItem(list: seq<Listing>, q: Query, c: Config) returns (found: Option<Listing>)
    ensures found == FindService(list, q, c)
  {
    hide InstanceMatch, ServiceMatch;
    var rest := list;
    while |rest| > 0
      invariant FindService(rest, q, c) == FindService(list, q, c)
      decreases |rest|
    {
      var matches := if q.host.Some? then InstanceMatch(rest[0], q.host, q.service, q.proto, c)
                     else ServiceMatch(rest[0], q.service, q.proto);
      if matches {
        return Some(rest[0]);
      }
      rest := rest[1..];
    }
    return None;
  }

  /** The question loop of _mdns_create_answer_from_parsed_packet; no packet is sent
      when nothing was answered. */
  method CreateAnswer(queries: seq<Query>, list: seq<Listing>, records: seq<Known>, c: Config, probe: bool, port: nat)
    returns (packet: Option<Reply>)
    ensures var r := AnswerAll(NOTHING, queries, list, records, c, probe, port);
      packet == if r.records == 0 then None else Some(r)
  {
    hide FromService, FromServices, FindService, HostItem, AppendHostList;
    var flush := port == MDNS_PORT;
    var reply := NOTHING;
    var rest := queries;
    while |rest| > 0
      invariant AnswerAll(reply, rest, list, records, c, probe, port) == AnswerAll(NOTHING, queries, list, records, c, probe, port)
      decreases |rest|
    {
      var q := rest[0];
      var shared := q.qtype == PTR || q.qtype == SDPTR || !probe;
      rest := rest[1..];
      var n := reply.records;
      if q.qtype == SRV || q.qtype == TXT {
        var service := FindServiceItem(list, q, c);
        if service.None? {
          continue;
        }
        reply := FromService(reply, service.value, q.qtype, shared, flush);
        reply := reply.(records := n + 1);
      } else if q.service.Some? && q.proto.Some? {
        reply := AnswerServices(reply, list, q, records, c, shared, flush);
      } else if q.qtype == A || q.qtype == AAAA {
        var host := HostItem(c, q.host);
        var answers := AllocAnswer(reply.answers, A, None, host, flush, false);
        answers := AllocAnswer(answers, AAAA, None, host, flush, false);
        reply := reply.(answers := answers, records := n + 1);
      } else if q.qtype == ANY {
        reply := reply.(answers := AppendHostList(reply.answers, c, flush), records := n + 1);
      } else {
        reply := reply.(answers := AllocAnswer(reply.answers, q.qtype, None, None, flush, false), records := n + 1);
      }
      if port != MDNS_PORT && q.qtype in {ANY, A, AAAA} {
        reply := reply.(repeated := reply.repeated + [q]);
      }
    }
    return if reply.records == 0 then None else Some(reply);
  }
}
