/** The entries of the reply to the questions that are left over: exactly which types of
    record, for which service or host, in which section, with which flags. */
module ReplyEntries {
  import opened Options
  import opened Packets
  import opened Answers
  import opened KnownAnswers

  predicate IsAddress(t: RecordType) { t == A || t == AAAA }

  // ------------------------------------------------------ what is asked for

  /** The service suits an SRV or TXT question: by instance if it names one. */
  predicate Suits(l: Listing, q: Query, c: Config) {
    if q.host.Some? then InstanceMatch(l, q.host, q.service, q.proto, c) else ServiceMatch(l, q.service, q.proto)
  }

  /** The j-th service is the first that suits. */
  ghost predicate FirstSuits(list: seq<Listing>, q: Query, c: Config, j: nat) {
    j < |list| && Suits(list[j], q, c) && forall i :: 0 <= i < j ==> !Suits(list[i], q, c)
  }

  /** The service is one of those a PTR or ANY question is answered with. */
  predicate Chosen(l: Listing, q: Query, records: seq<Known>, c: Config) {
    PtrMatch(l, q, c) && !KnownAnswer(l, records, c)
  }

  predicate IsOwn(l: Listing) {
    l.host == Some(SELF_HOST)
  }

  /** The records of the service that a question of the type puts among the answers. The
      SRV, TXT and address records of a delegated host are additional, the addresses of
      the own host too unless the reply goes to a probe. */
  predicate OwnAnswers(l: Listing, qtype: RecordType, shared: bool, t: RecordType, h: Option<nat>) {
    if qtype == PTR || qtype == ANY then
      || (t == PTR && h == None)
      || (IsOwn(l) && (t == SRV || t == TXT) && h == None)
      || (IsOwn(l) && !shared && IsAddress(t) && h == l.host)
    else (qtype == SRV || qtype == TXT || qtype == SDPTR) && t == qtype && h == None
  }

  /** ... and those among the additional records. */
  predicate OwnAdditional(l: Listing, qtype: RecordType, shared: bool, t: RecordType, h: Option<nat>) {
    if qtype == PTR || qtype == ANY then
      || (!IsOwn(l) && (t == SRV || t == TXT) && h == None)
      || ((!IsOwn(l) || shared) && IsAddress(t) && h == l.host)
    else qtype == SRV && IsAddress(t) && h == l.host
  }

  /** The item of a host name: the own host for its name or none, else the first delegated
      host of that name, numbered from one. */
  ghost predicate IsHost(c: Config, name: Option<Str>, h: Option<nat>) {
    if name.None? || Same(c.hostname, name.value) then h == Some(SELF_HOST)
    else if h.None? then forall i :: 0 <= i < |c.delegated| ==> !Same(c.delegated[i], name.value)
    else
      && 1 <= h.value <= |c.delegated| && Same(c.delegated[h.value - 1], name.value)
      && forall i :: 0 <= i < h.value - 1 ==> !Same(c.delegated[i], name.value)
  }

  /** The items of the list of all hosts, as it is. */
  predicate InHostList(c: Config, h: Option<nat>) {
    || (h == Some(SELF_HOST) && |c.hostname| > 0)
    || (h == None && c.delegated != [])
    || (h.Some? && 2 <= h.value <= |c.delegated|)
  }

  predicate Shared(q: Query, probe: bool) {
    q.qtype == PTR || q.qtype == SDPTR || !probe
  }

  predicate ForServices(q: Query) {
    q.service.Some? && q.proto.Some?
  }

  /** What one question puts among the answers. */
  ghost predicate Answering(q: Query, list: seq<Listing>, records: seq<Known>, c: Config, probe: bool,
                            t: RecordType, s: Option<nat>, h: Option<nat>) {
    if q.qtype == SRV || q.qtype == TXT then
      exists j: nat :: FirstSuits(list, q, c, j) && s == Some(list[j].id) && OwnAnswers(list[j], q.qtype, Shared(q, probe), t, h)
    else if ForServices(q) then
      exists j :: 0 <= j < |list| && Chosen(list[j], q, records, c) && s == Some(list[j].id)
                  && OwnAnswers(list[j], q.qtype, Shared(q, probe), t, h)
    else
      && s == None
      && (if IsAddress(q.qtype) then IsAddress(t) && IsHost(c, q.host, h)
          else if q.qtype == ANY then IsAddress(t) && InHostList(c, h)
          else t == q.qtype && h == None)
  }

  /** What it puts among the additional records. */
  ghost predicate Adding(q: Query, list: seq<Listing>, records: seq<Known>, c: Config, probe: bool,
                         t: RecordType, s: Option<nat>, h: Option<nat>) {
    if q.qtype == SRV || q.qtype == TXT then
      exists j: nat :: FirstSuits(list, q, c, j) && s == Some(list[j].id) && OwnAdditional(list[j], q.qtype, Shared(q, probe), t, h)
    else
      && ForServices(q)
      && exists j :: 0 <= j < |list| && Chosen(list[j], q, records, c) && s == Some(list[j].id)
                     && OwnAdditional(list[j], q.qtype, Shared(q, probe), t, h)
  }

  /** The question is answered at all. */
  ghost predicate Answerable(q: Query, list: seq<Listing>, records: seq<Known>, c: Config) {
    if q.qtype == SRV || q.qtype == TXT then exists j: nat :: FirstSuits(list, q, c, j)
    else if ForServices(q) then exists j :: 0 <= j < |list| && Chosen(list[j], q, records, c)
    else true
  }

  /** Nothing is a goodbye; the records of a service or a host flush, in a reply to the
      mDNS port, but for the shared PTR records of services. */
  ghost predicate Flagged(list: seq<Answer>, flush: bool) {
    forall i :: 0 <= i < |list| ==>
      !list[i].bye && (list[i].flush <==> flush && !(list[i].service.Some? && (list[i].rtype == PTR || list[i].rtype == SDPTR)))
  }

  // ------------------------------------------------------------ one service

  lemma AllocFlagged(list: seq<Answer>, rtype: RecordType, service: Option<nat>, host: Option<nat>, flag: bool, flush: bool)
    requires Flagged(list, flush)
    requires flag <==> flush && !(service.Some? && (rtype == PTR || rtype == SDPTR))
    ensures Flagged(AllocAnswer(list, rtype, service, host, flag, false), flush)
  {
    var r := AllocAnswer(list, rtype, service, host, flag, false);
    forall i | 0 <= i < |r|
      ensures !r[i].bye && (r[i].flush <==> flush && !(r[i].service.Some? && (r[i].rtype == PTR || r[i].rtype == SDPTR)))
    {
      if i < |list| { assert r[i] == list[i]; } else { assert SameEntry(r[i], rtype, service, host); }
    }
  }

  /** Two entries at once. */
  function Two(list: seq<Answer>, t: RecordType, u: RecordType, s: Option<nat>, h: Option<nat>, flush: bool): seq<Answer> {
    AllocAnswer(AllocAnswer(list, t, s, h, flush, false), u, s, h, flush, false)
  }

  lemma TwoHave(list: seq<Answer>, t: RecordType, u: RecordType, s: Option<nat>, h: Option<nat>, flush: bool)
    ensures forall x, y, z :: HasEntry(Two(list, t, u, s, h, flush), x, y, z) <==>
      HasEntry(list, x, y, z) || ((x == t || x == u) && y == s && z == h)
    ensures Flagged(list, flush) && !(s.Some? && (t == PTR || t == SDPTR || u == PTR || u == SDPTR)) ==>
      Flagged(Two(list, t, u, s, h, flush), flush)
  {
    hide AllocAnswer, HasEntry, Flagged;
    AllocHas(list, t, s, h, flush, false);
    AllocHas(AllocAnswer(list, t, s, h, flush, false), u, s, h, flush, false);
    if Flagged(list, flush) && !(s.Some? && (t == PTR || t == SDPTR || u == PTR || u == SDPTR)) {
      AllocFlagged(list, t, s, h, flush, flush);
      AllocFlagged(AllocAnswer(list, t, s, h, flush, false), u, s, h, flush, flush);
    }
  }

  /** What answering for a service adds. */
  lemma FromServiceHas(r: Reply, l: Listing, qtype: RecordType, shared: bool, flush: bool)
    ensures var r' := FromService(r, l, qtype, shared, flush);
      && (forall t, s, h :: HasEntry(r'.answers, t, s, h) <==>
            HasEntry(r.answers, t, s, h) || (s == Some(l.id) && OwnAnswers(l, qtype, shared, t, h)))
      && (forall t, s, h :: HasEntry(r'.additional, t, s, h) <==>
            HasEntry(r.additional, t, s, h) || (s == Some(l.id) && OwnAdditional(l, qtype, shared, t, h)))
      && (Flagged(r.answers, flush) ==> Flagged(r'.answers, flush))
      && (Flagged(r.additional, flush) ==> Flagged(r'.additional, flush))
      && r'.records == r.records && r'.repeated == r.repeated
  {
    hide AllocAnswer, HasEntry, Flagged;
    if qtype == PTR || qtype == ANY {
      AllRecordsHave(r, l, shared, flush);
    } else {
      var s := Some(l.id);
      AllocHas(r.answers, qtype, s, None, flush && qtype != SDPTR, false);
      TwoHave(r.additional, A, AAAA, s, l.host, flush);
      if Flagged(r.answers, flush) && (qtype == SRV || qtype == TXT || qtype == SDPTR) {
        AllocFlagged(r.answers, qtype, s, None, flush && qtype != SDPTR, flush);
      }
    }
  }

  lemma AllRecordsHave(r: Reply, l: Listing, shared: bool, flush: bool)
    ensures var r' := AllRecords(r, l, shared, flush);
      && (forall t, s, h :: HasEntry(r'.answers, t, s, h) <==>
            HasEntry(r.answers, t, s, h) || (s == Some(l.id) && OwnAnswers(l, PTR, shared, t, h)))
      && (forall t, s, h :: HasEntry(r'.additional, t, s, h) <==>
            HasEntry(r.additional, t, s, h) || (s == Some(l.id) && OwnAdditional(l, PTR, shared, t, h)))
      && (Flagged(r.answers, flush) ==> Flagged(r'.answers, flush))
      && (Flagged(r.additional, flush) ==> Flagged(r'.additional, flush))
      && r'.records == r.records && r'.repeated == r.repeated
  {
    hide AllocAnswer, HasEntry, Flagged;
    var s := Some(l.id);
    var answers := AllocAnswer(r.answers, PTR, s, None, false, false);
    AllocHas(r.answers, PTR, s, None, false, false);
    if Flagged(r.answers, flush) { AllocFlagged(r.answers, PTR, s, None, false, flush); }
    TwoHave(answers, SRV, TXT, s, None, flush);
    TwoHave(Two(answers, SRV, TXT, s, None, flush), A, AAAA, s, l.host, flush);
    TwoHave(r.additional, A, AAAA, s, l.host, flush);
    TwoHave(r.additional, SRV, TXT, s, None, flush);
    TwoHave(Two(r.additional, SRV, TXT, s, None, flush), A, AAAA, s, l.host, flush);
    AllRecordsAre(r, l, shared, flush);
  }

  lemma AllRecordsAre(r: Reply, l: Listing, shared: bool, flush: bool)
    ensures var s := Some(l.id); var answers := AllocAnswer(r.answers, PTR, s, None, false, false);
      AllRecords(r, l, shared, flush) ==
        if !IsOwn(l) then r.(answers := answers,
          additional := Two(Two(r.additional, SRV, TXT, s, None, flush), A, AAAA, s, l.host, flush))
        else if shared then r.(answers := Two(answers, SRV, TXT, s, None, flush),
          additional := Two(r.additional, A, AAAA, s, l.host, flush))
        else r.(answers := Two(Two(answers, SRV, TXT, s, None, flush), A, AAAA, s, l.host, flush))
  {
    hide AllocAnswer;
  }

  /** Of a list of services, the chosen ones. */
  lemma {:induction false} FromServicesHave(r: Reply, list: seq<Listing>, q: Query, records: seq<Known>, c: Config,
                                            shared: bool, flush: bool)
    ensures var r' := FromServices(r, list, q, records, c, shared, flush);
      && (forall t, s, h :: HasEntry(r'.answers, t, s, h) <==>
            HasEntry(r.answers, t, s, h) || OneOf(list, q, records, c, shared, false, t, s, h))
      && (forall t, s, h :: HasEntry(r'.additional, t, s, h) <==>
            HasEntry(r.additional, t, s, h) || OneOf(list, q, records, c, shared, true, t, s, h))
      && (Flagged(r.answers, flush) ==> Flagged(r'.answers, flush))
      && (Flagged(r.additional, flush) ==> Flagged(r'.additional, flush))
      && r'.repeated == r.repeated
      && (r'.records == r.records <==> forall j :: 0 <= j < |list| ==> !Chosen(list[j], q, records, c)) && r'.records >= r.records
    decreases |list|
  {
    hide FromService, HasEntry, Flagged, PtrMatch, KnownAnswer, OwnAnswers, OwnAdditional;
    if list != [] {
      var l := list[0];
      FromServiceHas(r, l, q.qtype, shared, flush);
      var r1 := if Chosen(l, q, records, c) then FromService(r, l, q.qtype, shared, flush).(records := r.records + 1) else r;
      FromServicesHave(r1, list[1..], q, records, c, shared, flush);
      forall additional, t, s, h
        ensures OneOf(list, q, records, c, shared, additional, t, s, h) <==>
          ByOne(l, q, records, c, shared, additional, t, s, h)
          || OneOf(list[1..], q, records, c, shared, additional, t, s, h)
      {
        OneOfSplit(list, q, records, c, shared, additional, t, s, h);
      }
      assert forall j :: 0 < j < |list| ==> list[j] == list[1..][j - 1];
    }
  }

  predicate In(l: Listing, qtype: RecordType, shared: bool, additional: bool, t: RecordType, h: Option<nat>) {
    if additional then OwnAdditional(l, qtype, shared, t, h) else OwnAnswers(l, qtype, shared, t, h)
  }

  ghost predicate OneOf(list: seq<Listing>, q: Query, records: seq<Known>, c: Config, shared: bool, additional: bool,
                        t: RecordType, s: Option<nat>, h: Option<nat>) {
    exists j :: 0 <= j < |list| && ByOne(list[j], q, records, c, shared, additional, t, s, h)
  }

  predicate ByOne(l: Listing, q: Query, records: seq<Known>, c: Config, shared: bool, additional: bool,
                  t: RecordType, s: Option<nat>, h: Option<nat>) {
    Chosen(l, q, records, c) && s == Some(l.id) && In(l, q.qtype, shared, additional, t, h)
  }

  lemma OneOfAt(list: seq<Listing>, j: nat, q: Query, records: seq<Known>, c: Config, shared: bool, additional: bool,
                t: RecordType, s: Option<nat>, h: Option<nat>)
    requires j < |list| && ByOne(list[j], q, records, c, shared, additional, t, s, h)
    ensures OneOf(list, q, records, c, shared, additional, t, s, h)
  {
    hide ByOne;
  }

  lemma OneOfWhere(list: seq<Listing>, q: Query, records: seq<Known>, c: Config, shared: bool, additional: bool,
                   t: RecordType, s: Option<nat>, h: Option<nat>) returns (j: nat)
    requires OneOf(list, q, records, c, shared, additional, t, s, h)
    ensures j < |list| && ByOne(list[j], q, records, c, shared, additional, t, s, h)
  {
    hide ByOne;
    j :| 0 <= j < |list| && ByOne(list[j], q, records, c, shared, additional, t, s, h);
  }

  lemma OneOfSplit(list: seq<Listing>, q: Query, records: seq<Known>, c: Config, shared: bool, additional: bool,
                   t: RecordType, s: Option<nat>, h: Option<nat>)
    requires list != []
    ensures OneOf(list, q, records, c, shared, additional, t, s, h) <==>
      ByOne(list[0], q, records, c, shared, additional, t, s, h) || OneOf(list[1..], q, records, c, shared, additional, t, s, h)
  {
    hide ByOne, OneOf;
    var rest := list[1..];
    if OneOf(list, q, records, c, shared, additional, t, s, h) {
      var j := OneOfWhere(list, q, records, c, shared, additional, t, s, h);
      if j > 0 {
        assert rest[j - 1] == list[j];
        OneOfAt(rest, j - 1, q, records, c, shared, additional, t, s, h);
      }
    }
    if OneOf(rest, q, records, c, shared, additional, t, s, h) {
      var j := OneOfWhere(rest, q, records, c, shared, additional, t, s, h);
      assert list[j + 1] == rest[j];
      OneOfAt(list, j + 1, q, records, c, shared, additional, t, s, h);
    }
    if ByOne(list[0], q, records, c, shared, additional, t, s, h) {
      OneOfAt(list, 0, q, records, c, shared, additional, t, s, h);
    }
  }

  // --------------------------------------------------------- one question

  lemma {:induction false} FindFirst(list: seq<Listing>, q: Query, c: Config)
    ensures match FindService(list, q, c)
            case Some(l) => exists j: nat :: FirstSuits(list, q, c, j) && list[j] == l
            case None => forall j: nat :: !FirstSuits(list, q, c, j)
    ensures FindService(list, q, c).None? ==> forall j :: 0 <= j < |list| ==> !Suits(list[j], q, c)
    decreases |list|
  {
    hide Suits;
    if list != [] {
      var rest := list[1..];
      assert forall j :: 0 <= j < |rest| ==> rest[j] == list[j + 1];
      FindFirst(rest, q, c);
      SuitsIs(list[0], q, c);
      if Suits(list[0], q, c) {
        assert FirstSuits(list, q, c, 0);
      } else if FindService(rest, q, c).Some? {
        var j: nat :| FirstSuits(rest, q, c, j) && rest[j] == FindService(rest, q, c).value;
        assert FirstSuits(list, q, c, j + 1) && list[j + 1] == rest[j];
      } else {
        forall j | 0 <= j < |list| ensures !Suits(list[j], q, c) { if j > 0 { assert list[j] == rest[j - 1]; } }
      }
    }
  }

  lemma SuitsIs(l: Listing, q: Query, c: Config)
    ensures Suits(l, q, c) <==> if q.host.Some? then InstanceMatch(l, q.host, q.service, q.proto, c) else ServiceMatch(l, q.service, q.proto)
  {
  }

  lemma OnlyFirst(list: seq<Listing>, q: Query, c: Config, i: nat, j: nat)
    requires FirstSuits(list, q, c, i) && FirstSuits(list, q, c, j)
    ensures i == j
  {
  }

  lemma {:induction false} HostFromIs(hosts: seq<Str>, name: Str, id: nat)
    ensures match HostFrom(hosts, name, id)
            case None => forall i :: 0 <= i < |hosts| ==> !Same(hosts[i], name)
            case Some(h) => id <= h < id + |hosts| && Same(hosts[h - id], name) && forall i :: 0 <= i < h - id ==> !Same(hosts[i], name)
    decreases |hosts|
  {
    hide Names.SameFold;
    if hosts != [] {
      var rest := hosts[1..];
      assert forall i :: 0 <= i < |rest| ==> rest[i] == hosts[i + 1];
      HostFromIs(rest, name, id + 1);
      if !Same(hosts[0], name) && HostFrom(rest, name, id + 1).Some? {
        var h := HostFrom(rest, name, id + 1).value;
        forall i | 0 <= i < h - id ensures !Same(hosts[i], name) { if i > 0 { assert hosts[i] == rest[i - 1]; } }
      } else if !Same(hosts[0], name) {
        forall i | 0 <= i < |hosts| ensures !Same(hosts[i], name) { if i > 0 { assert hosts[i] == rest[i - 1]; } }
      }
    }
  }

  lemma HostItemIs(c: Config, name: Option<Str>)
    ensures forall h :: IsHost(c, name, h) <==> h == HostItem(c, name)
  {
    hide Names.SameFold;
    if name.Some? { HostFromIs(c.delegated, name.value, 1); }
  }

  // ------------------------------------------------------- the whole reply

  lemma HostListFlagged(answers: seq<Answer>, c: Config, flush: bool)
    requires Flagged(answers, flush)
    ensures Flagged(AppendHostList(answers, c, flush), flush)
  {
    hide AppendHost, Flagged;
    HostFlagged(answers, Some(SELF_HOST), flush);
    DelegatedFlagged(if |c.hostname| > 0 then AppendHost(answers, Some(SELF_HOST), flush, false) else answers, 1, |c.delegated|, flush);
  }

  lemma HostFlagged(answers: seq<Answer>, h: Option<nat>, flush: bool)
    requires Flagged(answers, flush)
    ensures Flagged(AppendHost(answers, h, flush, false), flush)
  {
    hide AllocAnswer, Flagged;
    AllocFlagged(answers, A, None, h, flush, flush);
    AllocFlagged(AllocAnswer(answers, A, None, h, flush, false), AAAA, None, h, flush, flush);
  }

  lemma {:induction false} DelegatedFlagged(answers: seq<Answer>, i: nat, n: nat, flush: bool)
    requires Flagged(answers, flush)
    ensures Flagged(AppendDelegated(answers, i, n, flush), flush)
    decreases n + 1 - i
  {
    hide AppendHost, Flagged;
    if i <= n {
      var h := if i < n then Some(i + 1) else None;
      HostFlagged(answers, h, flush);
      DelegatedFlagged(AppendHost(answers, h, flush, false), i + 1, n, flush);
    }
  }

  /** What the reply `next` has beyond `r` on account of the question. */
  ghost predicate Gains(r: Reply, next: Reply, q: Query, list: seq<Listing>, records: seq<Known>, c: Config, probe: bool, flush: bool) {
    && (forall t, s, h :: HasEntry(next.answers, t, s, h) <==>
          HasEntry(r.answers, t, s, h) || Answering(q, list, records, c, probe, t, s, h))
    && (forall t, s, h :: HasEntry(next.additional, t, s, h) <==>
          HasEntry(r.additional, t, s, h) || Adding(q, list, records, c, probe, t, s, h))
    && (Flagged(r.answers, flush) ==> Flagged(next.answers, flush))
    && (Flagged(r.additional, flush) ==> Flagged(next.additional, flush))
    && (next.records > r.records <==> Answerable(q, list, records, c)) && next.records >= r.records
  }

  lemma NumberGains(r: Reply, q: Query, list: seq<Listing>, records: seq<Known>, c: Config, probe: bool, flush: bool)
    requires q.qtype == SRV || q.qtype == TXT
    ensures match Answered(r, q, list, records, c, probe, flush)
            case None => Gains(r, r, q, list, records, c, probe, flush)
            case Some(next) => Gains(r, next, q, list, records, c, probe, flush) && next.repeated == r.repeated
  {
    hide FromService, HasEntry, Flagged, OwnAnswers, OwnAdditional, Suits;
    FindFirst(list, q, c);
    if FindService(list, q, c).Some? {
      var l := FindService(list, q, c).value;
      var j: nat :| FirstSuits(list, q, c, j) && list[j] == l;
      FromServiceHas(r, l, q.qtype, Shared(q, probe), flush);
      forall i: nat | FirstSuits(list, q, c, i) ensures i == j { OnlyFirst(list, q, c, i, j); }
    }
  }

  lemma ServicesGain(r: Reply, q: Query, list: seq<Listing>, records: seq<Known>, c: Config, probe: bool, flush: bool)
    requires q.qtype != SRV && q.qtype != TXT && ForServices(q)
    ensures match Answered(r, q, list, records, c, probe, flush)
            case None => false
            case Some(next) => Gains(r, next, q, list, records, c, probe, flush) && next.repeated == r.repeated
  {
    hide FromServices, HasEntry, Flagged, OwnAnswers, OwnAdditional, Chosen;
    FromServicesHave(r, list, q, records, c, Shared(q, probe), flush);
  }

  lemma HostsGain(r: Reply, q: Query, list: seq<Listing>, records: seq<Known>, c: Config, probe: bool, flush: bool)
    requires q.qtype != SRV && q.qtype != TXT && !ForServices(q)
    ensures match Answered(r, q, list, records, c, probe, flush)
            case None => false
            case Some(next) => Gains(r, next, q, list, records, c, probe, flush) && next.repeated == r.repeated
  {
    hide AllocAnswer, HasEntry, Flagged, AppendHostList, IsHost, InHostList, HostItem;
    if q.qtype == A || q.qtype == AAAA {
      HostItemIs(c, q.host);
      TwoHave(r.answers, A, AAAA, None, HostItem(c, q.host), flush);
    } else if q.qtype == ANY {
      forall t, s, h
        ensures HasEntry(AppendHostList(r.answers, c, flush), t, s, h) <==>
          HasEntry(r.answers, t, s, h) || (s == None && IsAddress(t) && InHostList(c, h))
      {
        AnyListed(r.answers, c, flush, t, s, h);
      }
      if Flagged(r.answers, flush) { HostListFlagged(r.answers, c, flush); }
    } else {
      AllocHas(r.answers, q.qtype, None, None, flush, false);
      if Flagged(r.answers, flush) { AllocFlagged(r.answers, q.qtype, None, None, flush, flush); }
    }
  }

  lemma AnyListed(answers: seq<Answer>, c: Config, flush: bool, t: RecordType, s: Option<nat>, h: Option<nat>)
    ensures HasEntry(AppendHostList(answers, c, flush), t, s, h) <==>
      HasEntry(answers, t, s, h) || (s == None && IsAddress(t) && InHostList(c, h))
  {
    hide AppendHostList, HasEntry;
    if s == None {
      HostListHas(answers, c, flush, t, h);
    } else {
      ListedOther(answers, c, flush, t, s, h);
    }
  }

  lemma ListedOther(answers: seq<Answer>, c: Config, flush: bool, t: RecordType, s: Option<nat>, h: Option<nat>)
    requires s != None
    ensures HasEntry(AppendHostList(answers, c, flush), t, s, h) <==> HasEntry(answers, t, s, h)
  {
    hide AppendHost, HasEntry;
    HostOther(answers, Some(SELF_HOST), flush, t, s, h);
    DelegatedOther(if |c.hostname| > 0 then AppendHost(answers, Some(SELF_HOST), flush, false) else answers, 1, |c.delegated|, flush, t, s, h);
  }

  lemma HostOther(answers: seq<Answer>, host: Option<nat>, flush: bool, t: RecordType, s: Option<nat>, h: Option<nat>)
    requires s != None
    ensures HasEntry(AppendHost(answers, host, flush, false), t, s, h) <==> HasEntry(answers, t, s, h)
  {
    hide AllocAnswer, HasEntry;
    AllocHas(answers, A, None, host, flush, false);
    AllocHas(AllocAnswer(answers, A, None, host, flush, false), AAAA, None, host, flush, false);
  }

  lemma {:induction false} DelegatedOther(answers: seq<Answer>, i: nat, n: nat, flush: bool, t: RecordType, s: Option<nat>, h: Option<nat>)
    requires s != None
    ensures HasEntry(AppendDelegated(answers, i, n, flush), t, s, h) <==> HasEntry(answers, t, s, h)
    decreases n + 1 - i
  {
    hide AppendHost, HasEntry;
    if i <= n {
      var host := if i < n then Some(i + 1) else None;
      HostOther(answers, host, flush, t, s, h);
      DelegatedOther(AppendHost(answers, host, flush, false), i + 1, n, flush, t, s, h);
    }
  }

  /** The questions that a querier on another port gets back. */
  function OneShot(queries: seq<Query>): seq<Query> {
    if queries == [] then []
    else (if queries[0].qtype in {ANY, A, AAAA} then [queries[0]] else []) + OneShot(queries[1..])
  }

  ghost predicate SomeAnswering(queries: seq<Query>, list: seq<Listing>, records: seq<Known>, c: Config, probe: bool,
                                t: RecordType, s: Option<nat>, h: Option<nat>) {
    exists i :: 0 <= i < |queries| && Answering(queries[i], list, records, c, probe, t, s, h)
  }

  ghost predicate SomeAdding(queries: seq<Query>, list: seq<Listing>, records: seq<Known>, c: Config, probe: bool,
                             t: RecordType, s: Option<nat>, h: Option<nat>) {
    exists i :: 0 <= i < |queries| && Adding(queries[i], list, records, c, probe, t, s, h)
  }

  lemma SomeAnsweringSplit(queries: seq<Query>, list: seq<Listing>, records: seq<Known>, c: Config, probe: bool,
                  t: RecordType, s: Option<nat>, h: Option<nat>)
    requires queries != []
    ensures SomeAnswering(queries, list, records, c, probe, t, s, h) <==>
      Answering(queries[0], list, records, c, probe, t, s, h) || SomeAnswering(queries[1..], list, records, c, probe, t, s, h)
  {
    hide Answering;
    var rest := queries[1..];
    if SomeAnswering(queries, list, records, c, probe, t, s, h) {
      var i :| 0 <= i < |queries| && Answering(queries[i], list, records, c, probe, t, s, h);
      if i > 0 { assert rest[i - 1] == queries[i]; }
    }
    if SomeAnswering(rest, list, records, c, probe, t, s, h) {
      var i :| 0 <= i < |rest| && Answering(rest[i], list, records, c, probe, t, s, h);
      assert queries[i + 1] == rest[i];
    }
  }

  lemma SomeAddingSplit(queries: seq<Query>, list: seq<Listing>, records: seq<Known>, c: Config, probe: bool,
                  t: RecordType, s: Option<nat>, h: Option<nat>)
    requires queries != []
    ensures SomeAdding(queries, list, records, c, probe, t, s, h) <==>
      Adding(queries[0], list, records, c, probe, t, s, h) || SomeAdding(queries[1..], list, records, c, probe, t, s, h)
  {
    hide Adding;
    var rest := queries[1..];
    if SomeAdding(queries, list, records, c, probe, t, s, h) {
      var i :| 0 <= i < |queries| && Adding(queries[i], list, records, c, probe, t, s, h);
      if i > 0 { assert rest[i - 1] == queries[i]; }
    }
    if SomeAdding(rest, list, records, c, probe, t, s, h) {
      var i :| 0 <= i < |rest| && Adding(rest[i], list, records, c, probe, t, s, h);
      assert queries[i + 1] == rest[i];
    }
  }

  lemma QuestionGains(r: Reply, q: Query, list: seq<Listing>, records: seq<Known>, c: Config, probe: bool, flush: bool)
    ensures match Answered(r, q, list, records, c, probe, flush)
            case None => Gains(r, r, q, list, records, c, probe, flush) && (q.qtype == SRV || q.qtype == TXT)
            case Some(next) => Gains(r, next, q, list, records, c, probe, flush) && next.repeated == r.repeated
  {
    hide Gains, FindService, FromService, FromServices, AppendHostList, AllocAnswer, HostItem;
    if q.qtype == SRV || q.qtype == TXT {
      NumberGains(r, q, list, records, c, probe, flush);
    } else if ForServices(q) {
      ServicesGain(r, q, list, records, c, probe, flush);
    } else {
      HostsGain(r, q, list, records, c, probe, flush);
    }
  }

  lemma {:induction false} RepliesGain(r: Reply, queries: seq<Query>, list: seq<Listing>, records: seq<Known>, c: Config, probe: bool, port: nat)
    ensures var r' := AnswerAll(r, queries, list, records, c, probe, port); var flush := port == MDNS_PORT;
      && (forall t, s, h :: HasEntry(r'.answers, t, s, h) <==>
            HasEntry(r.answers, t, s, h) || SomeAnswering(queries, list, records, c, probe, t, s, h))
      && (forall t, s, h :: HasEntry(r'.additional, t, s, h) <==>
            HasEntry(r.additional, t, s, h) || SomeAdding(queries, list, records, c, probe, t, s, h))
      && (Flagged(r.answers, flush) ==> Flagged(r'.answers, flush))
      && (Flagged(r.additional, flush) ==> Flagged(r'.additional, flush))
      && (r'.records > r.records <==> exists i :: 0 <= i < |queries| && Answerable(queries[i], list, records, c))
      && r'.records >= r.records
      && r'.repeated == (if port == MDNS_PORT then r.repeated else r.repeated + OneShot(queries))
    decreases |queries|
  {
    hide Answered, HasEntry, Flagged, Answering, Adding, Answerable, SomeAnswering, SomeAdding;
    if queries == [] {
      NoneAnswering(list, records, c, probe);
      assert r.repeated + [] == r.repeated;
    } else {
      var q, rest := queries[0], queries[1..];
      var flush := port == MDNS_PORT;
      QuestionGains(r, q, list, records, c, probe, flush);
      var r1 := match Answered(r, q, list, records, c, probe, flush)
                case None => r
                case Some(next) => Repeat(next, q, port);
      RepliesGain(r1, rest, list, records, c, probe, port);
      forall t, s, h ensures
          && (SomeAnswering(queries, list, records, c, probe, t, s, h) <==>
                Answering(q, list, records, c, probe, t, s, h) || SomeAnswering(rest, list, records, c, probe, t, s, h))
          && (SomeAdding(queries, list, records, c, probe, t, s, h) <==>
                Adding(q, list, records, c, probe, t, s, h) || SomeAdding(rest, list, records, c, probe, t, s, h))
      {
        SomeAnsweringSplit(queries, list, records, c, probe, t, s, h);
        SomeAddingSplit(queries, list, records, c, probe, t, s, h);
      }
      assert forall i :: 0 < i < |queries| ==> queries[i] == rest[i - 1];
      assert forall i :: 0 <= i < |rest| ==> queries[i + 1] == rest[i];
      assert r1.repeated + OneShot(rest) == r.repeated + (r1.repeated[|r.repeated|..] + OneShot(rest)) by {
        assert r.repeated <= r1.repeated;
      }
    }
  }

  lemma NoneAnswering(list: seq<Listing>, records: seq<Known>, c: Config, probe: bool)
    ensures forall t, s, h :: !SomeAnswering([], list, records, c, probe, t, s, h) && !SomeAdding([], list, records, c, probe, t, s, h)
  {
  }

  /** The reply to any questions: its answers and its additional records are exactly those
      that one of the questions asks for, none is a goodbye, they flush as they should, the
      questions of a querier on another port come back in their order, and there is a reply
      exactly if some question is answered. */
  lemma ReplyExact(queries: seq<Query>, list: seq<Listing>, records: seq<Known>, c: Config, probe: bool, port: nat)
    ensures var r := AnswerAll(NOTHING, queries, list, records, c, probe, port);
      && (forall t, s, h :: HasEntry(r.answers, t, s, h) <==> SomeAnswering(queries, list, records, c, probe, t, s, h))
      && (forall t, s, h :: HasEntry(r.additional, t, s, h) <==> SomeAdding(queries, list, records, c, probe, t, s, h))
      && Flagged(r.answers, port == MDNS_PORT) && Flagged(r.additional, port == MDNS_PORT)
      && (r.records > 0 <==> exists i :: 0 <= i < |queries| && Answerable(queries[i], list, records, c))
      && r.repeated == (if port == MDNS_PORT then [] else OneShot(queries))
  {
    hide AnswerAll, SomeAnswering, SomeAdding, Answerable;
    RepliesGain(NOTHING, queries, list, records, c, probe, port);
    assert [] + OneShot(queries) == OneShot(queries);
    assert forall t, s, h :: !HasEntry([], t, s, h);
  }
}
