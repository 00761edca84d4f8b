/** A query with known answers, from the parser to the reply: which questions the known
    answers take out before anything is answered (section 7.1 of RFC 6762). */
module KnownPackets {
  import opened Options
  import opened Packets
  import opened Answers
  import opened KnownAnswers
  import ReplyEntries
  import Names

  /** A PTR record of the answer section of a query: its owner, its target, None where it
      could not be read, and its TTL. */
  datatype Told = Told(owner: Names.FullName, target: Option<Names.FullName>, ttl: nat)

  /** The parsed questions and known answers, the newest first. */
  datatype Parsed = Parsed(questions: seq<Query>, records: seq<Known>)

  function Filled(s: Str): Option<Str> {
    if s == [] then None else Some(s)
  }

  /** A service with the type of the name and, if it has one, its instance. */
  function Resolve(n: Names.FullName, list: seq<Listing>, c: Config): Option<Listing> {
    FindService(list, Query(PTR, false, false, Filled(n.host), Some(n.service), Some(n.proto)), c)
  }

  /** _hostname_is_ours */
  predicate HostIsOurs(name: Str, c: Config) {
    Same(name, c.hostname) || exists i :: 0 <= i < |c.delegated| && Same(name, c.delegated[i])
  }

  /** _mdns_name_is_ours, for a name that is not a subtype's */
  predicate Ours(n: Names.FullName, list: seq<Listing>, c: Config) {
    && !n.sub && Same(n.domain, Names.LOCAL)
    && (if n.service == [] && n.proto == [] then n.host != [] && c.hostname != [] && HostIsOurs(n.host, c)
        else
          && n.service != [] && n.proto != []
          && match Resolve(n, list, c)
             case None => false
             case Some(l) => n.host == [] || (InstanceName(l, c).Some? && Same(n.host, InstanceName(l, c).value)))
  }

  /** _mdns_question_matches for a PTR record */
  predicate Strikes(l: Listing, q: Query) {
    && q.qtype == PTR && q.service.Some? && q.proto.Some?
    && Same(l.service, q.service.value) && Same(l.proto, q.proto.value)
    && (l.instance.None? || (q.host.Some? && Same(l.instance.value, q.host.value)))
  }

  /** _mdns_remove_parsed_question: the first question that matches goes. */
  function Strike(queries: seq<Query>, l: Listing): seq<Query> {
    if queries == [] then []
    else if Strikes(l, queries[0]) then queries[1..]
    else [queries[0]] + Strike(queries[1..], l)
  }

  /** The service that the record is taken to be about. */
  function Heard(t: Told, list: seq<Listing>, c: Config): Option<Listing> {
    if Ours(t.owner, list, c) && t.target.Some? && Ours(t.target.value, list, c) then Resolve(t.target.value, list, c) else None
  }

  function Noted(n: Names.FullName, ttl: nat): Known {
    Known(Filled(n.host), Filled(n.service), Filled(n.proto), ttl)
  }

  /** One PTR record of a query: whatever its TTL, it takes a question out, unless the
      query is a probe, and it is noted as a known answer. */
  function Hear(p: Parsed, t: Told, probe: bool, list: seq<Listing>, c: Config): Parsed {
    match Heard(t, list, c)
    case None => p
    case Some(l) =>
      Parsed(if p.questions != [] && !probe then Strike(p.questions, l) else p.questions,
             [Noted(t.target.value, t.ttl)] + p.records)
  }

  function HearAll(p: Parsed, told: seq<Told>, probe: bool, list: seq<Listing>, c: Config): Parsed
    decreases |told|
  {
    if told == [] then p else HearAll(Hear(p, told[0], probe, list, c), told[1..], probe, list, c)
  }

  /** A question of type ANY for a name makes the query a probe. */
  predicate Probing(queries: seq<Query>) {
    exists i :: 0 <= i < |queries| && queries[i].qtype == ANY && queries[i].host.Some?
  }

  function Left(queries: seq<Query>, told: seq<Told>, list: seq<Listing>, c: Config): Parsed {
    HearAll(Parsed(queries, []), told, Probing(queries), list, c)
  }

  /** The reply to a query of a responder that has a host name, is past probing and sees no
      conflict in the query. */
  function Respond(queries: seq<Query>, told: seq<Told>, list: seq<Listing>, c: Config, port: nat): Reply {
    var p := Left(queries, told, list, c);
    if p.questions == [] then NOTHING else AnswerAll(NOTHING, p.questions, list, p.records, c, Probing(queries), port)
  }

  // --------------------------------------------------------------- the loops

  method RemoveParsedQuestion(queries: seq<Query>, l: Listing) returns (r: seq<Query>)
    requires queries != []
    ensures r == Strike(queries, l)
  {
    hide Strikes;
    if Strikes(l, queries[0]) {
      return queries[1..];
    }
    var q := 0;
    assert queries[..1] + Strike(queries[1..], l) == Strike(queries, l);
    while q + 1 < |queries|
      invariant q < |queries| && Strike(queries, l) == queries[..q + 1] + Strike(queries[q + 1..], l)
    {
      assert queries[q + 1..][0] == queries[q + 1] && queries[q + 1..][1..] == queries[q + 2..];
      if Strikes(l, queries[q + 1]) {
        return queries[..q + 1] + queries[q + 2..];
      }
      assert queries[..q + 2] == queries[..q + 1] + [queries[q + 1]];
      q := q + 1;
    }
    return queries;
  }

  /** The records of a query, one after another. */
  method ParseKnownAnswers(queries: seq<Query>, told: seq<Told>, list: seq<Listing>, c: Config) returns (p: Parsed)
    ensures p == Left(queries, told, list, c)
  {
    hide Ours, Resolve, Strike;
    var probe := Probing(queries);
    var questions, records: seq<Known> := queries, [];
    var rest := told;
    while |rest| > 0
      invariant HearAll(Parsed(questions, records), rest, probe, list, c) == Left(queries, told, list, c)
      decreases |rest|
    {
      var t := rest[0];
      rest := rest[1..];
      if !Ours(t.owner, list, c) || t.target.None? || !Ours(t.target.value, list, c) {
        continue;
      }
      var service := Resolve(t.target.value, list, c);
      if service.Some? {
        if |questions| > 0 && !probe {
          questions := RemoveParsedQuestion(questions, service.value);
        }
        records := [Noted(t.target.value, t.ttl)] + records;
      }
    }
    return Parsed(questions, records);
  }

  // ------------------------------------------------------- what is left over

  lemma {:induction false} StrikeLess(queries: seq<Query>, l: Listing)
    ensures forall q :: q in Strike(queries, l) ==> q in queries
    ensures forall q :: q in queries && !Strikes(l, q) ==> q in Strike(queries, l)
    ensures |Strike(queries, l)| == |queries| - 1 || (Strike(queries, l) == queries && forall q :: q in queries ==> !Strikes(l, q))
    decreases |queries|
  {
    hide Strikes;
    if queries != [] {
      assert queries == [queries[0]] + queries[1..];
      StrikeLess(queries[1..], l);
    }
  }

  /** Questions only go; one that no record strikes stays, and in a probe all do. */
  lemma {:induction false} HearQuestions(p: Parsed, told: seq<Told>, probe: bool, list: seq<Listing>, c: Config)
    ensures var r := HearAll(p, told, probe, list, c);
      && |r.questions| <= |p.questions|
      && (probe ==> r.questions == p.questions)
      && (forall q :: q in r.questions ==> q in p.questions)
      && (forall q :: q in p.questions && !Struck(q, told, list, c) ==> q in r.questions)
    decreases |told|
  {
    hide Strikes, Strike, Heard;
    if told != [] {
      var t := told[0];
      var p' := Hear(p, t, probe, list, c);
      HearQuestions(p', told[1..], probe, list, c);
      if Heard(t, list, c).Some? { StrikeLess(p.questions, Heard(t, list, c).value); }
      forall q | q in p.questions && !Struck(q, told, list, c) ensures q in p'.questions && !Struck(q, told[1..], list, c) {
        assert told[0] == t;
        forall i | 0 <= i < |told[1..]| && Heard(told[1..][i], list, c).Some?
          ensures !Strikes(Heard(told[1..][i], list, c).value, q)
        {
          assert told[i + 1] == told[1..][i];
        }
      }
    }
  }

  /** Some record is about a service that strikes the question. */
  ghost predicate Struck(q: Query, told: seq<Told>, list: seq<Listing>, c: Config) {
    exists i :: 0 <= i < |told| && Heard(told[i], list, c).Some? && Strikes(Heard(told[i], list, c).value, q)
  }

  /** What the records note. */
  lemma {:induction false} HearRecords(p: Parsed, told: seq<Told>, probe: bool, list: seq<Listing>, c: Config, r: Known)
    ensures r in HearAll(p, told, probe, list, c).records <==> r in p.records || NotedIn(r, told, list, c)
    decreases |told|
  {
    hide Strike, Heard;
    if told != [] {
      var t := told[0];
      HearRecords(Hear(p, t, probe, list, c), told[1..], probe, list, c, r);
      if Heard(t, list, c).Some? { HeardTarget(t, list, c); }
      NotedSplit(r, told, list, c);
    }
  }

  lemma HeardTarget(t: Told, list: seq<Listing>, c: Config)
    requires Heard(t, list, c).Some?
    ensures t.target.Some? && Heard(t, list, c) == Resolve(t.target.value, list, c)
    ensures Ours(t.owner, list, c) && Ours(t.target.value, list, c)
  {
  }

  ghost predicate NotedIn(r: Known, told: seq<Told>, list: seq<Listing>, c: Config) {
    exists i :: 0 <= i < |told| && Heard(told[i], list, c).Some? && told[i].target.Some? && r == Noted(told[i].target.value, told[i].ttl)
  }

  lemma NotedSplit(r: Known, told: seq<Told>, list: seq<Listing>, c: Config)
    requires told != []
    ensures NotedIn(r, told, list, c) <==>
      (Heard(told[0], list, c).Some? && told[0].target.Some? && r == Noted(told[0].target.value, told[0].ttl))
      || NotedIn(r, told[1..], list, c)
  {
    hide Heard;
    assert forall i :: 0 < i < |told| ==> told[i] == told[1..][i - 1];
    if NotedIn(r, told[1..], list, c) {
      var i :| 0 <= i < |told[1..]| && Heard(told[1..][i], list, c).Some? && told[1..][i].target.Some?
        && r == Noted(told[1..][i].target.value, told[1..][i].ttl);
      assert told[i + 1] == told[1..][i];
    }
  }

  // ------------------------------------------------------ the whole reply

  /** For any query: the services whose PTR record is sent are exactly those that one of
      the questions left over asks for and no noted record covers. */
  lemma PacketSuppression(queries: seq<Query>, told: seq<Told>, list: seq<Listing>, c: Config, port: nat, id: nat)
    ensures var p := Left(queries, told, list, c);
      HasPtr(Respond(queries, told, list, c, port), id) <==> Wanted(id, p.questions, list, p.records, c)
  {
    hide Left, AnswerAll, Wanted, HasEntry;
    var p := Left(queries, told, list, c);
    SuppressionFromScratch(p.questions, list, p.records, c, Probing(queries), port);
    if p.questions == [] { NothingAsked(list, p.records, c, id); }
  }

  lemma NothingAsked(list: seq<Listing>, records: seq<Known>, c: Config, id: nat)
    ensures !Wanted(id, [], list, records, c) && !HasPtr(NOTHING, id)
  {
  }

  /** All entries of the reply to a query: those that a question left over asks for. */
  lemma RespondExact(queries: seq<Query>, told: seq<Told>, list: seq<Listing>, c: Config, port: nat)
    ensures var p := Left(queries, told, list, c); var r := Respond(queries, told, list, c, port); var probe := Probing(queries);
      && (forall t, s, h :: HasEntry(r.answers, t, s, h) <==> ReplyEntries.SomeAnswering(p.questions, list, p.records, c, probe, t, s, h))
      && (forall t, s, h :: HasEntry(r.additional, t, s, h) <==> ReplyEntries.SomeAdding(p.questions, list, p.records, c, probe, t, s, h))
  {
    hide Left, AnswerAll, ReplyEntries.SomeAnswering, ReplyEntries.SomeAdding;
    var p := Left(queries, told, list, c);
    ReplyEntries.NoneAnswering(list, p.records, c, Probing(queries));
    ReplyEntries.ReplyExact(p.questions, list, p.records, c, Probing(queries), port);
  }

  /** Registered services are different items, each with a type and a host name. */
  ghost predicate Registered(list: seq<Listing>) {
    && (forall i, j :: 0 <= i < j < |list| ==> list[i].id != list[j].id)
    && forall i :: 0 <= i < |list| ==> list[i].service != [] && list[i].proto != [] && list[i].hostname.Some?
  }

  predicate Asks(q: Query, l: Listing, c: Config) {
    AsksServices(q) && PtrMatch(l, q, c)
  }

  ghost predicate Asked(queries: seq<Query>, l: Listing, c: Config) {
    exists q :: q in queries && Asks(q, l, c)
  }

  /** The record tells the service: its owner is a name of the responder, its target the
      name under which the service is published. */
  predicate Publishes(t: Told, l: Listing, list: seq<Listing>, c: Config) {
    && Ours(t.owner, list, c) && t.target.Some?
    && var n := t.target.value; var name := InstanceName(l, c);
       && !n.sub && Same(n.domain, Names.LOCAL) && Same(l.service, n.service) && Same(l.proto, n.proto)
       && name.Some? && Same(name.value, n.host)
  }

  predicate FreshTold(t: Told) {
    2 * t.ttl >= PTR_TTL
  }

  ghost predicate CoveredBy(l: Listing, told: seq<Told>, list: seq<Listing>, c: Config) {
    exists i :: 0 <= i < |told| && FreshTold(told[i]) && Publishes(told[i], l, list, c)
  }

  ghost predicate NoneJustHalf(told: seq<Told>) {
    forall i :: 0 <= i < |told| ==> 2 * told[i].ttl != PTR_TTL
  }

  /** Section 7.1: the PTR record of each service is in the reply exactly if a question
      asks for it and no known answer covers it. */
  ghost predicate Agrees(queries: seq<Query>, told: seq<Told>, list: seq<Listing>, c: Config, port: nat) {
    forall l :: l in list ==>
      (HasPtr(Respond(queries, told, list, c, port), l.id) <==> Asked(queries, l, c) && !CoveredBy(l, told, list, c))
  }

  lemma WantedIs(l: Listing, queries: seq<Query>, list: seq<Listing>, records: seq<Known>, c: Config)
    requires Registered(list) && l in list
    ensures Wanted(l.id, queries, list, records, c) <==> Asked(queries, l, c) && !KnownAnswer(l, records, c)
  {
    hide AsksServices, PtrMatch, KnownAnswer;
    var k :| 0 <= k < |list| && list[k] == l;
    if Wanted(l.id, queries, list, records, c) {
      var i, j :| 0 <= i < |queries| && 0 <= j < |list| && list[j].id == l.id
        && AsksServices(queries[i]) && PtrMatch(list[j], queries[i], c) && !KnownAnswer(list[j], records, c);
      assert j == k;
      assert Asks(queries[i], l, c) && queries[i] in queries;
    }
    if Asked(queries, l, c) && !KnownAnswer(l, records, c) {
      var q :| q in queries && Asks(q, l, c);
      var i :| 0 <= i < |queries| && queries[i] == q;
      assert AsksServices(queries[i]) && PtrMatch(list[k], queries[i], c);
    }
  }

  lemma Replied(queries: seq<Query>, told: seq<Told>, list: seq<Listing>, c: Config, port: nat, l: Listing)
    requires Registered(list) && l in list
    ensures var p := Left(queries, told, list, c);
      HasPtr(Respond(queries, told, list, c, port), l.id) <==> Asked(p.questions, l, c) && !KnownAnswer(l, p.records, c)
  {
    hide Left, Respond, Wanted, HasEntry, KnownAnswer, Asked, Registered;
    var p := Left(queries, told, list, c);
    PacketSuppression(queries, told, list, c, port, l.id);
    WantedIs(l, p.questions, list, p.records, c);
  }

  // --------------------------------------------- services with their own name

  lemma {:induction false} FoundIn(list: seq<Listing>, q: Query, c: Config)
    ensures FindService(list, q, c).Some? ==>
      var l := FindService(list, q, c).value;
      l in list && if q.host.Some? then InstanceMatch(l, q.host, q.service, q.proto, c) else ServiceMatch(l, q.service, q.proto)
    ensures FindService(list, q, c).None? ==>
      forall l :: l in list ==> !(if q.host.Some? then InstanceMatch(l, q.host, q.service, q.proto, c) else ServiceMatch(l, q.service, q.proto))
    decreases |list|
  {
    hide InstanceMatch, ServiceMatch;
    if list != [] {
      assert list == [list[0]] + list[1..];
      FoundIn(list[1..], q, c);
    }
  }

  /** A name of a service as it is published, or of its type. */
  function FullOf(host: Str, l: Listing): Names.FullName {
    Names.FullName(host, l.service, l.proto, Names.LOCAL, 4, false, false)
  }

  /** The target of a record that publishes a service with a name of its own is one of the
      responder's names, and is taken to be about a service of that name. */
  lemma PublishedIsHeard(t: Told, l: Listing, list: seq<Listing>, c: Config)
    requires Registered(list) && l in list && OwnName(l) && Publishes(t, l, list, c)
    ensures Heard(t, list, c).Some?
  {
    var n := t.target.value;
    var q := Query(PTR, false, false, Filled(n.host), Some(n.service), Some(n.proto));
    assert n.host != [] && n.service != [] && n.proto != [];
    FoundIn(list, q, c);
    assert InstanceMatch(l, q.host, q.service, q.proto, c);
    var s := FindService(list, q, c).value;
    SameBack(s, n.host, c);
  }

  lemma SameBack(s: Listing, host: Str, c: Config)
    requires host != [] && OrDefault(s.instance, c).Some? && Same(OrDefault(s.instance, c).value, host)
    ensures InstanceName(s, c).Some? && Same(host, InstanceName(s, c).value)
  {
  }

  /** For such a service the noted records that count are those that publish it and have
      more than half their time left. */
  lemma HeardTells(t: Told, l: Listing, list: seq<Listing>, c: Config)
    requires Registered(list) && l in list && OwnName(l) && t.target.Some?
    ensures Heard(t, list, c).Some? && Tells(Noted(t.target.value, t.ttl), l, c)
      <==> Publishes(t, l, list, c) && t.ttl > PTR_TTL / 2
  {
    hide Resolve, Registered;
    var n := t.target.value;
    if Publishes(t, l, list, c) { PublishedIsHeard(t, l, list, c); }
    if Heard(t, list, c).Some? { HeardTarget(t, list, c); }
    assert l.service != [] && l.proto != [] by { RegisteredType(list, l); }
    assert Same(l.service, n.service) ==> n.service != [] by { SameLength(l.service, n.service); }
    assert Same(l.proto, n.proto) ==> n.proto != [] by { SameLength(l.proto, n.proto); }
    assert Same(InstanceName(l, c).value, n.host) ==> n.host != [] by { SameLength(InstanceName(l, c).value, n.host); }
    assert Heard(t, list, c).Some? ==> Tells(Noted(n, t.ttl), l, c) ==> n.service != [] && n.proto != [] && n.host != [];
  }

  lemma RegisteredType(list: seq<Listing>, l: Listing)
    requires Registered(list) && l in list
    ensures l.service != [] && l.proto != [] && l.hostname.Some?
  {
  }

  lemma SameLength(a: Str, b: Str)
    ensures Same(a, b) ==> |a| == |b|
  {
  }

  /** Suppression in the loop is coverage, for a service with a name of its own. */
  lemma OwnNameKnown(l: Listing, queries: seq<Query>, told: seq<Told>, list: seq<Listing>, c: Config)
    requires Registered(list) && l in list && OwnName(l) && NoneJustHalf(told)
    ensures KnownAnswer(l, Left(queries, told, list, c).records, c) <==> CoveredBy(l, told, list, c)
  {
    hide Left, Heard, Tells, Publishes, Registered;
    var records := Left(queries, told, list, c).records;
    forall i | 0 <= i < |told| && told[i].target.Some?
      ensures Heard(told[i], list, c).Some? && Tells(Noted(told[i].target.value, told[i].ttl), l, c)
        <==> Publishes(told[i], l, list, c) && FreshTold(told[i])
    {
      HeardTells(told[i], l, list, c);
    }
    if KnownAnswer(l, records, c) {
      var j :| 0 <= j < |records| && Tells(records[j], l, c);
      LeftRecords(queries, told, list, c, records[j]);
      assert records[j] in records;
    }
    if CoveredBy(l, told, list, c) {
      var i :| 0 <= i < |told| && FreshTold(told[i]) && Publishes(told[i], l, list, c);
      assert told[i].target.Some? by { HasTarget(told[i], l, list, c); }
      var r := Noted(told[i].target.value, told[i].ttl);
      LeftRecords(queries, told, list, c, r);
      assert NotedIn(r, told, list, c) && Tells(r, l, c);
      var j :| 0 <= j < |records| && records[j] == r;
    }
  }

  lemma HasTarget(t: Told, l: Listing, list: seq<Listing>, c: Config)
    requires Publishes(t, l, list, c)
    ensures t.target.Some?
  {
  }

  lemma LeftRecords(queries: seq<Query>, told: seq<Told>, list: seq<Listing>, c: Config, r: Known)
    ensures r in Left(queries, told, list, c).records <==> NotedIn(r, told, list, c)
  {
    hide HearAll;
    HearRecords(Parsed(queries, []), told, Probing(queries), list, c, r);
  }

  // ------------------------------------------------------- questions at risk

  /** Some name can make a record take the question out. */
  ghost predicate Strikeable(q: Query, list: seq<Listing>, c: Config) {
    exists n: Names.FullName :: CanStrike(n, q, list, c)
  }

  predicate CanStrike(n: Names.FullName, q: Query, list: seq<Listing>, c: Config) {
    Ours(n, list, c) && Resolve(n, list, c).Some? && Strikes(Resolve(n, list, c).value, q)
  }

  lemma StruckCan(q: Query, told: seq<Told>, list: seq<Listing>, c: Config)
    requires Struck(q, told, list, c)
    ensures Strikeable(q, list, c)
  {
    hide Heard, Ours, Resolve, Strikes;
    var i :| 0 <= i < |told| && Heard(told[i], list, c).Some? && Strikes(Heard(told[i], list, c).value, q);
    HeardTarget(told[i], list, c);
    assert CanStrike(told[i].target.value, q, list, c);
  }

  /** A record that is old, owned by the name it points to. */
  function Stale(n: Names.FullName): Told {
    Told(n, Some(n), 0)
  }

  function Copies(n: Names.FullName, m: nat): seq<Told> {
    if m == 0 then [] else [Stale(n)] + Copies(n, m - 1)
  }

  /** Enough copies leave no question that they strike. */
  lemma {:induction false} CopiesStrike(p: Parsed, n: Names.FullName, m: nat, list: seq<Listing>, c: Config, q: Query)
    requires CanStrike(n, q, list, c) && |p.questions| <= m
    ensures q !in HearAll(p, Copies(n, m), false, list, c).questions
    decreases m
  {
    hide Ours, Resolve, Strike, Strikes;
    if m > 0 {
      var t := Stale(n);
      var rest := Copies(n, m - 1);
      assert Copies(n, m)[0] == t && Copies(n, m)[1..] == rest;
      var l := Resolve(n, list, c).value;
      assert Heard(t, list, c) == Some(l);
      StrikeLess(p.questions, l);
      var p' := Hear(p, t, false, list, c);
      if p.questions == [] || p'.questions == p.questions {
        HearQuestions(p, Copies(n, m), false, list, c);
      } else {
        CopiesStrike(p', n, m - 1, list, c, q);
      }
    }
  }

  lemma {:induction false} HearMore(p: Parsed, a: seq<Told>, b: seq<Told>, probe: bool, list: seq<Listing>, c: Config)
    ensures HearAll(p, a + b, probe, list, c) == HearAll(HearAll(p, a, probe, list, c), b, probe, list, c)
    decreases |a|
  {
    hide Hear;
    if a == [] {
      assert a + b == b;
    } else {
      assert (a + b)[0] == a[0] && (a + b)[1..] == a[1..] + b;
      HearMore(Hear(p, a[0], probe, list, c), a[1..], b, probe, list, c);
    }
  }

  ghost predicate AllStale(told: seq<Told>) {
    forall i :: 0 <= i < |told| ==> told[i].ttl == 0
  }

  lemma {:induction false} CopiesStale(n: Names.FullName, m: nat)
    ensures AllStale(Copies(n, m))
  {
    if m > 0 { CopiesStale(n, m - 1); }
  }

  /** Old records that leave none of the questions `some`, all of which can be struck. */
  lemma {:induction false} StrikeAll(some: seq<Query>, m: nat, list: seq<Listing>, c: Config) returns (told: seq<Told>)
    requires forall q :: q in some ==> Strikeable(q, list, c)
    ensures AllStale(told)
    ensures forall p: Parsed, q :: |p.questions| <= m && q in some ==> q !in HearAll(p, told, false, list, c).questions
    decreases |some|
  {
    hide CanStrike, HearAll;
    told := [];
    if some != [] {
      assert some == [some[0]] + some[1..] && some[0] in some;
      var n: Names.FullName :| CanStrike(n, some[0], list, c);
      var rest := StrikeAll(some[1..], m, list, c);
      told := Copies(n, m) + rest;
      CopiesStale(n, m);
      forall p: Parsed, q | |p.questions| <= m && q in some ensures q !in HearAll(p, told, false, list, c).questions {
        HearMore(p, Copies(n, m), rest, false, list, c);
        var p1 := HearAll(p, Copies(n, m), false, list, c);
        HearQuestions(p, Copies(n, m), false, list, c);
        HearQuestions(p1, rest, false, list, c);
        if q == some[0] { CopiesStrike(p, n, m, list, c, q); }
      }
    }
  }

  // ------------------------------------------------------------ the condition

  /** No known answer can keep the service out that does not cover it. */
  ghost predicate Safe(l: Listing, queries: seq<Query>, list: seq<Listing>, c: Config) {
    OwnName(l) && (Probing(queries) || exists q :: q in queries && Asks(q, l, c) && !Strikeable(q, list, c))
  }

  lemma SafeAgrees(l: Listing, queries: seq<Query>, told: seq<Told>, list: seq<Listing>, c: Config, port: nat)
    requires Registered(list) && l in list && NoneJustHalf(told)
    requires Asked(queries, l, c) ==> Safe(l, queries, list, c)
    ensures HasPtr(Respond(queries, told, list, c, port), l.id) <==> Asked(queries, l, c) && !CoveredBy(l, told, list, c)
  {
    hide HearAll, Respond, HasEntry, KnownAnswer, Strikes, Asks, Struck, Strikeable, CoveredBy, Registered, NoneJustHalf;
    Replied(queries, told, list, c, port, l);
    HearQuestions(Parsed(queries, []), told, Probing(queries), list, c);
    var left := Left(queries, told, list, c).questions;
    if Asked(left, l, c) {
      var q :| q in left && Asks(q, l, c);
      assert q in queries;
    }
    if Asked(queries, l, c) {
      OwnNameKnown(l, queries, told, list, c);
      if !Probing(queries) {
        var q :| q in queries && Asks(q, l, c) && !Strikeable(q, list, c);
        if Struck(q, told, list, c) { StruckCan(q, told, list, c); }
        assert q in left;
      }
    }
  }

  /** A known answer for the default name under which the service is published. */
  function DefaultTold(l: Listing, c: Config, ttl: nat): Told
    requires DefaultName(c).Some?
  {
    Told(FullOf([], l), Some(FullOf(DefaultName(c).value, l)), ttl)
  }

  lemma DefaultCovers(l: Listing, list: seq<Listing>, c: Config, ttl: nat)
    requires Registered(list) && l in list && !OwnName(l) && DefaultName(c).Some?
    ensures Publishes(DefaultTold(l, c, ttl), l, list, c)
  {
    hide InstanceMatch, FindService;
    RegisteredType(list, l);
    FoundIn(list, Query(PTR, false, false, None, Some(l.service), Some(l.proto)), c);
    SelfSame(l.service);
    SelfSame(l.proto);
    SelfSame(DefaultName(c).value);
    SelfSame(Names.LOCAL);
    assert ServiceMatch(l, Some(l.service), Some(l.proto));
    assert Ours(FullOf([], l), list, c);
  }

  /** It does not count for a service without a name of its own. */
  lemma DefaultUncounted(l: Listing, r: Known, c: Config)
    requires !OwnName(l) && r.host.Some? && r.host.value != []
    ensures !Tells(r, l, c)
  {
    if l.instance.Some? { SameLength(l.instance.value, r.host.value); }
  }

  /** With it the reply parts from section 7.1, at a full TTL or at a TTL of zero: the
      question goes, or stays, alike. */
  lemma DefaultParts(l: Listing, queries: seq<Query>, list: seq<Listing>, c: Config, port: nat) returns (told: seq<Told>)
    requires Registered(list) && l in list && !OwnName(l) && DefaultName(c).Some? && Asked(queries, l, c)
    ensures NoneJustHalf(told) && !Agrees(queries, told, list, c, port)
  {
    hide Respond, HasEntry, Asked, Publishes, Ours, Resolve, Registered, HearAll, Strike;
    var whole, stale := [DefaultTold(l, c, PTR_TTL)], [DefaultTold(l, c, 0)];
    DefaultCovers(l, list, c, PTR_TTL);
    assert CoveredBy(l, whole, list, c) by { assert FreshTold(whole[0]) && Publishes(whole[0], l, list, c); }
    assert !CoveredBy(l, stale, list, c);
    Replied(queries, whole, list, c, port, l);
    Replied(queries, stale, list, c, port, l);
    DefaultLeft(l, queries, list, c, PTR_TTL);
    DefaultLeft(l, queries, list, c, 0);
    told := if HasPtr(Respond(queries, whole, list, c, port), l.id) then whole else stale;
  }

  /** What is left does not depend on the TTL, and nothing noted counts. */
  lemma DefaultLeft(l: Listing, queries: seq<Query>, list: seq<Listing>, c: Config, ttl: nat)
    requires !OwnName(l) && DefaultName(c).Some?
    ensures var p := Left(queries, [DefaultTold(l, c, ttl)], list, c);
      && p.questions == Left(queries, [DefaultTold(l, c, 0)], list, c).questions
      && !KnownAnswer(l, p.records, c)
  {
    hide Ours, Resolve, Strike, Tells;
    var t, u := DefaultTold(l, c, ttl), DefaultTold(l, c, 0);
    var p := Parsed(queries, []);
    assert [t][1..] == [] && [u][1..] == [];
    assert Left(queries, [t], list, c) == Hear(p, t, Probing(queries), list, c) by { assert HearAll(Hear(p, t, Probing(queries), list, c), [], Probing(queries), list, c) == Hear(p, t, Probing(queries), list, c); }
    assert Left(queries, [u], list, c) == Hear(p, u, Probing(queries), list, c) by { assert HearAll(Hear(p, u, Probing(queries), list, c), [], Probing(queries), list, c) == Hear(p, u, Probing(queries), list, c); }
    assert Heard(t, list, c) == Heard(u, list, c);
    DefaultUncounted(l, Noted(t.target.value, ttl), c);
  }

  function Asking(queries: seq<Query>, l: Listing, c: Config): seq<Query> {
    if queries == [] then [] else (if Asks(queries[0], l, c) then [queries[0]] else []) + Asking(queries[1..], l, c)
  }

  lemma {:induction false} AskingIs(queries: seq<Query>, l: Listing, c: Config)
    ensures forall q :: q in Asking(queries, l, c) <==> q in queries && Asks(q, l, c)
  {
    hide Asks;
    if queries != [] {
      assert queries == [queries[0]] + queries[1..];
      AskingIs(queries[1..], l, c);
    }
  }

  lemma StaleCovers(l: Listing, told: seq<Told>, list: seq<Listing>, c: Config)
    requires AllStale(told)
    ensures NoneJustHalf(told) && !CoveredBy(l, told, list, c)
  {
  }

  /** If every question that asks for the service can be struck, old records strike them. */
  lemma StaleParts(l: Listing, queries: seq<Query>, list: seq<Listing>, c: Config, port: nat) returns (told: seq<Told>)
    requires Registered(list) && l in list && Asked(queries, l, c) && !Probing(queries)
    requires forall q :: q in queries && Asks(q, l, c) ==> Strikeable(q, list, c)
    ensures NoneJustHalf(told) && !Agrees(queries, told, list, c, port)
  {
    hide Respond, HasEntry, Asks, Strikeable, Registered, HearAll, KnownAnswer, CoveredBy, AllStale;
    AskingIs(queries, l, c);
    told := StrikeAll(Asking(queries, l, c), |queries|, list, c);
    StaleCovers(l, told, list, c);
    Replied(queries, told, list, c, port, l);
    HearQuestions(Parsed(queries, []), told, false, list, c);
    var left := Left(queries, told, list, c).questions;
    forall q | q in left ensures !Asks(q, l, c) {
      assert Asks(q, l, c) ==> q in Asking(queries, l, c);
    }
  }

  /** The reply to a query agrees with section 7.1 of RFC 6762 whatever known answers come
      with it (apart from those at exactly half their time), if and only if every service
      that is asked for has an instance name of its own and, unless the query is a probe,
      is asked for by a question that no known answer can take out. */
  lemma AlwaysAgrees(queries: seq<Query>, list: seq<Listing>, c: Config, port: nat)
    requires Registered(list) && c.hostname != []
    ensures (forall told: seq<Told> :: NoneJustHalf(told) ==> Agrees(queries, told, list, c, port))
      <==> forall l :: l in list && Asked(queries, l, c) ==> Safe(l, queries, list, c)
  {
    hide Asked, Safe, Registered, NoneJustHalf, Respond, CoveredBy, HasEntry;
    if forall l :: l in list && Asked(queries, l, c) ==> Safe(l, queries, list, c) {
      forall told: seq<Told> | NoneJustHalf(told) ensures Agrees(queries, told, list, c, port) {
        forall l | l in list
          ensures HasPtr(Respond(queries, told, list, c, port), l.id) <==> Asked(queries, l, c) && !CoveredBy(l, told, list, c)
        {
          SafeAgrees(l, queries, told, list, c, port);
        }
      }
    } else {
      var l :| l in list && Asked(queries, l, c) && !Safe(l, queries, list, c);
      var told := UnsafeParts(l, queries, list, c, port);
    }
  }

  lemma UnsafeParts(l: Listing, queries: seq<Query>, list: seq<Listing>, c: Config, port: nat) returns (told: seq<Told>)
    requires Registered(list) && c.hostname != [] && l in list && Asked(queries, l, c) && !Safe(l, queries, list, c)
    ensures NoneJustHalf(told) && !Agrees(queries, told, list, c, port)
  {
    hide Asks, Strikeable, Registered, NoneJustHalf, Agrees, CoveredBy;
    if !OwnName(l) {
      told := DefaultParts(l, queries, list, c, port);
    } else {
      told := StaleParts(l, queries, list, c, port);
    }
  }

  // ----------------------------------------------- one question for a type

  /** The usual query: which instances of the type are there? */
  predicate TypeQuestion(q: Query) {
    q.qtype == PTR && q.service.Some? && q.proto.Some? && q.host.None? && !q.sub
  }

  lemma TypeAsks(q: Query, l: Listing, list: seq<Listing>, c: Config)
    requires TypeQuestion(q) && Registered(list) && l in list
    ensures Asks(q, l, c) <==> Same(l.service, q.service.value) && Same(l.proto, q.proto.value)
    ensures Strikes(l, q) <==> Asks(q, l, c) && l.instance.None?
  {
    RegisteredType(list, l);
  }

  /** For it the reply is always right exactly if every service of the type was registered
      with an instance name. */
  lemma TypeAlwaysAgrees(q: Query, list: seq<Listing>, c: Config, port: nat)
    requires TypeQuestion(q) && Registered(list) && c.hostname != []
    ensures (forall told: seq<Told> :: NoneJustHalf(told) ==> Agrees([q], told, list, c, port))
      <==> forall l :: l in list && Same(l.service, q.service.value) && Same(l.proto, q.proto.value) ==> OwnName(l)
  {
    hide Agrees, NoneJustHalf, Registered, Asks, Strikes, Strikeable, OwnName;
    AlwaysAgrees([q], list, c, port);
    forall l | l in list
      ensures Asked([q], l, c) <==> Same(l.service, q.service.value) && Same(l.proto, q.proto.value)
    {
      TypeAsks(q, l, list, c);
      assert q in [q];
    }
    if forall l :: l in list && Asked([q], l, c) ==> OwnName(l) {
      assert !Strikeable(q, list, c) by { NamedUnstruck(q, list, c); }
      forall l | l in list && Asked([q], l, c) ensures Safe(l, [q], list, c) {
        assert q in [q] && Asks(q, l, c);
      }
    }
    assert forall l :: Safe(l, [q], list, c) ==> OwnName(l);
  }

  lemma NamedUnstruck(q: Query, list: seq<Listing>, c: Config)
    requires TypeQuestion(q) && Registered(list) && forall l :: l in list && Asked([q], l, c) ==> OwnName(l)
    ensures !Strikeable(q, list, c)
  {
    hide Ours, Registered, InstanceMatch, ServiceMatch;
    forall n: Names.FullName ensures !CanStrike(n, q, list, c) {
      FoundIn(list, Query(PTR, false, false, Filled(n.host), Some(n.service), Some(n.proto)), c);
      if Resolve(n, list, c).Some? {
        var l := Resolve(n, list, c).value;
        TypeAsks(q, l, list, c);
        assert q in [q];
        assert Asks(q, l, c) ==> Asked([q], l, c);
      }
    }
  }

  /** The one question is taken out exactly if some record is about a service of the type
      that was registered without an instance. */
  lemma TypeStruck(q: Query, told: seq<Told>, list: seq<Listing>, c: Config)
    requires TypeQuestion(q)
    ensures Left([q], told, list, c).questions == if Struck(q, told, list, c) then [] else [q]
  {
    hide Strikes;
    assert [q][0] == q && !Probing([q]);
    OneLeft(q, told, list, c, []);
  }

  lemma {:induction false} OneLeft(q: Query, told: seq<Told>, list: seq<Listing>, c: Config, records: seq<Known>)
    ensures HearAll(Parsed([q], records), told, false, list, c).questions == if Struck(q, told, list, c) then [] else [q]
    decreases |told|
  {
    hide Strikes, Heard;
    if told != [] {
      var t := told[0];
      assert [q][1..] == [] && forall i :: 0 < i < |told| ==> told[i] == told[1..][i - 1];
      var p := Hear(Parsed([q], records), t, false, list, c);
      if Heard(t, list, c).Some? && Strikes(Heard(t, list, c).value, q) {
        assert p.questions == [];
        HearQuestions(p, told[1..], false, list, c);
      } else {
        assert p.questions == [q] by { if Heard(t, list, c).Some? { assert Strike([q], Heard(t, list, c).value) == [q] + Strike([], Heard(t, list, c).value); } }
        OneLeft(q, told[1..], list, c, p.records);
        StruckSplit(q, told, list, c);
      }
    }
  }

  lemma StruckSplit(q: Query, told: seq<Told>, list: seq<Listing>, c: Config)
    requires told != []
    ensures Struck(q, told, list, c) <==>
      (Heard(told[0], list, c).Some? && Strikes(Heard(told[0], list, c).value, q)) || Struck(q, told[1..], list, c)
  {
    hide Strikes, Heard;
    if Struck(q, told, list, c) {
      var i :| 0 <= i < |told| && Heard(told[i], list, c).Some? && Strikes(Heard(told[i], list, c).value, q);
      if i > 0 { assert told[1..][i - 1] == told[i]; }
    }
    if Struck(q, told[1..], list, c) {
      var i :| 0 <= i < |told[1..]| && Heard(told[1..][i], list, c).Some? && Strikes(Heard(told[1..][i], list, c).value, q);
      assert told[i + 1] == told[1..][i];
    }
  }

  /** A record for the bare type. */
  ghost predicate TypeTold(l: Listing, told: seq<Told>, list: seq<Listing>, c: Config) {
    exists i :: 0 <= i < |told| && FreshTold(told[i]) && Heard(told[i], list, c).Some? && told[i].target.Some?
      && told[i].target.value.host == [] && Same(l.service, told[i].target.value.service) && Same(l.proto, told[i].target.value.proto)
  }

  /** One packet with that question: the reply agrees with section 7.1 exactly if, when the
      question is taken out, every service of the type is covered, and when it is not, no
      service without an instance name of its own is covered, but by a record for the bare
      type as well, which suppresses the services registered without an instance. */
  lemma TypeAgrees(q: Query, told: seq<Told>, list: seq<Listing>, c: Config, port: nat)
    requires TypeQuestion(q) && Registered(list) && NoneJustHalf(told)
    ensures Agrees([q], told, list, c, port)
      <==> forall l :: l in list && Asked([q], l, c) ==>
             if Struck(q, told, list, c) then CoveredBy(l, told, list, c)
             else OwnName(l) || (CoveredBy(l, told, list, c) <==> l.instance.None? && TypeTold(l, told, list, c))
  {
    hide Respond, HasEntry, Asked, Registered, NoneJustHalf, Struck, CoveredBy, TypeTold, OwnName;
    TypeStruck(q, told, list, c);
    forall l | l in list
      ensures (HasPtr(Respond([q], told, list, c, port), l.id) <==> Asked([q], l, c) && !CoveredBy(l, told, list, c))
        <==> (Asked([q], l, c) ==>
                if Struck(q, told, list, c) then CoveredBy(l, told, list, c)
                else OwnName(l) || (CoveredBy(l, told, list, c) <==> l.instance.None? && TypeTold(l, told, list, c)))
    {
      TypeReplied(q, told, list, c, port, l);
    }
  }

  lemma TypeReplied(q: Query, told: seq<Told>, list: seq<Listing>, c: Config, port: nat, l: Listing)
    requires TypeQuestion(q) && Registered(list) && NoneJustHalf(told) && l in list
    ensures HasPtr(Respond([q], told, list, c, port), l.id) <==>
      Asked([q], l, c) && !Struck(q, told, list, c)
      && !(if OwnName(l) then CoveredBy(l, told, list, c) else l.instance.None? && TypeTold(l, told, list, c))
  {
    hide Left, Respond, HasEntry, Registered, NoneJustHalf, Struck, CoveredBy, TypeTold, OwnName, KnownAnswer;
    Replied([q], told, list, c, port, l);
    TypeStruck(q, told, list, c);
    if OwnName(l) {
      OwnNameKnown(l, [q], told, list, c);
    } else {
      UnnamedKnown(l, [q], told, list, c);
    }
    assert !Asked([], l, c);
  }

  /** For a service without a name of its own only records for the bare type count. */
  lemma UnnamedKnown(l: Listing, queries: seq<Query>, told: seq<Told>, list: seq<Listing>, c: Config)
    requires Registered(list) && l in list && !OwnName(l) && NoneJustHalf(told)
    ensures KnownAnswer(l, Left(queries, told, list, c).records, c) <==> l.instance.None? && TypeTold(l, told, list, c)
  {
    hide Left, Heard, Tells, Registered;
    var records := Left(queries, told, list, c).records;
    RegisteredType(list, l);
    forall i | 0 <= i < |told| && told[i].target.Some?
      ensures Tells(Noted(told[i].target.value, told[i].ttl), l, c) <==>
        FreshTold(told[i]) && l.instance.None? && told[i].target.value.host == []
        && Same(l.service, told[i].target.value.service) && Same(l.proto, told[i].target.value.proto)
    {
      UnnamedTells(told[i].target.value, told[i].ttl, l, c);
    }
    if KnownAnswer(l, records, c) {
      var j :| 0 <= j < |records| && Tells(records[j], l, c);
      LeftRecords(queries, told, list, c, records[j]);
      assert records[j] in records;
    }
    if l.instance.None? && TypeTold(l, told, list, c) {
      var i :| 0 <= i < |told| && FreshTold(told[i]) && Heard(told[i], list, c).Some? && told[i].target.Some?
        && told[i].target.value.host == [] && Same(l.service, told[i].target.value.service) && Same(l.proto, told[i].target.value.proto);
      var r := Noted(told[i].target.value, told[i].ttl);
      LeftRecords(queries, told, list, c, r);
      assert NotedIn(r, told, list, c) && Tells(r, l, c);
      var j :| 0 <= j < |records| && records[j] == r;
    }
  }

  lemma UnnamedTells(n: Names.FullName, ttl: nat, l: Listing, c: Config)
    requires !OwnName(l) && 2 * ttl != PTR_TTL && l.service != [] && l.proto != [] && l.hostname.Some?
    ensures Tells(Noted(n, ttl), l, c) <==>
      2 * ttl >= PTR_TTL && l.instance.None? && n.host == [] && Same(l.service, n.service) && Same(l.proto, n.proto)
  {
    SameLength(l.service, n.service);
    SameLength(l.proto, n.proto);
    if n.host != [] { DefaultUncounted(l, Noted(n, ttl), c); }
  }

  // -------------------------------------------------------------- an input

  const HTTP: Str := [95, 104, 116, 116, 112]
  const TCP: Str := [95, 116, 99, 112]

  /** Host `a` has an `_http._tcp` service without an instance and one called `b`. A query
      for the type comes with one known answer, the default instance `a`, with one second
      left: no service is in the reply, though the record covers none. */
  lemma OneAnswerSilences(port: nat)
    ensures var c := Config([], [97], []);
      var list := [Listing(1, None, HTTP, TCP, Some([97]), [], Some(0)), Listing(2, Some([98]), HTTP, TCP, Some([97]), [], Some(0))];
      var q := Query(PTR, false, false, None, Some(HTTP), Some(TCP)); var told := [DefaultTold(list[0], c, 1)];
      && Registered(list) && TypeQuestion(q)
      && Respond([q], told, list, c, port) == NOTHING
      && (forall l :: l in list ==> Asked([q], l, c) && !CoveredBy(l, told, list, c))
      && !Agrees([q], told, list, c, port)
  {
    var c := Config([], [97], []);
    var a, b := Listing(1, None, HTTP, TCP, Some([97]), [], Some(0)), Listing(2, Some([98]), HTTP, TCP, Some([97]), [], Some(0));
    var list := [a, b];
    var q := Query(PTR, false, false, None, Some(HTTP), Some(TCP));
    var told := [DefaultTold(a, c, 1)];
    SilencedBy(q, a, list, c);
    TypeStruck(q, told, list, c);
    forall l | l in list ensures Asked([q], l, c) {
      TypeAsks(q, l, list, c);
      SelfSame(HTTP);
      SelfSame(TCP);
      assert q in [q] && Asks(q, l, c);
    }
    TypeReplied(q, told, list, c, port, b);
    assert b in list && list[1] == b;
  }

  /** If the first service was registered without an instance, the record for the default
      name takes the question for its type out. */
  lemma SilencedBy(q: Query, l: Listing, list: seq<Listing>, c: Config)
    requires TypeQuestion(q) && Registered(list) && list != [] && l == list[0] && l.instance.None? && DefaultName(c).Some?
    requires Same(l.service, q.service.value) && Same(l.proto, q.proto.value)
    ensures Struck(q, [DefaultTold(l, c, 1)], list, c)
  {
    hide Names.SameFold;
    var t := DefaultTold(l, c, 1);
    SelfSame(l.service);
    SelfSame(l.proto);
    SelfSame(DefaultName(c).value);
    SelfSame(Names.LOCAL);
    RegisteredType(list, l);
    assert Resolve(FullOf([], l), list, c) == Some(l);
    assert Resolve(FullOf(DefaultName(c).value, l), list, c) == Some(l);
    assert Heard(t, list, c) == Some(l);
    assert [t][0] == t;
  }
}
