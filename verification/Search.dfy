/** Results of a one-shot search, collected from received records. */
module Search {
  import opened Options
  import opened Packets
  import Names

  type Str = seq<Names.byte>

  predicate Same(a: Str, b: Str) {
    Names.SameFold(a, b)
  }

  datatype Address = Address(protocol: Protocol, bytes: seq<Names.byte>)

  /** One result: the interface and protocol it came by, and what is known so far. */
  datatype Result = Result(key: Key, instance: Option<Str>, hostname: Option<Str>, port: nat, txt: Option<nat>,
                           addresses: seq<Address>, ttl: nat)

  /** A search; the newest result comes first and the counter is one byte. */
  datatype Search = Search(qtype: RecordType, instance: Option<Str>, maxResults: nat, numResults: nat, results: seq<Result>)

  // ------------------------------------------------------------ the pieces

  predicate Full(s: Search) {
    s.maxResults != 0 && s.numResults >= s.maxResults
  }

  /** A new result in front, unless the search is full. */
  function Push(s: Search, r: Result): Search {
    if Full(s) then s else s.(results := [r] + s.results, numResults := (s.numResults + 1) % 256)
  }

  function AddAddress(list: seq<Address>, a: Address): seq<Address> {
    if a in list then list else [a] + list
  }

  /** _mdns_result_add_ip and _mdns_result_update_ttl */
  function WithAddress(r: Result, a: Address, ttl: nat): Result {
    r.(addresses := AddAddress(r.addresses, a), ttl := if r.ttl < ttl then r.ttl else ttl)
  }

  function Shorten(r: Result, ttl: nat): Result {
    r.(ttl := if r.ttl < ttl then r.ttl else ttl)
  }

  predicate OnHost(r: Result, key: Key, hostname: Str) {
    r.key == key && r.hostname.Some? && |r.hostname.value| > 0 && Same(hostname, r.hostname.value)
  }

  predicate OfInstance(r: Result, key: Key, instance: Str) {
    r.key == key && r.instance.Some? && |r.instance.value| > 0 && Same(instance, r.instance.value)
  }

  predicate ExactInstance(r: Result, key: Key, instance: Str) {
    r.key == key && r.instance == Some(instance)
  }

  /** The first result that satisfies the test, or the number of results. */
  function First(results: seq<Result>, test: Result -> bool): (i: nat)
    ensures i <= |results| && (i < |results| ==> test(results[i]))
    ensures forall k :: 0 <= k < i ==> !test(results[k])
  {
    if results == [] || test(results[0]) then 0 else 1 + First(results[1..], test)
  }

  // --------------------------------------------------------- the operations

  /** _mdns_search_result_add_ip */
  function AddIp(s: Search, hostname: Str, a: Address, key: Key, ttl: nat): Search {
    if (s.qtype == A && a.protocol == V4) || (s.qtype == AAAA && a.protocol == V6) || s.qtype == ANY then
      var i := First(s.results, (r: Result) => r.key == key);
      if i < |s.results| then s.(results := s.results[i := WithAddress(s.results[i], a, ttl)])
      else Push(s, Result(key, None, Some(hostname), 0, None, [a], ttl))
    else if s.qtype == PTR || s.qtype == SRV then
      var i := First(s.results, (r: Result) => OnHost(r, key, hostname));
      if i < |s.results| then s.(results := s.results[i := WithAddress(s.results[i], a, ttl)]) else s
    else s
  }

  /** _mdns_search_result_add_ptr */
  function AddPtr(s: Search, instance: Str, key: Key, ttl: nat): Search {
    var i := First(s.results, (r: Result) => OfInstance(r, key, instance));
    if i < |s.results| then s.(results := s.results[i := Shorten(s.results[i], ttl)])
    else Push(s, Result(key, Some(instance), None, 0, None, [], ttl))
  }

  /** The result _mdns_search_result_add_ptr returns, None for NULL. */
  function PtrResult(s: Search, instance: Str, key: Key): Option<nat> {
    var i := First(s.results, (r: Result) => OfInstance(r, key, instance));
    if i < |s.results| then Some(i) else if Full(s) then None else Some(0)
  }

  /** _mdns_search_result_add_srv */
  function AddSrv(s: Search, hostname: Str, port: nat, key: Key, ttl: nat): Search {
    var i := First(s.results, (r: Result) => OnHost(r, key, hostname));
    if i < |s.results| then s.(results := s.results[i := Shorten(s.results[i], ttl)])
    else Push(s, Result(key, s.instance, Some(hostname), port, None, [], ttl))
  }

  /** _mdns_search_result_add_txt; `txt` names the parsed items. */
  function AddTxt(s: Search, txt: nat, key: Key, ttl: nat): Search {
    var i := First(s.results, (r: Result) => r.key == key);
    if i < |s.results| then
      if s.results[i].txt.Some? then s
      else s.(results := s.results[i := Shorten(s.results[i], ttl).(txt := Some(txt))])
    else Push(s, Result(key, None, None, 0, Some(txt), [], ttl))
  }

  /** An SRV or TXT record for a PTR search: it belongs to the result of that very
      instance name, or to the one that the PTR rules find or make. */
  function Target(s: Search, instance: Str, key: Key, ttl: nat): (r: (Search, Option<nat>))
    ensures r.1.Some? ==> r.1.value < |r.0.results|
  {
    var i := First(s.results, (r: Result) => ExactInstance(r, key, instance));
    if i < |s.results| then (s, Some(i)) else (AddPtr(s, instance, key, ttl), PtrResult(s, instance, key))
  }

  function AddSrvToPtr(s: Search, instance: Str, hostname: Str, port: nat, key: Key, ttl: nat): Search {
    var (s', i) := Target(s, instance, key, ttl);
    if i.None? || s'.results[i.value].hostname.Some? then s'
    else s'.(results := s'.results[i.value := s'.results[i.value].(hostname := Some(hostname), port := port)])
  }

  function AddTxtToPtr(s: Search, instance: Str, txt: nat, key: Key, ttl: nat): Search {
    var (s', i) := Target(s, instance, key, ttl);
    if i.None? || s'.results[i.value].txt.Some? then s'
    else s'.(results := s'.results[i.value := s'.results[i.value].(txt := Some(txt))])
  }

  datatype Event =
    | Ip(hostname: Str, address: Address, key: Key, ttl: nat)
    | Ptr(instance: Str, key: Key, ttl: nat)
    | Srv(instance: Str, hostname: Str, port: nat, key: Key, ttl: nat)
    | Txt(instance: Str, txt: nat, key: Key, ttl: nat)

  /** One record for the search. */
  function Step(s: Search, e: Event): Search {
    match e
    case Ip(hostname, address, key, ttl) => AddIp(s, hostname, address, key, ttl)
    case Ptr(instance, key, ttl) => AddPtr(s, instance, key, ttl)
    case Srv(instance, hostname, port, key, ttl) =>
      if s.qtype == PTR then AddSrvToPtr(s, instance, hostname, port, key, ttl) else AddSrv(s, hostname, port, key, ttl)
    case Txt(instance, txt, key, ttl) =>
      if s.qtype == PTR then AddTxtToPtr(s, instance, txt, key, ttl) else AddTxt(s, txt, key, ttl)
  }

  function Run(s: Search, events: seq<Event>): Search
    decreases |events|
  {
    if events == [] then s else Run(Step(s, events[0]), events[1..])
  }

  // ------------------------------------------------------------ the invariant

  predicate Counted(s: Search) {
    && s.maxResults < 256
    && s.numResults == |s.results| % 256
    && (s.maxResults != 0 ==> |s.results| <= s.maxResults)
  }

  predicate NoAddressTwice(s: Search) {
    forall k, i, j :: 0 <= k < |s.results| && 0 <= i < j < |s.results[k].addresses| ==>
      s.results[k].addresses[i] != s.results[k].addresses[j]
  }

  predicate SameResult(r: Result, q: Result) {
    r.key == q.key && r.instance.Some? && q.instance.Some? && |r.instance.value| > 0
    && Same(r.instance.value, q.instance.value)
  }

  /** No two results of a PTR search for one interface, protocol and instance name that
      is not empty. */
  predicate NoInstanceTwice(s: Search) {
    forall i, j :: 0 <= i < j < |s.results| ==> !SameResult(s.results[i], s.results[j])
  }

  predicate Sound(s: Search) {
    Counted(s) && NoAddressTwice(s) && (s.qtype == PTR ==> NoInstanceTwice(s))
  }

  /** The older results stay, in order: what is known of them is kept, addresses are
      only added, and the TTL does not grow. */
  predicate Grows(s: Search, s': Search) {
    && s'.qtype == s.qtype && s'.instance == s.instance && s'.maxResults == s.maxResults
    && |s.results| <= |s'.results|
    && forall i :: 0 <= i < |s.results| ==> Refines(s.results[i], s'.results[|s'.results| - |s.results| + i])
  }

  predicate Refines(r: Result, r': Result) {
    && r'.key == r.key && r'.instance == r.instance && r'.ttl <= r.ttl
    && (r.hostname.Some? ==> r'.hostname == r.hostname && r'.port == r.port)
    && (r.txt.Some? ==> r'.txt == r.txt)
    && (forall a :: a in r.addresses ==> a in r'.addresses)
  }

  /** Replacing one result by one that refines it. */
  lemma ChangeKeeps(s: Search, i: nat, r: Result)
    requires Sound(s) && i < |s.results| && Refines(s.results[i], r)
    requires forall a, b :: 0 <= a < b < |r.addresses| ==> r.addresses[a] != r.addresses[b]
    ensures var s' := s.(results := s.results[i := r]); Sound(s') && Grows(s, s')
  {
    hide Refines, NoInstanceTwice;
    ChangeGrows(s, i, r);
    if s.qtype == PTR { ChangeNames(s, i, r); }
  }

  lemma ChangeGrows(s: Search, i: nat, r: Result)
    requires i < |s.results| && Refines(s.results[i], r)
    ensures Grows(s, s.(results := s.results[i := r]))
  {
    hide Refines;
    RefinesItself(s);
  }

  lemma ChangeNames(s: Search, i: nat, r: Result)
    requires NoInstanceTwice(s) && i < |s.results| && Refines(s.results[i], r)
    ensures NoInstanceTwice(s.(results := s.results[i := r]))
  {
    hide Names.SameFold;
    var s' := s.(results := s.results[i := r]);
    forall a, b | 0 <= a < b < |s'.results| ensures !SameResult(s'.results[a], s'.results[b]) {
      assert !SameResult(s.results[a], s.results[b]);
    }
  }

  lemma PushKeeps(s: Search, r: Result)
    requires Sound(s) && |r.addresses| <= 1
    requires s.qtype == PTR ==> forall k :: 0 <= k < |s.results| ==> !SameResult(r, s.results[k])
    ensures Sound(Push(s, r)) && Grows(s, Push(s, r))
  {
    hide SameResult, Refines;
    var s' := Push(s, r);
    RefinesItself(s);
    if !Full(s) {
      assert s'.results[0] == r && forall k :: 0 < k < |s'.results| ==> s'.results[k] == s.results[k - 1];
      PushCounts(s, r);
    }
  }

  lemma RefinesItself(s: Search)
    ensures forall i :: 0 <= i < |s.results| ==> Refines(s.results[i], s.results[i])
  {
  }

  lemma PushCounts(s: Search, r: Result)
    requires Counted(s)
    ensures Counted(Push(s, r))
  {
  }

  lemma AddAddressKeeps(list: seq<Address>, a: Address)
    requires forall i, j :: 0 <= i < j < |list| ==> list[i] != list[j]
    ensures var r := AddAddress(list, a);
      && (forall i, j :: 0 <= i < j < |r| ==> r[i] != r[j])
      && (forall x :: x in r <==> x in list || x == a)
  {
  }

  lemma SoundFacts(s: Search)
    requires Sound(s)
    ensures NoAddressTwice(s) && (s.qtype == PTR ==> NoInstanceTwice(s))
    ensures Grows(s, s)
  {
    RefinesItself(s);
  }

  lemma GrowsOn(s: Search, t: Search, u: Search)
    requires Grows(s, t) && Grows(t, u)
    ensures Grows(s, u)
  {
    hide Refines;
    forall i | 0 <= i < |s.results| ensures Refines(s.results[i], u.results[|u.results| - |s.results| + i]) {
      var j := |t.results| - |s.results| + i;
      assert |u.results| - |t.results| + j == |u.results| - |s.results| + i;
      RefinesOn(s.results[i], t.results[j], u.results[|u.results| - |t.results| + j]);
    }
  }

  lemma RefinesOn(a: Result, b: Result, c: Result)
    requires Refines(a, b) && Refines(b, c)
    ensures Refines(a, c)
  {
  }

  /** Changing no address of a result. */
  lemma EditKeeps(s: Search, i: nat, r: Result)
    requires Sound(s) && i < |s.results| && Refines(s.results[i], r) && r.addresses == s.results[i].addresses
    ensures var s' := s.(results := s.results[i := r]); Sound(s') && Grows(s, s')
  {
    hide Grows;
    ChangeKeeps(s, i, r);
  }

  lemma AddPtrKeeps(s: Search, instance: Str, key: Key, ttl: nat)
    requires Sound(s)
    ensures Sound(AddPtr(s, instance, key, ttl)) && Grows(s, AddPtr(s, instance, key, ttl))
  {
    hide Sound, Grows;
    var i := First(s.results, (r: Result) => OfInstance(r, key, instance));
    if i < |s.results| {
      EditKeeps(s, i, Shorten(s.results[i], ttl));
    } else {
      PushKeeps(s, Result(key, Some(instance), None, 0, None, [], ttl));
    }
  }

  lemma AddIpKeeps(s: Search, hostname: Str, a: Address, key: Key, ttl: nat)
    requires Sound(s)
    ensures Sound(AddIp(s, hostname, a, key, ttl)) && Grows(s, AddIp(s, hostname, a, key, ttl))
  {
    SoundFacts(s);
    hide Sound, Grows;
    var i := if s.qtype == PTR || s.qtype == SRV then First(s.results, (r: Result) => OnHost(r, key, hostname))
             else First(s.results, (r: Result) => r.key == key);
    if i < |s.results| {
      AddAddressKeeps(s.results[i].addresses, a);
      ChangeKeeps(s, i, WithAddress(s.results[i], a, ttl));
    } else {
      PushKeeps(if s.qtype == PTR then s.(qtype := SRV) else s, Result(key, None, Some(hostname), 0, None, [a], ttl)) by {
        assert s.qtype == PTR ==> Sound(s.(qtype := SRV)) by { OtherType(s); }
      }
    }
  }

  lemma OtherType(s: Search)
    requires Sound(s)
    ensures Sound(s.(qtype := SRV))
  {
  }

  lemma AddSrvKeeps(s: Search, hostname: Str, port: nat, key: Key, ttl: nat)
    requires Sound(s) && s.qtype != PTR
    ensures Sound(AddSrv(s, hostname, port, key, ttl)) && Grows(s, AddSrv(s, hostname, port, key, ttl))
  {
    hide Sound, Grows;
    var i := First(s.results, (r: Result) => OnHost(r, key, hostname));
    if i < |s.results| {
      EditKeeps(s, i, Shorten(s.results[i], ttl));
    } else {
      PushKeeps(s, Result(key, s.instance, Some(hostname), port, None, [], ttl));
    }
  }

  lemma AddTxtKeeps(s: Search, txt: nat, key: Key, ttl: nat)
    requires Sound(s) && s.qtype != PTR
    ensures Sound(AddTxt(s, txt, key, ttl)) && Grows(s, AddTxt(s, txt, key, ttl))
  {
    SoundFacts(s);
    hide Sound, Grows;
    var i := First(s.results, (r: Result) => r.key == key);
    if i < |s.results| {
      if s.results[i].txt.None? {
        EditKeeps(s, i, Shorten(s.results[i], ttl).(txt := Some(txt)));
      }
    } else {
      PushKeeps(s, Result(key, None, None, 0, Some(txt), [], ttl));
    }
  }

  lemma TargetKeeps(s: Search, instance: Str, key: Key, ttl: nat)
    requires Sound(s)
    ensures var t := Target(s, instance, key, ttl).0; Sound(t) && Grows(s, t)
  {
    SoundFacts(s);
    hide Sound, Grows;
    AddPtrKeeps(s, instance, key, ttl);
  }

  /** Every received record keeps the search sound, and what was found is only added to. */
  lemma StepKeeps(s: Search, e: Event)
    requires Sound(s)
    ensures Sound(Step(s, e)) && Grows(s, Step(s, e))
  {
    hide Sound, Grows, AddIp, AddPtr, AddSrv, AddTxt, Target;
    match e
    case Ip(hostname, address, key, ttl) => AddIpKeeps(s, hostname, address, key, ttl);
    case Ptr(instance, key, ttl) => AddPtrKeeps(s, instance, key, ttl);
    case Srv(instance, hostname, port, key, ttl) =>
      if s.qtype == PTR {
        TargetKeeps(s, instance, key, ttl);
        var (t, i) := Target(s, instance, key, ttl);
        if i.Some? && t.results[i.value].hostname.None? {
          var r := t.results[i.value].(hostname := Some(hostname), port := port);
          EditKeeps(t, i.value, r);
          GrowsOn(s, t, t.(results := t.results[i.value := r]));
        }
      } else {
        AddSrvKeeps(s, hostname, port, key, ttl);
      }
    case Txt(instance, txt, key, ttl) =>
      if s.qtype == PTR {
        TargetKeeps(s, instance, key, ttl);
        var (t, i) := Target(s, instance, key, ttl);
        if i.Some? && t.results[i.value].txt.None? {
          var r := t.results[i.value].(txt := Some(txt));
          EditKeeps(t, i.value, r);
          GrowsOn(s, t, t.(results := t.results[i.value := r]));
        }
      } else {
        AddTxtKeeps(s, txt, key, ttl);
      }
  }

  /** _mdns_search_init */
  function Fresh(qtype: RecordType, instance: Option<Str>, maxResults: nat): Search {
    Search(qtype, instance, maxResults, 0, [])
  }

  /** After any records, in any order. */
  lemma {:induction false} RunKeeps(s: Search, events: seq<Event>)
    requires Sound(s)
    ensures Sound(Run(s, events)) && Grows(s, Run(s, events))
    decreases |events|
  {
    SoundFacts(s);
    hide Sound, Grows, Step;
    if events != [] {
      StepKeeps(s, events[0]);
      RunKeeps(Step(s, events[0]), events[1..]);
      GrowsOn(s, Step(s, events[0]), Run(s, events));
    }
  }

  /** The counter is the number of results as long as fewer than 256 are kept, which a
      limit guarantees; without one it wraps. */
  lemma CounterIsExact(qtype: RecordType, instance: Option<Str>, maxResults: nat, events: seq<Event>)
    requires maxResults < 256
    ensures var s := Run(Fresh(qtype, instance, maxResults), events);
      && (s.numResults == |s.results| <==> |s.results| < 256)
      && (maxResults != 0 ==> s.numResults == |s.results| <= maxResults)
  {
    hide Step, Run, NoInstanceTwice, NoAddressTwice;
    FreshSound(qtype, instance, maxResults);
    RunKeeps(Fresh(qtype, instance, maxResults), events);
  }

  lemma FreshSound(qtype: RecordType, instance: Option<Str>, maxResults: nat)
    requires maxResults < 256
    ensures Sound(Fresh(qtype, instance, maxResults))
  {
  }

  // -------------------------------------------------- what one record does

  /** By what a record finds its result: the interface and protocol, and the host, the
      instance up to letter case, or the very instance name. */
  datatype Test = ByKey(key: Key) | ByHost(key: Key, name: Str) | ByName(key: Key, name: Str) | ByExact(key: Key, name: Str)

  predicate Picks(t: Test, r: Result) {
    r.key == t.key
    && match t
       case ByKey(_) => true
       case ByHost(_, name) => r.hostname.Some? && |r.hostname.value| > 0 && Same(name, r.hostname.value)
       case ByName(_, name) => r.instance.Some? && |r.instance.value| > 0 && Same(name, r.instance.value)
       case ByExact(_, name) => r.instance == Some(name)
  }

  /** The i-th result is the first that the test picks. */
  ghost predicate IsFirst(results: seq<Result>, t: Test, i: nat) {
    i < |results| && Picks(t, results[i]) && forall j :: 0 <= j < i ==> !Picks(t, results[j])
  }

  ghost predicate NoneIs(results: seq<Result>, t: Test) {
    forall j :: 0 <= j < |results| ==> !Picks(t, results[j])
  }

  lemma FirstFound(results: seq<Result>, test: Result -> bool, t: Test)
    requires forall r: Result :: test(r) == Picks(t, r)
    ensures var i := First(results, test); if i < |results| then IsFirst(results, t, i) else NoneIs(results, t)
    ensures forall i: nat :: IsFirst(results, t, i) ==> i == First(results, test)
    ensures NoneIs(results, t) ==> First(results, test) == |results|
  {
    hide Picks;
    var i := First(results, test);
    assert i < |results| ==> Picks(t, results[i]);
    forall j: nat | IsFirst(results, t, j) ensures j == i {
      assert test(results[j]);
    }
  }

  /** Only the i-th result is another one. */
  ghost predicate Only(s: Search, s': Search, i: nat, r: Result) {
    && i < |s.results| && s' == s.(results := s'.results) && |s'.results| == |s.results| && s'.results[i] == r
    && forall j :: 0 <= j < |s.results| && j != i ==> s'.results[j] == s.results[j]
  }

  /** There is one result more, in front, if there is room. */
  ghost predicate Gained(s: Search, s': Search, r: Result) {
    if s.maxResults != 0 && s.numResults >= s.maxResults then s' == s
    else s' == s.(results := s'.results, numResults := (s.numResults + 1) % 256) && s'.results == [r] + s.results
  }

  function Least(a: nat, b: nat): (m: nat)
    ensures m <= a && m <= b && (m == a || m == b)
  {
    if a < b then a else b
  }

  /** The result knows the address, beside those it knew, and nothing else has changed but
      its TTL, which is the smaller one. */
  ghost predicate Learns(r: Result, r': Result, a: Address, ttl: nat) {
    && r' == r.(addresses := r'.addresses, ttl := Least(r.ttl, ttl))
    && forall x :: x in r'.addresses <==> x in r.addresses || x == a
  }

  /** A search for the type of the address, or for any, wants it from every host. */
  predicate Wants(s: Search, a: Address) {
    (s.qtype == A && a.protocol == V4) || (s.qtype == AAAA && a.protocol == V6) || s.qtype == ANY
  }

  /** An address record: the first result of its interface and protocol, or in a search for
      services of its host, learns the address; if there is none, a search that wants the
      address gains a result of it. */
  lemma IpExact(s: Search, hostname: Str, a: Address, key: Key, ttl: nat)
    ensures var s' := Step(s, Ip(hostname, a, key, ttl)); var t := if Wants(s, a) then ByKey(key) else ByHost(key, hostname);
      if Wants(s, a) || s.qtype == PTR || s.qtype == SRV then
        && (forall i: nat :: IsFirst(s.results, t, i) ==>
              i < |s'.results| && Only(s, s', i, s'.results[i]) && Learns(s.results[i], s'.results[i], a, ttl))
        && (NoneIs(s.results, t) ==>
              if Wants(s, a) then Gained(s, s', Result(key, None, Some(hostname), 0, None, [a], ttl)) else s' == s)
      else s' == s
  {
    hide Names.SameFold;
    if Wants(s, a) {
      FirstFound(s.results, (r: Result) => r.key == key, ByKey(key));
    } else if s.qtype == PTR || s.qtype == SRV {
      FirstFound(s.results, (r: Result) => OnHost(r, key, hostname), ByHost(key, hostname));
    }
  }

  /** The i-th result has its TTL shortened. */
  ghost predicate Shortened(s: Search, s': Search, i: nat, ttl: nat) {
    i < |s.results| && Only(s, s', i, s.results[i].(ttl := Least(s.results[i].ttl, ttl)))
  }

  /** A PTR record: the first result of that instance, or a new one. */
  lemma PtrExact(s: Search, instance: Str, key: Key, ttl: nat)
    ensures var s' := AddPtr(s, instance, key, ttl); var t := ByName(key, instance);
      && (forall i: nat :: IsFirst(s.results, t, i) ==> Shortened(s, s', i, ttl))
      && (NoneIs(s.results, t) ==> Gained(s, s', Result(key, Some(instance), None, 0, None, [], ttl)))
  {
    hide Names.SameFold;
    FirstFound(s.results, (r: Result) => OfInstance(r, key, instance), ByName(key, instance));
  }

  /** An SRV record, where instances are not looked for: the first result of that host only
      has its TTL shortened; else there is a new one with the host and the port. */
  lemma SrvExact(s: Search, instance: Str, hostname: Str, port: nat, key: Key, ttl: nat)
    requires s.qtype != PTR
    ensures var s' := Step(s, Srv(instance, hostname, port, key, ttl)); var t := ByHost(key, hostname);
      && (forall i: nat :: IsFirst(s.results, t, i) ==> Shortened(s, s', i, ttl))
      && (NoneIs(s.results, t) ==> Gained(s, s', Result(key, s.instance, Some(hostname), port, None, [], ttl)))
  {
    hide Names.SameFold;
    FirstFound(s.results, (r: Result) => OnHost(r, key, hostname), ByHost(key, hostname));
  }

  /** A TXT record, where instances are not looked for: the first result of the interface
      and protocol gets the text if it has none; else there is a new one. */
  lemma TxtExact(s: Search, instance: Str, txt: nat, key: Key, ttl: nat)
    requires s.qtype != PTR
    ensures var s' := Step(s, Txt(instance, txt, key, ttl)); var t := ByKey(key);
      && (forall i: nat :: IsFirst(s.results, t, i) ==>
            if s.results[i].txt.Some? then s' == s
            else Only(s, s', i, s.results[i].(txt := Some(txt), ttl := Least(s.results[i].ttl, ttl))))
      && (NoneIs(s.results, t) ==> Gained(s, s', Result(key, None, None, 0, Some(txt), [], ttl)))
  {
    FirstFound(s.results, (r: Result) => r.key == key, ByKey(key));
  }

  /** The result that an SRV or TXT record of a search for instances is about, and the
      search once it is found or made: a result of exactly that name; else one that a PTR
      record finds, its TTL shortened; else a new one. */
  ghost predicate About(s: Search, s': Search, i: nat, instance: Str, key: Key, ttl: nat) {
    var exact, named := ByExact(key, instance), ByName(key, instance);
    || (IsFirst(s.results, exact, i) && s' == s)
    || (NoneIs(s.results, exact) && IsFirst(s.results, named, i) && Shortened(s, s', i, ttl))
    || (NoneIs(s.results, exact) && NoneIs(s.results, named) && !Full(s) && i == 0
        && Gained(s, s', Result(key, Some(instance), None, 0, None, [], ttl)))
  }

  lemma TargetIs(s: Search, instance: Str, key: Key, ttl: nat)
    ensures var (t, i) := Target(s, instance, key, ttl);
      if i.Some? then i.value < |t.results| && About(s, t, i.value, instance, key, ttl)
      else t == s && Full(s) && NoneIs(s.results, ByExact(key, instance)) && NoneIs(s.results, ByName(key, instance))
  {
    hide Names.SameFold, AddPtr;
    FirstFound(s.results, (r: Result) => ExactInstance(r, key, instance), ByExact(key, instance));
    FirstFound(s.results, (r: Result) => OfInstance(r, key, instance), ByName(key, instance));
    PtrExact(s, instance, key, ttl);
  }

  /** In a search for instances an SRV record gives its host and port to the result it is
      about, unless that has a host already; only a full search drops it. */
  lemma SrvOfInstance(s: Search, instance: Str, hostname: Str, port: nat, key: Key, ttl: nat)
    requires s.qtype == PTR
    ensures var s' := Step(s, Srv(instance, hostname, port, key, ttl));
      || (Full(s) && NoneIs(s.results, ByExact(key, instance)) && NoneIs(s.results, ByName(key, instance)) && s' == s)
      || exists t: Search, i: nat ::
           && About(s, t, i, instance, key, ttl) && i < |t.results|
           && (if t.results[i].hostname.Some? then s' == t
               else Only(t, s', i, t.results[i].(hostname := Some(hostname), port := port)))
  {
    hide Target, About;
    TargetIs(s, instance, key, ttl);
    var (t, i) := Target(s, instance, key, ttl);
    if i.Some? { assert About(s, t, i.value, instance, key, ttl) && i.value < |t.results|; }
  }

  lemma TxtOfInstance(s: Search, instance: Str, txt: nat, key: Key, ttl: nat)
    requires s.qtype == PTR
    ensures var s' := Step(s, Txt(instance, txt, key, ttl));
      || (Full(s) && NoneIs(s.results, ByExact(key, instance)) && NoneIs(s.results, ByName(key, instance)) && s' == s)
      || exists t: Search, i: nat ::
           && About(s, t, i, instance, key, ttl) && i < |t.results|
           && (if t.results[i].txt.Some? then s' == t else Only(t, s', i, t.results[i].(txt := Some(txt))))
  {
    hide Target, About;
    TargetIs(s, instance, key, ttl);
    var (t, i) := Target(s, instance, key, ttl);
    if i.Some? { assert About(s, t, i.value, instance, key, ttl) && i.value < |t.results|; }
  }

  // ------------------------------------------------- addresses over runs

  /** The result that is the j-th from the oldest on. */
  function Aged(s: Search, j: nat): Result
    requires j < |s.results|
  {
    s.results[|s.results| - 1 - j]
  }

  /** The record gives its address to the j-th oldest result: it is the first that the
      record picks. */
  ghost predicate Gives(s: Search, e: Event, j: nat)
    requires j < |s.results|
  {
    e.Ip? && (Wants(s, e.address) || s.qtype == PTR || s.qtype == SRV)
    && IsFirst(s.results, if Wants(s, e.address) then ByKey(e.key) else ByHost(e.key, e.hostname), |s.results| - 1 - j)
  }

  lemma IpGives(s: Search, e: Event, j: nat)
    requires j < |s.results| && e.Ip?
    ensures |s.results| <= |Step(s, e).results|
    ensures forall x :: x in Aged(Step(s, e), j).addresses <==> x in Aged(s, j).addresses || (Gives(s, e, j) && x == e.address)
  {
    hide Step, Picks;
    IpExact(s, e.hostname, e.address, e.key, e.ttl);
    var t := if Wants(s, e.address) then ByKey(e.key) else ByHost(e.key, e.hostname);
    FirstOrNone(s.results, t);
    if i: nat :| IsFirst(s.results, t, i) {
      assert forall k: nat :: IsFirst(s.results, t, k) ==> k == i;
    }
  }

  lemma {:induction false} FirstOrNone(results: seq<Result>, t: Test)
    ensures NoneIs(results, t) || exists i: nat :: IsFirst(results, t, i)
    decreases |results|
  {
    hide Picks;
    if results != [] {
      var front := results[..|results| - 1];
      FirstOrNone(front, t);
      if i: nat :| IsFirst(front, t, i) {
        assert IsFirst(results, t, i);
      } else if Picks(t, results[|results| - 1]) {
        assert forall j :: 0 <= j < |results| - 1 ==> results[j] == front[j];
        assert IsFirst(results, t, |results| - 1);
      }
    }
  }

  /** No address anywhere changes. */
  ghost predicate SameAddresses(s: Search, s': Search) {
    |s.results| <= |s'.results| && forall j :: 0 <= j < |s.results| ==> Aged(s', j).addresses == Aged(s, j).addresses
  }

  lemma OthersGiveNothing(s: Search, e: Event)
    requires !e.Ip?
    ensures SameAddresses(s, Step(s, e))
  {
    hide AddPtr, AddSrv, AddTxt, Target;
    match e
    case Ptr(instance, key, ttl) => PtrAddresses(s, instance, key, ttl);
    case Srv(instance, hostname, port, key, ttl) =>
      if s.qtype == PTR { TargetAddresses(s, instance, key, ttl); } else { SrvAddresses(s, hostname, port, key, ttl); }
    case Txt(instance, txt, key, ttl) =>
      if s.qtype == PTR { TargetAddresses(s, instance, key, ttl); } else { TxtAddresses(s, txt, key, ttl); }
  }

  lemma PtrAddresses(s: Search, instance: Str, key: Key, ttl: nat)
    ensures SameAddresses(s, AddPtr(s, instance, key, ttl))
  {
    hide Names.SameFold;
  }

  lemma SrvAddresses(s: Search, hostname: Str, port: nat, key: Key, ttl: nat)
    ensures SameAddresses(s, AddSrv(s, hostname, port, key, ttl))
  {
    hide Names.SameFold;
  }

  lemma TxtAddresses(s: Search, txt: nat, key: Key, ttl: nat)
    ensures SameAddresses(s, AddTxt(s, txt, key, ttl))
  {
  }

  lemma TargetAddresses(s: Search, instance: Str, key: Key, ttl: nat)
    ensures SameAddresses(s, Target(s, instance, key, ttl).0)
  {
    hide AddPtr;
    PtrAddresses(s, instance, key, ttl);
  }

  /** The addresses that the records give to the j-th oldest result. */
  ghost function Given(s: Search, events: seq<Event>, j: nat): set<Address>
    requires j < |s.results|
    decreases |events|
  {
    if events == [] then {}
    else
      StepGrows(s, events[0]);
      (if Gives(s, events[0], j) then {events[0].address} else {}) + Given(Step(s, events[0]), events[1..], j)
  }

  lemma StepGrows(s: Search, e: Event)
    ensures |s.results| <= |Step(s, e).results|
  {
    hide Step;
    if e.Ip? { if s.results != [] { IpGives(s, e, 0); } } else { OthersGiveNothing(s, e); }
  }

  /** After any records the addresses of a result are exactly those it had and those of the
      address records that found it first. */
  lemma {:induction false} AddressesCollected(s: Search, events: seq<Event>, j: nat)
    requires j < |s.results|
    ensures |s.results| <= |Run(s, events).results|
    ensures forall x :: x in Aged(Run(s, events), j).addresses <==> x in Aged(s, j).addresses || x in Given(s, events, j)
    decreases |events|
  {
    hide Step, Gives;
    if events != [] {
      var e := events[0];
      StepGrows(s, e);
      AddressesCollected(Step(s, e), events[1..], j);
      if e.Ip? {
        IpGives(s, e, j);
      } else {
        OthersGiveNothing(s, e);
        OnlyIpGives(s, e, j);
      }
    }
  }

  lemma OnlyIpGives(s: Search, e: Event, j: nat)
    requires j < |s.results| && !e.Ip?
    ensures !Gives(s, e, j)
  {
  }

  /** A result of the interface and protocol knows the address. */
  ghost predicate Knows(s: Search, key: Key, x: Address) {
    exists i :: 0 <= i < |s.results| && s.results[i].key == key && x in s.results[i].addresses
  }

  ghost predicate OnePerKey(s: Search) {
    forall i, j :: 0 <= i < j < |s.results| ==> s.results[i].key != s.results[j].key
  }

  /** The record is one the address search wants. */
  predicate Tells(s: Search, e: Event, key: Key, x: Address) {
    e.Ip? && e.key == key && e.address == x && Wants(s, x)
  }

  lemma LearnedKnows(s: Search, s': Search, i: nat, a: Address, ttl: nat, key: Key, x: Address)
    requires OnePerKey(s) && i < |s.results| && i < |s'.results| && Only(s, s', i, s'.results[i])
    requires Learns(s.results[i], s'.results[i], a, ttl)
    ensures OnePerKey(s') && (Knows(s', key, x) <==> Knows(s, key, x) || (s.results[i].key == key && x == a))
  {
    assert forall j :: 0 <= j < |s.results| ==> s'.results[j].key == s.results[j].key;
    if Knows(s, key, x) {
      var j :| 0 <= j < |s.results| && s.results[j].key == key && x in s.results[j].addresses;
      assert x in s'.results[j].addresses;
    }
    if s.results[i].key == key && x == a { assert x in s'.results[i].addresses; }
    if Knows(s', key, x) {
      var j :| 0 <= j < |s'.results| && s'.results[j].key == key && x in s'.results[j].addresses;
      assert j != i ==> x in s.results[j].addresses;
    }
  }

  lemma PushedOne(s: Search, s': Search, r: Result)
    requires OnePerKey(s) && NoneIs(s.results, ByKey(r.key)) && s'.results == [r] + s.results
    ensures OnePerKey(s')
  {
    forall i, j | 0 <= i < j < |s'.results| ensures s'.results[i].key != s'.results[j].key {
      assert s'.results[j] == s.results[j - 1];
      if i == 0 { assert !Picks(ByKey(r.key), s.results[j - 1]); } else { assert s'.results[i] == s.results[i - 1]; }
    }
  }

  lemma PushedKnows(s: Search, s': Search, r: Result, a: Address, key: Key, x: Address)
    requires OnePerKey(s) && NoneIs(s.results, ByKey(r.key)) && s'.results == [r] + s.results && r.addresses == [a]
    ensures OnePerKey(s') && (Knows(s', key, x) <==> Knows(s, key, x) || (r.key == key && x == a))
  {
    hide OnePerKey, NoneIs;
    PushedOne(s, s', r);
    assert s'.results[0] == r;
    if Knows(s, key, x) {
      var j :| 0 <= j < |s.results| && s.results[j].key == key && x in s.results[j].addresses;
      assert s'.results[j + 1] == s.results[j];
    }
    if Knows(s', key, x) {
      var j :| 0 <= j < |s'.results| && s'.results[j].key == key && x in s'.results[j].addresses;
      if j > 0 { assert s'.results[j] == s.results[j - 1]; }
    }
  }

  lemma AddressStep(s: Search, e: Event, key: Key, x: Address)
    requires (s.qtype == A || s.qtype == AAAA) && s.maxResults == 0 && e.Ip? && OnePerKey(s)
    ensures var s' := Step(s, e);
      && s'.qtype == s.qtype && s'.maxResults == 0 && OnePerKey(s')
      && (Knows(s', key, x) <==> Knows(s, key, x) || Tells(s, e, key, x))
  {
    hide Step, OnePerKey, Knows, Learns, NoneIs;
    IpExact(s, e.hostname, e.address, e.key, e.ttl);
    var s' := Step(s, e);
    var t := ByKey(e.key);
    FirstOrNone(s.results, t);
    if Wants(s, e.address) {
      if i: nat :| IsFirst(s.results, t, i) {
        LearnedKnows(s, s', i, e.address, e.ttl, key, x);
      } else {
        PushedKnows(s, s', Result(e.key, None, Some(e.hostname), 0, None, [e.address], e.ttl), e.address, key, x);
      }
    }
  }

  /** A search for addresses without a limit: one result for each interface and protocol,
      with exactly the addresses of the wanted type that came by it. */
  lemma {:induction false} AddressesFound(s: Search, events: seq<Event>, key: Key, x: Address)
    requires (s.qtype == A || s.qtype == AAAA) && s.maxResults == 0 && OnePerKey(s)
    requires forall i :: 0 <= i < |events| ==> events[i].Ip?
    ensures var s' := Run(s, events);
      && OnePerKey(s')
      && (Knows(s', key, x) <==> Knows(s, key, x) || exists i :: 0 <= i < |events| && Tells(s, events[i], key, x))
    decreases |events|
  {
    hide Step, Knows, OnePerKey;
    if events != [] {
      var rest := events[1..];
      assert forall i :: 0 <= i < |rest| ==> rest[i] == events[i + 1];
      AddressStep(s, events[0], key, x);
      AddressesFound(Step(s, events[0]), rest, key, x);
      forall i | 0 <= i < |rest| ensures Tells(Step(s, events[0]), rest[i], key, x) <==> Tells(s, events[i + 1], key, x) {}
      if i :| 0 <= i < |events| && Tells(s, events[i], key, x) {
        if i > 0 { assert Tells(Step(s, events[0]), rest[i - 1], key, x); }
      }
    }
  }

  /** In a search for services an address reaches one result only: afterwards every result
      on the host knows it exactly if all but the first knew it before. */
  lemma OnlyFirstLearns(s: Search, hostname: Str, a: Address, key: Key, ttl: nat)
    requires s.qtype == PTR || s.qtype == SRV
    ensures var s' := Step(s, Ip(hostname, a, key, ttl)); var t := ByHost(key, hostname);
      |s'.results| == |s.results| &&
      ((forall i :: 0 <= i < |s'.results| && Picks(t, s'.results[i]) ==> a in s'.results[i].addresses)
       <==> forall i: nat :: i < |s.results| && Picks(t, s.results[i]) && !IsFirst(s.results, t, i) ==> a in s.results[i].addresses)
  {
    hide Step, Names.SameFold;
    IpExact(s, hostname, a, key, ttl);
    FirstOrNone(s.results, ByHost(key, hostname));
    var s' := Step(s, Ip(hostname, a, key, ttl));
    var t := ByHost(key, hostname);
    if i: nat :| IsFirst(s.results, t, i) {
      assert forall j :: 0 <= j < |s.results| ==> Picks(t, s'.results[j]) == Picks(t, s.results[j]);
      forall j: nat | j < |s.results| && IsFirst(s.results, t, j) ensures j == i {}
    }
  }

  /** Two instances on one host: the newer one gets the address, the older one does not. */
  lemma SecondInstanceLearnsNothing(key: Key, a: Address, ttl: nat)
    ensures var r, q := Result(key, Some([97]), Some([104]), 80, None, [], 120), Result(key, Some([98]), Some([104]), 80, None, [], 120);
      var s := Search(PTR, None, 0, 2, [q, r]); var s' := Step(s, Ip([104], a, key, ttl));
      |s'.results| == 2 && a in s'.results[0].addresses && s'.results[1] == r
  {
    var r, q := Result(key, Some([97]), Some([104]), 80, None, [], 120), Result(key, Some([98]), Some([104]), 80, None, [], 120);
    var s := Search(PTR, None, 0, 2, [q, r]);
    IpExact(s, [104], a, key, ttl);
    assert IsFirst(s.results, ByHost(key, [104]), 0);
  }

  // ------------------------------------------- the name of a PTR record's result

  /** The instance name that the parser makes of the target of a PTR record, read from
      the fields after the parts have been moved there. */
  function BuiltName(n: Names.FullName): Str {
    if n.proto != [] then n.service + [Names.DOT] + n.proto
    else if n.service != [] then n.host + [Names.DOT] + n.service
    else n.host
  }

  /** The record of a target, as read. */
  function PtrOf(n: Names.Name, key: Key, ttl: nat): Event {
    Ptr(BuiltName(Names.Arrange(n)), key, ttl)
  }

  /** Of two PTR records in a row there is one result exactly if the names made of their
      targets agree. */
  lemma InstancesMerge(a: Names.Name, b: Names.Name, instance: Option<Str>, key: Key, ttl: nat)
    requires BuiltName(Names.Arrange(a)) != [] && BuiltName(Names.Arrange(b)) != []
    ensures |Run(Fresh(PTR, instance, 0), [PtrOf(a, key, ttl), PtrOf(b, key, ttl)]).results| == 1
      <==> Same(BuiltName(Names.Arrange(b)), BuiltName(Names.Arrange(a)))
  {
    hide BuiltName, Names.Arrange, Names.SameFold;
    var e, f := PtrOf(a, key, ttl), PtrOf(b, key, ttl);
    var s := Fresh(PTR, instance, 0);
    assert [e, f][1..] == [f] && [f][1..] == [];
    NewInstance(s, e.instance, key, ttl);
    var s1 := Step(s, e);
    assert Run(s1, [f]) == Step(s1, f) by { assert Run(Step(s1, f), []) == Step(s1, f); }
    if !Same(f.instance, e.instance) {
      NewInstance(s1, f.instance, key, ttl);
    }
  }

  /** Four parts: what is in front of the type is lost, so the instances of one type make
      one name. Three parts are a type, and two types make different names. */
  lemma BuiltOf(n: Names.Name)
    requires |n.parts| >= 3 && !n.invalid && forall i :: 0 <= i < |n.parts| ==> n.parts[i] != []
    ensures |n.parts| == 4 ==> BuiltName(Names.Arrange(n)) == n.parts[1] + [Names.DOT] + n.parts[2]
    ensures |n.parts| == 3 ==> BuiltName(Names.Arrange(n)) == n.parts[0] + [Names.DOT] + n.parts[1]
  {
    hide Names.SameFold;
  }

  const HTTP: Str := [95, 104, 116, 116, 112]
  const IPP: Str := [95, 105, 112, 112]
  const TCP: Str := [95, 116, 99, 112]

  /** The targets `a._http._tcp.local` and `b._http._tcp.local` leave one result, called
      `_http._tcp`; `_http._tcp.local` and `_ipp._tcp.local` leave two. */
  lemma TwoInstancesOneResult(instance: Option<Str>, key: Key, ttl: nat)
    ensures var a := Names.Name([[97], HTTP, TCP, Names.LOCAL], false, false);
      var b := Names.Name([[98], HTTP, TCP, Names.LOCAL], false, false);
      var s := Run(Fresh(PTR, instance, 0), [PtrOf(a, key, ttl), PtrOf(b, key, ttl)]);
      |s.results| == 1 && s.results[0].instance == Some(HTTP + [Names.DOT] + TCP)
    ensures var a := Names.Name([HTTP, TCP, Names.LOCAL], false, false); var b := Names.Name([IPP, TCP, Names.LOCAL], false, false);
      |Run(Fresh(PTR, instance, 0), [PtrOf(a, key, ttl), PtrOf(b, key, ttl)]).results| != 1
  {
    hide Run, Step, Names.Arrange, BuiltName;
    var a := Names.Name([[97], HTTP, TCP, Names.LOCAL], false, false);
    var b := Names.Name([[98], HTTP, TCP, Names.LOCAL], false, false);
    var c, d := Names.Name([HTTP, TCP, Names.LOCAL], false, false), Names.Name([IPP, TCP, Names.LOCAL], false, false);
    BuiltOf(a);
    BuiltOf(b);
    BuiltOf(c);
    BuiltOf(d);
    var name := HTTP + [Names.DOT] + TCP;
    assert Same(name, name) by { SelfSame(name); }
    InstancesMerge(a, b, instance, key, ttl);
    FirstResult(name, instance, key, ttl);
    assert PtrOf(a, key, ttl) == PtrOf(b, key, ttl) == Ptr(name, key, ttl);
    assert !Same(IPP + [Names.DOT] + TCP, name) by { assert |IPP + [Names.DOT] + TCP| != |name|; OtherLength(IPP + [Names.DOT] + TCP, name); }
    InstancesMerge(c, d, instance, key, ttl);
  }

  lemma SelfSame(a: Str)
    ensures Same(a, a)
  {
  }

  lemma OtherLength(a: Str, b: Str)
    requires |a| != |b|
    ensures !Same(a, b)
  {
  }

  lemma FirstResult(name: Str, instance: Option<Str>, key: Key, ttl: nat)
    requires name != []
    ensures var e := Ptr(name, key, ttl); var s := Run(Fresh(PTR, instance, 0), [e, e]);
      |s.results| == 1 ==> s.results[0].instance == Some(name)
  {
    hide Names.SameFold;
    var e := Ptr(name, key, ttl);
    var s := Fresh(PTR, instance, 0);
    assert [e, e][1..] == [e] && [e][1..] == [];
    NewInstance(s, name, key, ttl);
    var s1 := Step(s, e);
    assert Run(s1, [e]) == Step(s1, e) by { assert Run(Step(s1, e), []) == Step(s1, e); }
  }

  // ------------------------------------------------- results without a name

  /** No two results for one interface, protocol and instance name, the empty name
      included. */
  ghost predicate Unique(s: Search) {
    forall i, j :: 0 <= i < j < |s.results| ==>
      !(s.results[i].key == s.results[j].key && s.results[i].instance.Some? && s.results[j].instance.Some?
        && Same(s.results[i].instance.value, s.results[j].instance.value))
  }

  predicate Nameless(r: Result, key: Key) {
    r.key == key && r.instance == Some([])
  }

  predicate HasNameless(s: Search, key: Key) {
    exists i :: 0 <= i < |s.results| && Nameless(s.results[i], key)
  }

  /** At most one result without a name for each interface and protocol. */
  ghost predicate NamelessOnce(s: Search) {
    forall i, j :: 0 <= i < j < |s.results| && Nameless(s.results[i], s.results[i].key) ==>
      !Nameless(s.results[j], s.results[i].key)
  }

  /** A search for PTR records tells its results apart by name exactly if at most one
      of each interface and protocol has the empty name. */
  lemma UniqueWhen(s: Search)
    requires Sound(s) && s.qtype == PTR
    ensures Unique(s) <==> NamelessOnce(s)
  {
    hide Names.SameFold;
    EmptySame();
    if NamelessOnce(s) {
      forall i, j | 0 <= i < j < |s.results| && s.results[i].key == s.results[j].key
          && s.results[i].instance.Some? && s.results[j].instance.Some?
        ensures !Same(s.results[i].instance.value, s.results[j].instance.value)
      {
        if |s.results[i].instance.value| > 0 { assert !SameResult(s.results[i], s.results[j]); }
      }
    }
  }

  lemma EmptySame()
    ensures forall x: Str :: Same([], x) <==> x == []
  {
  }

  /** The record names the instance with the empty name. */
  predicate NamesNothing(e: Event, key: Key) {
    match e
    case Ip(_, _, _, _) => false
    case Ptr(instance, k, _) => instance == [] && k == key
    case Srv(instance, _, _, k, _) => instance == [] && k == key
    case Txt(instance, _, k, _) => instance == [] && k == key
  }

  /** A PTR record for the empty name while there is a result for it already, and room. */
  predicate Repeats(s: Search, e: Event) {
    e.Ptr? && e.instance == [] && HasNameless(s, e.key) && !Full(s)
  }

  /** Same results, as far as interface, protocol and name go. */
  predicate SameNames(a: seq<Result>, b: seq<Result>) {
    |a| == |b| && forall i :: 0 <= i < |a| ==> a[i].key == b[i].key && a[i].instance == b[i].instance
  }

  /** The results of `b` behind one new result. */
  predicate OneMore(a: seq<Result>, b: seq<Result>, key: Key, instance: Str) {
    a != [] && a[0].key == key && a[0].instance == Some(instance) && SameNames(a[1..], b)
  }

  lemma SelfNames(a: seq<Result>)
    ensures SameNames(a, a)
  {
  }

  lemma SameNamesOnce(s: Search, s': Search)
    requires SameNames(s'.results, s.results)
    ensures NamelessOnce(s') <==> NamelessOnce(s)
    ensures forall key :: HasNameless(s', key) <==> HasNameless(s, key)
  {
    forall key ensures HasNameless(s', key) <==> HasNameless(s, key) {
      assert forall i :: 0 <= i < |s.results| ==> (Nameless(s'.results[i], key) <==> Nameless(s.results[i], key));
    }
  }

  lemma OneMoreOnce(s: Search, s': Search, key: Key, instance: Str)
    requires OneMore(s'.results, s.results, key, instance)
    ensures NamelessOnce(s') <==> NamelessOnce(s) && !(instance == [] && HasNameless(s, key))
    ensures forall k :: HasNameless(s', k) <==> HasNameless(s, k) || (instance == [] && k == key)
  {
    var a, b := s'.results, s.results;
    assert forall i :: 0 <= i < |b| ==> a[i + 1] == a[1..][i];
    assert forall i, k :: 0 <= i < |b| ==> (Nameless(a[i + 1], k) <==> Nameless(b[i], k));
    forall k ensures HasNameless(s', k) <==> HasNameless(s, k) || (instance == [] && k == key) {
      if HasNameless(s, k) {
        var i :| 0 <= i < |b| && Nameless(b[i], k);
        assert Nameless(a[i + 1], k);
      }
      if instance == [] && k == key { assert Nameless(a[0], k); }
      if HasNameless(s', k) {
        var i :| 0 <= i < |a| && Nameless(a[i], k);
        if i > 0 { assert Nameless(b[i - 1], k); }
      }
    }
    MoreOnce(s, s', key, instance);
  }

  lemma MoreOnce(s: Search, s': Search, key: Key, instance: Str)
    requires OneMore(s'.results, s.results, key, instance)
    ensures NamelessOnce(s') <==> NamelessOnce(s) && !(instance == [] && HasNameless(s, key))
  {
    var a, b := s'.results, s.results;
    forall i | 0 <= i < |b| ensures a[i + 1].key == b[i].key && a[i + 1].instance == b[i].instance {
      assert a[i + 1] == a[1..][i];
    }
    if NamelessOnce(s') {
      forall i, j | 0 <= i < j < |b| && Nameless(b[i], b[i].key) ensures !Nameless(b[j], b[i].key) {
        assert Nameless(a[i + 1], a[i + 1].key) && !Nameless(a[j + 1], a[i + 1].key);
      }
      if instance == [] {
        forall i | 0 <= i < |b| ensures !Nameless(b[i], key) {
          assert Nameless(a[0], a[0].key) && !Nameless(a[i + 1], a[0].key);
        }
      }
    }
    if NamelessOnce(s) && !(instance == [] && HasNameless(s, key)) {
      forall i, j | 0 <= i < j < |a| && Nameless(a[i], a[i].key) ensures !Nameless(a[j], a[i].key) {
        if i == 0 {
          assert !Nameless(b[j - 1], key);
        } else {
          assert Nameless(b[i - 1], b[i - 1].key);
          assert !Nameless(b[j - 1], b[i - 1].key);
        }
      }
    }
  }

  /** What a PTR record for a name does to the names. */
  lemma PtrNames(s: Search, instance: Str, key: Key, ttl: nat)
    ensures var s' := AddPtr(s, instance, key, ttl);
      && s'.maxResults == s.maxResults && s'.qtype == s.qtype
      && (SameNames(s'.results, s.results) || (!Full(s) && OneMore(s'.results, s.results, key, instance)))
      && (instance == [] ==> if Full(s) then s' == s else OneMore(s'.results, s.results, key, []))
  {
    EmptySame();
    hide Names.SameFold;
    SelfNames(s.results);
    var i := First(s.results, (r: Result) => OfInstance(r, key, instance));
    if i == |s.results| && !Full(s) {
      var r := Result(key, Some(instance), None, 0, None, [], ttl);
      assert ([r] + s.results)[1..] == s.results;
    }
  }

  lemma TargetNames(s: Search, instance: Str, key: Key, ttl: nat)
    ensures var s' := Target(s, instance, key, ttl).0;
      && s'.maxResults == s.maxResults && s'.qtype == s.qtype
      && (SameNames(s'.results, s.results) || (!Full(s) && OneMore(s'.results, s.results, key, instance)))
      && (instance == [] ==> if HasNameless(s, key) || Full(s) then s' == s else OneMore(s'.results, s.results, key, []))
  {
    hide AddPtr;
    SelfNames(s.results);
    PtrNames(s, instance, key, ttl);
    var i := First(s.results, (r: Result) => ExactInstance(r, key, instance));
    if instance == [] && i < |s.results| { assert Nameless(s.results[i], key); }
    if instance == [] && HasNameless(s, key) {
      var j :| 0 <= j < |s.results| && Nameless(s.results[j], key);
      assert ExactInstance(s.results[j], key, instance);
    }
  }

  lemma ChangedNames(s: Search, t: Search, s': Search, key: Key, instance: Str)
    requires SameNames(s'.results, t.results)
    ensures SameNames(t.results, s.results) ==> SameNames(s'.results, s.results)
    ensures OneMore(t.results, s.results, key, instance) ==> OneMore(s'.results, s.results, key, instance)
  {
    if OneMore(t.results, s.results, key, instance) {
      forall i | 0 <= i < |s.results|
        ensures s'.results[1..][i].key == s.results[i].key && s'.results[1..][i].instance == s.results[i].instance
      {
        assert s'.results[1..][i] == s'.results[i + 1] && t.results[1..][i] == t.results[i + 1];
      }
    }
  }

  /** What any record does to the names of a search for PTR records: nothing, or one
      new result for the name of the record. */
  lemma StepNames(s: Search, e: Event)
    requires s.qtype == PTR
    ensures var s' := Step(s, e);
      && s'.maxResults == s.maxResults && s'.qtype == PTR
      && (SameNames(s'.results, s.results)
          || (!e.Ip? && !Full(s) && OneMore(s'.results, s.results, e.key, e.instance)))
      && (!e.Ip? && e.instance == [] ==>
            if Full(s) || (!e.Ptr? && HasNameless(s, e.key)) then SameNames(s'.results, s.results)
            else OneMore(s'.results, s.results, e.key, []))
  {
    hide Full, OneMore, HasNameless;
    SelfNames(s.results);
    match e
    case Ip(hostname, address, key, ttl) =>
    case Ptr(instance, key, ttl) =>
      hide AddPtr, SameNames;
      PtrNames(s, instance, key, ttl);
    case Srv(instance, hostname, port, key, ttl) =>
      hide Target;
      TargetNames(s, instance, key, ttl);
      var t := Target(s, instance, key, ttl).0;
      SelfNames(t.results);
      ChangedNames(s, t, Step(s, e), key, instance);
    case Txt(instance, txt, key, ttl) =>
      hide Target;
      TargetNames(s, instance, key, ttl);
      var t := Target(s, instance, key, ttl).0;
      SelfNames(t.results);
      ChangedNames(s, t, Step(s, e), key, instance);
  }

  /** One record leaves at most one result without a name exactly if it does not repeat
      the empty name. */
  lemma StepOnce(s: Search, e: Event)
    requires s.qtype == PTR
    ensures NamelessOnce(Step(s, e)) <==> NamelessOnce(s) && !Repeats(s, e)
    ensures forall key :: HasNameless(Step(s, e), key) <==> HasNameless(s, key) || (NamesNothing(e, key) && !Full(s))
    ensures Step(s, e).qtype == PTR && Step(s, e).maxResults == s.maxResults
  {
    hide Step, Full, OneMore, SameNames, HasNameless, NamelessOnce;
    StepNames(s, e);
    var s' := Step(s, e);
    if SameNames(s'.results, s.results) {
      SameNamesOnce(s, s');
    }
    if !e.Ip? && OneMore(s'.results, s.results, e.key, e.instance) {
      OneMoreOnce(s, s', e.key, e.instance);
    }
    assert SameNames(s'.results, s.results) ==> |s'.results| == |s.results| by { NamesLength(s'.results, s.results); }
  }

  lemma NamesLength(a: seq<Result>, b: seq<Result>)
    ensures SameNames(a, b) ==> |a| == |b|
  {
  }

  ghost predicate NeverRepeats(s: Search, events: seq<Event>)
    decreases |events|
  {
    events == [] || (!Repeats(s, events[0]) && NeverRepeats(Step(s, events[0]), events[1..]))
  }

  lemma {:induction false} RunOnce(s: Search, events: seq<Event>)
    requires s.qtype == PTR
    ensures NamelessOnce(Run(s, events)) <==> NamelessOnce(s) && NeverRepeats(s, events)
    ensures Run(s, events).qtype == PTR
    decreases |events|
  {
    hide Step, NamelessOnce, Repeats;
    if events != [] {
      StepOnce(s, events[0]);
      RunOnce(Step(s, events[0]), events[1..]);
    }
  }

  /** After any records the results of a search for PTR records differ in interface,
      protocol or name, exactly if no PTR record repeats the empty name. */
  lemma RunUnique(instance: Option<Str>, maxResults: nat, events: seq<Event>)
    requires maxResults < 256
    ensures Unique(Run(Fresh(PTR, instance, maxResults), events)) <==> NeverRepeats(Fresh(PTR, instance, maxResults), events)
  {
    hide Run, Unique, NamelessOnce, NeverRepeats, Sound;
    var s := Fresh(PTR, instance, maxResults);
    FreshSound(PTR, instance, maxResults);
    RunKeeps(s, events);
    RunOnce(s, events);
    UniqueWhen(Run(s, events));
    assert NamelessOnce(s) by { NoneNameless(s); }
  }

  lemma NoneNameless(s: Search)
    requires s.results == []
    ensures NamelessOnce(s) && forall key :: !HasNameless(s, key)
  {
  }

  /** In front of a PTR record for the empty name, no record for the same interface and
      protocol has that name. */
  ghost predicate NamelessFirst(events: seq<Event>) {
    forall i, j :: 0 <= i < j < |events| && events[j].Ptr? && events[j].instance == [] ==> !NamesNothing(events[i], events[j].key)
  }

  /** ... and no result has. */
  ghost predicate NoneYet(s: Search, events: seq<Event>) {
    forall j :: 0 <= j < |events| && events[j].Ptr? && events[j].instance == [] ==> !HasNameless(s, events[j].key)
  }

  lemma {:induction false} UnlimitedRepeats(s: Search, events: seq<Event>)
    requires s.qtype == PTR && s.maxResults == 0
    ensures NeverRepeats(s, events) <==> NoneYet(s, events) && NamelessFirst(events)
    decreases |events|
  {
    hide Step, HasNameless, NamesNothing;
    if events != [] {
      var e, rest := events[0], events[1..];
      StepOnce(s, e);
      UnlimitedRepeats(Step(s, e), rest);
      assert forall j :: 0 < j < |events| ==> events[j] == rest[j - 1];
      FirstSplit(events);
      YetSplit(s, events);
    }
  }

  lemma FirstSplit(events: seq<Event>)
    requires events != []
    ensures NamelessFirst(events) <==>
      && NamelessFirst(events[1..])
      && forall j :: 0 <= j < |events[1..]| && events[1..][j].Ptr? && events[1..][j].instance == [] ==>
           !NamesNothing(events[0], events[1..][j].key)
  {
    hide NamesNothing;
    var e, rest := events[0], events[1..];
    assert forall j :: 0 <= j < |rest| ==> events[j + 1] == rest[j];
    if NamelessFirst(events) {
      forall i, j | 0 <= i < j < |rest| && rest[j].Ptr? && rest[j].instance == [] ensures !NamesNothing(rest[i], rest[j].key) {
        assert !NamesNothing(events[i + 1], events[j + 1].key);
      }
      forall j | 0 <= j < |rest| && rest[j].Ptr? && rest[j].instance == [] ensures !NamesNothing(e, rest[j].key) {
        assert !NamesNothing(events[0], events[j + 1].key);
      }
    }
    if NamelessFirst(rest) && forall j :: 0 <= j < |rest| && rest[j].Ptr? && rest[j].instance == [] ==> !NamesNothing(e, rest[j].key) {
      forall i, j | 0 <= i < j < |events| && events[j].Ptr? && events[j].instance == [] ensures !NamesNothing(events[i], events[j].key) {
        assert events[j] == rest[j - 1];
        if i > 0 { assert events[i] == rest[i - 1]; }
      }
    }
  }

  lemma YetSplit(s: Search, events: seq<Event>)
    requires events != []
    ensures NoneYet(s, events) <==>
      !(events[0].Ptr? && events[0].instance == [] && HasNameless(s, events[0].key)) && NoneYet(s, events[1..])
  {
    hide HasNameless;
    var rest := events[1..];
    assert forall j :: 0 <= j < |rest| ==> events[j + 1] == rest[j];
    if NoneYet(s, events) {
      forall j | 0 <= j < |rest| && rest[j].Ptr? && rest[j].instance == [] ensures !HasNameless(s, rest[j].key) {
        assert !HasNameless(s, events[j + 1].key);
      }
    }
    if NoneYet(s, rest) {
      forall j | 0 < j < |events| && events[j].Ptr? && events[j].instance == [] ensures !HasNameless(s, events[j].key) {
        assert events[j] == rest[j - 1];
      }
    }
  }

  /** Without a limit this can be told from the records alone: no PTR record for the
      empty name comes behind another record for it. */
  lemma UnlimitedUnique(instance: Option<Str>, events: seq<Event>)
    ensures Unique(Run(Fresh(PTR, instance, 0), events)) <==> NamelessFirst(events)
  {
    hide Run, Unique, NeverRepeats, NamelessFirst;
    var s := Fresh(PTR, instance, 0);
    RunUnique(instance, 0, events);
    UnlimitedRepeats(s, events);
    NoneNameless(s);
  }

  /** Two PTR records whose target is the root name leave two results that nothing
      tells apart. */
  lemma RootNameTwice(instance: Option<Str>, key: Key, ttl: nat)
    ensures var e := Ptr([], key, ttl); var s := Run(Fresh(PTR, instance, 0), [e, e]);
      |s.results| == 2 && s.results[0] == s.results[1] == Result(key, Some([]), None, 0, None, [], ttl) && !Unique(s)
  {
    var e := Ptr([], key, ttl);
    var s := Fresh(PTR, instance, 0);
    EmptySame();
    assert [e, e][1..] == [e] && [e][1..] == [];
    var s1 := Step(s, e);
    NewInstance(s, [], key, ttl);
    NewInstance(s1, [], key, ttl);
    assert Run(Step(s1, e), []) == Step(s1, e);
    assert Run(s1, [e]) == Step(s1, e);
  }

  // ----------------------------------------------- a search without a limit

  function Label(i: nat): Str {
    seq(i + 1, _ => 97)
  }

  /** PTR records of n instances with different names. */
  function Flood(n: nat): seq<Event> {
    seq(n, i requires 0 <= i < n => Ptr(Label(i), Key(0, V4), 120))
  }

  lemma {:induction false} RunOn(s: Search, events: seq<Event>, e: Event)
    ensures Run(s, events + [e]) == Step(Run(s, events), e)
    decreases |events|
  {
    hide Step;
    if events == [] {
      assert [] + [e] == [e];
      assert Run(Step(s, e), [e][1..]) == Step(s, e);
    } else {
      assert (events + [e])[0] == events[0] && (events + [e])[1..] == events[1..] + [e];
      RunOn(Step(s, events[0]), events[1..], e);
    }
  }

  lemma NothingRun(s: Search)
    ensures Run(s, []) == s
  {
  }

  lemma NewInstance(s: Search, instance: Str, key: Key, ttl: nat)
    requires !Full(s) && forall i :: 0 <= i < |s.results| ==> !OfInstance(s.results[i], key, instance)
    ensures AddPtr(s, instance, key, ttl) == s.(results := [Result(key, Some(instance), None, 0, None, [], ttl)] + s.results,
                                                numResults := (s.numResults + 1) % 256)
  {
  }

  lemma OtherLabel(r: Result, i: nat, j: nat)
    requires r.instance == Some(Label(i)) && i != j
    ensures !OfInstance(r, Key(0, V4), Label(j))
  {
    assert |Label(i)| != |Label(j)|;
  }

  lemma {:induction false} FloodFills(n: nat)
    ensures var s := Run(Fresh(PTR, None, 0), Flood(n));
      && s.qtype == PTR && s.maxResults == 0 && |s.results| == n && s.numResults == n % 256
      && forall i :: 0 <= i < n ==> s.results[i].instance == Some(Label(n - 1 - i))
  {
    hide Label, OfInstance, AddPtr, Run;
    if n == 0 {
      NothingRun(Fresh(PTR, None, 0));
    } else {
      FloodFills(n - 1);
      assert Flood(n) == Flood(n - 1) + [Ptr(Label(n - 1), Key(0, V4), 120)];
      RunOn(Fresh(PTR, None, 0), Flood(n - 1), Ptr(Label(n - 1), Key(0, V4), 120));
      var s := Run(Fresh(PTR, None, 0), Flood(n - 1));
      forall i | 0 <= i < |s.results| ensures !OfInstance(s.results[i], Key(0, V4), Label(n - 1)) {
        OtherLabel(s.results[i], n - 2 - i, n - 1);
      }
      NewInstance(s, Label(n - 1), Key(0, V4), 120);
    }
  }

  /** The counter of a search without a limit is back at zero after 256 results. */
  lemma CounterWraps()
    ensures var s := Run(Fresh(PTR, None, 0), Flood(256)); |s.results| == 256 && s.numResults == 0
  {
    hide Run;
    FloodFills(256);
  }

  // -------------------------------------------------------------- the loops

  lemma {:induction false} FirstIs(results: seq<Result>, test: Result -> bool, i: nat)
    requires i <= |results| && (i < |results| ==> test(results[i]))
    requires forall k :: 0 <= k < i ==> !test(results[k])
    ensures First(results, test) == i
    decreases |results|
  {
    if i > 0 {
      forall k | 0 <= k < i - 1 ensures !test(results[1..][k]) {
        assert results[1..][k] == results[k + 1];
      }
      FirstIs(results[1..], test, i - 1);
    }
  }

  class SearchOnce {
    const qtype: RecordType
    const instance: Option<Str>
    const maxResults: nat
    var numResults: nat
    var results: seq<Result>

    function Model(): Search
      reads this
    {
      Search(qtype, instance, maxResults, numResults, results)
    }

    constructor (qtype: RecordType, instance: Option<Str>, maxResults: nat)
      ensures Model() == Fresh(qtype, instance, maxResults)
    {
      this.qtype, this.instance, this.maxResults := qtype, instance, maxResults;
      numResults, results := 0, [];
    }

    method PushResult(r: Result) returns (added: bool)
      modifies this
      ensures Model() == Push(old(Model()), r) && added == !Full(old(Model()))
    {
      if maxResults == 0 || numResults < maxResults {
        results := [r] + results;
        numResults := (numResults + 1) % 256;
        return true;
      }
      return false;
    }

    /** _mdns_result_add_ip with the TTL update that follows it */
    method AddAddressAt(i: nat, a: Address, ttl: nat)
      requires i < |results|
      modifies this`results
      ensures Model() == old(Model()).(results := old(results)[i := WithAddress(old(results)[i], a, ttl)])
    {
      var r := results[i];
      var k := 0;
      while k < |r.addresses| && r.addresses[k] != a
        invariant k <= |r.addresses| && a !in r.addresses[..k]
      {
        k := k + 1;
      }
      if k == |r.addresses| {
        assert r.addresses[..k] == r.addresses;
        r := r.(addresses := [a] + r.addresses);
      }
      if ttl <= r.ttl {
        r := r.(ttl := ttl);
      }
      results := results[i := r];
    }

    /** _mdns_search_result_add_ip */
    method AddIpResult(hostname: Str, a: Address, key: Key, ttl: nat)
      modifies this
      ensures Model() == AddIp(old(Model()), hostname, a, key, ttl)
    {
      var i := 0;
      if (qtype == A && a.protocol == V4) || (qtype == AAAA && a.protocol == V6) || qtype == ANY {
        while i < |results| && results[i].key != key
          invariant i <= |results| && forall k :: 0 <= k < i ==> results[k].key != key
        {
          i := i + 1;
        }
        FirstIs(results, (r: Result) => r.key == key, i);
        if i < |results| {
          AddAddressAt(i, a, ttl);
          return;
        }
        var added := PushResult(Result(key, None, Some(hostname), 0, None, [a], ttl));
      } else if qtype == PTR || qtype == SRV {
        while i < |results| && !OnHost(results[i], key, hostname)
          invariant i <= |results| && forall k :: 0 <= k < i ==> !OnHost(results[k], key, hostname)
        {
          i := i + 1;
        }
        FirstIs(results, (r: Result) => OnHost(r, key, hostname), i);
        if i < |results| {
          AddAddressAt(i, a, ttl);
        }
      }
    }

    /** _mdns_search_result_add_ptr; the result it returns is given by its index. */
    method AddPtrResult(instanceName: Str, key: Key, ttl: nat) returns (r: Option<nat>)
      modifies this
      ensures Model() == AddPtr(old(Model()), instanceName, key, ttl)
      ensures r == PtrResult(old(Model()), instanceName, key)
    {
      var i := 0;
      while i < |results| && !OfInstance(results[i], key, instanceName)
        invariant i <= |results| && forall k :: 0 <= k < i ==> !OfInstance(results[k], key, instanceName)
      {
        i := i + 1;
      }
      FirstIs(results, (r: Result) => OfInstance(r, key, instanceName), i);
      if i < |results| {
        results := results[i := Shorten(results[i], ttl)];
        return Some(i);
      }
      var added := PushResult(Result(key, Some(instanceName), None, 0, None, [], ttl));
      return if added then Some(0) else None;
    }

    /** _mdns_search_result_add_srv */
    method AddSrvResult(hostname: Str, port: nat, key: Key, ttl: nat)
      modifies this
      ensures Model() == AddSrv(old(Model()), hostname, port, key, ttl)
    {
      var i := 0;
      while i < |results| && !OnHost(results[i], key, hostname)
        invariant i <= |results| && forall k :: 0 <= k < i ==> !OnHost(results[k], key, hostname)
      {
        i := i + 1;
      }
      FirstIs(results, (r: Result) => OnHost(r, key, hostname), i);
      if i < |results| {
        results := results[i := Shorten(results[i], ttl)];
        return;
      }
      var added := PushResult(Result(key, instance, Some(hostname), port, None, [], ttl));
    }

    /** _mdns_search_result_add_txt */
    method AddTxtResult(txt: nat, key: Key, ttl: nat)
      modifies this
      ensures Model() == AddTxt(old(Model()), txt, key, ttl)
    {
      var i := 0;
      while i < |results| && results[i].key != key
        invariant i <= |results| && forall k :: 0 <= k < i ==> results[k].key != key
      {
        i := i + 1;
      }
      FirstIs(results, (r: Result) => r.key == key, i);
      if i < |results| {
        if results[i].txt.None? {
          results := results[i := Shorten(results[i], ttl).(txt := Some(txt))];
        }
        return;
      }
      var added := PushResult(Result(key, None, None, 0, Some(txt), [], ttl));
    }
  }
}
