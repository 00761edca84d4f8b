/** The parser's walk over a received packet: question and record headers, bounds,
    progress, and what it finds where the responder wrote a record. */
module RecordParser {
  import opened Options
  import opened Names
  import opened NameWriter
  import opened NameRoundTrip
  import opened Records

  /** _mdns_parse_fqdn */
  function ParseFqdn(p: seq<byte>, at: nat, beyond: byte): Option<(FullName, nat)> {
    match Read(p, at, NO_NAME, beyond)
    case None => None
    case Some(r) => Some((Arrange(r.0), r.1))
  }

  function GetU16(p: seq<byte>, i: nat): nat
    requires i + 2 <= |p|
  {
    p[i] as int * 256 + p[i + 1]
  }

  function GetU32(p: seq<byte>, i: nat): nat
    requires i + 4 <= |p|
  {
    GetU16(p, i) * 0x10000 + GetU16(p, i + 2)
  }

  datatype Question = Question(name: FullName, qtype: nat, qclass: nat, unicast: bool)
  datatype Record = Record(name: FullName, rtype: nat, rclass: nat, ttl: nat, dataAt: nat, dataLen: nat)

  /** One question and the position behind it; None where the parser gives up. */
  function ParseQuestion(p: seq<byte>, at: nat, beyond: byte): (r: Option<(Question, nat)>)
    ensures r.Some? ==> at < r.value.1 <= |p|
  {
    match ParseFqdn(p, at, beyond)
    case None => None
    case Some((name, content)) =>
      if content + 3 >= |p| then None
      else
        var c := GetU16(p, content + 2);
        Some((Question(name, GetU16(p, content), c % 0x8000, c >= 0x8000), content + 4))
  }

  /** One record and the position behind it; None where the parser gives up. */
  function ParseRecord(p: seq<byte>, at: nat, beyond: byte): (r: Option<(Record, nat)>)
    ensures r.Some? ==>
      var d := r.value.0;
      at < d.dataAt && d.dataLen > 0 && d.dataAt + d.dataLen == r.value.1 <= |p| && at + 12 <= r.value.1
  {
    match ParseFqdn(p, at, beyond)
    case None => None
    case Some((name, content)) =>
      if content + 9 >= |p| then None
      else
        var dataLen := GetU16(p, content + 8);
        if content + 10 + dataLen > |p| || dataLen == 0 then None
        else Some((Record(name, GetU16(p, content), GetU16(p, content + 2) % 0x8000, GetU32(p, content + 4),
                          content + 10, dataLen), content + 10 + dataLen))
  }

  /** The records from a position to the end of the packet, up to the first that the
      parser gives up on. */
  function ParseRecords(p: seq<byte>, at: nat, beyond: byte): seq<Record>
    decreases |p| - at
  {
    if at >= |p| then []
    else
      match ParseRecord(p, at, beyond)
      case None => []
      case Some((d, next)) => [d] + ParseRecords(p, next, beyond)
  }

  /** The header of a packet says how many questions there are; the counter is one byte. */
  function ParseQuestions(p: seq<byte>, at: nat, count: nat, beyond: byte): Option<(seq<Question>, nat)>
    decreases count
  {
    if count == 0 then Some(([], at))
    else
      match ParseQuestion(p, at, beyond)
      case None => None
      case Some((q, next)) =>
        match ParseQuestions(p, next, count - 1, beyond)
        case None => None
        case Some(rest) => Some(([q] + rest.0, rest.1))
  }

  // -------------------------------------------------------------- bounds

  /** Whatever the packet holds, at most four parts are stored, each short enough for
      its field. */
  lemma {:induction false} FoldFits(n: Name, ts: seq<Token>)
    requires |n.parts| <= 4 && forall i :: 0 <= i < |n.parts| ==> |n.parts[i]| <= NAME_MAX_LEN
    requires forall i :: 0 <= i < |ts| && ts[i].Text? ==> |ts[i].raw| <= 63
    ensures |Fold(n, ts).parts| <= 4
    ensures forall i :: 0 <= i < |Fold(n, ts).parts| ==> |Fold(n, ts).parts[i]| <= NAME_MAX_LEN
    decreases |ts|
  {
    if ts != [] {
      assert ts[0].Text? ==> |CString(ts[0].raw)| <= 63;
      FoldFits(Visit(n, ts[0]), ts[1..]);
    }
  }

  lemma {:induction false} LabelsShort(p: seq<byte>, start: nat, i: nat, beyond: byte)
    ensures var t := Tokens(p, start, i, beyond);
      t.Some? ==> forall k :: 0 <= k < |t.value.0| && t.value.0[k].Text? ==> |t.value.0[k].raw| <= 63
    decreases start, |p| + 1 - i
  {
    if i < |p| && 0 < p[i] <= 63 && i + 1 + p[i] <= |p| {
      LabelsShort(p, start, i + 1 + p[i], beyond);
    } else if i < |p| && p[i] >= 0xC0 && Target(p, i, beyond) < start {
      LabelsShort(p, Target(p, i, beyond), Target(p, i, beyond), beyond);
    }
  }

  lemma NameFits(p: seq<byte>, at: nat, beyond: byte)
    ensures var r := Read(p, at, NO_NAME, beyond);
      r.Some? ==>
        && |r.value.0.parts| <= 4 && at < r.value.1
        && forall i :: 0 <= i < |r.value.0.parts| ==> |r.value.0.parts[i]| <= NAME_MAX_LEN
  {
    hide Fold, Tokens;
    LabelsShort(p, at, at, beyond);
    var t := Tokens(p, at, at, beyond);
    if t.Some? {
      FoldFits(NO_NAME, t.value.0);
    }
  }

  /** The record loop ends: records follow one another without overlap inside the
      packet, each takes at least twelve bytes, so the 16-bit record counter does not wrap. */
  lemma {:induction false} RecordsFollow(p: seq<byte>, at: nat, beyond: byte)
    ensures var ds := ParseRecords(p, at, beyond);
      && (at <= |p| ==> 12 * |ds| <= |p| - at)
      && (forall i :: 0 <= i < |ds| ==> at < ds[i].dataAt && ds[i].dataAt + ds[i].dataLen <= |p|)
      && (forall i :: 0 < i < |ds| ==> ds[i - 1].dataAt + ds[i - 1].dataLen < ds[i].dataAt)
    decreases |p| - at
  {
    if at < |p| && ParseRecord(p, at, beyond).Some? {
      var (d, next) := ParseRecord(p, at, beyond).value;
      hide ParseRecord;
      RecordsFollow(p, next, beyond);
      var ds := ParseRecords(p, at, beyond);
      var rest := ParseRecords(p, next, beyond);
      assert ds == [d] + rest;
      forall i | 0 < i < |ds| ensures ds[i - 1].dataAt + ds[i - 1].dataLen < ds[i].dataAt {
        assert ds[i] == rest[i - 1];
        if i > 1 {
          assert ds[i - 1] == rest[i - 2];
        }
      }
    }
  }

  /** Questions are never read past the end of the packet. */
  lemma {:induction false} QuestionsFollow(p: seq<byte>, at: nat, count: nat, beyond: byte)
    requires at <= |p|
    ensures var r := ParseQuestions(p, at, count, beyond);
      r.Some? ==> |r.value.0| == count && at + 5 * count <= r.value.1 <= |p|
    decreases count
  {
    if count > 0 && ParseQuestion(p, at, beyond).Some? {
      QuestionsFollow(p, ParseQuestion(p, at, beyond).value.1, count - 1, beyond);
    }
  }

  // -------------------------------------------------- a written record, parsed

  lemma FieldsRead(p: seq<byte>, e: nat, rtype: nat, rclass: nat, ttl: nat, dataLen: nat)
    requires rtype < 0x10000 && rclass < 0x10000 && ttl < 0x1_0000_0000 && dataLen < 0x10000
    requires e + FIXED <= |p| && p[e..e + FIXED] == Fields(rtype, rclass, ttl, dataLen)
    ensures GetU16(p, e) == rtype && GetU16(p, e + 2) == rclass && GetU32(p, e + 4) == ttl
    ensures GetU16(p, e + 8) == dataLen
  {
    var f := p[e..e + FIXED];
    assert p[e] == f[0] && p[e + 1] == f[1] && p[e + 2] == f[2] && p[e + 3] == f[3] && p[e + 4] == f[4];
    assert p[e + 5] == f[5] && p[e + 6] == f[6] && p[e + 7] == f[7] && p[e + 8] == f[8] && p[e + 9] == f[9];
  }

  /** Whoever receives the packet up to the end of a framed record parses the record at
      the place where it was written: same owner, type, class, TTL and data length, and
      the next record begins behind it. */
  lemma FramedRecordParses(o: Out, r: Outcome, names: seq<CStr>, rtype: nat, rclass: nat, ttl: nat, beyond: byte)
    requires Sized(o) && rtype < 0x10000 && rclass < 0x10000 && ttl < 0x1_0000_0000
    requires Room(o, names) && Proper(names) && Points(o, names, o.index, beyond)
    requires Framed(o, r, names, rtype, rclass, ttl, beyond)
    requires r.out.index > AppendFqdn(o, names, beyond).index + FIXED
    ensures var p := r.out.buf[..r.out.index]; var e := AppendFqdn(o, names, beyond).index;
      var back := Read(p, o.index, NO_NAME, beyond);
      && back.Some? && Spells(back.value.0.parts, names)
      && ParseRecord(p, o.index, beyond) == Some((
           Record(Arrange(back.value.0), rtype, rclass % 0x8000, ttl, e + FIXED, r.out.index - e - FIXED), r.out.index))
  {
    hide AppendFqdn, Fields, Points, Read, Arrange, Spells, GetU16, GetU32;
    var named := AppendFqdn(o, names, beyond);
    var e := named.index;
    var p := r.out.buf[..r.out.index];
    SameSlice(p, r.out.buf, r.out.index, 0, o.index);
    SameSlice(p, r.out.buf, r.out.index, o.index, e);
    SameSlice(r.out.buf, named.buf, e, 0, o.index);
    SameSlice(r.out.buf, named.buf, e, o.index, e);
    ReadsLater(o, names, o.index, p, beyond);
    SameSlice(p, r.out.buf, r.out.index, e, e + FIXED);
    FieldsRead(p, e, rtype, rclass, ttl, r.out.index - e - FIXED);
  }

  /** The name in the data of a record reads back too, when its candidate ends before
      the fixed fields. */
  lemma DataNameReads(o: Out, head: Outcome, o2: Out, data: seq<CStr>, e: nat, beyond: byte)
    requires Sized(o) && e + FIXED == head.out.index <= o2.index
    requires Sized(o2) && Room(o2, data) && Proper(data) && Points(o2, data, e, beyond)
    requires var r := NameData(head, o2, data, beyond); var o3 := AppendFqdn(o2, data, beyond);
      && Sized(r.out) && r.out.index == o3.index
      && r.out.buf[head.out.index..] == o3.buf[head.out.index..]
      && r.out.buf[..head.out.index - 2] == o3.buf[..head.out.index - 2]
    ensures var r := NameData(head, o2, data, beyond); var p := r.out.buf[..r.out.index];
      var back := Read(p, o2.index, NO_NAME, beyond);
      back.Some? && back.value.1 == r.out.index && Spells(back.value.0.parts, data)
  {
    hide AppendFqdn, Points, Read, Spells, NameData;
    var r := NameData(head, o2, data, beyond);
    var o3 := AppendFqdn(o2, data, beyond);
    var p := r.out.buf[..r.out.index];
    SameSlice(p, r.out.buf, r.out.index, 0, e);
    SameSlice(r.out.buf, o3.buf, head.out.index - 2, 0, e);
    SameSlice(p, r.out.buf, r.out.index, o2.index, o3.index);
    DropSlice(r.out.buf, o3.buf, head.out.index, o2.index, o3.index);
    ReadsLater(o2, data, e, p, beyond);
  }

  lemma DropSlice(p: seq<byte>, q: seq<byte>, lo: nat, a: nat, b: nat)
    requires lo <= a <= b <= |p| == |q| && p[lo..] == q[lo..]
    ensures p[a..b] == q[a..b]
  {
    assert p[lo..|p|] == q[lo..|q|];
    SameInner(p, q, lo, |p|, a, b);
  }

  /** The packet ends with a PTR record of these contents at `at`. */
  predicate PtrAt(p: seq<byte>, at: nat, names: seq<CStr>, ttl: nat, target: seq<CStr>, beyond: byte) {
    var d := ParseRecord(p, at, beyond);
    var owner := Read(p, at, NO_NAME, beyond);
    && d.Some? && owner.Some? && d.value.1 == |p|
    && d.value.0.rtype == TYPE_PTR && d.value.0.rclass == CLASS_IN && d.value.0.ttl == ttl
    && Spells(owner.value.0.parts, names) && d.value.0.name == Arrange(owner.value.0)
    && var back := Read(p, d.value.0.dataAt, NO_NAME, beyond);
       back.Some? && Spells(back.value.0.parts, target) && back.value.1 == |p|
  }

  /** The candidate for the target ends before the fixed fields of the record. */
  predicate TargetPoints(o: Out, names: seq<CStr>, ttl: nat, target: seq<CStr>, beyond: byte)
    requires Sized(o) && ttl < 0x1_0000_0000
  {
    var head := Begin(o, names, TYPE_PTR, false, ttl, beyond).out;
    var e := AppendFqdn(o, names, beyond).index;
    e <= head.index && Points(head, target, e, beyond)
  }

  /** A PTR record with room comes back whole: owner, type, class, TTL and target. */
  lemma PtrReadsBack(o: Out, instance: CStr, service: CStr, proto: CStr, bye: bool, beyond: byte,
                     names: seq<CStr>, data: seq<CStr>, ttl: nat)
    requires Sized(o) && names == [service, proto, LOCAL] && data == [instance, service, proto, LOCAL]
    requires ttl == if bye then 0 else PTR_TTL
    requires Short(data) && Proper(names) && Proper(data) && RecordRoom(o, names, Uncompressed(data))
    requires Points(o, names, o.index, beyond) && TargetPoints(o, names, ttl, data, beyond)
    ensures var r := AppendPtr(o, instance, service, proto, bye, beyond).out;
      r.index <= |r.buf| && PtrAt(r.buf[..r.index], o.index, names, ttl, data, beyond)
  {
    hide AppendFqdn, Points, Read, Spells, NameData, Begin, Arrange, Framed, ParseRecord, Proper;
    var head := Begin(o, names, TYPE_PTR, false, ttl, beyond);
    ShorterTail(instance, names);
    BeginFrames(o, names, TYPE_PTR, false, ttl, beyond);
    NameDataFrames(o, head, head.out, data, names, TYPE_PTR, CLASS_IN, ttl, beyond);
    var r := AppendPtr(o, instance, service, proto, bye, beyond);
    GrowthBound(head.out, data, beyond);
    FramedRecordParses(o, r, names, TYPE_PTR, CLASS_IN, ttl, beyond);
    DataNameReads(o, head, head.out, data, AppendFqdn(o, names, beyond).index, beyond);
  }

  lemma ShorterTail(s: CStr, rest: seq<CStr>)
    requires Short([s] + rest)
    ensures Short(rest)
  {
    assert ([s] + rest)[1..] == rest;
  }

  /** The candidate for the host name ends before the fixed fields of the record. */
  predicate HostPoints(o: Out, names: seq<CStr>, ttl: nat, priority: nat, weight: nat, port: nat, host: seq<CStr>,
                       flush: bool, beyond: byte)
    requires Sized(o) && priority < 0x10000 && weight < 0x10000 && port < 0x10000 && ttl < 0x1_0000_0000
  {
    var head := Begin(o, names, TYPE_SRV, flush, ttl, beyond).out;
    var o3 := AppendU16(AppendU16(AppendU16(head, priority), weight), port);
    var e := AppendFqdn(o, names, beyond).index;
    e <= o3.index && Points(o3, host, e, beyond)
  }

  /** The packet ends with an SRV record of these contents at `at`. */
  predicate SrvAt(p: seq<byte>, at: nat, names: seq<CStr>, ttl: nat, priority: nat, weight: nat, port: nat,
                  host: seq<CStr>, beyond: byte)
  {
    var d := ParseRecord(p, at, beyond);
    var owner := Read(p, at, NO_NAME, beyond);
    && d.Some? && owner.Some? && d.value.0.dataLen >= 6 && d.value.1 == |p|
    && d.value.0.rtype == TYPE_SRV && d.value.0.rclass == CLASS_IN && d.value.0.ttl == ttl
    && Spells(owner.value.0.parts, names) && d.value.0.name == Arrange(owner.value.0)
    && var data := d.value.0.dataAt;
       && GetU16(p, data) == priority && GetU16(p, data + 2) == weight && GetU16(p, data + 4) == port
       && var target := Read(p, data + 6, NO_NAME, beyond);
          target.Some? && Spells(target.value.0.parts, host) && target.value.1 == |p|
  }

  /** An SRV record with room comes back whole: owner, priority, weight, port and host. */
  lemma SrvReadsBack(o: Out, instance: CStr, service: CStr, proto: CStr, priority: nat, weight: nat, port: nat,
                     host: CStr, flush: bool, bye: bool, beyond: byte, names: seq<CStr>, data: seq<CStr>, ttl: nat)
    requires Sized(o) && priority < 0x10000 && weight < 0x10000 && port < 0x10000
    requires names == [instance, service, proto, LOCAL] && data == [host, LOCAL]
    requires ttl == if bye then 0 else SRV_TTL
    requires Short(names) && Short(data) && Proper(names) && Proper(data)
    requires RecordRoom(o, names, 6 + Uncompressed(data))
    requires Points(o, names, o.index, beyond)
    requires HostPoints(o, names, ttl, priority, weight, port, data, flush, beyond)
    ensures var r := AppendSrv(o, instance, service, proto, priority, weight, port, host, flush, bye, beyond).out;
      r.index <= |r.buf| && SrvAt(r.buf[..r.index], o.index, names, ttl, priority, weight, port, data, beyond)
  {
    hide AppendFqdn, Points, Read, Spells, NameData, Begin, Arrange, Framed, ParseRecord, AppendU16, GetU16, U16, Uncompressed;
    var rclass := if flush then CLASS_IN_FLUSH else CLASS_IN;
    var head := Begin(o, names, TYPE_SRV, flush, ttl, beyond);
    BeginFrames(o, names, TYPE_SRV, flush, ttl, beyond);
    Put3(head.out, priority, weight, port);
    var o3 := AppendU16(AppendU16(AppendU16(head.out, priority), weight), port);
    assert |host| > 0 by { assert data[0] == host; }
    SrvFraming(o, instance, service, proto, priority, weight, port, host, flush, bye, beyond);
    NameDataFrames(o, head, o3, data, names, TYPE_SRV, rclass, ttl, beyond);
    var r := AppendSrv(o, instance, service, proto, priority, weight, port, host, flush, bye, beyond);
    FramedRecordParses(o, r, names, TYPE_SRV, rclass, ttl, beyond);
    DataNameReads(o, head, o3, data, AppendFqdn(o, names, beyond).index, beyond);
    var p := r.out.buf[..r.out.index];
    SameSlice(p, r.out.buf, r.out.index, head.out.index, head.out.index + 6);
    ThreeRead(p, head.out.index, priority, weight, port);
  }

  lemma ThreeRead(p: seq<byte>, at: nat, a: nat, b: nat, c: nat)
    requires a < 0x10000 && b < 0x10000 && c < 0x10000
    requires at + 6 <= |p| && p[at..at + 6] == U16(a) + U16(b) + U16(c)
    ensures GetU16(p, at) == a && GetU16(p, at + 2) == b && GetU16(p, at + 4) == c
  {
    var f := p[at..at + 6];
    assert p[at] == f[0] && p[at + 1] == f[1] && p[at + 2] == f[2];
    assert p[at + 3] == f[3] && p[at + 4] == f[4] && p[at + 5] == f[5];
  }

  // ------------------------------------------------- written questions, parsed

  /** The question was written with its two numbers behind its name. */
  lemma QuestionWritten(o: Out, names: seq<CStr>, qtype: nat, unicast: bool, beyond: byte)
    requires Sized(o) && qtype < 0x10000 && Short(names) && Room(o, names)
    requires AppendFqdn(o, names, beyond).index + 4 <= MAX_PACKET_SIZE
    ensures var named := AppendFqdn(o, names, beyond); var e := named.index;
      var r := AppendQuestion(o, names, qtype, unicast, beyond).out;
      && r.index == e + 4 && r.buf[..e] == named.buf[..e]
      && r.buf[e..e + 4] == U16(qtype) + U16(if unicast then 0x8001 else 0x0001)
  {
    hide AppendFqdn, U16;
    GrowthBound(o, names, beyond);
    var o1 := AppendFqdn(o, names, beyond);
    var c := if unicast then 0x8001 else 0x0001;
    var o2 := Put(o1, U16(qtype));
    var o3 := Put(o2, U16(c));
    Put2(o1, U16(qtype), U16(c));
    assert o3 == Put(o1, U16(qtype) + U16(c));
  }

  lemma NumbersRead(p: seq<byte>, e: nat, a: nat, b: nat)
    requires a < 0x10000 && b < 0x10000 && e + 4 <= |p| && p[e..e + 4] == U16(a) + U16(b)
    ensures GetU16(p, e) == a && GetU16(p, e + 2) == b
  {
    var f := p[e..e + 4];
    assert p[e] == f[0] && p[e + 1] == f[1] && p[e + 2] == f[2] && p[e + 3] == f[3];
  }

  /** The question reads as these names, type and unicast bit, in class IN. */
  ghost predicate ReadsAs(q: Question, names: seq<CStr>, qtype: nat, unicast: bool) {
    && q.qtype == qtype && q.qclass == 1 && q.unicast == unicast
    && exists n: Name :: q.name == Arrange(n) && Spells(n.parts, names)
  }

  /** Whoever receives a packet that still holds the question parses it where it was
      written: its name, its type, class IN and its unicast bit. */
  lemma QuestionReadsBack(o: Out, names: seq<CStr>, qtype: nat, unicast: bool, beyond: byte, p: seq<byte>)
    requires Sized(o) && qtype < 0x10000 && Short(names) && Room(o, names) && Proper(names) && Points(o, names, o.index, beyond)
    requires AppendFqdn(o, names, beyond).index + 4 <= MAX_PACKET_SIZE
    requires var r := AppendQuestion(o, names, qtype, unicast, beyond).out; r.index <= |p| && p[..r.index] == r.buf[..r.index]
    ensures var r := AppendQuestion(o, names, qtype, unicast, beyond).out; var q := ParseQuestion(p, o.index, beyond);
      q.Some? && q.value.1 == r.index && ReadsAs(q.value.0, names, qtype, unicast)
  {
    hide AppendFqdn, AppendQuestion, Points, Read, Arrange, Spells, Proper, GetU16, U16;
    QuestionWritten(o, names, qtype, unicast, beyond);
    var named := AppendFqdn(o, names, beyond);
    var e := named.index;
    var r := AppendQuestion(o, names, qtype, unicast, beyond).out;
    SameSlice(p, r.buf, r.index, 0, o.index);
    SameSlice(p, r.buf, r.index, o.index, e);
    SameSlice(r.buf, named.buf, e, 0, o.index);
    SameSlice(r.buf, named.buf, e, o.index, e);
    ReadsLater(o, names, o.index, p, beyond);
    SameSlice(p, r.buf, r.index, e, e + 4);
    NumbersRead(p, e, qtype, if unicast then 0x8001 else 0x0001);
    assert ParseFqdn(p, o.index, beyond) == Some((Arrange(Read(p, o.index, NO_NAME, beyond).value.0), e));
  }

  /** A question to be written. */
  datatype Asking = Asking(names: seq<CStr>, qtype: nat, unicast: bool)

  /** The questions written one behind the other, the type given in two bytes. */
  function AppendQuestions(o: Out, qs: seq<Asking>, beyond: byte): (r: Out)
    requires Sized(o) && forall i :: 0 <= i < |qs| ==> qs[i].qtype < 0x10000
    ensures Sized(r) && o.index <= r.index && r.buf[..o.index] == o.buf[..o.index]
    decreases |qs|
  {
    if qs == [] then o
    else
      var o1 := AppendQuestion(o, qs[0].names, qs[0].qtype, qs[0].unicast, beyond).out;
      var r := AppendQuestions(o1, qs[1..], beyond);
      assert r.buf[..o.index] == r.buf[..o1.index][..o.index] == o1.buf[..o.index];
      r
  }

  /** Each question fits, and the candidate for its name ends before it. */
  ghost predicate AllFit(o: Out, qs: seq<Asking>, beyond: byte)
    requires Sized(o) && forall i :: 0 <= i < |qs| ==> qs[i].qtype < 0x10000
    decreases |qs|
  {
    qs == [] ||
    (&& Short(qs[0].names) && Room(o, qs[0].names) && Proper(qs[0].names) && Points(o, qs[0].names, o.index, beyond)
     && AppendFqdn(o, qs[0].names, beyond).index + 4 <= MAX_PACKET_SIZE
     && AllFit(AppendQuestion(o, qs[0].names, qs[0].qtype, qs[0].unicast, beyond).out, qs[1..], beyond))
  }

  /** Questions that were written come back, in their order, by as many turns of the
      question loop, which ends where the last one does. */
  lemma {:induction false} QuestionsReadBack(o: Out, qs: seq<Asking>, beyond: byte, p: seq<byte>)
    requires Sized(o) && (forall i :: 0 <= i < |qs| ==> qs[i].qtype < 0x10000) && AllFit(o, qs, beyond)
    requires var r := AppendQuestions(o, qs, beyond); r.index <= |p| && p[..r.index] == r.buf[..r.index]
    ensures var r := ParseQuestions(p, o.index, |qs|, beyond);
      && r.Some? && |r.value.0| == |qs| && r.value.1 == AppendQuestions(o, qs, beyond).index
      && forall i :: 0 <= i < |qs| ==> ReadsAs(r.value.0[i], qs[i].names, qs[i].qtype, qs[i].unicast)
    decreases |qs|
  {
    hide AppendFqdn, AppendQuestion, Points, Spells, Proper, ParseQuestion, ReadsAs, Short, Room;
    if qs != [] {
      var q, rest := qs[0], qs[1..];
      var o1 := AppendQuestion(o, q.names, q.qtype, q.unicast, beyond).out;
      var r := AppendQuestions(o1, rest, beyond);
      assert r == AppendQuestions(o, qs, beyond);
      SameSlice(p, r.buf, r.index, 0, o1.index);
      SameSlice(r.buf, o1.buf, o1.index, 0, o1.index);
      assert p[..o1.index] == o1.buf[..o1.index];
      QuestionReadsBack(o, q.names, q.qtype, q.unicast, beyond, p);
      QuestionsReadBack(o1, rest, beyond, p);
      var all, tail := ParseQuestions(p, o.index, |qs|, beyond).value.0, ParseQuestions(p, o1.index, |rest|, beyond).value.0;
      assert all == [ParseQuestion(p, o.index, beyond).value.0] + tail;
      forall i | 0 <= i < |qs| ensures ReadsAs(all[i], qs[i].names, qs[i].qtype, qs[i].unicast) {
        if i > 0 { assert all[i] == tail[i - 1] && qs[i] == rest[i - 1]; }
      }
    }
  }

  // ------------------------------------------------------ fields and records

  /** A name of four labels, of a type, or of a host, each with the domain `local`, lies in
      the fields it belongs to, the others empty, and is valid; other domains are not. */
  lemma FieldsOf(n: Name, names: seq<CStr>)
    requires Spells(n.parts, names) && 2 <= |names| <= 4 && !n.invalid
    ensures var f := Arrange(n); var k := |names|;
      && f.parts == k && f.sub == n.sub
      && SameFold(names[k - 1], f.domain)
      && (if k == 2 then SameFold(names[0], f.host) && f.service == [] && f.proto == []
          else
            && SameFold(names[k - 3], f.service) && SameFold(names[k - 2], f.proto)
            && (if k == 4 then SameFold(names[0], f.host) else f.host == []))
      && (f.invalid <==> !SameFold(names[k - 1], LOCAL) && !SameFold(names[k - 1], ARPA))
  {
    var f := Arrange(n);
    var d := n.parts[|names| - 1];
    FoldTrans(names[|names| - 1], d, LOCAL);
    FoldTrans(names[|names| - 1], d, ARPA);
  }

  lemma FoldTrans(a: seq<byte>, b: seq<byte>, c: seq<byte>)
    requires SameFold(a, b)
    ensures SameFold(b, c) <==> SameFold(a, c)
  {
  }

  /** The i-th record is read where the one before it ends. */
  predicate ReadAt(p: seq<byte>, at: nat, ends: seq<nat>, ds: seq<Record>, i: nat, beyond: byte)
    requires i < |ds| == |ends|
  {
    ParseRecord(p, if i == 0 then at else ends[i - 1], beyond) == Some((ds[i], ends[i]))
  }

  /** Records that can be read one behind the other up to the end of the packet are what the
      record loop finds, in their order. */
  lemma {:induction false} RecordsInOrder(p: seq<byte>, at: nat, ends: seq<nat>, ds: seq<Record>, beyond: byte)
    requires |ends| == |ds| && (if ds == [] then at else ends[|ds| - 1]) == |p|
    requires forall i :: 0 <= i < |ds| ==> ReadAt(p, at, ends, ds, i, beyond)
    ensures ParseRecords(p, at, beyond) == ds
    decreases |ds|
  {
    hide ParseRecord;
    if ds != [] {
      var rest := ds[1..];
      assert ReadAt(p, at, ends, ds, 0, beyond);
      forall i | 0 <= i < |rest| ensures ReadAt(p, ends[0], ends[1..], rest, i, beyond) {
        assert ReadAt(p, at, ends, ds, i + 1, beyond);
      }
      assert at < |p| by { RecordInside(p, at, beyond); }
      RecordsInOrder(p, ends[0], ends[1..], rest, beyond);
      assert ds == [ds[0]] + rest;
    }
  }

  lemma RecordInside(p: seq<byte>, at: nat, beyond: byte)
    ensures ParseRecord(p, at, beyond).Some? ==> at < |p|
  {
  }
}
