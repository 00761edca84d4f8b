/** Resource records: the appenders of mdns.c with their length back-patching, and
    what the parser finds at the place a record was written. */
module Records {
  import opened Options
  import opened Names
  import opened NameWriter
  import Txt

  const TYPE_A: nat := 1
  const TYPE_PTR: nat := 12
  const TYPE_TXT: nat := 16
  const TYPE_AAAA: nat := 28
  const TYPE_SRV: nat := 33
  const CLASS_IN: nat := 0x0001
  const CLASS_IN_FLUSH: nat := 0x8001
  const PTR_TTL: nat := 4500
  const TXT_TTL: nat := 4500
  const SRV_TTL: nat := 120
  const ADDRESS_TTL: nat := 120
  /** type, class, TTL and data length */
  const FIXED: nat := 10

  function U32(v: nat): seq<byte>
    requires v < 0x1_0000_0000
  {
    U16(v / 0x10000) + U16(v % 0x10000)
  }

  function Fields(rtype: nat, rclass: nat, ttl: nat, dataLen: nat): (r: seq<byte>)
    requires rtype < 0x10000 && rclass < 0x10000 && ttl < 0x1_0000_0000 && dataLen < 0x10000
    ensures |r| == FIXED
  {
    U16(rtype) + U16(rclass) + U32(ttl) + U16(dataLen)
  }

  /** _mdns_append_type */
  function AppendType(o: Out, rtype: nat, flush: bool, ttl: nat): (r: Out)
    requires Sized(o) && rtype < 0x10000 && ttl < 0x1_0000_0000
    ensures Sized(r)
  {
    if o.index + 10 >= MAX_PACKET_SIZE then o
    else Put(o, Fields(rtype, if flush then CLASS_IN_FLUSH else CLASS_IN, ttl, 0))
  }

  /** _mdns_set_u16 */
  function SetU16(o: Out, at: nat, v: nat): (r: Out)
    requires Sized(o) && v < 0x10000
    ensures Sized(r) && r.index == o.index
  {
    if at + 1 >= MAX_PACKET_SIZE then o
    else o.(buf := o.buf[..at] + U16(v) + o.buf[at + 2..])
  }

  /** A written record or a failed attempt: the packet afterwards and the length that
      is returned, zero on failure. A failed attempt leaves behind what it wrote. */
  datatype Outcome = Outcome(out: Out, length: nat)

  /** uint8_t part_length = _mdns_append_fqdn(...) */
  function PartLength(o: Out, o': Out): nat
    requires o.index <= o'.index
  {
    (o'.index - o.index) % 256
  }

  /** Owner name and fixed fields, as every appender begins. */
  function Begin(o: Out, names: seq<CStr>, rtype: nat, flush: bool, ttl: nat, beyond: byte): (r: Outcome)
    requires Sized(o) && rtype < 0x10000 && ttl < 0x1_0000_0000
    ensures Sized(r.out) && o.index <= r.out.index && r.out.buf[..o.index] == o.buf[..o.index]
    ensures r.length > 0 ==> FIXED < r.out.index < MAX_PACKET_SIZE
  {
    var o1 := AppendFqdn(o, names, beyond);
    if PartLength(o, o1) == 0 then Outcome(o1, 0)
    else
      var o2 := AppendType(o1, rtype, flush, ttl);
      assert o2.buf[..o.index] == o2.buf[..o1.index][..o.index] == o1.buf[..o.index];
      if o2 == o1 then Outcome(o2, 0) else Outcome(o2, PartLength(o, o1) + FIXED)
  }

  /** Data that is a name behind `front` bytes already written. */
  function NameData(head: Outcome, o: Out, names: seq<CStr>, beyond: byte): Outcome
    requires Sized(o) && head.out.index <= o.index
  {
    var o3 := AppendFqdn(o, names, beyond);
    var part := PartLength(o, o3);
    var front := o.index - head.out.index;
    if part == 0 || head.out.index < 2 || part + front >= 0x10000 then Outcome(o3, 0)
    else Outcome(SetU16(o3, head.out.index - 2, part + front), head.length + part + front)
  }

  /** _mdns_append_ptr_record */
  function AppendPtr(o: Out, instance: CStr, service: CStr, proto: CStr, bye: bool, beyond: byte): Outcome
    requires Sized(o)
  {
    var head := Begin(o, [service, proto, LOCAL], TYPE_PTR, false, if bye then 0 else PTR_TTL, beyond);
    if head.length == 0 then head
    else NameData(head, head.out, [instance, service, proto, LOCAL], beyond)
  }

  /** _mdns_append_srv_record; `host` is empty when neither the service nor the
      server has a host name. */
  function AppendSrv(o: Out, instance: CStr, service: CStr, proto: CStr, priority: nat, weight: nat, port: nat,
                     host: CStr, flush: bool, bye: bool, beyond: byte): Outcome
    requires Sized(o) && priority < 0x10000 && weight < 0x10000 && port < 0x10000
  {
    var head := Begin(o, [instance, service, proto, LOCAL], TYPE_SRV, flush, if bye then 0 else SRV_TTL, beyond);
    if head.length == 0 then head
    else
      var o3 := AppendU16(AppendU16(AppendU16(head.out, priority), weight), port);
      if o3.index != head.out.index + 6 || |host| == 0 then Outcome(o3, 0)
      else NameData(head, o3, [host, LOCAL], beyond)
  }

  /** _mdns_append_a_record (four bytes, least significant first) and
      _mdns_append_aaaa_record (sixteen bytes). */
  function AppendAddress(o: Out, host: CStr, address: seq<byte>, flush: bool, bye: bool, beyond: byte): Outcome
    requires Sized(o) && (|address| == 4 || |address| == 16)
  {
    if |host| == 0 then Outcome(o, 0)
    else
      var head := Begin(o, [host, LOCAL], if |address| == 4 then TYPE_A else TYPE_AAAA, flush,
                        if bye then 0 else ADDRESS_TTL, beyond);
      if head.length == 0 || head.out.index + |address| > MAX_PACKET_SIZE then Outcome(head.out, 0)
      else Outcome(SetU16(Put(head.out, address), head.out.index - 2, |address|), head.length + |address|)
  }

  /** The items of a service one after another; false when one does not fit. */
  function AppendEntries(o: Out, entries: seq<Txt.Entry>): (r: (Out, bool))
    requires Sized(o)
    ensures Sized(r.0) && o.index <= r.0.index && r.0.buf[..o.index] == o.buf[..o.index]
    decreases |entries|
  {
    if entries == [] then (o, true)
    else if o.index + |Txt.EntryBytes(entries[0])| + 1 >= MAX_PACKET_SIZE then (o, false)
    else
      var o' := Put(o, Txt.Encode(entries[0]));
      var r := AppendEntries(o', entries[1..]);
      assert r.0.buf[..o.index] == r.0.buf[..o'.index][..o.index] == o'.buf[..o.index];
      r
  }

  /** Data that is the items of a service; without any, one zero byte, written
      without a check. */
  function TxtData(head: Outcome, entries: seq<Txt.Entry>): Outcome
    requires Sized(head.out) && 2 <= head.out.index < MAX_PACKET_SIZE
  {
    var (o3, ok) := AppendEntries(head.out, entries);
    if !ok then Outcome(o3, 0)
    else
      var o4 := if o3.index == head.out.index then Put(o3, [0]) else o3;
      var n := o4.index - head.out.index;
      Outcome(SetU16(o4, head.out.index - 2, n), head.length + n)
  }

  /** _mdns_append_txt_record */
  function AppendTxt(o: Out, instance: CStr, service: CStr, proto: CStr, entries: seq<Txt.Entry>,
                     flush: bool, bye: bool, beyond: byte): Outcome
    requires Sized(o)
  {
    var head := Begin(o, [instance, service, proto, LOCAL], TYPE_TXT, flush, if bye then 0 else TXT_TTL, beyond);
    if head.length == 0 then head else TxtData(head, entries)
  }

  lemma FrontStays(p: seq<byte>, q: seq<byte>, r: seq<byte>, i: nat, j: nat)
    requires i <= j <= |q| == |r| && i <= |p| && q[..i] == p[..i] && r[..j] == q[..j]
    ensures r[..i] == p[..i]
  {
    assert r[..i] == r[..j][..i] && q[..i] == q[..j][..i];
  }

  /** _mdns_append_question: the length is one byte, and the two numbers are written
      without a look at whether they fit. */
  function AppendQuestion(o: Out, names: seq<CStr>, qtype: nat, unicast: bool, beyond: byte): (r: Outcome)
    requires Sized(o) && qtype < 0x10000
    ensures Sized(r.out) && o.index <= r.out.index && r.out.buf[..o.index] == o.buf[..o.index]
  {
    var o1 := AppendFqdn(o, names, beyond);
    if PartLength(o, o1) == 0 then Outcome(o1, 0)
    else
      var o2 := AppendU16(o1, qtype);
      var o3 := AppendU16(o2, if unicast then CLASS_IN_FLUSH else CLASS_IN);
      FrontStays(o.buf, o1.buf, o2.buf, o.index, o1.index);
      FrontStays(o.buf, o2.buf, o3.buf, o.index, o2.index);
      Outcome(o3, (PartLength(o, o1) + (o3.index - o1.index)) % 256)
  }

  // -------------------------------------------------------------- framing

  predicate Short(strings: seq<CStr>) {
    Uncompressed(strings) < 256
  }

  /** What the fixed fields of a record say about the bytes around them: the owner
      name ends at them, and the data length is the number of bytes behind them. */
  predicate Framed(o: Out, r: Outcome, names: seq<CStr>, rtype: nat, rclass: nat, ttl: nat, beyond: byte)
    requires Sized(o) && rtype < 0x10000 && rclass < 0x10000 && ttl < 0x1_0000_0000
  {
    var named := AppendFqdn(o, names, beyond);
    var e := named.index;
    && Sized(r.out) && e + FIXED <= r.out.index
    && r.length == r.out.index - o.index
    && r.out.buf[..e] == named.buf[..e]
    && r.out.buf[e..e + FIXED] == Fields(rtype, rclass, ttl, r.out.index - e - FIXED)
  }

  /** Room for the record without compression. */
  predicate RecordRoom(o: Out, names: seq<CStr>, data: nat) {
    o.index + Uncompressed(names) + FIXED + data <= MAX_PACKET_SIZE && data > 0
  }

  lemma BeginFrames(o: Out, names: seq<CStr>, rtype: nat, flush: bool, ttl: nat, beyond: byte)
    requires Sized(o) && rtype < 0x10000 && ttl < 0x1_0000_0000 && Short(names)
    ensures var r := Begin(o, names, rtype, flush, ttl, beyond);
      && (r.length > 0 ==> Framed(o, r, names, rtype, if flush then CLASS_IN_FLUSH else CLASS_IN, ttl, beyond)
                           && r.out.index == AppendFqdn(o, names, beyond).index + FIXED)
      && (forall data :: RecordRoom(o, names, data) ==> r.length > 0 && r.out.index + data <= MAX_PACKET_SIZE)
  {
    hide AppendFqdn, Fields;
    GrowthBound(o, names, beyond);
    var o1 := AppendFqdn(o, names, beyond);
    var r := Begin(o, names, rtype, flush, ttl, beyond);
    forall data | RecordRoom(o, names, data) ensures r.length > 0 && r.out.index + data <= MAX_PACKET_SIZE {
      assert Room(o, names);
    }
  }

  /** Writing the data length makes the fixed fields right again. */
  lemma PatchFrames(o: Out, head: Outcome, o3: Out, names: seq<CStr>, rtype: nat, rclass: nat, ttl: nat, beyond: byte)
    requires Sized(o) && rtype < 0x10000 && rclass < 0x10000 && ttl < 0x1_0000_0000
    requires Framed(o, head, names, rtype, rclass, ttl, beyond)
    requires head.out.index == AppendFqdn(o, names, beyond).index + FIXED < MAX_PACKET_SIZE
    requires Sized(o3) && head.out.index <= o3.index && o3.buf[..head.out.index] == head.out.buf[..head.out.index]
    ensures var n := o3.index - head.out.index; var out := SetU16(o3, head.out.index - 2, n);
      && Framed(o, Outcome(out, head.length + n), names, rtype, rclass, ttl, beyond)
      && out.index == o3.index && out.buf[head.out.index..] == o3.buf[head.out.index..]
      && out.buf[..head.out.index - 2] == o3.buf[..head.out.index - 2]
  {
    hide AppendFqdn;
    var named := AppendFqdn(o, names, beyond);
    var e := named.index;
    var n := o3.index - head.out.index;
    var out := SetU16(o3, e + 8, n);
    assert out.buf == o3.buf[..e + 8] + U16(n) + o3.buf[e + FIXED..];
    assert out.buf[..e] == o3.buf[..e] == o3.buf[..e + FIXED][..e] == head.out.buf[..e + FIXED][..e] == head.out.buf[..e];
    var old10 := head.out.buf[e..e + FIXED];
    SameSlice(o3.buf, head.out.buf, e + FIXED, e, e + 8);
    assert old10[..8] == head.out.buf[e..e + 8];
    assert old10[..8] == U16(rtype) + U16(rclass) + U32(ttl);
    assert out.buf[e..e + FIXED] == o3.buf[e..e + 8] + U16(n);
  }

  lemma NameDataFrames(o: Out, head: Outcome, o2: Out, data: seq<CStr>, names: seq<CStr>, rtype: nat, rclass: nat, ttl: nat, beyond: byte)
    requires Sized(o) && rtype < 0x10000 && rclass < 0x10000 && ttl < 0x1_0000_0000 && Short(data)
    requires Framed(o, head, names, rtype, rclass, ttl, beyond)
    requires head.out.index == AppendFqdn(o, names, beyond).index + FIXED < MAX_PACKET_SIZE
    requires Sized(o2) && head.out.index <= o2.index && o2.buf[..head.out.index] == head.out.buf[..head.out.index]
    ensures var r := NameData(head, o2, data, beyond); var o3 := AppendFqdn(o2, data, beyond);
      && Sized(r.out) && r.out.index == o3.index
      && (r.length > 0 ==> Framed(o, r, names, rtype, rclass, ttl, beyond)
                           && r.out.buf[head.out.index..] == o3.buf[head.out.index..])
      && r.out.buf[..head.out.index - 2] == o3.buf[..head.out.index - 2]
      && (Room(o2, data) ==> r.length > 0)
  {
    hide AppendFqdn, Framed, SetU16;
    GrowthBound(o2, data, beyond);
    var o3 := AppendFqdn(o2, data, beyond);
    assert o3.buf[..head.out.index] == o3.buf[..o2.index][..head.out.index] == o2.buf[..head.out.index];
    PatchFrames(o, head, o3, names, rtype, rclass, ttl, beyond);
    assert Framed(o, head, names, rtype, rclass, ttl, beyond);
  }

  /** A PTR record: with room it is written, and a record that is written is framed. */
  lemma PtrFraming(o: Out, instance: CStr, service: CStr, proto: CStr, bye: bool, beyond: byte)
    requires Sized(o)
    requires Short([service, proto, LOCAL]) && Short([instance, service, proto, LOCAL])
    ensures var r := AppendPtr(o, instance, service, proto, bye, beyond);
      && Sized(r.out) && o.index <= r.out.index && r.out.buf[..o.index] == o.buf[..o.index]
      && (r.length > 0 ==>
            Framed(o, r, [service, proto, LOCAL], TYPE_PTR, CLASS_IN, if bye then 0 else PTR_TTL, beyond))
      && (RecordRoom(o, [service, proto, LOCAL], Uncompressed([instance, service, proto, LOCAL])) ==> r.length > 0)
  {
    hide AppendFqdn, Framed, SetU16, Uncompressed, NameData, Begin;
    var names: seq<CStr> := [service, proto, LOCAL];
    var data: seq<CStr> := [instance, service, proto, LOCAL];
    var ttl := if bye then 0 else PTR_TTL;
    BeginFrames(o, names, TYPE_PTR, false, ttl, beyond);
    var head := Begin(o, names, TYPE_PTR, false, ttl, beyond);
    if head.length > 0 {
      NameDataFrames(o, head, head.out, data, names, TYPE_PTR, CLASS_IN, ttl, beyond);
      KeepsBefore(o, head.out, AppendFqdn(head.out, data, beyond), AppendPtr(o, instance, service, proto, bye, beyond).out);
    }
  }

  lemma KeepsBefore(o: Out, head: Out, o3: Out, r: Out)
    requires o.index + 2 <= head.index <= |o.buf| == |head.buf| == |o3.buf| == |r.buf|
    requires head.buf[..o.index] == o.buf[..o.index]
    requires o3.buf[..head.index] == head.buf[..head.index] && r.buf[..head.index - 2] == o3.buf[..head.index - 2]
    ensures r.buf[..o.index] == o.buf[..o.index]
  {
    SameSlice(r.buf, o3.buf, head.index - 2, 0, o.index);
    SameSlice(o3.buf, head.buf, head.index, 0, o.index);
  }

  lemma SameTail(p: seq<byte>, q: seq<byte>, a: nat, b: nat)
    requires a <= b <= |p| == |q| && p[a..] == q[a..]
    ensures p[a..b] == q[a..b]
  {
    assert p[a..b] == p[a..][..b - a] && q[a..b] == q[a..][..b - a];
  }

  lemma Put3(o: Out, a: nat, b: nat, c: nat)
    requires Sized(o) && a < 0x10000 && b < 0x10000 && c < 0x10000
    ensures var r := AppendU16(AppendU16(AppendU16(o, a), b), c);
      && Sized(r) && o.index <= r.index && r.buf[..o.index] == o.buf[..o.index]
      && (o.index + 6 <= MAX_PACKET_SIZE ==> r == Put(o, U16(a) + U16(b) + U16(c)))
      && (r.index == o.index + 6 ==> o.index + 6 <= MAX_PACKET_SIZE)
  {
    var r1 := AppendU16(o, a);
    var r2 := AppendU16(r1, b);
    var r3 := AppendU16(r2, c);
    assert r2.buf[..o.index] == r2.buf[..r1.index][..o.index] == r1.buf[..o.index];
    assert r3.buf[..o.index] == r3.buf[..r2.index][..o.index] == r2.buf[..o.index];
    if o.index + 6 <= MAX_PACKET_SIZE {
      Put2(o, U16(a), U16(b));
      Put2(o, U16(a) + U16(b), U16(c));
    }
  }

  lemma Put2(o: Out, a: seq<byte>, b: seq<byte>)
    requires o.index + |a| + |b| <= |o.buf|
    ensures Put(Put(o, a), b) == Put(o, a + b)
  {
    assert Put(Put(o, a), b).buf == Put(o, a + b).buf;
  }

  /** An SRV record, with priority, weight and port in front of the target. */
  lemma SrvFraming(o: Out, instance: CStr, service: CStr, proto: CStr, priority: nat, weight: nat, port: nat,
                   host: CStr, flush: bool, bye: bool, beyond: byte)
    requires Sized(o) && priority < 0x10000 && weight < 0x10000 && port < 0x10000
    requires Short([instance, service, proto, LOCAL]) && Short([host, LOCAL])
    ensures var r := AppendSrv(o, instance, service, proto, priority, weight, port, host, flush, bye, beyond);
      var names: seq<CStr> := [instance, service, proto, LOCAL];
      var at := AppendFqdn(o, names, beyond).index + FIXED;
      && Sized(r.out) && o.index <= r.out.index && r.out.buf[..o.index] == o.buf[..o.index]
      && (r.length > 0 ==>
            && Framed(o, r, names, TYPE_SRV, if flush then CLASS_IN_FLUSH else CLASS_IN, if bye then 0 else SRV_TTL, beyond)
            && at + 6 <= r.out.index && r.out.buf[at..at + 6] == U16(priority) + U16(weight) + U16(port))
      && (|host| > 0 && RecordRoom(o, names, 6 + Uncompressed([host, LOCAL])) ==> r.length > 0)
  {
    hide AppendFqdn, Framed, SetU16, Uncompressed, NameData, Begin, AppendU16;
    var names: seq<CStr> := [instance, service, proto, LOCAL];
    var data: seq<CStr> := [host, LOCAL];
    var ttl := if bye then 0 else SRV_TTL;
    BeginFrames(o, names, TYPE_SRV, flush, ttl, beyond);
    var head := Begin(o, names, TYPE_SRV, flush, ttl, beyond);
    if head.length > 0 {
      Put3(head.out, priority, weight, port);
      var o3 := AppendU16(AppendU16(AppendU16(head.out, priority), weight), port);
      var r := AppendSrv(o, instance, service, proto, priority, weight, port, host, flush, bye, beyond);
      if o3.index != head.out.index + 6 || |host| == 0 {
        SameSlice(o3.buf, head.out.buf, head.out.index, 0, o.index);
      } else {
        NameDataFrames(o, head, o3, data, names, TYPE_SRV, if flush then CLASS_IN_FLUSH else CLASS_IN, ttl, beyond);
        var o4 := AppendFqdn(o3, data, beyond);
        SameSlice(o4.buf, o3.buf, o3.index, 0, head.out.index);
        KeepsBefore(o, head.out, o4, r.out);
        if r.length > 0 {
          var at := head.out.index;
          SameTail(r.out.buf, o4.buf, at, at + 6);
          SameSlice(o4.buf, o3.buf, o3.index, at, at + 6);
        }
      }
    }
  }

  /** An A or AAAA record carries the bytes of the address. */
  lemma AddressFraming(o: Out, host: CStr, address: seq<byte>, flush: bool, bye: bool, beyond: byte)
    requires Sized(o) && (|address| == 4 || |address| == 16) && Short([host, LOCAL])
    ensures var r := AppendAddress(o, host, address, flush, bye, beyond);
      var at := AppendFqdn(o, [host, LOCAL], beyond).index + FIXED;
      && Sized(r.out) && o.index <= r.out.index && r.out.buf[..o.index] == o.buf[..o.index]
      && (r.length > 0 ==>
            && Framed(o, r, [host, LOCAL], if |address| == 4 then TYPE_A else TYPE_AAAA,
                      if flush then CLASS_IN_FLUSH else CLASS_IN, if bye then 0 else ADDRESS_TTL, beyond)
            && at <= r.out.index && r.out.buf[at..r.out.index] == address)
      && (r.length > 0 <== |host| > 0 && RecordRoom(o, [host, LOCAL], |address|))
  {
    hide AppendFqdn, Framed, SetU16, Uncompressed, Begin;
    var names: seq<CStr> := [host, LOCAL];
    var rtype := if |address| == 4 then TYPE_A else TYPE_AAAA;
    var ttl := if bye then 0 else ADDRESS_TTL;
    BeginFrames(o, names, rtype, flush, ttl, beyond);
    var head := Begin(o, names, rtype, flush, ttl, beyond);
    if |host| > 0 && head.length > 0 && head.out.index + |address| <= MAX_PACKET_SIZE {
      var o3 := Put(head.out, address);
      var r := AppendAddress(o, host, address, flush, bye, beyond);
      PatchFrames(o, head, o3, names, rtype, if flush then CLASS_IN_FLUSH else CLASS_IN, ttl, beyond);
      KeepsBefore(o, head.out, o3, r.out);
      SameTail(r.out.buf, o3.buf, head.out.index, o3.index);
    }
  }

  lemma {:induction false} EntriesWritten(o: Out, entries: seq<Txt.Entry>)
    requires Sized(o)
    ensures var (r, ok) := AppendEntries(o, entries);
      && (ok ==> o.index + |Txt.EncodeAll(entries)| <= MAX_PACKET_SIZE && r == Put(o, Txt.EncodeAll(entries)))
      && (o.index + |Txt.EncodeAll(entries)| < MAX_PACKET_SIZE ==> ok)
    decreases |entries|
  {
    if entries == [] {
      assert Put(o, []).buf == o.buf;
    } else {
      var e := entries[0];
      if o.index + |Txt.EntryBytes(e)| + 1 < MAX_PACKET_SIZE {
        EntriesWritten(Put(o, Txt.Encode(e)), entries[1..]);
        if o.index + |Txt.EncodeAll(entries)| <= MAX_PACKET_SIZE {
          Put2(o, Txt.Encode(e), Txt.EncodeAll(entries[1..]));
        }
      }
    }
  }

  lemma TxtDataFrames(o: Out, head: Outcome, entries: seq<Txt.Entry>, names: seq<CStr>, rclass: nat, ttl: nat, beyond: byte)
    requires Sized(o) && rclass < 0x10000 && ttl < 0x1_0000_0000
    requires Framed(o, head, names, TYPE_TXT, rclass, ttl, beyond)
    requires head.out.index == AppendFqdn(o, names, beyond).index + FIXED < MAX_PACKET_SIZE
    requires Sized(head.out) && head.out.buf[..o.index] == o.buf[..o.index]
    ensures var r := TxtData(head, entries); var at := head.out.index;
      && Sized(r.out) && at <= r.out.index && r.out.buf[..o.index] == o.buf[..o.index]
      && (r.length > 0 ==> Framed(o, r, names, TYPE_TXT, rclass, ttl, beyond)
                           && r.out.buf[at..r.out.index] == Txt.Rdata(entries))
      && (at + |Txt.EncodeAll(entries)| < MAX_PACKET_SIZE ==> r.length > 0)
  {
    hide AppendFqdn, Framed, SetU16, AppendEntries, Txt.EncodeAll, Txt.Rdata;
    EntriesWritten(head.out, entries);
    var (o3, ok) := AppendEntries(head.out, entries);
    SameSlice(o3.buf, head.out.buf, head.out.index, 0, o.index);
    if ok {
      var o4 := if o3.index == head.out.index then Put(o3, [0]) else o3;
      Txt.EncodedSize(entries);
      TxtDataWritten(head.out, o3, o4, entries);
      var r := TxtData(head, entries);
      PatchFrames(o, head, o4, names, TYPE_TXT, rclass, ttl, beyond);
      KeepsBefore(o, head.out, o4, r.out);
      SameTail(r.out.buf, o4.buf, head.out.index, o4.index);
    }
  }

  /** A TXT record carries the written items, and the unchecked zero byte of a record
      without items stays inside the packet. */
  lemma TxtFraming(o: Out, instance: CStr, service: CStr, proto: CStr, entries: seq<Txt.Entry>,
                   flush: bool, bye: bool, beyond: byte)
    requires Sized(o) && Short([instance, service, proto, LOCAL])
    ensures var r := AppendTxt(o, instance, service, proto, entries, flush, bye, beyond);
      var names: seq<CStr> := [instance, service, proto, LOCAL];
      var at := AppendFqdn(o, names, beyond).index + FIXED;
      && Sized(r.out) && o.index <= r.out.index && r.out.buf[..o.index] == o.buf[..o.index]
      && (r.length > 0 ==>
            && Framed(o, r, names, TYPE_TXT, if flush then CLASS_IN_FLUSH else CLASS_IN, if bye then 0 else TXT_TTL, beyond)
            && at <= r.out.index && r.out.buf[at..r.out.index] == Txt.Rdata(entries))
      && (RecordRoom(o, names, |Txt.EncodeAll(entries)| + 1) ==> r.length > 0)
  {
    hide AppendFqdn, Framed, Uncompressed, Begin, TxtData, Txt.EncodeAll, Txt.Rdata;
    var names: seq<CStr> := [instance, service, proto, LOCAL];
    var ttl := if bye then 0 else TXT_TTL;
    BeginFrames(o, names, TYPE_TXT, flush, ttl, beyond);
    var head := Begin(o, names, TYPE_TXT, flush, ttl, beyond);
    if head.length > 0 {
      TxtDataFrames(o, head, entries, names, if flush then CLASS_IN_FLUSH else CLASS_IN, ttl, beyond);
    }
  }

  lemma TxtDataWritten(head: Out, o3: Out, o4: Out, entries: seq<Txt.Entry>)
    requires Sized(head) && head.index < MAX_PACKET_SIZE && head.index + |Txt.EncodeAll(entries)| <= MAX_PACKET_SIZE
    requires entries == [] <==> Txt.EncodeAll(entries) == []
    requires o3 == Put(head, Txt.EncodeAll(entries)) && o4 == if o3.index == head.index then Put(o3, [0]) else o3
    ensures Sized(o4) && head.index <= o4.index && o4.buf[..head.index] == head.buf[..head.index]
    ensures o4.buf[head.index..o4.index] == Txt.Rdata(entries)
  {
    hide Txt.EncodeAll;
  }
}
