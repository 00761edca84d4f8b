/** Names and records at the end of the packet: what fits, what is cut short, and what a
    record that fails leaves behind. */
module NameSize {
  import opened Options
  import opened Names
  import opened NameWriter
  import opened NameRoundTrip
  import opened Records
  import Txt

  /** The name on the wire: the labels before the pointer and the pointer, or all labels
      and the zero byte. */
  function Wire(o: Out, strings: seq<CStr>, beyond: byte): (w: seq<byte>)
    requires Sized(o)
  {
    match Choice(o, strings, beyond)
    case None => Encoded(strings) + [0]
    case Some((j, l)) => if l < 0x4000 then Encoded(strings[..j]) + U16(0xC000 + l) else []
  }

  lemma {:induction false} ChosenInside(o: Out, strings: seq<CStr>, beyond: byte)
    requires Sized(o)
    ensures var c := Choice(o, strings, beyond); c.Some? ==> c.value.1 < MAX_PACKET_SIZE
    decreases |strings|
  {
    hide Accepts;
    if strings != [] && Find(o, 0, strings, beyond).None? {
      var o1 := AppendString(o, strings[0]);
      if o1 != o { ChosenInside(o1, strings[1..], beyond); }
    }
  }

  /** The first of what is still to be written fits: a pointer needs two bytes, the zero
      byte one, and a label leaves at least one byte free. */
  predicate FirstFits(o: Out, strings: seq<CStr>, beyond: byte)
    requires Sized(o)
  {
    if strings == [] then o.index < MAX_PACKET_SIZE
    else if Find(o, 0, strings, beyond).Some? then o.index + 2 <= MAX_PACKET_SIZE
    else o.index + |strings[0]| + 1 < MAX_PACKET_SIZE
  }

  lemma {:induction false} EncodedSize(strings: seq<CStr>)
    ensures |Encoded(strings)| + 1 == Uncompressed(strings)
  {
    if strings != [] { EncodedSize(strings[1..]); }
  }

  lemma EncodedCons(strings: seq<CStr>, j: nat)
    requires strings != [] && j <= |strings[1..]|
    ensures Encoded(strings[..j + 1]) == [|strings[0]|] + strings[0] + Encoded(strings[1..][..j])
  {
    assert strings[..j + 1][0] == strings[0] && strings[..j + 1][1..] == strings[1..][..j];
  }

  lemma Regroup(a: seq<byte>, b: seq<byte>, end: seq<byte>, all: seq<byte>)
    requires all == a + b
    ensures all + end == a + (b + end)
  {
  }

  /** The wire form of a name that begins with a label. */
  lemma WireLabel(o: Out, strings: seq<CStr>, beyond: byte)
    requires Sized(o) && strings != [] && Find(o, 0, strings, beyond) == None && AppendString(o, strings[0]) != o
    ensures Wire(o, strings, beyond) == [|strings[0]|] + strings[0] + Wire(AppendString(o, strings[0]), strings[1..], beyond)
  {
    hide Find, AppendString, Encoded, Choice, AppendFqdn, U16, Uncompressed, Put;
    var rest := strings[1..];
    var o1 := AppendString(o, strings[0]);
    var head := [|strings[0]|] + strings[0];
    LabelFirst(o, strings, beyond);
    ChosenInside(o1, rest, beyond);
    match Choice(o1, rest, beyond)
    case None =>
      assert strings[..|rest| + 1] == strings && rest[..|rest|] == rest;
      EncodedCons(strings, |rest|);
      Regroup(head, Encoded(rest), [0], Encoded(strings));
    case Some((j, l)) =>
      EncodedCons(strings, j);
      Regroup(head, Encoded(rest[..j]), U16(0xC000 + l), Encoded(strings[..j + 1]));
  }

  /** A name is written whole exactly if its wire form fits behind the index. If not,
      only the first `cut` labels are there, without an end: as many as fit with a byte
      to spare. */
  lemma {:induction false} WholeName(o: Out, strings: seq<CStr>, beyond: byte) returns (cut: nat)
    requires Sized(o)
    ensures var w := Wire(o, strings, beyond); var r := AppendFqdn(o, strings, beyond);
      if o.index + |w| <= MAX_PACKET_SIZE then r == Put(o, w)
      else
        && cut <= |strings|
        && o.index + |Encoded(strings[..cut])| <= MAX_PACKET_SIZE
        && r == Put(o, Encoded(strings[..cut])) && |Encoded(strings[..cut])| < |w|
        && (cut == 0 <==> !FirstFits(o, strings, beyond))
    ensures o.index + |Wire(o, strings, beyond)| <= MAX_PACKET_SIZE ==> FirstFits(o, strings, beyond)
    decreases |strings|
  {
    hide Find, AppendFqdn, Wire, FirstFits, Encoded;
    cut := 0;
    if strings == [] || Find(o, 0, strings, beyond).Some? {
      EndPiece(o, strings, beyond);
    } else {
      cut := WholeLabel(o, strings, beyond);
    }
  }

  /** The zero byte or a pointer. */
  lemma EndPiece(o: Out, strings: seq<CStr>, beyond: byte)
    requires Sized(o) && (strings == [] || Find(o, 0, strings, beyond).Some?)
    ensures var w := Wire(o, strings, beyond); var r := AppendFqdn(o, strings, beyond);
      if o.index + |w| <= MAX_PACKET_SIZE then r == Put(o, w) && FirstFits(o, strings, beyond)
      else r == Put(o, Encoded(strings[..0])) && |Encoded(strings[..0])| == 0 < |w| && !FirstFits(o, strings, beyond)
  {
    hide Find;
    assert strings[..0] == [] && Put(o, []).buf == o.buf;
    if strings == [] {
      assert Wire(o, strings, beyond) == [0];
    } else {
      var l := Find(o, 0, strings, beyond).value;
      assert Wire(o, strings, beyond) == U16(0xC000 + l);
    }
  }

  lemma WholeLabel(o: Out, strings: seq<CStr>, beyond: byte) returns (cut: nat)
    requires Sized(o) && strings != [] && Find(o, 0, strings, beyond) == None
    ensures var w := Wire(o, strings, beyond); var r := AppendFqdn(o, strings, beyond);
      if o.index + |w| <= MAX_PACKET_SIZE then r == Put(o, w)
      else
        && cut <= |strings|
        && o.index + |Encoded(strings[..cut])| <= MAX_PACKET_SIZE
        && r == Put(o, Encoded(strings[..cut])) && |Encoded(strings[..cut])| < |w|
        && (cut == 0 <==> !FirstFits(o, strings, beyond))
    ensures o.index + |Wire(o, strings, beyond)| <= MAX_PACKET_SIZE ==> FirstFits(o, strings, beyond)
    decreases |strings|, 0
  {
    hide Find, AppendFqdn, Choice, Wire;
    var s := strings[0];
    var o1 := AppendString(o, s);
    if o1 == o {
      NoRoom(o, strings, beyond);
      cut := 0;
    } else {
      WireLabel(o, strings, beyond);
      LabelFirst(o, strings, beyond);
      cut := WholeName(o1, strings[1..], beyond);
      var w1 := Wire(o1, strings[1..], beyond);
      assert o1 == Put(o, [|s|] + s);
      if o1.index + |w1| <= MAX_PACKET_SIZE {
        Put2(o, [|s|] + s, w1);
      } else {
        var rest := Encoded(strings[1..][..cut]);
        Put2(o, [|s|] + s, rest);
        assert strings[..cut + 1][0] == s && strings[..cut + 1][1..] == strings[1..][..cut];
        cut := cut + 1;
      }
    }
  }

  lemma NoRoom(o: Out, strings: seq<CStr>, beyond: byte)
    requires Sized(o) && strings != [] && Find(o, 0, strings, beyond) == None && AppendString(o, strings[0]) == o
    ensures AppendFqdn(o, strings, beyond) == o == Put(o, Encoded(strings[..0]))
    ensures o.index + |Wire(o, strings, beyond)| > MAX_PACKET_SIZE && !FirstFits(o, strings, beyond)
    ensures |Encoded(strings[..0])| == 0 < |Wire(o, strings, beyond)|
  {
    hide Find;
    var s := strings[0];
    assert strings[..0] == [] && Put(o, []).buf == o.buf;
    assert o.index + |s| + 1 >= MAX_PACKET_SIZE;
    assert |Encoded(strings)| >= |s| + 1;
  }

  /** Something is written exactly if the first piece fits. */
  lemma WritesSomething(o: Out, strings: seq<CStr>, beyond: byte)
    requires Sized(o)
    ensures o.index < AppendFqdn(o, strings, beyond).index <==> FirstFits(o, strings, beyond)
    ensures Short(strings) ==>
      (PartLength(o, AppendFqdn(o, strings, beyond)) == 0 <==> !FirstFits(o, strings, beyond))
  {
    hide AppendFqdn, Wire, FirstFits, Find, Choice;
    var cut := WholeName(o, strings, beyond);
    WireNotEmpty(o, strings, beyond);
    if cut > 0 && cut <= |strings| { assert |Encoded(strings[..cut])| > 0; }
    GrowthBound(o, strings, beyond);
  }

  lemma WireNotEmpty(o: Out, strings: seq<CStr>, beyond: byte)
    requires Sized(o)
    ensures |Wire(o, strings, beyond)| > 0
  {
    hide Choice, Encoded;
    ChosenInside(o, strings, beyond);
  }

  // ---------------------------------------------------------------- records

  /** Room for the type, class, TTL and data length behind the owner name. */
  predicate FieldsFit(o: Out, names: seq<CStr>, beyond: byte)
    requires Sized(o)
  {
    FirstFits(o, names, beyond) && AppendFqdn(o, names, beyond).index + FIXED < MAX_PACKET_SIZE
  }

  lemma BeginAtEnd(o: Out, names: seq<CStr>, rtype: nat, flush: bool, ttl: nat, beyond: byte)
    requires Sized(o) && rtype < 0x10000 && ttl < 0x1_0000_0000 && Short(names)
    ensures var head := Begin(o, names, rtype, flush, ttl, beyond);
      && (head.length > 0 <==> FieldsFit(o, names, beyond))
      && (head.out.index == o.index <==> !FirstFits(o, names, beyond))
      && (head.length > 0 ==> head.out.index == AppendFqdn(o, names, beyond).index + FIXED)
      && (head.length > 0 ==> head.length == head.out.index - o.index)
  {
    hide AppendFqdn, FirstFits, Fields;
    WritesSomething(o, names, beyond);
    GrowthBound(o, names, beyond);
    var o1 := AppendFqdn(o, names, beyond);
    var o2 := AppendType(o1, rtype, flush, ttl);
    assert o1.index + FIXED < MAX_PACKET_SIZE ==> o2.index == o1.index + FIXED;
  }

  lemma NameDataAtEnd(head: Outcome, o: Out, names: seq<CStr>, beyond: byte)
    requires Sized(o) && FIXED < head.out.index <= o.index && Short(names) && o.index - head.out.index < 0x1000
    ensures var r := NameData(head, o, names, beyond);
      && (r.length > 0 <==> FirstFits(o, names, beyond))
      && r.out.index == AppendFqdn(o, names, beyond).index
      && (r.length > 0 ==> r.length == head.length + (r.out.index - head.out.index))
  {
    hide AppendFqdn, FirstFits, SetU16;
    WritesSomething(o, names, beyond);
    GrowthBound(o, names, beyond);
  }

  /** A PTR record is reported as written exactly if the first piece of the owner name,
      the fixed fields and the first piece of the target fit; if it is not, its owner
      name stays behind exactly if the first piece of that fits. It is there in full
      exactly if both wire forms fit, the first with the fixed fields and a byte to spare. */
  lemma PtrAtEnd(o: Out, instance: CStr, service: CStr, proto: CStr, bye: bool, beyond: byte)
    requires Sized(o) && Short([service, proto, LOCAL]) && Short([instance, service, proto, LOCAL])
    ensures var names: seq<CStr>, data: seq<CStr> := [service, proto, LOCAL], [instance, service, proto, LOCAL];
      var r := AppendPtr(o, instance, service, proto, bye, beyond);
      var at := Begin(o, names, TYPE_PTR, false, if bye then 0 else PTR_TTL, beyond).out;
      && (r.length > 0 <==> FieldsFit(o, names, beyond) && FirstFits(at, data, beyond))
      && (r.out.index == o.index <==> !FirstFits(o, names, beyond))
      && (r.length == |Wire(o, names, beyond)| + FIXED + |Wire(at, data, beyond)|
          <==> o.index + |Wire(o, names, beyond)| + FIXED < MAX_PACKET_SIZE
               && at.index + |Wire(at, data, beyond)| <= MAX_PACKET_SIZE)
  {
    hide AppendFqdn, FirstFits, NameData, Begin, Short, Wire, Find, Choice;
    var names: seq<CStr>, data: seq<CStr> := [service, proto, LOCAL], [instance, service, proto, LOCAL];
    var ttl := if bye then 0 else PTR_TTL;
    BeginAtEnd(o, names, TYPE_PTR, false, ttl, beyond);
    var head := Begin(o, names, TYPE_PTR, false, ttl, beyond);
    var cut := WholeName(o, names, beyond);
    var cut' := WholeName(head.out, data, beyond);
    WireNotEmpty(o, names, beyond);
    WireNotEmpty(head.out, data, beyond);
    if head.length > 0 { NameDataAtEnd(head, head.out, data, beyond); }
  }

  /** The same for SRV: in front of the target come three numbers, and a host name is
      needed. */
  lemma SrvAtEnd(o: Out, instance: CStr, service: CStr, proto: CStr, priority: nat, weight: nat, port: nat,
                 host: CStr, flush: bool, bye: bool, beyond: byte)
    requires Sized(o) && priority < 0x10000 && weight < 0x10000 && port < 0x10000
    requires Short([instance, service, proto, LOCAL]) && Short([host, LOCAL])
    ensures var names: seq<CStr> := [instance, service, proto, LOCAL];
      var r := AppendSrv(o, instance, service, proto, priority, weight, port, host, flush, bye, beyond);
      var at := AppendU16(AppendU16(AppendU16(Begin(o, names, TYPE_SRV, flush, if bye then 0 else SRV_TTL, beyond).out,
                                              priority), weight), port);
      && (r.length > 0 <==> FieldsFit(o, names, beyond) && |host| > 0
                            && AppendFqdn(o, names, beyond).index + FIXED + 6 <= MAX_PACKET_SIZE
                            && FirstFits(at, [host, LOCAL], beyond))
      && (r.out.index == o.index <==> !FirstFits(o, names, beyond))
  {
    hide AppendFqdn, FirstFits, NameData, Begin, Short, AppendU16;
    var names: seq<CStr>, data: seq<CStr> := [instance, service, proto, LOCAL], [host, LOCAL];
    var ttl := if bye then 0 else SRV_TTL;
    BeginAtEnd(o, names, TYPE_SRV, flush, ttl, beyond);
    var head := Begin(o, names, TYPE_SRV, flush, ttl, beyond);
    if head.length > 0 {
      Put3(head.out, priority, weight, port);
      var o3 := AppendU16(AppendU16(AppendU16(head.out, priority), weight), port);
      if o3.index == head.out.index + 6 { NameDataAtEnd(head, o3, data, beyond); }
    }
  }

  lemma {:induction false} EntriesAtEnd(o: Out, entries: seq<Txt.Entry>)
    requires Sized(o)
    ensures AppendEntries(o, entries).1 <==> entries == [] || o.index + |Txt.EncodeAll(entries)| < MAX_PACKET_SIZE
    decreases |entries|
  {
    if entries != [] && o.index + |Txt.EntryBytes(entries[0])| + 1 < MAX_PACKET_SIZE {
      EntriesAtEnd(Put(o, Txt.Encode(entries[0])), entries[1..]);
      Txt.EncodedSize(entries[1..]);
    }
  }

  /** The same for TXT: all items have to fit with a byte to spare. */
  lemma TxtAtEnd(o: Out, instance: CStr, service: CStr, proto: CStr, entries: seq<Txt.Entry>, flush: bool, bye: bool, beyond: byte)
    requires Sized(o) && Short([instance, service, proto, LOCAL])
    ensures var names: seq<CStr> := [instance, service, proto, LOCAL];
      var r := AppendTxt(o, instance, service, proto, entries, flush, bye, beyond);
      && (r.length > 0 <==> FieldsFit(o, names, beyond)
                            && (entries == [] || AppendFqdn(o, names, beyond).index + FIXED + |Txt.EncodeAll(entries)| < MAX_PACKET_SIZE))
      && (r.out.index == o.index <==> !FirstFits(o, names, beyond))
  {
    hide AppendFqdn, FirstFits, Begin, Short, AppendEntries, SetU16, Txt.EncodeAll;
    var names: seq<CStr> := [instance, service, proto, LOCAL];
    var ttl := if bye then 0 else TXT_TTL;
    BeginAtEnd(o, names, TYPE_TXT, flush, ttl, beyond);
    var head := Begin(o, names, TYPE_TXT, flush, ttl, beyond);
    if head.length > 0 {
      EntriesAtEnd(head.out, entries);
      EntriesWritten(head.out, entries);
    }
  }

  /** The same for the addresses: without a host name nothing is written. */
  lemma AddressAtEnd(o: Out, host: CStr, address: seq<byte>, flush: bool, bye: bool, beyond: byte)
    requires Sized(o) && (|address| == 4 || |address| == 16) && Short([host, LOCAL])
    ensures var r := AppendAddress(o, host, address, flush, bye, beyond);
      && (r.length > 0 <==> |host| > 0 && FieldsFit(o, [host, LOCAL], beyond)
                            && AppendFqdn(o, [host, LOCAL], beyond).index + FIXED + |address| <= MAX_PACKET_SIZE)
      && (r.out.index == o.index <==> |host| == 0 || !FirstFits(o, [host, LOCAL], beyond))
  {
    hide AppendFqdn, FirstFits, Begin, Short, SetU16;
    if |host| > 0 {
      BeginAtEnd(o, [host, LOCAL], if |address| == 4 then TYPE_A else TYPE_AAAA, flush, if bye then 0 else ADDRESS_TTL, beyond);
    }
  }

  // ------------------------------------------------------------- two inputs

  /** Ten bytes in front of the end of a packet of zeros. */
  function NearEnd(): Out {
    Out(seq(MAX_PACKET_SIZE, i => 0), MAX_PACKET_SIZE - 10)
  }

  const HTTP: CStr := [95, 104, 116, 116, 112]
  const TCP: CStr := [95, 116, 99, 112]

  /** `_http` fits there and `_tcp` does not: the name is reported with six bytes, and
      one label of three is there. */
  lemma NameCutShort(beyond: byte)
    ensures AppendFqdn(NearEnd(), [HTTP, TCP, LOCAL], beyond) == Put(NearEnd(), [5] + HTTP)
    ensures |Wire(NearEnd(), [HTTP, TCP, LOCAL], beyond)| == 18
  {
    hide Accepts;
    var o := NearEnd();
    var names: seq<CStr> := [HTTP, TCP, LOCAL];
    FindNothing(o, 0, names, beyond);
    var o1 := AppendString(o, HTTP);
    assert names[1..] == [TCP, LOCAL];
    forall k | 0 <= k < o1.index ensures o1.buf[k] != 4 {
      if k < o.index { assert o1.buf[k] == o1.buf[..o.index][k] == o.buf[..o.index][k]; }
      else { assert o1.buf[k] == o1.buf[o.index..o1.index][k - o.index]; }
    }
    FindNothing(o1, 0, names[1..], beyond);
    assert AppendString(o1, TCP) == o1;
    LabelFirst(o, names, beyond);
    EncodedSize(names);
    assert Uncompressed([LOCAL]) == 6 + Uncompressed([LOCAL][1..]) && names[1..][1..] == [LOCAL];
  }

  /** A PTR record for that type has no room for its fixed fields: it is not counted, and
      the six bytes stay. */
  lemma FailureLeavesOwner(instance: CStr, bye: bool, beyond: byte)
    requires |instance| <= 63
    ensures var r := AppendPtr(NearEnd(), instance, HTTP, TCP, bye, beyond);
      r.length == 0 && r.out.index == NearEnd().index + 6
  {
    hide NearEnd, AppendFqdn;
    NameCutShort(beyond);
    assert NearEnd().index + 10 == MAX_PACKET_SIZE && Sized(NearEnd()) by { EndIndex(); }
  }

  lemma EndIndex()
    ensures Sized(NearEnd()) && NearEnd().index + 10 == MAX_PACKET_SIZE
  {
  }
}
