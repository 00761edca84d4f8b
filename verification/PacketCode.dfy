/** The packet buffer as the source keeps it: an array filled through a moving index.
    Each method is proved against the function of the same name. */
module PacketCode {
  import opened Options
  import opened Names
  import opened NameWriter
  import Records
  import RecordParser
  import Txt

  class OutPacket {
    const packet: array<byte>
    var index: nat

    ghost predicate Valid()
      reads this
    {
      packet.Length == MAX_PACKET_SIZE && index <= MAX_PACKET_SIZE
    }

    function Model(): Out
      reads this, packet
    {
      Out(packet[..], index)
    }

    /** The index behind the header; the bytes are whatever the buffer held. */
    constructor (buffer: array<byte>)
      requires buffer.Length == MAX_PACKET_SIZE
      ensures Valid() && Model() == Out(buffer[..], 12) && packet == buffer
    {
      packet := buffer;
      index := 12;
    }

    /** memcpy to the index */
    method Copy(bytes: seq<byte>)
      requires Valid() && index + |bytes| <= MAX_PACKET_SIZE
      modifies this`index, packet
      ensures Valid() && Model() == Put(old(Model()), bytes)
    {
      var k := 0;
      while k < |bytes|
        invariant k <= |bytes| && index == old(index)
        invariant forall i :: 0 <= i < packet.Length ==>
          packet[i] == if index <= i < index + k then bytes[i - index] else old(packet[i])
      {
        packet[index + k] := bytes[k];
        k := k + 1;
      }
      assert packet[..] == Put(old(Model()), bytes).buf;
      index := index + |bytes|;
    }

    method AppendU8(v: byte) returns (length: nat)
      requires Valid()
      modifies this`index, packet
      ensures Valid() && Model() == NameWriter.AppendU8(old(Model()), v) && length == index - old(index)
    {
      if index >= MAX_PACKET_SIZE {
        return 0;
      }
      Copy([v]);
      return 1;
    }

    method AppendU16(v: nat) returns (length: nat)
      requires Valid() && v < 0x10000
      modifies this`index, packet
      ensures Valid() && Model() == NameWriter.AppendU16(old(Model()), v) && length == index - old(index)
    {
      if index + 1 >= MAX_PACKET_SIZE {
        return 0;
      }
      ghost var o := Model();
      var high := AppendU8(v / 256);
      var low := AppendU8(v % 256);
      Records.Put2(o, [v / 256], [v % 256]);
      assert [v / 256] + [v % 256] == U16(v);
      return 2;
    }

    method AppendString(s: CStr) returns (length: nat)
      requires Valid()
      modifies this`index, packet
      ensures Valid() && Model() == NameWriter.AppendString(old(Model()), s) && length == index - old(index)
    {
      if index + |s| + 1 >= MAX_PACKET_SIZE {
        return 0;
      }
      ghost var o := Model();
      var first := AppendU8(|s|);
      Copy(s);
      Records.Put2(o, [|s|], s);
      return |s| + 1;
    }

    method SetU16(at: nat, v: nat)
      requires Valid() && v < 0x10000
      modifies packet
      ensures Valid() && index == old(index) && Model() == Records.SetU16(old(Model()), at, v)
    {
      if at + 1 < MAX_PACKET_SIZE {
        packet[at] := v / 256;
        packet[at + 1] := v % 256;
        assert packet[..] == old(packet[..at]) + U16(v) + old(packet[at + 2..]);
      }
    }

    /** Whether the place is the start of the name that is being written. */
    method Matches(l: nat, strings: seq<CStr>, beyond: byte) returns (ok: bool)
      requires Valid() && l < index && |strings| > 0
      ensures ok == Accepts(packet[..], l, strings, beyond)
    {
      hide Fold, Tokens;
      var len := |strings[0]|;
      if packet[l] != len || l + 1 + len > packet.Length || packet[l + 1..l + 1 + len] != strings[0] {
        assert packet[..][l] == packet[l];
        assert l + 1 + len <= packet.Length ==> packet[..][l + 1..l + 1 + len] == packet[l + 1..l + 1 + len];
        return false;
      }
      var name := new NameBuffer();
      var content := ReadFqdn(packet, l, name, beyond);
      if content.None? || name.parts != |strings| {
        return false;
      }
      var fields := [name.host, name.service, name.proto, name.domain];
      var i := 0;
      while i < |strings|
        invariant i <= |strings| && forall k :: 0 <= k < i ==> SameFold(strings[k], fields[k])
      {
        if !SameFold(strings[i], fields[i]) {
          return false;
        }
        i := i + 1;
      }
      return true;
    }

    /** _mdns_append_fqdn */
    method AppendFqdn(strings: seq<CStr>, beyond: byte) returns (length: nat)
      requires Valid()
      modifies this`index, packet
      ensures Valid() && Model() == NameWriter.AppendFqdn(old(Model()), strings, beyond)
      ensures length == index - old(index)
      decreases |strings|
    {
      hide Find, Accepts;
      if |strings| == 0 {
        length := AppendU8(0);
        return;
      }
      ghost var o := Model();
      var l := 0;
      var found := false;
      FindHere(o, 0, strings, beyond);
      while l < index && !found
        invariant l <= index == old(index) && Model() == o
        invariant Find(o, l, strings, beyond) == Find(o, 0, strings, beyond)
        invariant found ==> l < index && Accepts(packet[..], l, strings, beyond)
        decreases index - l, !found
      {
        found := Matches(l, strings, beyond);
        FindHere(o, l, strings, beyond);
        if !found {
          l := l + 1;
        }
      }
      FindHere(o, l, strings, beyond);
      if !found {
        var written := AppendString(strings[0]);
        if written == 0 {
          return 0;
        }
        var rest := AppendFqdn(strings[1..], beyond);
        return written + rest;
      }
      length := AppendU16(0xC000 + l);
    }

    /** _mdns_append_type */
    method AppendType(rtype: nat, flush: bool, ttl: nat) returns (length: nat)
      requires Valid() && rtype < 0x10000 && ttl < 0x1_0000_0000
      modifies this`index, packet
      ensures Valid() && Model() == Records.AppendType(old(Model()), rtype, flush, ttl) && length == index - old(index)
    {
      if index + 10 >= MAX_PACKET_SIZE {
        return 0;
      }
      hide Records.U32, U16;
      ghost var o := Model();
      var mdnsClass := if flush then Records.CLASS_IN_FLUSH else Records.CLASS_IN;
      Copy(U16(rtype));
      Copy(U16(mdnsClass));
      Records.Put2(o, U16(rtype), U16(mdnsClass));
      Copy(Records.U32(ttl));
      Records.Put2(o, U16(rtype) + U16(mdnsClass), Records.U32(ttl));
      Copy(U16(0));
      Records.Put2(o, U16(rtype) + U16(mdnsClass) + Records.U32(ttl), U16(0));
      return 10;
    }

    /** Owner name and fixed fields; the length is zero when either fails. */
    method Begin(names: seq<CStr>, rtype: nat, flush: bool, ttl: nat, beyond: byte) returns (length: nat)
      requires Valid() && rtype < 0x10000 && ttl < 0x1_0000_0000
      modifies this`index, packet
      ensures Valid() && Records.Outcome(Model(), length) == Records.Begin(old(Model()), names, rtype, flush, ttl, beyond)
    {
      hide NameWriter.AppendFqdn, Records.Fields;
      var partLength := AppendFqdn(names, beyond);
      partLength := partLength % 256;
      if partLength == 0 {
        return 0;
      }
      var fixed := AppendType(rtype, flush, ttl);
      if fixed == 0 {
        return 0;
      }
      return partLength + fixed;
    }

    /** The type and the class of a question, each if it fits. */
    method AppendNumbers(qtype: nat, mdnsClass: nat) returns (a: nat, b: nat)
      requires Valid() && qtype < 0x10000 && mdnsClass < 0x10000
      modifies this`index, packet
      ensures Valid() && a + b == index - old(index)
      ensures Model() == NameWriter.AppendU16(NameWriter.AppendU16(old(Model()), qtype), mdnsClass)
    {
      hide NameWriter.AppendU16;
      a := AppendU16(qtype);
      b := AppendU16(mdnsClass);
    }

    /** _mdns_append_question */
    method AppendQuestion(names: seq<CStr>, qtype: nat, unicast: bool, beyond: byte) returns (length: nat)
      requires Valid() && qtype < 0x10000
      modifies this`index, packet
      ensures Valid()
      ensures Records.Outcome(Model(), length) == Records.AppendQuestion(old(Model()), names, qtype, unicast, beyond)
    {
      hide NameWriter.AppendFqdn, NameWriter.AppendU16;
      var partLength := AppendFqdn(names, beyond);
      partLength := partLength % 256;
      if partLength == 0 {
        return 0;
      }
      var a, b := AppendNumbers(qtype, if unicast then 0x8001 else 0x0001);
      TwoSums(partLength, a, b);
      partLength := (partLength + a) % 256;
      partLength := (partLength + b) % 256;
      return partLength;
    }

    /** _mdns_append_ptr_record */
    method AppendPtr(instance: CStr, service: CStr, proto: CStr, bye: bool, beyond: byte) returns (length: nat)
      requires Valid()
      modifies this`index, packet
      ensures Valid()
      ensures Records.Outcome(Model(), length) == Records.AppendPtr(old(Model()), instance, service, proto, bye, beyond)
    {
      hide NameWriter.AppendFqdn, Records.Begin, Records.SetU16;
      var recordLength := Begin([service, proto, LOCAL], Records.TYPE_PTR, false, if bye then 0 else Records.PTR_TTL, beyond);
      if recordLength == 0 {
        return 0;
      }
      var dataLenLocation := index - 2;
      var partLength := AppendFqdn([instance, service, proto, LOCAL], beyond);
      partLength := partLength % 256;
      if partLength == 0 {
        return 0;
      }
      SetU16(dataLenLocation, partLength);
      return recordLength + partLength;
    }

    /** _mdns_append_srv_record */
    method AppendSrv(instance: CStr, service: CStr, proto: CStr, priority: nat, weight: nat, port: nat,
                     host: CStr, flush: bool, bye: bool, beyond: byte) returns (length: nat)
      requires Valid() && priority < 0x10000 && weight < 0x10000 && port < 0x10000
      modifies this`index, packet
      ensures Valid()
      ensures Records.Outcome(Model(), length)
        == Records.AppendSrv(old(Model()), instance, service, proto, priority, weight, port, host, flush, bye, beyond)
    {
      hide NameWriter.AppendFqdn, NameWriter.AppendU16, Records.Begin, Records.SetU16;
      var recordLength := Begin([instance, service, proto, LOCAL], Records.TYPE_SRV, flush,
                                if bye then 0 else Records.SRV_TTL, beyond);
      if recordLength == 0 {
        return 0;
      }
      var dataLenLocation := index - 2;
      var a := AppendU16(priority);
      var b := AppendU16(weight);
      var c := AppendU16(port);
      if a + b + c != 6 || |host| == 0 {
        return 0;
      }
      var partLength := AppendFqdn([host, LOCAL], beyond);
      partLength := partLength % 256;
      if partLength == 0 {
        return 0;
      }
      SetU16(dataLenLocation, partLength + 6);
      return recordLength + partLength + 6;
    }

    /** _mdns_append_a_record with four bytes, _mdns_append_aaaa_record with sixteen */
    method AppendAddress(host: CStr, address: seq<byte>, flush: bool, bye: bool, beyond: byte) returns (length: nat)
      requires Valid() && (|address| == 4 || |address| == 16)
      modifies this`index, packet
      ensures Valid()
      ensures Records.Outcome(Model(), length) == Records.AppendAddress(old(Model()), host, address, flush, bye, beyond)
    {
      hide NameWriter.AppendFqdn, Records.Begin, Records.SetU16, Put;
      if |host| == 0 {
        return 0;
      }
      var recordLength := Begin([host, LOCAL], if |address| == 4 then Records.TYPE_A else Records.TYPE_AAAA, flush,
                                if bye then 0 else Records.ADDRESS_TTL, beyond);
      if recordLength == 0 {
        return 0;
      }
      var dataLenLocation := index - 2;
      if index + |address| > MAX_PACKET_SIZE {
        return 0;
      }
      Copy(address);
      SetU16(dataLenLocation, |address|);
      return recordLength + |address|;
    }

    /** append_one_txt_record_entry; zero when the item does not fit. */
    method AppendEntry(e: Txt.Entry) returns (length: nat)
      requires Valid()
      modifies this`index, packet
      ensures Valid() && length == index - old(index)
      ensures old(index) + |Txt.EntryBytes(e)| + 1 >= MAX_PACKET_SIZE ==> length == 0 && Model() == old(Model())
      ensures old(index) + |Txt.EntryBytes(e)| + 1 < MAX_PACKET_SIZE ==>
        length == |Txt.EntryBytes(e)| + 1 == |Txt.Encode(e)| && Model() == Put(old(Model()), Txt.Encode(e))
    {
      hide Txt.EntryBytes, Txt.Encode;
      var len := |e.key| + (if e.value.Some? then |e.value.value| + 1 else 0);
      EncodeParts(e, len);
      if index + len + 1 >= MAX_PACKET_SIZE {
        return 0;
      }
      ghost var o := Model();
      var first := AppendU8(len % 256);
      Copy(e.key);
      Records.Put2(o, [len % 256], e.key);
      if e.value.Some? {
        Copy([Txt.EQUALS] + e.value.value);
        Records.Put2(o, [len % 256] + e.key, [Txt.EQUALS] + e.value.value);
      }
      return len + 1;
    }

    /** The loop over the items of a service. */
    method AppendEntries(entries: seq<Txt.Entry>) returns (ok: bool)
      requires Valid()
      modifies this`index, packet
      ensures Valid() && old(index) <= index && (Model(), ok) == Records.AppendEntries(old(Model()), entries)
    {
      hide Txt.EntryBytes, Txt.Encode;
      ghost var head := Model();
      var i := 0;
      assert entries[0..] == entries;
      while i < |entries|
        invariant i <= |entries| && Valid() && head.index <= index
        invariant Records.AppendEntries(Model(), entries[i..]) == Records.AppendEntries(head, entries)
      {
        assert entries[i..][0] == entries[i] && entries[i..][1..] == entries[i + 1..];
        var l := AppendEntry(entries[i]);
        if l == 0 {
          return false;
        }
        i := i + 1;
      }
      return true;
    }

    /** A byte written without a check. */
    method Poke(v: byte)
      requires Valid() && index < MAX_PACKET_SIZE
      modifies this`index, packet
      ensures Valid() && Model() == Put(old(Model()), [v])
    {
      packet[index] := v;
      index := index + 1;
      assert packet[..] == old(packet[..index]) + [v] + old(packet[index + 1..]);
    }

    /** _mdns_append_txt_record */
    method AppendTxt(instance: CStr, service: CStr, proto: CStr, entries: seq<Txt.Entry>, flush: bool, bye: bool,
                     beyond: byte) returns (length: nat)
      requires Valid()
      modifies this`index, packet
      ensures Valid()
      ensures Records.Outcome(Model(), length)
        == Records.AppendTxt(old(Model()), instance, service, proto, entries, flush, bye, beyond)
    {
      hide NameWriter.AppendFqdn, Records.Begin, Records.SetU16, Records.AppendEntries, Put;
      var recordLength := Begin([instance, service, proto, LOCAL], Records.TYPE_TXT, flush,
                                if bye then 0 else Records.TXT_TTL, beyond);
      if recordLength == 0 {
        return 0;
      }
      var head := index;
      var ok := AppendEntries(entries);
      if !ok {
        return 0;
      }
      if index == head {
        Poke(0);
      }
      var dataLen := index - head;
      SetU16(head - 2, dataLen);
      return recordLength + dataLen;
    }
  }

  lemma EncodeParts(e: Txt.Entry, len: nat)
    requires len == |e.key| + (if e.value.Some? then |e.value.value| + 1 else 0)
    ensures |Txt.EntryBytes(e)| == len && |Txt.Encode(e)| == len + 1
    ensures Txt.Encode(e) == if e.value.Some? then [len % 256] + e.key + ([Txt.EQUALS] + e.value.value) else [len % 256] + e.key
  {
    var bytes := Txt.EntryBytes(e);
    assert [len % 256] + bytes == if e.value.Some? then [len % 256] + e.key + ([Txt.EQUALS] + e.value.value) else [len % 256] + e.key;
  }

  lemma FindHere(o: Out, l: nat, strings: seq<CStr>, beyond: byte)
    requires Sized(o) && |strings| > 0 && l <= o.index
    ensures l == o.index ==> Find(o, l, strings, beyond) == None
    ensures l < o.index ==>
      Find(o, l, strings, beyond) == if Accepts(o.buf, l, strings, beyond) then Some(l) else Find(o, l + 1, strings, beyond)
  {
  }

  lemma TwoSums(p: nat, a: nat, b: nat)
    ensures ((p + a) % 256 + b) % 256 == (p + (a + b)) % 256
  {
  }

  /** One record header as mdns_parse_packet reads it. */
  method ParseRecordHeader(packet: array<byte>, content: nat, beyond: byte)
    returns (r: Option<(RecordParser.Record, nat)>)
    ensures r == RecordParser.ParseRecord(packet[..], content, beyond)
  {
    hide Tokens, Fold, Names.Arrange;
    var name := new NameBuffer();
    var next := ReadFqdn(packet, content, name, beyond);
    if next.None? || next.value + 9 >= packet.Length {
      return None;
    }
    var at := next.value;
    var dataLen := packet[at + 8] as int * 256 + packet[at + 9];
    if at + 10 + dataLen > packet.Length || dataLen == 0 {
      return None;
    }
    var record := RecordParser.Record(Names.Arrange(name.Model()), RecordParser.GetU16(packet[..], at),
      RecordParser.GetU16(packet[..], at + 2) % 0x8000, RecordParser.GetU32(packet[..], at + 4), at + 10, dataLen);
    return Some((record, at + 10 + dataLen));
  }

  /** The record loop of mdns_parse_packet. */
  method ParseRecordLoop(packet: array<byte>, start: nat, beyond: byte) returns (records: seq<RecordParser.Record>)
    ensures records == RecordParser.ParseRecords(packet[..], start, beyond)
  {
    hide RecordParser.ParseRecord;
    records := [];
    var content := start;
    while content < packet.Length
      invariant records + RecordParser.ParseRecords(packet[..], content, beyond)
             == RecordParser.ParseRecords(packet[..], start, beyond)
      decreases packet.Length - content
    {
      var header := ParseRecordHeader(packet, content, beyond);
      if header.None? {
        return;
      }
      records := records + [header.value.0];
      content := header.value.1;
    }
  }

  /** One question as mdns_parse_packet reads it. */
  method ParseQuestionHeader(packet: array<byte>, content: nat, beyond: byte)
    returns (r: Option<(RecordParser.Question, nat)>)
    ensures r == RecordParser.ParseQuestion(packet[..], content, beyond)
  {
    hide Tokens, Fold, Names.Arrange;
    var name := new NameBuffer();
    var next := ReadFqdn(packet, content, name, beyond);
    if next.None? || next.value + 3 >= packet.Length {
      return None;
    }
    var at := next.value;
    var qtype := packet[at] as int * 256 + packet[at + 1];
    var mdnsClass := packet[at + 2] as int * 256 + packet[at + 3];
    var unicast := mdnsClass >= 0x8000;
    mdnsClass := mdnsClass % 0x8000;
    return Some((RecordParser.Question(Names.Arrange(name.Model()), qtype, mdnsClass, unicast), at + 4));
  }

  /** The question loop of mdns_parse_packet; `count` comes from the header. */
  method ParseQuestionLoop(packet: array<byte>, start: nat, count: nat, beyond: byte)
    returns (r: Option<(seq<RecordParser.Question>, nat)>)
    ensures r == RecordParser.ParseQuestions(packet[..], start, count, beyond)
  {
    hide RecordParser.ParseQuestion;
    var questions: seq<RecordParser.Question> := [];
    var content, qs := start, count;
    BehindNothing(RecordParser.ParseQuestions(packet[..], start, count, beyond));
    while qs > 0
      invariant RecordParser.ParseQuestions(packet[..], start, count, beyond)
        == Behind(questions, RecordParser.ParseQuestions(packet[..], content, qs, beyond))
      decreases qs
    {
      var header := ParseQuestionHeader(packet, content, beyond);
      if header.None? {
        return None;
      }
      BehindMore(questions, header.value.0, RecordParser.ParseQuestions(packet[..], header.value.1, qs - 1, beyond));
      questions := questions + [header.value.0];
      content := header.value.1;
      qs := qs - 1;
    }
    assert questions + [] == questions;
    return Some((questions, content));
  }

  /** Questions already read in front of those still to be read. */
  function Behind(done: seq<RecordParser.Question>, rest: Option<(seq<RecordParser.Question>, nat)>)
    : Option<(seq<RecordParser.Question>, nat)>
  {
    match rest case None => None case Some(r) => Some((done + r.0, r.1))
  }

  lemma BehindNothing(rest: Option<(seq<RecordParser.Question>, nat)>)
    ensures Behind([], rest) == rest
  {
    if rest.Some? { assert [] + rest.value.0 == rest.value.0; }
  }

  lemma BehindMore(done: seq<RecordParser.Question>, q: RecordParser.Question, rest: Option<(seq<RecordParser.Question>, nat)>)
    ensures Behind(done + [q], rest) == Behind(done, Behind([q], rest))
  {
    if rest.Some? { assert (done + [q]) + rest.value.0 == done + ([q] + rest.value.0); }
  }
}
