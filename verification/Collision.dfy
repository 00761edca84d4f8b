/** Conflicts between two hosts that claim the same service: each host compares its own
    record with the other's and one of them gives way (section 8.2 of RFC 6762). */
module Collision {
  import opened Names
  import opened NameWriter
  import Txt

  const WE_WIN := -1
  const THEY_WIN := 1

  /** What memcmp returns the sign of. */
  function Memcmp(a: seq<byte>, b: seq<byte>): int
    requires |a| == |b|
  {
    if a == [] then 0 else if a[0] != b[0] then a[0] as int - b[0] as int else Memcmp(a[1..], b[1..])
  }

  /** The longer data wins, then the larger first difference. */
  function Verdict(ours: seq<byte>, theirs: seq<byte>): int {
    if |theirs| > |ours| then THEY_WIN
    else if |theirs| < |ours| then WE_WIN
    else if Memcmp(ours, theirs) > 0 then WE_WIN
    else if Memcmp(ours, theirs) < 0 then THEY_WIN
    else 0
  }

  datatype Srv = Srv(priority: nat, weight: nat, port: nat, host: seq<byte>, domain: seq<byte>)

  predicate Wide(r: Srv) {
    r.priority < 0x10000 && r.weight < 0x10000 && r.port < 0x10000 && |r.host| < 256 && |r.domain| < 256
  }

  /** The data of an SRV record without name compression. */
  function SrvWire(r: Srv): seq<byte>
    requires Wide(r)
  {
    U16(r.priority) + U16(r.weight) + U16(r.port) + [|r.host|] + r.host + [|r.domain|] + r.domain + [0]
  }

  /** _mdns_check_srv_collision: the own host name is the responder's. */
  function SrvCollision(own: Srv, theirs: Srv): int
    requires Wide(own) && Wide(theirs)
  {
    if |own.host| == 0 then 0 else Verdict(SrvWire(own), SrvWire(theirs))
  }

  /** _mdns_check_txt_collision */
  function TxtCollision(entries: seq<Txt.Entry>, data: seq<byte>): int {
    if |data| <= 1 && entries != [] then WE_WIN
    else if |data| > 1 && entries == [] then THEY_WIN
    else if |data| <= 1 then 0
    else Verdict(Txt.EncodeAll(entries), data)
  }

  // ------------------------------------------------------------ total order

  lemma {:induction false} MemcmpOrder(a: seq<byte>, b: seq<byte>)
    requires |a| == |b|
    ensures Memcmp(b, a) == -Memcmp(a, b)
    ensures Memcmp(a, b) == 0 <==> a == b
    decreases |a|
  {
    if a != [] {
      MemcmpOrder(a[1..], b[1..]);
      assert a == [a[0]] + a[1..] && b == [b[0]] + b[1..];
    }
  }

  lemma {:induction false} MemcmpTransitive(a: seq<byte>, b: seq<byte>, c: seq<byte>)
    requires |a| == |b| == |c| && Memcmp(a, b) <= 0 && Memcmp(b, c) <= 0
    ensures Memcmp(a, c) <= 0
    decreases |a|
  {
    if a != [] && a[0] == b[0] == c[0] {
      MemcmpTransitive(a[1..], b[1..], c[1..]);
    }
  }

  /** Two hosts never both win or both lose, and only equal data is no conflict. */
  lemma VerdictsOppose(a: seq<byte>, b: seq<byte>)
    ensures Verdict(b, a) == -Verdict(a, b)
    ensures Verdict(a, b) == 0 <==> a == b
  {
    if |a| == |b| {
      MemcmpOrder(a, b);
    }
  }

  /** Winning is transitive, so among any number of hosts one loses to nobody. */
  lemma VerdictTransitive(a: seq<byte>, b: seq<byte>, c: seq<byte>)
    requires Verdict(a, b) != THEY_WIN && Verdict(b, c) != THEY_WIN
    ensures Verdict(a, c) != THEY_WIN
  {
    if |a| == |b| == |c| {
      MemcmpOrder(a, b);
      MemcmpOrder(b, c);
      MemcmpOrder(a, c);
      MemcmpTransitive(c, b, a);
    }
  }

  lemma SrvWireInjective(a: Srv, b: Srv)
    requires Wide(a) && Wide(b) && SrvWire(a) == SrvWire(b)
    ensures a == b
  {
    var w, v := SrvWire(a), SrvWire(b);
    assert w[0] == v[0] && w[1] == v[1] && w[2] == v[2] && w[3] == v[3] && w[4] == v[4] && w[5] == v[5] && w[6] == v[6];
    var n := |a.host|;
    assert w[6] == n && v[6] == |b.host|;
    assert a.host == w[7..7 + n] && b.host == v[7..7 + n];
    assert w[7 + n] == |a.domain| && v[7 + n] == |b.domain|;
    var m := |a.domain|;
    assert a.domain == w[8 + n..8 + n + m] && b.domain == v[8 + n..8 + n + m];
  }

  /** Each of two named hosts sees the other's SRV record: the verdicts are opposite,
      and there is none exactly when priority, weight, port, host and domain agree. */
  lemma SrvOneLoser(a: Srv, b: Srv)
    requires Wide(a) && Wide(b) && |a.host| > 0 && |b.host| > 0
    ensures SrvCollision(b, a) == -SrvCollision(a, b)
    ensures SrvCollision(a, b) == 0 <==> a == b
  {
    VerdictsOppose(SrvWire(a), SrvWire(b));
    if SrvWire(a) == SrvWire(b) {
      SrvWireInjective(a, b);
    }
  }

  /** Items written one after another can be told apart. */
  lemma {:induction false} EncodingInjective(a: seq<Txt.Entry>, b: seq<Txt.Entry>)
    requires Txt.AllWellformed(a) && Txt.AllWellformed(b) && Txt.EncodeAll(a) == Txt.EncodeAll(b)
    ensures a == b
    decreases |a|
  {
    var w := Txt.EncodeAll(a);
    Txt.EncodedSize(a);
    Txt.EncodedSize(b);
    if a != [] {
      Txt.FirstAt(w, 0, a);
      Txt.FirstAt(w, 0, b);
      SameEntry(a[0], b[0]);
      EncodingInjective(a[1..], b[1..]);
      assert a == [a[0]] + a[1..] && b == [b[0]] + b[1..];
    }
  }

  lemma SameEntry(x: Txt.Entry, y: Txt.Entry)
    requires Txt.Wellformed(x) && Txt.Wellformed(y) && Txt.EntryBytes(x) == Txt.EntryBytes(y)
    ensures x == y
  {
    Txt.KeyIs(x);
    Txt.KeyIs(y);
    if x.value.Some? && y.value.Some? {
      assert Txt.EntryBytes(x)[|x.key| + 1..] == x.value.value;
      assert Txt.EntryBytes(y)[|y.key| + 1..] == y.value.value;
    }
  }

  /** The same for the TXT records of two hosts, each seen as the data the other sent. */
  lemma TxtOneLoser(a: seq<Txt.Entry>, b: seq<Txt.Entry>)
    requires Txt.AllWellformed(a) && Txt.AllWellformed(b)
    ensures TxtCollision(b, Txt.Rdata(a)) == -TxtCollision(a, Txt.Rdata(b))
    ensures TxtCollision(a, Txt.Rdata(b)) == 0 <==> a == b
  {
    TxtVerdict(a, b);
    TxtVerdict(b, a);
    VerdictsOppose(Txt.EncodeAll(a), Txt.EncodeAll(b));
    if Txt.EncodeAll(a) == Txt.EncodeAll(b) {
      EncodingInjective(a, b);
    }
  }

  lemma TxtVerdict(a: seq<Txt.Entry>, b: seq<Txt.Entry>)
    requires Txt.AllWellformed(a) && Txt.AllWellformed(b)
    ensures TxtCollision(a, Txt.Rdata(b)) == Verdict(Txt.EncodeAll(a), Txt.EncodeAll(b))
  {
    if b != [] {
      assert |Txt.EncodeAll(b)| >= |Txt.Encode(b[0])| >= 2;
    }
    if a != [] {
      assert |Txt.EncodeAll(a)| >= |Txt.Encode(a[0])| >= 2;
    }
  }

  // ------------------------------------------------ bytes first (section 8.2)

  /** Section 8.2 of RFC 6762: the first byte that differs decides, the larger one
      winning; data that runs out first loses. */
  function BytesFirst(ours: seq<byte>, theirs: seq<byte>): int {
    if ours == theirs then 0
    else if ours == [] then THEY_WIN
    else if theirs == [] then WE_WIN
    else if ours[0] != theirs[0] then (if ours[0] > theirs[0] then WE_WIN else THEY_WIN)
    else BytesFirst(ours[1..], theirs[1..])
  }

  /** How many bytes agree. */
  function Agreeing(a: seq<byte>, b: seq<byte>): (d: nat)
    ensures d <= |a| && d <= |b| && a[..d] == b[..d]
    ensures d < |a| && d < |b| ==> a[d] != b[d]
  {
    if a == [] || b == [] || a[0] != b[0] then 0
    else
      var d := Agreeing(a[1..], b[1..]);
      assert a[..d + 1] == [a[0]] + a[1..][..d] && b[..d + 1] == [b[0]] + b[1..][..d];
      d + 1
  }

  lemma {:induction false} BytesFirstIs(a: seq<byte>, b: seq<byte>)
    ensures var d := Agreeing(a, b);
      BytesFirst(a, b) == if d < |a| && d < |b| then (if a[d] > b[d] then WE_WIN else THEY_WIN)
                          else if |a| > |b| then WE_WIN else if |a| < |b| then THEY_WIN else 0
    decreases |a|
  {
    if a == b {
    } else if a != [] && b != [] && a[0] == b[0] {
      BytesFirstIs(a[1..], b[1..]);
      assert a == [a[0]] + a[1..] && b == [b[0]] + b[1..];
    }
  }

  lemma {:induction false} MemcmpBytesFirst(a: seq<byte>, b: seq<byte>)
    requires |a| == |b|
    ensures Verdict(a, b) == BytesFirst(a, b)
    decreases |a|
  {
    MemcmpOrder(a, b);
    if a != b && a[0] == b[0] {
      MemcmpBytesFirst(a[1..], b[1..]);
      MemcmpOrder(a[1..], b[1..]);
      assert a == [a[0]] + a[1..] && b == [b[0]] + b[1..];
    }
  }

  /** Comparing the lengths first decides as section 8.2 does exactly if the lengths are
      equal, or one is the beginning of the other, or the longer one has the larger
      byte where they first differ. */
  lemma VerdictAgrees(a: seq<byte>, b: seq<byte>)
    ensures var d := Agreeing(a, b);
      Verdict(a, b) == BytesFirst(a, b)
      <==> |a| == |b| || d == |a| || d == |b| || (a[d] > b[d] <==> |a| > |b|)
  {
    BytesFirstIs(a, b);
    if |a| == |b| { MemcmpBytesFirst(a, b); }
  }

  lemma {:induction false} BytesFirstPrefix(p: seq<byte>, q: seq<byte>, a: seq<byte>, b: seq<byte>)
    requires |p| == |q|
    ensures BytesFirst(p + a, q + b) == if p == q then BytesFirst(a, b) else BytesFirst(p, q)
    decreases |p|
  {
    var x, y := p + a, q + b;
    if p == [] {
      assert x == a && y == b;
    } else {
      assert x[0] == p[0] && y[0] == q[0] && x[1..] == p[1..] + a && y[1..] == q[1..] + b;
      assert p == [p[0]] + p[1..] && q == [q[0]] + q[1..];
      BytesFirstPrefix(p[1..], q[1..], a, b);
      if p != q { assert x != y by { assert x[..|p|] == p && y[..|q|] == q; } }
    }
  }

  lemma BytesFirstU16(v: nat, w: nat)
    requires v < 0x10000 && w < 0x10000
    ensures BytesFirst(U16(v), U16(w)) == if v == w then 0 else if v > w then WE_WIN else THEY_WIN
    ensures U16(v) == U16(w) <==> v == w
  {
    var a, b := U16(v), U16(w);
    assert a[0] == v / 256 && a[1] == v % 256 && b[0] == w / 256 && b[1] == w % 256;
    assert a[1..][0] == v % 256 && b[1..][0] == w % 256;
    assert a[1..] == [v % 256] && b[1..] == [w % 256];
    if v / 256 == w / 256 && v != w { assert v % 256 != w % 256 && a[1..] != b[1..]; }
  }

  function Numbers(r: Srv): (n: seq<byte>)
    requires Wide(r)
    ensures |n| == 6
  {
    U16(r.priority) + (U16(r.weight) + U16(r.port))
  }

  predicate SameNumbers(a: Srv, b: Srv) {
    a.priority == b.priority && a.weight == b.weight && a.port == b.port
  }

  /** Priority, then weight, then port. */
  predicate LargerNumbers(a: Srv, b: Srv) {
    || a.priority > b.priority
    || (a.priority == b.priority && a.weight > b.weight)
    || (a.priority == b.priority && a.weight == b.weight && a.port > b.port)
  }

  lemma NumbersFirst(a: Srv, b: Srv)
    requires Wide(a) && Wide(b)
    ensures BytesFirst(Numbers(a), Numbers(b)) == if SameNumbers(a, b) then 0 else if LargerNumbers(a, b) then WE_WIN else THEY_WIN
    ensures Numbers(a) == Numbers(b) <==> SameNumbers(a, b)
  {
    hide BytesFirst, U16;
    BytesFirstU16(a.priority, b.priority);
    BytesFirstU16(a.weight, b.weight);
    BytesFirstU16(a.port, b.port);
    BytesFirstPrefix(U16(a.priority), U16(b.priority), U16(a.weight) + U16(a.port), U16(b.weight) + U16(b.port));
    BytesFirstPrefix(U16(a.weight), U16(b.weight), U16(a.port), U16(b.port));
    NumbersEqual(a, b);
  }

  lemma NumbersEqual(a: Srv, b: Srv)
    requires Wide(a) && Wide(b)
    ensures Numbers(a) == Numbers(b) <==> SameNumbers(a, b)
  {
    hide BytesFirst;
    var w, v := Numbers(a), Numbers(b);
    if w == v {
      assert w[0] == v[0] && w[1] == v[1] && w[2] == v[2] && w[3] == v[3] && w[4] == v[4] && w[5] == v[5];
    }
  }

  function HostPart(r: Srv): seq<byte>
    requires Wide(r)
  {
    [|r.host|] + (r.host + ([|r.domain|] + (r.domain + [0])))
  }

  lemma WireParts(r: Srv)
    requires Wide(r)
    ensures SrvWire(r) == Numbers(r) + HostPart(r) && |SrvWire(r)| == 9 + |r.host| + |r.domain|
  {
    hide U16;
  }

  /** For two hosts in one domain: the verdict is the one of section 8.2 exactly if the
      host names are equally long, or the numbers are the same, or the host with the
      longer name has the larger numbers. */
  lemma SrvAgrees(a: Srv, b: Srv)
    requires Wide(a) && Wide(b) && |a.host| > 0 && a.domain == b.domain
    ensures SrvCollision(a, b) == BytesFirst(SrvWire(a), SrvWire(b))
      <==> |a.host| == |b.host| || SameNumbers(a, b) || (LargerNumbers(a, b) <==> |a.host| > |b.host|)
  {
    hide Memcmp, U16, Numbers, HostPart, SrvWire, LargerNumbers, SameNumbers, BytesFirst;
    WireParts(a);
    WireParts(b);
    if |a.host| == |b.host| {
      MemcmpBytesFirst(SrvWire(a), SrvWire(b));
    } else {
      BytesFirstPrefix(Numbers(a), Numbers(b), HostPart(a), HostPart(b));
      NumbersFirst(a, b);
      HostPartFirst(a, b);
    }
  }

  lemma HostPartFirst(a: Srv, b: Srv)
    requires Wide(a) && Wide(b) && |a.host| != |b.host|
    ensures BytesFirst(HostPart(a), HostPart(b)) == if |a.host| > |b.host| then WE_WIN else THEY_WIN
  {
    var w, v := HostPart(a), HostPart(b);
    assert w[0] == |a.host| && v[0] == |b.host|;
  }

  /** A service on port 9 of host `a` meets the same on port 1 of host `bc`: by the
      bytes it wins, by the code it gives way. */
  lemma ShorterNameLoses()
    ensures var ours, theirs := Srv(0, 0, 9, [97], LOCAL), Srv(0, 0, 1, [98, 99], LOCAL);
      && Wide(ours) && Wide(theirs)
      && SrvCollision(ours, theirs) == THEY_WIN && BytesFirst(SrvWire(ours), SrvWire(theirs)) == WE_WIN
  {
    hide BytesFirst, Memcmp, U16;
    var ours, theirs := Srv(0, 0, 9, [97], LOCAL), Srv(0, 0, 1, [98, 99], LOCAL);
    WireParts(ours);
    WireParts(theirs);
    BytesFirstPrefix(Numbers(ours), Numbers(theirs), HostPart(ours), HostPart(theirs));
    NumbersFirst(ours, theirs);
  }

  // -------------------------------------------------------------- the loops

  /** memcmp */
  method CompareBytes(a: array<byte>, b: array<byte>) returns (ret: int)
    requires a.Length == b.Length
    ensures ret == Memcmp(a[..], b[..])
  {
    var i := 0;
    assert a[0..] == a[..] && b[0..] == b[..];
    while i < a.Length
      invariant i <= a.Length && Memcmp(a[i..], b[i..]) == Memcmp(a[..], b[..])
    {
      assert a[i..][1..] == a[i + 1..] && b[i..][1..] == b[i + 1..];
      if a[i] != b[i] {
        return a[i] as int - b[i] as int;
      }
      i := i + 1;
    }
    return 0;
  }

  method Append(data: array<byte>, index: nat, bytes: seq<byte>) returns (next: nat)
    requires index + |bytes| <= data.Length
    modifies data
    ensures next == index + |bytes| && data[..next] == old(data[..index]) + bytes
  {
    var k := 0;
    while k < |bytes|
      invariant k <= |bytes| && data[..index + k] == old(data[..index]) + bytes[..k]
    {
      data[index + k] := bytes[k];
      k := k + 1;
    }
    return index + |bytes|;
  }

  method SrvData(r: Srv) returns (data: array<byte>)
    requires Wide(r)
    ensures data[..] == SrvWire(r) && fresh(data)
  {
    hide U16;
    data := new byte[9 + |r.host| + |r.domain|];
    var index := Append(data, 0, U16(r.priority));
    index := Append(data, index, U16(r.weight));
    index := Append(data, index, U16(r.port));
    index := Append(data, index, [|r.host|]);
    index := Append(data, index, r.host);
    index := Append(data, index, [|r.domain|]);
    index := Append(data, index, r.domain);
    index := Append(data, index, [0]);
    assert data[..] == data[..index];
  }

  method CheckSrvCollision(own: Srv, theirs: Srv) returns (col: int)
    requires Wide(own) && own.domain == LOCAL && Wide(theirs)
    ensures col == SrvCollision(own, theirs)
  {
    if |own.host| == 0 {
      return 0;
    }
    var ourLen := 14 + |own.host|;
    var theirLen := 9 + |theirs.host| + |theirs.domain|;
    if theirLen > ourLen {
      return THEY_WIN;
    } else if theirLen < ourLen {
      return WE_WIN;
    }
    var ourData := SrvData(own);
    var theirData := SrvData(theirs);
    var ret := CompareBytes(ourData, theirData);
    if ret > 0 {
      return WE_WIN;
    } else if ret < 0 {
      return THEY_WIN;
    }
    return 0;
  }

  /** The items that fit the packet are compared as they would be sent. */
  method CheckTxtCollision(entries: seq<Txt.Entry>, data: array<byte>) returns (col: int)
    requires |Txt.EncodeAll(entries)| < MAX_PACKET_SIZE
    ensures col == TxtCollision(entries, data[..])
  {
    if data.Length <= 1 && |entries| > 0 {
      return WE_WIN;
    } else if data.Length > 1 && |entries| == 0 {
      return THEY_WIN;
    } else if data.Length <= 1 {
      return 0;
    }
    var dataLen := 0;
    var i := 0;
    assert entries[0..] == entries;
    while i < |entries|
      invariant i <= |entries| && dataLen + |Txt.EncodeAll(entries[i..])| == |Txt.EncodeAll(entries)|
    {
      assert entries[i..][0] == entries[i] && entries[i..][1..] == entries[i + 1..];
      dataLen := dataLen + 1 + |entries[i].key| + (if entries[i].value.Some? then |entries[i].value.value| + 1 else 0);
      i := i + 1;
    }
    if data.Length > dataLen {
      return THEY_WIN;
    } else if data.Length < dataLen {
      return WE_WIN;
    }
    var ours := TxtBytes(entries, dataLen);
    var ret := CompareBytes(ours, data);
    if ret > 0 {
      return WE_WIN;
    } else if ret < 0 {
      return THEY_WIN;
    }
    return 0;
  }

  method TxtBytes(entries: seq<Txt.Entry>, len: nat) returns (ours: array<byte>)
    requires len == |Txt.EncodeAll(entries)|
    ensures ours[..] == Txt.EncodeAll(entries)
  {
    hide Txt.Encode;
    ours := new byte[len];
    var index, i := 0, 0;
    assert entries[0..] == entries;
    while i < |entries|
      invariant i <= |entries| && 0 <= index && index + |Txt.EncodeAll(entries[i..])| == len == ours.Length
      invariant ours[..index] + Txt.EncodeAll(entries[i..]) == Txt.EncodeAll(entries)
    {
      assert entries[i..][0] == entries[i] && entries[i..][1..] == entries[i + 1..];
      index := Append(ours, index, Txt.Encode(entries[i]));
      i := i + 1;
    }
    assert ours[..] == ours[..index];
  }
}
