/** The packet being built and the compressing name writer. */
module NameWriter {
  import opened Options
  import opened Names

  /** A C string of the responder. The API takes at most NAME_MAX_LEN bytes, and a
      renamed host or instance is a few bytes longer; below 192 the first byte of an
      encoded label is never a pointer. */
  type CStr = s: seq<byte> | |s| < 0xC0 && 0 !in s

  /** The packet buffer and the index of the next byte. */
  datatype Out = Out(buf: seq<byte>, index: nat)

  predicate Sized(o: Out) {
    |o.buf| == MAX_PACKET_SIZE && o.index <= MAX_PACKET_SIZE
  }

  /** The bytes of `bytes` written at the index. */
  function Put(o: Out, bytes: seq<byte>): (r: Out)
    requires o.index + |bytes| <= |o.buf|
    ensures |r.buf| == |o.buf| && r.index == o.index + |bytes|
    ensures r.buf[..o.index] == o.buf[..o.index] && r.buf[o.index..r.index] == bytes
    ensures r.buf[r.index..] == o.buf[r.index..]
  {
    Out(o.buf[..o.index] + bytes + o.buf[o.index + |bytes|..], o.index + |bytes|)
  }

  function U16(v: nat): (r: seq<byte>)
    requires v < 0x10000
    ensures |r| == 2
  {
    [v / 256, v % 256]
  }

  function AppendU8(o: Out, v: byte): (r: Out)
    requires Sized(o)
    ensures Sized(r)
  {
    if o.index >= MAX_PACKET_SIZE then o else Put(o, [v])
  }

  function AppendU16(o: Out, v: nat): (r: Out)
    requires Sized(o) && v < 0x10000
    ensures Sized(r) && o.index <= r.index && r.buf[..o.index] == o.buf[..o.index]
  {
    if o.index + 1 >= MAX_PACKET_SIZE then o else Put(o, U16(v))
  }

  function AppendString(o: Out, s: CStr): (r: Out)
    requires Sized(o)
    ensures Sized(r)
  {
    if o.index + |s| + 1 >= MAX_PACKET_SIZE then o else Put(o, [|s|] + s)
  }

  // ---------------------------------------------------------- compression

  /** The name read at l spells the strings, and its first label is the first string. */
  predicate Accepts(p: seq<byte>, l: nat, strings: seq<CStr>, beyond: byte)
    requires |strings| > 0 && l < |p|
  {
    p[l] == |strings[0]| && l + 1 + |strings[0]| <= |p| && p[l + 1..l + 1 + |strings[0]|] == strings[0]
    && var r := Read(p, l, NO_NAME, beyond);
       r.Some? && Spells(r.value.0.parts, strings)
  }

  predicate Spells(parts: seq<seq<byte>>, strings: seq<CStr>) {
    |parts| == |strings| && forall i :: 0 <= i < |strings| ==> SameFold(strings[i], parts[i])
  }

  /** The first place from l on, before the index, that is accepted. */
  function Find(o: Out, l: nat, strings: seq<CStr>, beyond: byte): (r: Option<nat>)
    requires Sized(o) && |strings| > 0 && l <= o.index
    ensures r.Some? ==> l <= r.value < o.index && Accepts(o.buf, r.value, strings, beyond)
    decreases o.index - l
  {
    if l == o.index then None
    else if Accepts(o.buf, l, strings, beyond) then Some(l)
    else Find(o, l + 1, strings, beyond)
  }

  /** _mdns_append_fqdn; the length it returns is the growth of the index. */
  function AppendFqdn(o: Out, strings: seq<CStr>, beyond: byte): (r: Out)
    requires Sized(o)
    ensures Sized(r) && o.index <= r.index && r.buf[..o.index] == o.buf[..o.index]
    ensures r.index == o.index ==> r == o
    decreases |strings|
  {
    if strings == [] then AppendU8(o, 0)
    else
      match Find(o, 0, strings, beyond)
      case Some(l) => AppendU16(o, 0xC000 + l)
      case None =>
        var o' := AppendString(o, strings[0]);
        if o' == o then o
        else
          var r := AppendFqdn(o', strings[1..], beyond);
          assert r.buf[..o.index] == r.buf[..o'.index][..o.index] == o'.buf[..o'.index][..o.index];
          r
  }

  /** Where the name is cut short by a pointer: how many labels are written out and
      the address the pointer holds. */
  function Choice(o: Out, strings: seq<CStr>, beyond: byte): (r: Option<(nat, nat)>)
    requires Sized(o)
    ensures r.Some? ==> r.value.0 < |strings|
    decreases |strings|
  {
    if strings == [] then None
    else
      match Find(o, 0, strings, beyond)
      case Some(l) => Some((0, l))
      case None =>
        var o' := AppendString(o, strings[0]);
        if o' == o then None
        else
          match Choice(o', strings[1..], beyond)
          case None => None
          case Some(r) => Some((r.0 + 1, r.1))
  }

  function Uncompressed(strings: seq<CStr>): (n: nat)
    ensures n > 0
  {
    if strings == [] then 1 else |strings[0]| + 1 + Uncompressed(strings[1..])
  }

  /** Room for the name without compression. */
  predicate Room(o: Out, strings: seq<CStr>) {
    o.index + Uncompressed(strings) <= MAX_PACKET_SIZE
  }

  lemma {:induction false} GrowthBound(o: Out, strings: seq<CStr>, beyond: byte)
    requires Sized(o)
    ensures AppendFqdn(o, strings, beyond).index <= o.index + Uncompressed(strings)
    ensures Room(o, strings) ==> o.index < AppendFqdn(o, strings, beyond).index
    decreases |strings|
  {
    hide Find;
    if strings != [] && Find(o, 0, strings, beyond).None? {
      var o1 := AppendString(o, strings[0]);
      if o1 != o {
        GrowthBound(o1, strings[1..], beyond);
      }
    }
  }

  function Texts(strings: seq<CStr>): (r: seq<Token>)
    ensures |r| == |strings|
  {
    seq(|strings|, i requires 0 <= i < |strings| => Text(strings[i]))
  }

  // ------------------------------------------------- reading below a limit

  /** Reading on from byte i looks at nothing at or behind the limit. */
  predicate Within(p: seq<byte>, start: nat, i: nat, limit: nat, beyond: byte)
    requires limit <= |p|
    decreases start, |p| + 1 - i
  {
    i < limit &&
    (p[i] == 0
     || (0 < p[i] < 0xC0 && (p[i] > 63 || (i + 1 + p[i] <= limit && Within(p, start, i + 1 + p[i], limit, beyond))))
     || (p[i] >= 0xC0 && i + 1 < limit
         && (Target(p, i, beyond) >= start || Within(p, Target(p, i, beyond), Target(p, i, beyond), limit, beyond))))
  }

  lemma SameSlice(p: seq<byte>, q: seq<byte>, limit: nat, a: nat, b: nat)
    requires limit <= |p| && limit <= |q| && p[..limit] == q[..limit] && a <= b <= limit
    ensures p[a..b] == q[a..b]
  {
    assert p[a..b] == p[..limit][a..b];
    assert q[a..b] == q[..limit][a..b];
  }

  /** Such a read does not change when only bytes from the limit on do. */
  lemma {:induction false} WithinFrame(p: seq<byte>, q: seq<byte>, start: nat, i: nat, limit: nat, beyond: byte)
    requires limit <= |p| && limit <= |q| && p[..limit] == q[..limit] && Within(p, start, i, limit, beyond)
    ensures Tokens(p, start, i, beyond) == Tokens(q, start, i, beyond)
    ensures Within(q, start, i, limit, beyond)
    decreases start, |p| + 1 - i
  {
    assert p[i] == p[..limit][i] == q[..limit][i] == q[i];
    if 0 < p[i] <= 63 {
      SameSlice(p, q, limit, i + 1, i + 1 + p[i]);
      WithinFrame(p, q, start, i + 1 + p[i], limit, beyond);
    } else if p[i] >= 0xC0 {
      assert p[i + 1] == p[..limit][i + 1] == q[..limit][i + 1] == q[i + 1];
      var t := Target(p, i, beyond);
      if t < start {
        WithinFrame(p, q, t, t, limit, beyond);
      }
    }
  }

  /** Reading on from byte i looks only at bytes from i on, below the limit, and
      follows pointers only to reads that stay below `lo`. */
  predicate Outside(p: seq<byte>, i: nat, lo: nat, limit: nat, beyond: byte)
    requires lo <= |p| && limit <= |p|
    decreases |p| + 1 - i
  {
    i < limit &&
    (p[i] == 0
     || (0 < p[i] <= 63 && i + 1 + p[i] <= limit && Outside(p, i + 1 + p[i], lo, limit, beyond))
     || (p[i] >= 0xC0 && i + 1 < limit && Target(p, i, beyond) < lo
         && Within(p, Target(p, i, beyond), Target(p, i, beyond), lo, beyond)))
  }

  lemma SameByte(p: seq<byte>, q: seq<byte>, lo: nat, hi: nat, k: nat)
    requires lo <= k < hi <= |p| && hi <= |q| && p[lo..hi] == q[lo..hi]
    ensures p[k] == q[k]
  {
    assert p[k] == p[lo..hi][k - lo] && q[k] == q[lo..hi][k - lo];
  }

  lemma SameInner(p: seq<byte>, q: seq<byte>, lo: nat, hi: nat, a: nat, b: nat)
    requires lo <= a <= b <= hi <= |p| && hi <= |q| && p[lo..hi] == q[lo..hi]
    ensures p[a..b] == q[a..b]
  {
    forall k | a <= k < b ensures p[k] == q[k] {
      assert p[k] == p[lo..hi][k - lo] && q[k] == q[lo..hi][k - lo];
    }
  }

  /** Where the run of labels began does not matter to such a read. */
  lemma {:induction false} OutsideFrame(p: seq<byte>, start: nat, q: seq<byte>, start': nat, i: nat, lo: nat, limit: nat, beyond: byte)
    requires i <= limit <= |p| && limit <= |q| && lo <= start && lo <= start' && lo <= |p| && lo <= |q|
    requires p[..lo] == q[..lo] && p[i..limit] == q[i..limit] && Outside(p, i, lo, limit, beyond)
    ensures Tokens(p, start, i, beyond) == Tokens(q, start', i, beyond)
    decreases |p| + 1 - i
  {
    hide Within;
    SameByte(p, q, i, limit, i);
    if 0 < p[i] <= 63 {
      var n := p[i];
      SameInner(p, q, i, limit, i + 1, i + 1 + n);
      SameInner(p, q, i, limit, i + 1 + n, limit);
      OutsideFrame(p, start, q, start', i + 1 + n, lo, limit, beyond);
    } else if p[i] >= 0xC0 {
      SameByte(p, q, i, limit, i + 1);
      WithinFrame(p, q, Target(p, i, beyond), Target(p, i, beyond), lo, beyond);
      JumpSame(p, start, q, start', i, beyond);
    }
  }

  lemma JumpSame(p: seq<byte>, start: nat, q: seq<byte>, start': nat, i: nat, beyond: byte)
    requires i + 1 < |p| && i + 1 < |q| && p[i] == q[i] >= 0xC0 && p[i + 1] == q[i + 1]
    requires var t := Target(p, i, beyond); t < start && t < start' && Tokens(p, t, t, beyond) == Tokens(q, t, t, beyond)
    ensures Tokens(p, start, i, beyond) == Tokens(q, start', i, beyond)
  {
  }

  predicate Readable(strings: seq<CStr>) {
    forall i :: 0 <= i < |strings| ==> 1 <= |strings[i]| <= 63
  }

  /** What the reader finds where an accepted candidate begins. */
  predicate Candidate(p: seq<byte>, l: nat, strings: seq<CStr>, beyond: byte)
    requires |strings| > 0
  {
    var t := Tokens(p, l, l, beyond);
    t.Some? && |t.value.0| > 0 && t.value.0[0] == Text(strings[0])
    && Spells(Fold(NO_NAME, t.value.0).parts, strings)
  }

  lemma AcceptedCandidate(p: seq<byte>, l: nat, strings: seq<CStr>, beyond: byte)
    requires |strings| > 0 && l < |p| && Accepts(p, l, strings, beyond) && Readable(strings)
    ensures Candidate(p, l, strings, beyond)
  {
    hide Fold, Spells;
    var rest := Tokens(p, l, l + 1 + p[l], beyond);
    assert Tokens(p, l, l, beyond) == Prepend(Text(strings[0]), rest);
  }

  /** A label written at the index is the first token read there. */
  lemma LabelRead(p: seq<byte>, start: nat, i: nat, s: CStr, beyond: byte)
    requires 1 <= |s| <= 63 && i + 1 + |s| <= |p| && p[i..i + 1 + |s|] == [|s|] + s
    ensures Tokens(p, start, i, beyond) == Prepend(Text(s), Tokens(p, start, i + 1 + |s|, beyond))
    ensures forall lo: nat, limit: nat :: lo <= |p| && limit <= |p| && Outside(p, i + 1 + |s|, lo, limit, beyond) ==>
      Outside(p, i, lo, limit, beyond)
  {
    var w := p[i..i + 1 + |s|];
    assert p[i] == w[0] && p[i + 1..i + 1 + |s|] == w[1..] == s;
  }

  /** What is read where a written name begins, in a run of labels that began at s0. */
  predicate ReadsBack(o: Out, strings: seq<CStr>, s0: nat, beyond: byte)
    requires Sized(o) && s0 <= o.index
  {
    var r := AppendFqdn(o, strings, beyond);
    var t := Tokens(r.buf, s0, o.index, beyond);
    match Choice(o, strings, beyond)
    case None => t == Some((Texts(strings), r.index)) && Outside(r.buf, o.index, s0, r.index, beyond)
    case Some((j, l)) =>
      if l >= s0 then t == None
      else
        Within(o.buf, l, l, s0, beyond) ==>
          && Candidate(o.buf, l, strings[j..], beyond)
          && t == Some((Texts(strings[..j]) + [Jump] + Tokens(o.buf, l, l, beyond).value.0, r.index))
          && Outside(r.buf, o.index, s0, r.index, beyond)
  }

  /** A pointer written at the index continues the read at its target. */
  lemma PointerRead(p: seq<byte>, start: nat, i: nat, l: nat, beyond: byte)
    requires l < 0x4000 && i + 2 <= |p| && p[i..i + 2] == U16(0xC000 + l)
    ensures Tokens(p, start, i, beyond) ==
      if l >= start then None
      else match Tokens(p, l, l, beyond) case None => None case Some(r) => Some(([Jump] + r.0, i + 2))
    ensures forall lo: nat :: l < lo <= |p| && Within(p, l, l, lo, beyond) ==> Outside(p, i, lo, i + 2, beyond)
  {
    assert p[i] == p[i..i + 2][0] == 0xC0 + l / 256;
    assert p[i + 1] == p[i..i + 2][1] == l % 256;
    assert Target(p, i, beyond) == l;
  }

  lemma PointerReadsBack(o: Out, strings: seq<CStr>, s0: nat, l: nat, beyond: byte)
    requires Sized(o) && s0 <= o.index && Room(o, strings) && Readable(strings) && |strings| > 0
    requires Find(o, 0, strings, beyond) == Some(l)
    ensures ReadsBack(o, strings, s0, beyond)
  {
    hide Fold, Spells, Tokens, Within, Outside, Find;
    var r := AppendFqdn(o, strings, beyond);
    assert r == Put(o, U16(0xC000 + l));
    PointerRead(r.buf, s0, o.index, l, beyond);
    if l < s0 && Within(o.buf, l, l, s0, beyond) {
      assert strings[0..] == strings && strings[..0] == [];
      AcceptedCandidate(o.buf, l, strings, beyond);
      assert r.buf[..s0] == r.buf[..o.index][..s0] == o.buf[..s0];
      WithinFrame(o.buf, r.buf, l, l, s0, beyond);
      var t := Tokens(o.buf, l, l, beyond).value.0;
      assert Texts([]) + [Jump] + t == [Jump] + t;
    }
  }

  lemma {:induction false} NameReadsBack(o: Out, strings: seq<CStr>, s0: nat, beyond: byte)
    requires Sized(o) && s0 <= o.index && Room(o, strings) && Readable(strings)
    ensures ReadsBack(o, strings, s0, beyond)
    decreases |strings|
  {
    var r := AppendFqdn(o, strings, beyond);
    if strings == [] {
      assert r.buf[o.index..r.index][0] == r.buf[o.index] == 0;
    } else if Find(o, 0, strings, beyond).Some? {
      PointerReadsBack(o, strings, s0, Find(o, 0, strings, beyond).value, beyond);
    } else {
      LabelReadsBack(o, strings, s0, beyond);
    }
  }

  /** One label more in front of a name that reads back. */
  lemma LabelReadsBack(o: Out, strings: seq<CStr>, s0: nat, beyond: byte)
    requires Sized(o) && s0 <= o.index && Room(o, strings) && Readable(strings)
    requires |strings| > 0 && Find(o, 0, strings, beyond) == None
    ensures ReadsBack(o, strings, s0, beyond)
    decreases |strings|, 0
  {
    hide Fold, Spells, Tokens, Within, Outside, Find, AppendFqdn, Choice;
    var s := strings[0];
    var o1 := AppendString(o, s);
    var rest := strings[1..];
    LabelFirst(o, strings, beyond);
    NameReadsBack(o1, rest, s0, beyond);
    var r := AppendFqdn(o1, rest, beyond);
    assert r.buf[o.index..o1.index] == r.buf[..o1.index][o.index..] == o1.buf[..o1.index][o.index..] == [|s|] + s;
    LabelRead(r.buf, s0, o.index, s, beyond);
    match Choice(o1, rest, beyond)
    case None => assert [Text(s)] + Texts(rest) == Texts(strings);
    case Some((j, l)) =>
      if l < s0 && Within(o.buf, l, l, s0, beyond) {
        BelowLabel(o, o1, l, s0, beyond);
        assert rest[j..] == strings[j + 1..];
        TextsJoin(strings, j, Tokens(o.buf, l, l, beyond).value.0);
      }
  }

  lemma LabelFirst(o: Out, strings: seq<CStr>, beyond: byte)
    requires Sized(o) && |strings| > 0 && Find(o, 0, strings, beyond) == None && AppendString(o, strings[0]) != o
    ensures var o1 := AppendString(o, strings[0]);
      && AppendFqdn(o, strings, beyond) == AppendFqdn(o1, strings[1..], beyond)
      && Choice(o, strings, beyond) == match Choice(o1, strings[1..], beyond)
                                       case None => None
                                       case Some(r) => Some((r.0 + 1, r.1))
  {
    hide Find, AppendString;
  }

  lemma BelowLabel(o: Out, o1: Out, l: nat, s0: nat, beyond: byte)
    requires |o.buf| == |o1.buf| && s0 <= o.index <= |o.buf| && o1.buf[..o.index] == o.buf[..o.index]
    requires Within(o.buf, l, l, s0, beyond)
    ensures Within(o1.buf, l, l, s0, beyond) && Tokens(o1.buf, l, l, beyond) == Tokens(o.buf, l, l, beyond)
  {
    assert o1.buf[..s0] == o1.buf[..o.index][..s0] == o.buf[..s0];
    WithinFrame(o.buf, o1.buf, l, l, s0, beyond);
  }

  lemma TextsJoin(strings: seq<CStr>, j: nat, t: seq<Token>)
    requires j < |strings|
    ensures [Text(strings[0])] + (Texts(strings[1..][..j]) + [Jump] + t) == Texts(strings[..j + 1]) + [Jump] + t
  {
    assert [Text(strings[0])] + Texts(strings[1..][..j]) == Texts(strings[..j + 1]);
  }
}
