/** Domain names on the wire: the pointer-following reader and the compressing
    writer of mdns.c, and what a written name reads back as. */
module Names {
  import opened Options

  type byte = x: int | 0 <= x < 256

  const LOCAL: seq<byte> := [108, 111, 99, 97, 108]
  const ARPA: seq<byte> := [97, 114, 112, 97]
  const IP6: seq<byte> := [105, 112, 54]
  const IN_ADDR: seq<byte> := [105, 110, 45, 97, 100, 100, 114]
  const SUB: seq<byte> := [95, 115, 117, 98]
  const DOT: byte := 46
  const UNDERSCORE: byte := 95
  const NAME_MAX_LEN: nat := 64
  const MAX_PACKET_SIZE: nat := 1460

  // ------------------------------------------------------------- C strings

  function Lower(b: byte): byte {
    if 65 <= b <= 90 then b + 32 else b
  }

  /** strcasecmp(a, b) == 0 */
  predicate SameFold(a: seq<byte>, b: seq<byte>) {
    |a| == |b| && forall i :: 0 <= i < |a| ==> Lower(a[i]) == Lower(b[i])
  }

  /** The C string that starts a buffer. */
  function CString(s: seq<byte>): (r: seq<byte>)
    ensures r <= s && 0 !in r
    ensures 0 !in s ==> r == s
  {
    if s == [] || s[0] == 0 then [] else [s[0]] + CString(s[1..])
  }

  /** strlcat into a buffer of NAME_MAX_LEN + 1 bytes */
  function Cat(a: seq<byte>, b: seq<byte>): seq<byte> {
    if |a| + |b| <= NAME_MAX_LEN then a + b
    else if |a| <= NAME_MAX_LEN then a + b[..NAME_MAX_LEN - |a|] else a
  }

  // ------------------------------------------------------------ the reader

  /** What the reader meets on its way: a label or a compression pointer. */
  datatype Token = Text(raw: seq<byte>) | Jump

  /** mdns_name_t: the strings stored so far, in the order host, service, proto, domain. */
  datatype Name = Name(parts: seq<seq<byte>>, sub: bool, invalid: bool)

  const NO_NAME := Name([], false, false)

  function ByteAt(p: seq<byte>, i: nat, beyond: byte): byte {
    if i < |p| then p[i] else beyond
  }

  /** The address in a compression pointer whose first byte is p[i]. */
  function Target(p: seq<byte>, i: nat, beyond: byte): nat
    requires i < |p| && p[i] >= 0xC0
  {
    (p[i] - 0xC0) * 256 + ByteAt(p, i + 1, beyond)
  }

  function Prepend(t: Token, o: Option<(seq<Token>, nat)>): Option<(seq<Token>, nat)> {
    match o case None => None case Some(r) => Some(([t] + r.0, r.1))
  }

  /** The tokens from byte i on, in a run of labels that began at `start`, and the
      position behind the name. The reader looks at one byte behind the packet when a
      pointer is cut off; `beyond` is that byte. */
  function Tokens(p: seq<byte>, start: nat, i: nat, beyond: byte): (r: Option<(seq<Token>, nat)>)
    ensures r.Some? ==> i < r.value.1
    decreases start, |p| + 1 - i
  {
    if i >= |p| || p[i] == 0 then Some(([], i + 1))
    else if p[i] < 0xC0 then
      if p[i] > 63 || i + 1 + p[i] > |p| then None
      else Prepend(Text(p[i + 1..i + 1 + p[i]]), Tokens(p, start, i + 1 + p[i], beyond))
    else
      var target := Target(p, i, beyond);
      if target >= start then None
      else
        match Tokens(p, target, target, beyond)
        case None => None
        case Some(r) => Some(([Jump] + r.0, i + 2))
  }

  /** The second and later labels of a name that are not a part of their own. */
  predicate JoinsHost(s: seq<byte>) {
    !(|s| > 0 && s[0] == UNDERSCORE) && !SameFold(s, LOCAL) && !SameFold(s, ARPA)
    && !SameFold(s, IP6) && !SameFold(s, IN_ADDR)
  }

  /** A token after the fourth part makes the name invalid. */
  function Crowd(n: Name): Name {
    if |n.parts| == 4 then n.(invalid := true) else n
  }

  /** Where a label goes. */
  function Keep(n: Name, raw: seq<byte>): Name {
    var s := CString(raw);
    if |n.parts| == 1 && JoinsHost(s) then n.(parts := [Cat(Cat(n.parts[0], [DOT]), s)])
    else if SameFold(s, SUB) then n.(sub := true)
    else if !n.invalid then n.(parts := n.parts + [s])
    else n
  }

  function Visit(n: Name, t: Token): Name {
    match t
    case Jump => Crowd(n)
    case Text(raw) => Keep(Crowd(n), raw)
  }

  function Fold(n: Name, ts: seq<Token>): Name
    decreases |ts|
  {
    if ts == [] then n else Fold(Visit(n, ts[0]), ts[1..])
  }

  function Continue(n: Name, o: Option<(seq<Token>, nat)>): Option<(Name, nat)> {
    match o case None => None case Some(r) => Some((Fold(n, r.0), r.1))
  }

  /** _mdns_read_fqdn: the name read and the position behind it, None where it
      returns NULL. */
  function Read(p: seq<byte>, start: nat, n: Name, beyond: byte): Option<(Name, nat)> {
    Continue(n, Tokens(p, start, start, beyond))
  }

  /** mdns_name_t after _mdns_parse_fqdn has moved the parts to their fields. */
  datatype FullName = FullName(host: seq<byte>, service: seq<byte>, proto: seq<byte>, domain: seq<byte>,
                               parts: nat, sub: bool, invalid: bool)

  function Part(n: Name, i: nat): seq<byte> {
    if i < |n.parts| then n.parts[i] else []
  }

  /** Three parts are service, proto, domain; two are host and domain. */
  function Arrange(n: Name): FullName {
    var raw := FullName(Part(n, 0), Part(n, 1), Part(n, 2), Part(n, 3), |n.parts|, n.sub, n.invalid);
    if |n.parts| == 0 || n.invalid then raw
    else
      var moved :=
        if |n.parts| == 3 then raw.(host := [], service := Part(n, 0), proto := Part(n, 1), domain := Part(n, 2))
        else if |n.parts| == 2 then raw.(domain := Part(n, 1), service := [], proto := [])
        else raw;
      if SameFold(moved.domain, LOCAL) || SameFold(moved.domain, ARPA) then moved
      else moved.(invalid := true)
  }

  /** mdns_name_t as the reader fills it. */
  class NameBuffer {
    var host: seq<byte>
    var service: seq<byte>
    var proto: seq<byte>
    var domain: seq<byte>
    var parts: nat
    var sub: bool
    var invalid: bool

    ghost predicate Valid()
      reads this
    {
      parts <= 4 && (parts == 4 || domain == []) && (parts >= 3 || proto == [])
      && (parts >= 2 || service == []) && (parts >= 1 || host == [])
    }

    function Model(): Name
      requires parts <= 4
      reads this
    {
      Name([host, service, proto, domain][..parts], sub, invalid)
    }

    constructor ()
      ensures Valid() && Model() == NO_NAME
    {
      host, service, proto, domain := [], [], [], [];
      parts, sub, invalid := 0, false, false;
    }

    method Overflow()
      requires Valid()
      modifies this
      ensures Valid() && Model() == Crowd(old(Model())) && parts == old(parts) && (parts == 4 ==> invalid)
    {
      if parts == 4 {
        invalid := true;
      }
    }

    method Store(buf: seq<byte>)
      requires Valid() && (parts == 4 ==> invalid)
      modifies this
      ensures Valid() && Model() == Keep(old(Model()), buf)
    {
      var s := CString(buf);
      if parts == 1 && JoinsHost(s) {
        host := Cat(host, [DOT]);
        host := Cat(host, s);
      } else if SameFold(s, SUB) {
        sub := true;
      } else if !invalid {
        if parts == 0 {
          host := s;
        } else if parts == 1 {
          service := s;
        } else if parts == 2 {
          proto := s;
        } else {
          domain := s;
        }
        parts := parts + 1;
        assert Model().parts == old(Model()).parts + [s];
      }
    }
  }

  lemma FoldPrepend(n: Name, t: Token, o: Option<(seq<Token>, nat)>)
    ensures Continue(n, Prepend(t, o)) == Continue(Visit(n, t), o)
  {
    if o.Some? {
      assert ([t] + o.value.0)[1..] == o.value.0;
    }
  }

  lemma FoldNothing(n: Name)
    ensures Fold(n, []) == n
  {
  }

  /** One turn of the reader's loop. */
  lemma ReadTurn(p: seq<byte>, start: nat, i: nat, n: Name, beyond: byte)
    ensures i >= |p| || p[i] == 0 ==> Continue(n, Tokens(p, start, i, beyond)) == Some((n, i + 1))
    ensures i < |p| && 0 < p[i] < 0xC0 && (p[i] > 63 || i + 1 + p[i] > |p|) ==>
      Continue(n, Tokens(p, start, i, beyond)) == None
    ensures i < |p| && 0 < p[i] <= 63 && i + 1 + p[i] <= |p| ==>
      Continue(n, Tokens(p, start, i, beyond))
      == Continue(Visit(n, Text(p[i + 1..i + 1 + p[i]])), Tokens(p, start, i + 1 + p[i], beyond))
    ensures i < |p| && p[i] >= 0xC0 && Target(p, i, beyond) >= start ==>
      Continue(n, Tokens(p, start, i, beyond)) == None
    ensures i < |p| && p[i] >= 0xC0 && Target(p, i, beyond) < start ==>
      Continue(n, Tokens(p, start, i, beyond))
      == match Read(p, Target(p, i, beyond), Visit(n, Jump), beyond)
         case None => None
         case Some(r) => Some((r.0, i + 2))
  {
    hide Visit, Fold;
    if i < |p| && 0 < p[i] <= 63 && i + 1 + p[i] <= |p| {
      FoldPrepend(n, Text(p[i + 1..i + 1 + p[i]]), Tokens(p, start, i + 1 + p[i], beyond));
    } else if i < |p| && p[i] >= 0xC0 && Target(p, i, beyond) < start {
      var t := Target(p, i, beyond);
      FoldPrepend(n, Jump, Tokens(p, t, t, beyond));
    } else {
      FoldNothing(n);
    }
  }

  /** _mdns_read_fqdn */
  method ReadFqdn(packet: array<byte>, start: nat, name: NameBuffer, beyond: byte) returns (end: Option<nat>)
    requires name.Valid()
    modifies name
    ensures name.Valid()
    ensures match Read(packet[..], start, old(name.Model()), beyond)
            case None => end == None
            case Some(r) => end == Some(r.1) && name.Model() == r.0
    decreases start
  {
    hide Keep, Crowd, Fold, Tokens, Continue;
    var i := start;
    ghost var p := packet[..];
    ghost var n0 := name.Model();
    while i < packet.Length && packet[i] != 0
      invariant name.Valid() && start <= i && packet[..] == p
      invariant Read(p, start, n0, beyond) == Continue(name.Model(), Tokens(p, start, i, beyond))
      decreases packet.Length + 1 - i
    {
      ReadTurn(p, start, i, name.Model(), beyond);
      name.Overflow();
      var len := packet[i];
      if len < 0xC0 {
        if len > 63 || i + 1 + len > packet.Length {
          return None;
        }
        var buf := packet[i + 1..i + 1 + len];
        name.Store(buf);
        i := i + 1 + len;
      } else {
        var next := if i + 1 < packet.Length then packet[i + 1] else beyond;
        var address := (len - 0xC0) * 256 + next;
        if address >= start {
          return None;
        }
        var r := ReadFqdn(packet, address, name, beyond);
        if r.None? {
          return None;
        }
        return Some(i + 2);
      }
    }
    ReadTurn(p, start, i, name.Model(), beyond);
    return Some(i + 1);
  }
}
