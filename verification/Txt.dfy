/** TXT record data: how the responder writes its items and how it parses received
    ones (section 6 of RFC 6763). */
module Txt {
  import opened Options
  import opened Names
  import opened NameWriter

  const EQUALS: byte := 61

  /** A C string of any length. */
  type Key = s: seq<byte> | 0 !in s

  /** An item of a service. The value is None where the source stores NULL. */
  datatype Entry = Entry(key: Key, value: Option<seq<byte>>)

  /** A parsed item; an empty value is stored as NULL. */
  datatype Item = Item(key: seq<byte>, value: Option<seq<byte>>)

  // ------------------------------------------------------------ the writer

  function EntryBytes(e: Entry): seq<byte> {
    e.key + (match e.value case None => [] case Some(v) => [EQUALS] + v)
  }

  /** append_one_txt_record_entry: the length byte holds the length modulo 256. */
  function Encode(e: Entry): seq<byte> {
    [|EntryBytes(e)| % 256] + EntryBytes(e)
  }

  function EncodeAll(entries: seq<Entry>): seq<byte> {
    if entries == [] then [] else Encode(entries[0]) + EncodeAll(entries[1..])
  }

  lemma EncodedSize(entries: seq<Entry>)
    ensures entries == [] <==> EncodeAll(entries) == []
  {
    if entries != [] {
      assert |Encode(entries[0])| > 0;
    }
  }

  /** The data of a TXT record. */
  function Rdata(entries: seq<Entry>): seq<byte> {
    if entries == [] then [0] else EncodeAll(entries)
  }

  // ------------------------------------------------------------ the parser

  /** The counting loop, from byte i on; None stands for -1. */
  function CountFrom(data: seq<byte>, i: nat, n: nat): Option<nat>
    requires i <= |data|
    decreases |data| - i
  {
    if i == |data| || data[i] == 0 then Some(n)
    else if i + 1 + data[i] > |data| then None
    else CountFrom(data, i + 1 + data[i], n + 1)
  }

  /** _mdns_txt_items_count_get */
  function Count(data: seq<byte>): Option<nat> {
    if |data| == 1 then Some(0) else CountFrom(data, 0, 0)
  }

  /** The index of the first equals sign, or the length without one. */
  function KeyLength(part: seq<byte>): (n: nat)
    ensures n <= |part| && (n < |part| ==> part[n] == EQUALS)
    ensures forall j :: 0 <= j < n ==> part[j] != EQUALS
  {
    if part == [] || part[0] == EQUALS then 0 else 1 + KeyLength(part[1..])
  }

  /** The parsing loop from byte i on, with the items stored so far and the number of
      items the counting loop found. An item without an equals sign moves the index one
      byte too far. */
  function ParseFrom(data: seq<byte>, i: nat, items: seq<Item>, n: nat): seq<Item>
    decreases |data| + 1 - i
  {
    if i >= |data| || data[i] == 0 then items
    else
      var end := i + 1 + data[i];
      if end > |data| then []
      else
        var part := data[i + 1..end];
        var k := KeyLength(part);
        if k == 0 || |items| >= n then ParseFrom(data, end, items, n)
        else if k + 1 < |part| then
          ParseFrom(data, end, items + [Item(part[..k], Some(part[k + 1..]))], n)
        else
          ParseFrom(data, i + 1 + k + 1, items + [Item(part[..k], None)], n)
  }

  /** _mdns_result_txt_create: the items, none on any error. */
  function Parse(data: seq<byte>): seq<Item> {
    match Count(data)
    case None => []
    case Some(n) => if n == 0 then [] else ParseFrom(data, 0, [], n)
  }

  // ------------------------------------------------------------ round trip

  /** A key that is not empty and holds no equals sign, and at most 255 bytes in all. */
  predicate Wellformed(e: Entry) {
    |e.key| > 0 && EQUALS !in e.key && |EntryBytes(e)| <= 255
  }

  predicate AllWellformed(entries: seq<Entry>) {
    forall i :: 0 <= i < |entries| ==> Wellformed(entries[i])
  }

  function AsItem(e: Entry): Item {
    Item(e.key, if e.value.Some? && |e.value.value| > 0 then e.value else None)
  }

  function AsItems(entries: seq<Entry>): (r: seq<Item>)
    ensures |r| == |entries| && forall i :: 0 <= i < |entries| ==> r[i] == AsItem(entries[i])
  {
    seq(|entries|, i requires 0 <= i < |entries| => AsItem(entries[i]))
  }

  /** No item but the last lacks a value. */
  predicate ValuesPresent(entries: seq<Entry>) {
    forall i :: 0 <= i < |entries| - 1 ==> entries[i].value.Some?
  }

  /** The encoded entries lie at byte i and end the data. */
  predicate At(data: seq<byte>, i: nat, entries: seq<Entry>) {
    i <= |data| && data[i..] == EncodeAll(entries)
  }

  lemma KeyIs(e: Entry)
    requires Wellformed(e)
    ensures KeyLength(EntryBytes(e)) == |e.key|
    ensures EntryBytes(e)[..|e.key|] == e.key
  {
    var part := EntryBytes(e);
    assert forall j :: 0 <= j < |e.key| ==> part[j] == e.key[j];
    assert part[..|e.key|] == e.key;
    assert |part| > |e.key| ==> part[|e.key|] == EQUALS;
  }

  lemma FirstAt(data: seq<byte>, i: nat, entries: seq<Entry>)
    requires At(data, i, entries) && |entries| > 0 && Wellformed(entries[0])
    ensures var part := EntryBytes(entries[0]); var end := i + 1 + |part|;
      end <= |data| && data[i] == |part| > 0 && data[i + 1..end] == part && At(data, end, entries[1..])
  {
    var part := EntryBytes(entries[0]);
    var end := i + 1 + |part|;
    assert data[i..] == Encode(entries[0]) + EncodeAll(entries[1..]);
    assert data[i] == data[i..][0];
    assert data[i + 1..end] == data[i..][1..1 + |part|];
    assert data[end..] == data[i..][1 + |part|..];
  }

  /** The counting loop counts the entries. */
  lemma {:induction false} CountsEntries(data: seq<byte>, i: nat, entries: seq<Entry>, n: nat)
    requires At(data, i, entries) && AllWellformed(entries)
    ensures CountFrom(data, i, n) == Some(n + |entries|)
    decreases |entries|
  {
    if entries != [] {
      FirstAt(data, i, entries);
      CountsEntries(data, i + 1 + |EntryBytes(entries[0])|, entries[1..], n + 1);
    }
  }

  lemma StopTurn(data: seq<byte>, i: nat, items: seq<Item>, n: nat)
    ensures i >= |data| || data[i] == 0 ==> ParseFrom(data, i, items, n) == items
    ensures i < |data| && data[i] != 0 && i + 1 + data[i] > |data| ==> ParseFrom(data, i, items, n) == []
  {
  }

  lemma PartTurn(data: seq<byte>, i: nat, items: seq<Item>, n: nat)
    requires i < |data| && data[i] != 0 && i + 1 + data[i] <= |data|
    ensures var end := i + 1 + data[i]; var k := KeyLength(data[i + 1..end]); var at := i + 1 + k;
      ParseFrom(data, i, items, n) ==
      if k == 0 || |items| >= n then ParseFrom(data, end, items, n)
      else if at + 1 < end then ParseFrom(data, end, items + [Item(data[i + 1..at], Some(data[at + 1..end]))], n)
      else ParseFrom(data, at + 1, items + [Item(data[i + 1..at], None)], n)
  {
    var end := i + 1 + data[i];
    var part := data[i + 1..end];
    var k := KeyLength(part);
    assert part[..k] == data[i + 1..i + 1 + k];
    if k + 1 < |part| {
      assert part[k + 1..] == data[i + 2 + k..end];
    }
  }

  /** One turn of the parsing loop on an entry. */
  lemma ParseTurn(data: seq<byte>, i: nat, e: Entry, items: seq<Item>, n: nat)
    requires Wellformed(e) && |items| < n
    requires var part := EntryBytes(e); var end := i + 1 + |part|;
      end <= |data| && data[i] == |part| > 0 && data[i + 1..end] == part
    ensures ParseFrom(data, i, items, n)
      == ParseFrom(data, i + 1 + |EntryBytes(e)| + (if e.value.None? then 1 else 0), items + [AsItem(e)], n)
  {
    hide ParseFrom, KeyLength;
    KeyIs(e);
    PartTurn(data, i, items, n);
    var part, k := EntryBytes(e), |e.key|;
    var end := i + 1 + |part|;
    assert data[i + 1..i + 1 + k] == part[..k];
    if k + 1 < |part| {
      assert data[i + 2 + k..end] == part[k + 1..] == e.value.value;
    }
  }

  lemma ParseEnd(data: seq<byte>, i: nat, items: seq<Item>, n: nat)
    requires i >= |data|
    ensures ParseFrom(data, i, items, n) == items
  {
  }

  lemma {:induction false} ParsesEntries(data: seq<byte>, i: nat, entries: seq<Entry>, items: seq<Item>, n: nat)
    requires At(data, i, entries) && AllWellformed(entries) && ValuesPresent(entries) && |items| + |entries| <= n
    ensures ParseFrom(data, i, items, n) == items + AsItems(entries)
    decreases |entries|
  {
    hide EncodeAll, EntryBytes, Encode, KeyLength, ParseFrom, AsItem;
    if entries == [] {
      NothingEncoded();
      ParseEnd(data, i, items, n);
      assert items + AsItems(entries) == items;
    } else {
      var e, rest := entries[0], entries[1..];
      FirstAt(data, i, entries);
      ParseTurn(data, i, e, items, n);
      var end := i + 1 + |EntryBytes(e)|;
      assert items + AsItems(entries) == (items + [AsItem(e)]) + AsItems(rest);
      if e.value.Some? {
        ParsesEntries(data, end, rest, items + [AsItem(e)], n);
      } else {
        assert rest == [];
        NothingEncoded();
        ParseEnd(data, end + 1, items + [AsItem(e)], n);
      }
    }
  }

  lemma NothingEncoded()
    ensures EncodeAll([]) == []
  {
  }

  /** The bytes the parser uses up for items. */
  function Weight(items: seq<Item>): nat {
    if items == [] then 0
    else |items[0].key| + 2 + (if items[0].value.Some? then |items[0].value.value| else 0) + Weight(items[1..])
  }

  lemma {:induction false} WeightConcat(a: seq<Item>, b: seq<Item>)
    ensures Weight(a + b) == Weight(a) + Weight(b)
    decreases |a|
  {
    if a == [] {
      assert a + b == b;
    } else {
      assert (a + b)[1..] == a[1..] + b;
      WeightConcat(a[1..], b);
    }
  }

  /** Items take no more bytes than there are, and one for a missing equals sign. */
  lemma {:induction false} ParseWeight(data: seq<byte>, i: nat, items: seq<Item>, n: nat)
    requires i <= |data| + 1
    ensures var r := ParseFrom(data, i, items, n);
      r == [] || (items <= r && Weight(r) <= Weight(items) + |data| + 1 - i)
    decreases |data| + 1 - i
  {
    if i < |data| && data[i] != 0 && i + 1 + data[i] <= |data| {
      var part := data[i + 1..i + 1 + data[i]];
      var k := KeyLength(part);
      if k == 0 || |items| >= n {
        ParseWeight(data, i + 1 + data[i], items, n);
      } else {
        var item := Item(part[..k], if k + 1 < |part| then Some(part[k + 1..]) else None);
        WeightConcat(items, [item]);
        ParseWeight(data, if k + 1 < |part| then i + 1 + data[i] else i + 2 + k, items + [item], n);
      }
    }
  }

  lemma {:induction false} WeightEncoded(entries: seq<Entry>)
    ensures Weight(AsItems(entries)) >= |EncodeAll(entries)|
    ensures (exists i :: 0 <= i < |entries| && entries[i].value.None?) ==>
      Weight(AsItems(entries)) > |EncodeAll(entries)|
    decreases |entries|
  {
    if entries != [] {
      assert AsItems(entries)[1..] == AsItems(entries[1..]);
      WeightEncoded(entries[1..]);
      if i :| 0 <= i < |entries| && entries[i].value.None? {
        assert i > 0 ==> entries[1..][i - 1].value.None?;
      }
    }
  }

  lemma LateBytes(data: seq<byte>, i: nat, e: Entry)
    requires Wellformed(e) && e.value.Some? && i + 1 + |EntryBytes(e)| <= |data|
    requires data[i + 1..i + 1 + |EntryBytes(e)|] == EntryBytes(e)
    ensures |EntryBytes(e)| > |e.key|
    ensures data[i + 1] == e.key[0] != 0 && data[i + 1 + |e.key|] == EQUALS
  {
    var bytes := data[i + 1..i + 1 + |EntryBytes(e)|];
    assert data[i + 1] == bytes[0] == e.key[0];
    assert data[i + 1 + |e.key|] == bytes[|e.key|] == EQUALS;
  }

  /** Read one byte late, an entry gives nothing, is skipped, or gives a shorter key. */
  lemma LateTurn(data: seq<byte>, i: nat, e: Entry, items: seq<Item>, n: nat)
    requires Wellformed(e) && e.value.Some? && i + 1 + |EntryBytes(e)| <= |data|
    requires data[i + 1..i + 1 + |EntryBytes(e)|] == EntryBytes(e)
    ensures var r := ParseFrom(data, i + 1, items, n);
      || r == []
      || Weight(r) <= Weight(items) + |data| - 1 - i
      || (|r| > |items| && |r[|items|].key| < |e.key|)
  {
    hide Weight, EntryBytes, KeyLength;
    LateBytes(data, i, e);
    var end := i + 2 + data[i + 1];
    if end <= |data| {
      var part := data[i + 2..end];
      var k := KeyLength(part);
      if k == 0 || |items| >= n {
        assert ParseFrom(data, i + 1, items, n) == ParseFrom(data, end, items, n);
        ParseWeight(data, end, items, n);
      } else {
        assert |part| >= |e.key| ==> part[|e.key| - 1] == EQUALS;
        var item := Item(part[..k], if k + 1 < |part| then Some(part[k + 1..]) else None);
        var next := if k + 1 < |part| then end else i + 3 + k;
        assert ParseFrom(data, i + 1, items, n) == ParseFrom(data, next, items + [item], n);
        StartsWith(data, next, items, item, n);
      }
    }
  }

  lemma StartsWith(data: seq<byte>, i: nat, items: seq<Item>, item: Item, n: nat)
    requires i <= |data| + 1
    ensures var r := ParseFrom(data, i, items + [item], n); r == [] || (|r| > |items| && r[|items|] == item)
  {
    hide ParseFrom, Weight;
    ParseWeight(data, i, items + [item], n);
    assert (items + [item])[|items|] == item;
  }

  /** Behind an item without a value the parser reads the next key one byte late, and
      never finds the rest of the items. */
  lemma LateParse(data: seq<byte>, i: nat, entries: seq<Entry>, items: seq<Item>, n: nat)
    requires At(data, i, entries) && AllWellformed(entries) && |entries| > 0
    ensures ParseFrom(data, i + 1, items, n) != items + AsItems(entries)
  {
    var e := entries[0];
    FirstAt(data, i, entries);
    var r := ParseFrom(data, i + 1, items, n);
    ParseWeight(data, i + 1, items, n);
    WeightConcat(items, AsItems(entries));
    WeightEncoded(entries);
    assert (items + AsItems(entries))[|items|] == AsItem(e);
    if r == items + AsItems(entries) {
      assert |data| - i == |EncodeAll(entries)|;
      assert entries[0].value.Some?;
      LateTurn(data, i, e, items, n);
    }
  }

  /** What the parser makes of the data that the writer produced: the items in order,
      an empty value read as none, exactly when no item but the last lacks a value. The
      counting pass counts the items in any case. */
  lemma TxtRoundTrip(entries: seq<Entry>)
    requires AllWellformed(entries)
    ensures Parse(Rdata(entries)) == AsItems(entries) <==> ValuesPresent(entries)
    ensures Count(Rdata(entries)) == Some(|entries|)
  {
    hide ParseFrom, EncodeAll, EntryBytes, CountFrom;
    var data := Rdata(entries);
    if entries != [] {
      assert data[0..] == data;
      FirstAt(data, 0, entries);
      CountsEntries(data, 0, entries, 0);
      if ValuesPresent(entries) {
        ParsesEntries(data, 0, entries, [], |entries|);
      } else {
        LosesEntries(data, 0, entries, [], |entries|);
        assert [] + AsItems(entries) == AsItems(entries);
      }
    }
  }

  lemma {:induction false} LosesEntries(data: seq<byte>, i: nat, entries: seq<Entry>, items: seq<Item>, n: nat)
    requires At(data, i, entries) && AllWellformed(entries) && !ValuesPresent(entries) && |items| + |entries| <= n
    ensures ParseFrom(data, i, items, n) != items + AsItems(entries)
    decreases |entries|
  {
    hide EncodeAll, EntryBytes, Encode, KeyLength, ParseFrom, AsItem;
    var e, rest := entries[0], entries[1..];
    FirstAt(data, i, entries);
    ParseTurn(data, i, e, items, n);
    var end := i + 1 + |EntryBytes(e)|;
    assert items + AsItems(entries) == (items + [AsItem(e)]) + AsItems(rest);
    if e.value.Some? {
      var j :| 0 <= j < |entries| - 1 && entries[j].value.None?;
      assert rest[j - 1].value.None?;
      LosesEntries(data, end, rest, items + [AsItem(e)], n);
    } else {
      LateParse(data, end, rest, items + [AsItem(e)], n);
    }
  }

  // -------------------------------------------------------------- the loops

  /** _mdns_txt_items_count_get */
  method ItemsCountGet(data: seq<byte>) returns (count: Option<nat>)
    ensures count == Count(data)
  {
    if |data| == 1 {
      return Some(0);
    }
    var items, i := 0, 0;
    while i < |data|
      invariant i <= |data| && CountFrom(data, i, items) == CountFrom(data, 0, 0)
    {
      var partLen := data[i];
      if partLen == 0 {
        break;
      }
      if i + 1 + partLen > |data| {
        return None;
      }
      i := i + 1 + partLen;
      items := items + 1;
    }
    return Some(items);
  }

  /** _mdns_txt_item_name_get_len; None stands for -1. */
  method ItemNameGetLen(part: seq<byte>) returns (length: Option<nat>)
    requires |part| > 0
    ensures length == if KeyLength(part) == 0 then None else Some(KeyLength(part))
  {
    if part[0] == EQUALS {
      return None;
    }
    var i := 0;
    while i < |part|
      invariant i <= |part| && forall j :: 0 <= j < i ==> part[j] != EQUALS
    {
      if part[i] == EQUALS {
        return Some(i);
      }
      i := i + 1;
    }
    return Some(|part|);
  }

  /** _mdns_result_txt_create */
  method ResultTxtCreate(data: seq<byte>) returns (txt: seq<Item>)
    ensures txt == Parse(data)
  {
    hide ParseFrom, KeyLength;
    var count := ItemsCountGet(data);
    if count.None? || count.value == 0 {
      return [];
    }
    var items: seq<Item> := [];
    var i := 0;
    while i < |data|
      invariant ParseFrom(data, i, items, count.value) == Parse(data)
      decreases |data| + 1 - i
    {
      StopTurn(data, i, items, count.value);
      var partLen := data[i];
      if partLen == 0 {
        break;
      }
      i := i + 1;
      if i + partLen > |data| {
        return [];
      }
      PartTurn(data, i - 1, items, count.value);
      var nameLen := ItemNameGetLen(data[i..i + partLen]);
      if nameLen.None? || |items| >= count.value {
        i := i + partLen;
      } else {
        var key := data[i..i + nameLen.value];
        var valueLen := partLen - nameLen.value - 1;
        i := i + nameLen.value + 1;
        var value := None;
        if valueLen > 0 {
          value := Some(data[i..i + valueLen]);
          i := i + valueLen;
        }
        items := items + [Item(key, value)];
      }
    }
    StopTurn(data, i, items, count.value);
    return items;
  }
}
