/** What a written name reads back as: the round trip of the name writer and the
    name reader, exactly when it holds, and the names that break it. */
module NameRoundTrip {
  import opened Options
  import opened Names
  import opened NameWriter

  /** host.local, _service._proto.local, instance._service._proto.local: up to four
      labels of 1 to 63 bytes; a label behind the first is `local` or begins with an
      underscore, and none is `_sub`. */
  predicate Proper(strings: seq<CStr>) {
    && |strings| <= 4 && Readable(strings)
    && forall i :: 0 <= i < |strings| ==>
         !SameFold(strings[i], SUB) && (i > 0 ==> !JoinsHost(strings[i]))
  }

  // -------------------------------------------------------------- folding

  lemma {:induction false} FoldConcat(n: Name, a: seq<Token>, b: seq<Token>)
    ensures Fold(n, a + b) == Fold(Fold(n, a), b)
    decreases |a|
  {
    if a == [] {
      assert a + b == b;
    } else {
      assert (a + b)[0] == a[0] && (a + b)[1..] == a[1..] + b;
      FoldConcat(Visit(n, a[0]), a[1..], b);
    }
  }

  /** The labels of a proper name are stored one by one. */
  lemma {:induction false} FoldRest(strings: seq<CStr>, j: nat, sub: bool)
    requires Proper(strings) && j <= |strings|
    ensures Fold(Name(strings[..j], sub, false), Texts(strings[j..])) == Name(strings, sub, false)
    decreases |strings| - j
  {
    if j < |strings| {
      assert Texts(strings[j..])[0] == Text(strings[j]) && Texts(strings[j..])[1..] == Texts(strings[j + 1..]);
      assert strings[..j] + [strings[j]] == strings[..j + 1];
      assert Visit(Name(strings[..j], sub, false), Text(strings[j])) == Name(strings[..j + 1], sub, false);
      FoldRest(strings, j + 1, sub);
    } else {
      assert strings[..j] == strings;
    }
  }

  lemma FoldTexts(strings: seq<CStr>)
    requires Proper(strings)
    ensures Fold(NO_NAME, Texts(strings)) == Name(strings, false, false)
  {
    assert strings[0..] == strings && strings[..0] == [];
    FoldRest(strings, 0, false);
  }

  /** Parts and host only grow. */
  lemma {:induction false} FoldGrows(n: Name, ts: seq<Token>)
    ensures |n.parts| <= |Fold(n, ts).parts|
    ensures |n.parts| > 0 ==> |n.parts[0]| <= |Fold(n, ts).parts[0]|
    decreases |ts|
  {
    if ts != [] {
      FoldGrows(Visit(n, ts[0]), ts[1..]);
    }
  }

  /** The tokens of an accepted candidate do the same behind the first labels of the
      name as they do on their own. */
  lemma {:induction false} FoldBehind(front: seq<CStr>, n: Name, m: Name, ts: seq<Token>, count: nat)
    requires 1 <= |front| && |front| + count <= 4
    requires |n.parts| > 0 && !n.invalid && |n.parts[0]| <= 63
    requires |Fold(n, ts).parts| == count > 0 && |Fold(n, ts).parts[0]| == |n.parts[0]|
    requires m.parts == front + n.parts && (m.invalid ==> |m.parts| == 4)
    ensures Fold(m, ts).parts == front + Fold(n, ts).parts
    decreases |ts|
  {
    if ts != [] {
      var n', m' := Visit(n, ts[0]), Visit(m, ts[0]);
      FoldGrows(n, ts);
      FoldGrows(n', ts[1..]);
      assert |n.parts| <= count && !Crowd(n).invalid;
      assert m'.parts == front + n'.parts && (m'.invalid ==> |m'.parts| == 4);
      FoldBehind(front, n', m', ts[1..], count);
    }
  }

  lemma CandidateBehind(p: seq<byte>, l: nat, strings: seq<CStr>, j: nat, beyond: byte)
    requires Proper(strings) && j < |strings| && Candidate(p, l, strings[j..], beyond)
    ensures Spells(Fold(Name(strings[..j], false, false), [Jump] + Tokens(p, l, l, beyond).value.0).parts, strings)
  {
    var ts := Tokens(p, l, l, beyond).value.0;
    var m := Name(strings[..j], false, false);
    assert ([Jump] + ts)[1..] == ts && Visit(m, Jump) == m;
    var n := Visit(NO_NAME, ts[0]);
    assert SameFold(strings[j..][0], Fold(NO_NAME, ts).parts[0]);
    if j == 0 {
      assert m == NO_NAME && strings[0..] == strings;
    } else {
      assert strings[j..][0] == strings[j];
      assert n == Name([strings[j]], false, false);
      FoldBehind(strings[..j], n, Visit(m, ts[0]), ts[1..], |strings| - j);
      assert Fold(m, ts).parts == strings[..j] + Fold(NO_NAME, ts).parts;
      forall i | 0 <= i < |strings| ensures SameFold(strings[i], Fold(m, ts).parts[i]) {
        if i >= j {
          assert strings[j..][i - j] == strings[i];
        }
      }
    }
  }

  // ------------------------------------------------------------ the theorem

  /** The candidate the search settles on, if any, lies before byte s0 and ends there. */
  predicate Points(o: Out, strings: seq<CStr>, s0: nat, beyond: byte)
    requires Sized(o) && s0 <= o.index
  {
    match Choice(o, strings, beyond)
    case None => true
    case Some((_, l)) => l < s0 && Within(o.buf, l, l, s0, beyond)
  }

  /** A name that points back reads back in any packet that still holds its bytes and
      those before s0. */
  lemma ReadsLater(o: Out, strings: seq<CStr>, s0: nat, q: seq<byte>, beyond: byte)
    requires Sized(o) && Room(o, strings) && Proper(strings) && s0 <= o.index && Points(o, strings, s0, beyond)
    requires var r := AppendFqdn(o, strings, beyond);
      r.index <= |q| && q[..s0] == r.buf[..s0] && q[o.index..r.index] == r.buf[o.index..r.index]
    ensures var back := Read(q, o.index, NO_NAME, beyond);
      back.Some? && back.value.1 == AppendFqdn(o, strings, beyond).index && Spells(back.value.0.parts, strings)
  {
    hide Fold, Tokens, Within, Outside, Find, AppendFqdn, Spells;
    var r := AppendFqdn(o, strings, beyond);
    NameReadsBack(o, strings, s0, beyond);
    OutsideFrame(r.buf, s0, q, o.index, o.index, s0, r.index, beyond);
    match Choice(o, strings, beyond)
    case None =>
      FoldTexts(strings);
      SpellsItself(strings);
    case Some((j, l)) =>
      CandidateBehind(o.buf, l, strings, j, beyond);
      var ts := Tokens(o.buf, l, l, beyond).value.0;
      FoldTexts(strings[..j]);
      assert Texts(strings[..j]) + [Jump] + ts == Texts(strings[..j]) + ([Jump] + ts);
      FoldConcat(NO_NAME, Texts(strings[..j]), [Jump] + ts);
  }

  lemma SpellsItself(strings: seq<CStr>)
    ensures Spells(strings, strings)
  {
  }

  /** The candidate the search settles on ends before the name when it begins there. */
  predicate Settled(o: Out, strings: seq<CStr>, beyond: byte)
    requires Sized(o)
  {
    var c := Choice(o, strings, beyond);
    c.Some? && c.value.1 < o.index ==> Within(o.buf, c.value.1, c.value.1, o.index, beyond)
  }

  /** The name points into itself. */
  predicate Looped(o: Out, strings: seq<CStr>, beyond: byte)
    requires Sized(o)
  {
    var c := Choice(o, strings, beyond);
    c.Some? && c.value.1 >= o.index
  }

  /** Reading at the old index gives the same parts up to letter case and ends at the
      new index, unless the search settled on the unfinished name itself: then the
      name cannot be read at all. No earlier byte changes. */
  lemma RoundTrip(o: Out, strings: seq<CStr>, beyond: byte)
    requires Sized(o) && Room(o, strings) && Proper(strings) && Settled(o, strings, beyond)
    ensures var r := AppendFqdn(o, strings, beyond);
      && r.buf[..o.index] == o.buf[..o.index]
      && var back := Read(r.buf, o.index, NO_NAME, beyond);
         (back.Some? <==> !Looped(o, strings, beyond))
         && (back.Some? ==> back.value.1 == r.index && Spells(back.value.0.parts, strings))
  {
    hide Fold, Tokens, Within, Find, AppendFqdn, Candidate;
    if Looped(o, strings, beyond) {
      NameReadsBack(o, strings, o.index, beyond);
    } else {
      ReadsLater(o, strings, o.index, AppendFqdn(o, strings, beyond).buf, beyond);
    }
  }

  // ------------------------------------- the labels as other hosts read them

  /** The labels on the wire, as section 4.1.4 of RFC 1035 reads a name: none is
      dropped, joined to another or counted. */
  function Labels(ts: seq<Token>): seq<seq<byte>> {
    if ts == [] then []
    else (match ts[0] case Jump => [] case Text(raw) => [CString(raw)]) + Labels(ts[1..])
  }

  lemma {:induction false} LabelsConcat(a: seq<Token>, b: seq<Token>)
    ensures Labels(a + b) == Labels(a) + Labels(b)
    decreases |a|
  {
    if a == [] {
      assert a + b == b;
    } else {
      assert (a + b)[0] == a[0] && (a + b)[1..] == a[1..] + b;
      LabelsConcat(a[1..], b);
    }
  }

  lemma {:induction false} LabelsTexts(strings: seq<CStr>)
    ensures Labels(Texts(strings)) == strings
    decreases |strings|
  {
    if |strings| > 0 {
      assert Texts(strings)[1..] == Texts(strings[1..]);
      LabelsTexts(strings[1..]);
      assert [strings[0]] + strings[1..] == strings;
    }
  }

  /** A label gives at most one part; when each gives one, they are the parts. */
  lemma {:induction false} FoldLabels(n: Name, ts: seq<Token>)
    ensures |Fold(n, ts).parts| <= |n.parts| + |Labels(ts)|
    ensures |Fold(n, ts).parts| == |n.parts| + |Labels(ts)| ==> Fold(n, ts).parts == n.parts + Labels(ts)
    decreases |ts|
  {
    if ts != [] {
      FoldLabels(Visit(n, ts[0]), ts[1..]);
    }
  }

  /** The candidate the search settled on has as many labels as strings were left. */
  predicate Exact(o: Out, strings: seq<CStr>, beyond: byte)
    requires Sized(o)
  {
    match Choice(o, strings, beyond)
    case None => true
    case Some((j, l)) =>
      var c := Tokens(o.buf, l, l, beyond);
      c.Some? && |Labels(c.value.0)| == |strings| - j
  }

  /** Exactly then the labels on the wire are the strings. */
  lemma LabelsRoundTrip(o: Out, strings: seq<CStr>, beyond: byte)
    requires Sized(o) && Room(o, strings) && Proper(strings) && Settled(o, strings, beyond)
    requires !Looped(o, strings, beyond)
    ensures var t := Tokens(AppendFqdn(o, strings, beyond).buf, o.index, o.index, beyond);
      && t.Some?
      && (Spells(Labels(t.value.0), strings) <==> Exact(o, strings, beyond))
  {
    hide Fold, Tokens, Within, Find, AppendFqdn;
    NameReadsBack(o, strings, o.index, beyond);
    LabelsTexts(strings);
    match Choice(o, strings, beyond)
    case None =>
    case Some((j, l)) =>
      var ts := Tokens(o.buf, l, l, beyond).value.0;
      LabelsConcat(Texts(strings[..j]) + [Jump], ts);
      LabelsConcat(Texts(strings[..j]), [Jump]);
      LabelsTexts(strings[..j]);
      FoldLabels(NO_NAME, ts);
      assert Labels(Texts(strings[..j]) + [Jump] + ts) == strings[..j] + Labels(ts);
      if |Labels(ts)| == |strings| - j {
        SpellsFrom(Labels(ts), strings, j);
      }
  }

  lemma SpellsFrom(tail: seq<seq<byte>>, strings: seq<CStr>, j: nat)
    requires j <= |strings| && Spells(tail, strings[j..])
    ensures Spells(strings[..j] + tail, strings)
  {
    forall i | 0 <= i < |strings| ensures SameFold(strings[i], (strings[..j] + tail)[i]) {
      if i >= j {
        assert strings[j..][i - j] == strings[i];
      }
    }
  }

  // ----------------------------------------------- names that never point inside

  function Encoded(strings: seq<CStr>): seq<byte> {
    if strings == [] then [] else [|strings[0]|] + strings[0] + Encoded(strings[1..])
  }

  /** No label repeats a label before it, and none holds the length of a later one
      as a byte. */
  predicate NoEcho(strings: seq<CStr>) {
    forall i, j :: 0 <= i < j < |strings| ==> strings[i] != strings[j] && |strings[j]| !in strings[i]
  }

  /** A label that neither repeats a label before it nor has its length among their
      bytes is not found among them. */
  lemma {:induction false} NotFoundInside(front: seq<CStr>, s: CStr, k: nat)
    requires k < |Encoded(front)| && Encoded(front)[k] == |s| >= 1
    requires forall i :: 0 <= i < |front| ==> front[i] != s && |s| !in front[i]
    ensures k + 1 + |s| <= |Encoded(front)| && Encoded(front)[k + 1..k + 1 + |s|] != s
  {
    var a, b := [|front[0]|] + front[0], Encoded(front[1..]);
    assert Encoded(front) == a + b;
    if k == 0 {
      assert Encoded(front)[1..1 + |s|] == front[0];
    } else if k > |front[0]| {
      NotFoundInside(front[1..], s, k - |a|);
      assert Encoded(front)[k + 1..k + 1 + |s|] == b[k - |a| + 1..k - |a| + 1 + |s|];
    }
  }

  lemma {:induction false} EncodedConcat(a: seq<CStr>, s: CStr)
    ensures Encoded(a + [s]) == Encoded(a) + [|s|] + s
    decreases |a|
  {
    if a == [] {
      assert a + [s] == [s] && Encoded([s]) == [|s|] + s + Encoded([]);
    } else {
      assert (a + [s])[1..] == a[1..] + [s];
      EncodedConcat(a[1..], s);
    }
  }

  lemma SliceOfSlice(p: seq<byte>, lo: nat, hi: nat, a: nat, b: nat)
    requires lo <= hi <= |p| && a <= b <= hi - lo
    ensures p[lo..hi][a..b] == p[lo + a..lo + b]
  {
    var q := p[lo..hi];
    forall k | a <= k < b ensures q[k] == p[lo + k] {}
    assert q[a..b] == p[lo + a..lo + b];
  }

  lemma NotAcceptedInside(o: Out, s0: nat, front: seq<CStr>, strings: seq<CStr>, l: nat, beyond: byte)
    requires Sized(o) && s0 <= l < o.index && o.buf[s0..o.index] == Encoded(front)
    requires |strings| > 0 && Readable(strings) && NoEcho(front + strings)
    ensures !Accepts(o.buf, l, strings, beyond)
  {
    hide Tokens, Fold, Spells, Encoded;
    var s := strings[0];
    assert o.buf[s0..o.index][l - s0] == o.buf[l];
    if o.buf[l] == |s| {
      forall i | 0 <= i < |front| ensures front[i] != s && |s| !in front[i] {
        assert (front + strings)[i] == front[i] && (front + strings)[|front|] == s;
      }
      NotFoundInside(front, s, l - s0);
      SliceOfSlice(o.buf, s0, o.index, l - s0 + 1, l - s0 + 1 + |s|);
    }
  }

  lemma {:induction false} NeverInside(o: Out, s0: nat, front: seq<CStr>, strings: seq<CStr>, beyond: byte)
    requires Sized(o) && s0 <= o.index && o.buf[s0..o.index] == Encoded(front)
    requires Readable(strings) && NoEcho(front + strings)
    ensures var c := Choice(o, strings, beyond); c.Some? ==> c.value.1 < s0
    decreases |strings|
  {
    hide Find, Tokens, Fold, Encoded, Accepts;
    if strings != [] {
      var s := strings[0];
      match Find(o, 0, strings, beyond)
      case Some(l) =>
        if l >= s0 {
          NotAcceptedInside(o, s0, front, strings, l, beyond);
        }
      case None =>
        var o' := AppendString(o, s);
        if o' != o {
          EncodedConcat(front, s);
          assert o'.buf[s0..o'.index] == o'.buf[..o.index][s0..] + o'.buf[o.index..o'.index] == Encoded(front + [s]);
          assert (front + [s]) + strings[1..] == front + strings;
          NeverInside(o', s0, front + [s], strings[1..], beyond);
        }
    }
  }

  /** Names without an echo always read back. */
  lemma NoEchoRoundTrip(o: Out, strings: seq<CStr>, beyond: byte)
    requires Sized(o) && Room(o, strings) && Proper(strings) && Settled(o, strings, beyond) && NoEcho(strings)
    ensures var r := AppendFqdn(o, strings, beyond);
      var back := Read(r.buf, o.index, NO_NAME, beyond);
      back.Some? && back.value.1 == r.index && Spells(back.value.0.parts, strings)
  {
    hide Fold, Tokens, Within, Find, AppendFqdn;
    assert [] + strings == strings;
    NeverInside(o, o.index, [], strings, beyond);
    RoundTrip(o, strings, beyond);
  }

  // ------------------------------------------------------ names that break

  lemma {:induction false} FindIs(o: Out, l: nat, strings: seq<CStr>, at: nat, beyond: byte)
    requires Sized(o) && |strings| > 0 && l <= at < o.index && Accepts(o.buf, at, strings, beyond)
    requires forall k :: l <= k < at ==> o.buf[k] != |strings[0]|
    ensures Find(o, l, strings, beyond) == Some(at)
    decreases at - l
  {
    if l < at {
      FindIs(o, l + 1, strings, at, beyond);
    }
  }

  lemma {:induction false} FindNothing(o: Out, l: nat, strings: seq<CStr>, beyond: byte)
    requires Sized(o) && |strings| > 0 && l <= o.index
    requires forall k :: l <= k < o.index ==> o.buf[k] != |strings[0]|
    ensures Find(o, l, strings, beyond) == None
    decreases o.index - l
  {
    if l < o.index {
      FindNothing(o, l + 1, strings, beyond);
    }
  }

  /** A buffer of zeros with its twelve header bytes written: the first packet after start. */
  function Blank(): Out {
    Out(seq(MAX_PACKET_SIZE, i => 0), 12)
  }

  lemma ZerosThen(o1: Out)
    requires o1 == Put(Blank(), [5] + LOCAL)
    ensures forall k :: 0 <= k < 12 ==> o1.buf[k] == 0
    ensures o1.buf[12..18] == [5] + LOCAL && o1.buf[18] == 0 && o1.buf[12] == 5 && o1.buf[13..18] == LOCAL
  {
    var o := Blank();
    forall k | 0 <= k < 12 ensures o1.buf[k] == 0 {
      assert o1.buf[k] == o1.buf[..12][k] == o.buf[..12][k];
    }
    assert o1.buf[18] == o1.buf[18..][0] == o.buf[18..][0];
    assert o1.buf[12] == o1.buf[12..18][0];
    assert o1.buf[13..18] == o1.buf[12..18][1..];
  }

  /** A host called `local`: its name is written as a pointer to itself and cannot be
      read, in the first packet the responder sends. */
  lemma LocalHostIsUnreadable(beyond: byte)
    ensures Proper([LOCAL, LOCAL])
    ensures Read(AppendFqdn(Blank(), [LOCAL, LOCAL], beyond).buf, 12, NO_NAME, beyond) == None
  {
    hide Fold, AppendFqdn, Within, JoinsHost, Blank;
    var o := Blank();
    var names: seq<CStr> := [LOCAL, LOCAL];
    assert Proper(names) by { assert !JoinsHost(LOCAL) by { LocalStandsAlone(); } }
    assert names[1..] == [LOCAL];
    LocalHostChoice(beyond);
    NameReadsBack(o, names, 12, beyond);
  }

  lemma LocalStandsAlone()
    ensures !JoinsHost(LOCAL) && !SameFold(LOCAL, SUB)
  {
    assert SameFold(LOCAL, LOCAL);
  }

  lemma LocalAccepted(o1: Out, beyond: byte)
    requires o1 == Put(Blank(), [5] + LOCAL)
    ensures Accepts(o1.buf, 12, [LOCAL], beyond)
    ensures forall k :: 0 <= k < 12 ==> o1.buf[k] != 5
  {
    hide Blank, Visit;
    ZerosThen(o1);
    LabelRead(o1.buf, 12, 12, LOCAL, beyond);
    assert Tokens(o1.buf, 12, 18, beyond) == Some(([], 19));
    LocalStandsAlone();
    FoldTexts([LOCAL]);
    assert Texts([LOCAL]) == [Text(LOCAL)] + [];
  }

  lemma LocalHostChoice(beyond: byte)
    ensures Sized(Blank()) && Blank().index == 12 && Room(Blank(), [LOCAL, LOCAL])
    ensures Choice(Blank(), [LOCAL, LOCAL], beyond) == Some((1, 12))
  {
    hide JoinsHost, Within, Accepts;
    var o := Blank();
    var names: seq<CStr> := [LOCAL, LOCAL];
    assert Uncompressed(names[1..]) == 6 + Uncompressed(names[1..][1..]);
    FindNothing(o, 0, names, beyond);
    var o1 := AppendString(o, LOCAL);
    LocalAccepted(o1, beyond);
    assert names[1..] == [LOCAL];
    FindIs(o1, 0, names[1..], 12, beyond);
  }

  lemma FirstLabelWritten(o: Out, strings: seq<CStr>, beyond: byte)
    requires Sized(o) && Room(o, strings) && |strings| > 0 && Choice(o, strings, beyond) == None
    ensures var r := AppendFqdn(o, strings, beyond); var n := |strings[0]|;
      o.index + 1 + n <= |r.buf| && r.buf[o.index] == n && r.buf[o.index + 1..o.index + 1 + n] == strings[0]
  {
    var s := strings[0];
    var o1 := AppendString(o, s);
    var r := AppendFqdn(o1, strings[1..], beyond);
    assert r.buf[o.index..o1.index] == r.buf[..o1.index][o.index..] == o1.buf[..o1.index][o.index..] == [|s|] + s;
    assert r.buf[o.index] == r.buf[o.index..o1.index][0];
    assert r.buf[o.index + 1..o1.index] == r.buf[o.index..o1.index][1..];
  }

  /** `_sub` leaves only its mark. */
  lemma SubtypeParts(name: CStr, service: CStr, proto: CStr)
    requires Proper([name, service, proto, LOCAL])
    ensures Fold(NO_NAME, Texts([name, SUB, service, proto, LOCAL]))
      == Name([name, service, proto, LOCAL], true, false)
  {
    var four: seq<CStr> := [name, service, proto, LOCAL];
    assert four[0] == name && four[..1] == [name] && four[1..] == [service, proto, LOCAL];
    var ts := Texts([name, SUB, service, proto, LOCAL]);
    assert ts[1..][0] == Text(SUB) && ts[1..][1..] == Texts(four[1..]);
    assert Visit(NO_NAME, ts[0]) == Name([name], false, false);
    assert Visit(Name([name], false, false), Text(SUB)) == Name([name], true, false) by {
      assert SUB[0] == UNDERSCORE && SameFold(SUB, SUB);
    }
    FoldRest(four, 1, true);
  }

  /** An instance called like a subtype of its own service: behind the subtype name
      that the responder has written in full, the instance name is accepted there. */
  lemma SubtypeIsTakenForInstance(o: Out, name: CStr, service: CStr, proto: CStr, beyond: byte)
    requires Sized(o) && Proper([name, service, proto, LOCAL]) && Room(o, [name, SUB, service, proto, LOCAL])
    requires Choice(o, [name, SUB, service, proto, LOCAL], beyond) == None
    ensures var o' := AppendFqdn(o, [name, SUB, service, proto, LOCAL], beyond);
      var t := Tokens(o'.buf, o.index, o.index, beyond);
      && Accepts(o'.buf, o.index, [name, service, proto, LOCAL], beyond)
      && t.Some? && Labels(t.value.0) == [name, SUB, service, proto, LOCAL]
  {
    hide Find, AppendFqdn, Within, Choice, JoinsHost, Fold;
    var five: seq<CStr> := [name, SUB, service, proto, LOCAL];
    var four: seq<CStr> := [name, service, proto, LOCAL];
    assert Readable(five) by { assert four[0] == name && four[1] == service && four[2] == proto; }
    NameReadsBack(o, five, o.index, beyond);
    LabelsTexts(five);
    SubtypeParts(name, service, proto);
    FirstLabelWritten(o, five, beyond);
  }

  /** Behind zeros, a name without an echo is written out in full. */
  lemma {:induction false} WrittenOut(o: Out, s0: nat, front: seq<CStr>, strings: seq<CStr>, beyond: byte)
    requires Sized(o) && s0 <= o.index && o.buf[s0..o.index] == Encoded(front) && forall k :: 0 <= k < s0 ==> o.buf[k] == 0
    requires Readable(strings) && NoEcho(front + strings)
    ensures Choice(o, strings, beyond) == None
    decreases |strings|
  {
    hide Find, Tokens, Fold, Encoded, Accepts, NoEcho, AppendString;
    if strings != [] {
      match Find(o, 0, strings, beyond)
      case Some(l) => NotAccepted(o, s0, front, strings, l, beyond);
      case None =>
        var o' := AppendString(o, strings[0]);
        if o' != o {
          OneMoreWritten(o, s0, front, strings[0]);
          assert (front + [strings[0]]) + strings[1..] == front + strings;
          WrittenOut(o', s0, front + [strings[0]], strings[1..], beyond);
        }
    }
  }

  lemma OneMoreWritten(o: Out, s0: nat, front: seq<CStr>, s: CStr)
    requires Sized(o) && s0 <= o.index && o.buf[s0..o.index] == Encoded(front) && forall k :: 0 <= k < s0 ==> o.buf[k] == 0
    requires AppendString(o, s) != o
    ensures var o' := AppendString(o, s);
      && s0 <= o'.index && o'.buf[s0..o'.index] == Encoded(front + [s]) && forall k :: 0 <= k < s0 ==> o'.buf[k] == 0
  {
    hide Encoded;
    var o' := AppendString(o, s);
    EncodedConcat(front, s);
    SameSlice(o'.buf, o.buf, o.index, s0, o.index);
    assert o'.buf[s0..o'.index] == o'.buf[s0..o.index] + o'.buf[o.index..o'.index];
    assert forall k :: 0 <= k < s0 ==> o'.buf[k] == o'.buf[..o.index][k] == o.buf[..o.index][k];
  }

  lemma NotAccepted(o: Out, s0: nat, front: seq<CStr>, strings: seq<CStr>, l: nat, beyond: byte)
    requires Sized(o) && s0 <= o.index && o.buf[s0..o.index] == Encoded(front) && forall k :: 0 <= k < s0 ==> o.buf[k] == 0
    requires |strings| > 0 && Readable(strings) && NoEcho(front + strings)
    requires l < o.index
    ensures !Accepts(o.buf, l, strings, beyond)
  {
    hide Find, Tokens, Fold, Encoded, NoEcho, Spells;
    if l >= s0 { NotAcceptedInside(o, s0, front, strings, l, beyond); }
  }

  /** In the first packet after start: behind a subtype name without an echo the search
      for the instance name settles on the subtype name, so that what is written for the
      instance reads with one label too many. */
  lemma SubtypeWins(name: CStr, service: CStr, proto: CStr, beyond: byte)
    requires Proper([name, service, proto, LOCAL]) && NoEcho([name, SUB, service, proto, LOCAL])
    requires Room(Blank(), [name, SUB, service, proto, LOCAL])
    ensures var o := AppendFqdn(Blank(), [name, SUB, service, proto, LOCAL], beyond);
      && Choice(Blank(), [name, SUB, service, proto, LOCAL], beyond) == None
      && Choice(o, [name, service, proto, LOCAL], beyond) == Some((0, 12))
      && !Exact(o, [name, service, proto, LOCAL], beyond)
  {
    hide AppendFqdn, Proper, NoEcho, Room, Uncompressed, Find, Tokens, Labels, Spells, Fold;
    var five: seq<CStr> := [name, SUB, service, proto, LOCAL];
    var four: seq<CStr> := [name, service, proto, LOCAL];
    var o := Blank();
    assert Readable(five) && |name| > 0 by { FiveReadable(name, service, proto); }
    assert [] + five == five && o.buf[12..12] == Encoded([]);
    WrittenOut(o, 12, [], five, beyond);
    SubtypeIsTakenForInstance(o, name, service, proto, beyond);
    var o' := AppendFqdn(o, five, beyond);
    assert forall k :: 0 <= k < 12 ==> o'.buf[k] == o'.buf[..12][k] == o.buf[..12][k];
    assert o'.buf[12] == |name| != o.buf[12];
    FindIs(o', 0, four, 12, beyond);
  }

  lemma FiveReadable(name: CStr, service: CStr, proto: CStr)
    requires Proper([name, service, proto, LOCAL])
    ensures Readable([name, SUB, service, proto, LOCAL]) && |name| > 0
  {
    var four: seq<CStr> := [name, service, proto, LOCAL];
    assert four[0] == name && four[1] == service && four[2] == proto;
  }

  /** A read that stays behind its place but for jumps below `lo` looks at nothing behind
      the limit. */
  lemma {:induction false} OutsideWithin(p: seq<byte>, start: nat, i: nat, lo: nat, limit: nat, beyond: byte)
    requires lo <= start && lo <= limit <= |p| && i <= |p| && Outside(p, i, lo, limit, beyond)
    ensures Within(p, start, i, limit, beyond)
    decreases |p| + 1 - i
  {
    if 0 < p[i] <= 63 {
      OutsideWithin(p, start, i + 1 + p[i], lo, limit, beyond);
    } else if p[i] >= 0xC0 {
      WithinMore(p, Target(p, i, beyond), Target(p, i, beyond), lo, limit, beyond);
    }
  }

  lemma {:induction false} WithinMore(p: seq<byte>, start: nat, i: nat, limit: nat, more: nat, beyond: byte)
    requires limit <= more <= |p| && Within(p, start, i, limit, beyond)
    ensures Within(p, start, i, more, beyond)
    decreases start, |p| + 1 - i
  {
    if 0 < p[i] <= 63 {
      WithinMore(p, start, i + 1 + p[i], limit, more, beyond);
    } else if p[i] >= 0xC0 && Target(p, i, beyond) < start {
      WithinMore(p, Target(p, i, beyond), Target(p, i, beyond), limit, more, beyond);
    }
  }

  /** What was written in full can be read without looking behind it. */
  lemma WrittenWithin(o: Out, strings: seq<CStr>, beyond: byte)
    requires Sized(o) && Room(o, strings) && Readable(strings) && Choice(o, strings, beyond) == None
    ensures var r := AppendFqdn(o, strings, beyond); Within(r.buf, o.index, o.index, r.index, beyond)
  {
    hide Within, Tokens, AppendFqdn;
    NameReadsBack(o, strings, o.index, beyond);
    var r := AppendFqdn(o, strings, beyond);
    OutsideWithin(r.buf, o.index, o.index, o.index, r.index, beyond);
  }

  /** The labels written for the instance are not those of its name. */
  lemma SubtypeMisread(name: CStr, service: CStr, proto: CStr, beyond: byte)
    requires Proper([name, service, proto, LOCAL]) && NoEcho([name, SUB, service, proto, LOCAL])
    requires Room(Blank(), [name, SUB, service, proto, LOCAL])
    requires Room(AppendFqdn(Blank(), [name, SUB, service, proto, LOCAL], beyond), [name, service, proto, LOCAL])
    ensures var o := AppendFqdn(Blank(), [name, SUB, service, proto, LOCAL], beyond);
      var t := Tokens(AppendFqdn(o, [name, service, proto, LOCAL], beyond).buf, o.index, o.index, beyond);
      t.Some? && !Spells(Labels(t.value.0), [name, service, proto, LOCAL])
  {
    hide AppendFqdn, NoEcho, Room, Within, Proper, Tokens, Labels, Spells, Exact;
    var five: seq<CStr> := [name, SUB, service, proto, LOCAL];
    var four: seq<CStr> := [name, service, proto, LOCAL];
    var o := AppendFqdn(Blank(), five, beyond);
    SubtypeWins(name, service, proto, beyond);
    assert Readable(five) by { FiveReadable(name, service, proto); }
    WrittenWithin(Blank(), five, beyond);
    assert o.index > 12 by { Grown(five, beyond); }
    LabelsRoundTrip(o, four, beyond);
  }

  lemma Grown(strings: seq<CStr>, beyond: byte)
    requires Room(Blank(), strings) && |strings| > 0 && Choice(Blank(), strings, beyond) == None && |strings[0]| > 0
    ensures AppendFqdn(Blank(), strings, beyond).index > 12
  {
    hide AppendFqdn;
    FirstLabelWritten(Blank(), strings, beyond);
    assert AppendFqdn(Blank(), strings, beyond) != Blank();
  }

  /** An instance `a` of `_x._udp` with a subtype `a`: what is written for the instance is
      read as another name. */
  lemma SubtypeExample(beyond: byte)
    ensures var name, service, proto := [97], [95, 120], [95, 117, 100, 112];
      var o := AppendFqdn(Blank(), [name, SUB, service, proto, LOCAL], beyond);
      var t := Tokens(AppendFqdn(o, [name, service, proto, LOCAL], beyond).buf, o.index, o.index, beyond);
      && Proper([name, service, proto, LOCAL]) && !Exact(o, [name, service, proto, LOCAL], beyond)
      && t.Some? && !Spells(Labels(t.value.0), [name, service, proto, LOCAL])
  {
    hide AppendFqdn, Exact, Blank, Tokens, Spells, Labels, NoEcho, Proper;
    var name: CStr, service: CStr, proto: CStr := [97], [95, 120], [95, 117, 100, 112];
    var five: seq<CStr> := [name, SUB, service, proto, LOCAL];
    var four: seq<CStr> := [name, service, proto, LOCAL];
    ExampleProper();
    assert Room(Blank(), five) by { ExampleRoom(); }
    SubtypeWins(name, service, proto, beyond);
    GrowthBound(Blank(), five, beyond);
    assert Room(AppendFqdn(Blank(), five, beyond), four) by { ExampleRoom(); }
    SubtypeMisread(name, service, proto, beyond);
  }

  lemma ExampleRoom()
    ensures Uncompressed([[97], SUB, [95, 120], [95, 117, 100, 112], LOCAL]) == 22
    ensures Uncompressed([[97], [95, 120], [95, 117, 100, 112], LOCAL]) == 17
    ensures Sized(Blank()) && Blank().index == 12
  {
    var five: seq<CStr> := [[97], SUB, [95, 120], [95, 117, 100, 112], LOCAL];
    var four: seq<CStr> := [[97], [95, 120], [95, 117, 100, 112], LOCAL];
    assert Uncompressed(five[4..]) == 6 + Uncompressed(five[4..][1..]);
    assert five[3..][1..] == five[4..] && five[2..][1..] == five[3..] && five[1..][1..] == five[2..];
    assert Uncompressed(five[3..]) == 11 + 1;
    assert Uncompressed(five[2..]) == 14 + 1;
    assert Uncompressed(five[1..]) == 19 + 1;
    assert four[1..] == five[2..];
  }

  lemma ExampleProper()
    ensures Proper([[97], [95, 120], [95, 117, 100, 112], LOCAL])
    ensures NoEcho([[97], SUB, [95, 120], [95, 117, 100, 112], LOCAL])
  {
    LocalStandsAlone();
    var four: seq<CStr> := [[97], [95, 120], [95, 117, 100, 112], LOCAL];
    assert !SameFold(four[0], SUB) && !SameFold(four[1], SUB);
    assert !SameFold(four[2], SUB) by { assert four[2][1] == 117 && SUB[1] == 115; }
    var five: seq<CStr> := [[97], SUB, [95, 120], [95, 117, 100, 112], LOCAL];
    forall i, j | 0 <= i < j < |five| ensures five[i] != five[j] && |five[j]| !in five[i] {
      assert five[3][1] == 117 && five[1][1] == 115;
    }
  }

  /** A name written out in full, of labels that are not empty, reads exactly if no label
      is longer than 63 bytes. The responder takes longer ones. */
  lemma {:induction false} LongLabels(o: Out, strings: seq<CStr>, start: nat, beyond: byte)
    requires Sized(o) && Room(o, strings) && Choice(o, strings, beyond) == None
    requires forall i :: 0 <= i < |strings| ==> |strings[i]| > 0
    ensures Tokens(AppendFqdn(o, strings, beyond).buf, start, o.index, beyond).Some? <==> Readable(strings)
    decreases |strings|
  {
    hide Tokens, AppendFqdn, Find;
    if strings == [] {
      EmptyReads(o, start, beyond);
    } else {
      var s := strings[0];
      LabelFirst(o, strings, beyond);
      LongLabels(AppendString(o, s), strings[1..], start, beyond);
      FirstLabelWritten(o, strings, beyond);
      LabelToken(AppendFqdn(o, strings, beyond).buf, start, o.index, s, beyond);
      assert Readable(strings) <==> |s| <= 63 && Readable(strings[1..]) by { ReadableSplit(strings); }
    }
  }

  lemma EmptyReads(o: Out, start: nat, beyond: byte)
    requires Sized(o) && Room(o, [])
    ensures Tokens(AppendFqdn(o, [], beyond).buf, start, o.index, beyond).Some?
  {
    var r := AppendFqdn(o, [], beyond);
    assert r.buf[o.index..r.index][0] == r.buf[o.index];
  }

  lemma LabelToken(p: seq<byte>, start: nat, i: nat, s: CStr, beyond: byte)
    requires |s| > 0 && i + 1 + |s| <= |p| && p[i] == |s| && p[i + 1..i + 1 + |s|] == s
    ensures Tokens(p, start, i, beyond).Some? <==> |s| <= 63 && Tokens(p, start, i + 1 + |s|, beyond).Some?
  {
  }

  lemma ReadableSplit(strings: seq<CStr>)
    requires strings != [] && |strings[0]| > 0
    ensures Readable(strings) <==> |strings[0]| <= 63 && Readable(strings[1..])
  {
    assert forall i :: 0 < i < |strings| ==> strings[i] == strings[1..][i - 1];
  }

  /** The first packet after start with a host name of 64 bytes. */
  lemma LongHost(beyond: byte)
    ensures var host: CStr := seq(64, _ => 97);
      && Choice(Blank(), [host, LOCAL], beyond) == None
      && Read(AppendFqdn(Blank(), [host, LOCAL], beyond).buf, 12, NO_NAME, beyond) == None
  {
    hide AppendFqdn, Find, Choice, Tokens, Fold;
    var host: CStr := seq(64, _ => 97);
    var names: seq<CStr> := [host, LOCAL];
    var o := Blank();
    assert Room(o, names) by { assert names[1..] == [LOCAL]; assert Uncompressed([LOCAL]) == 6 + Uncompressed([LOCAL][1..]); }
    assert !Readable(names) by { assert |names[0]| == 64; }
    LongChoice(host, beyond);
    LongLabels(o, names, 12, beyond);
  }

  lemma LongChoice(host: CStr, beyond: byte)
    requires |host| == 64 && forall i :: 0 <= i < 64 ==> host[i] == 97
    ensures Sized(Blank()) && Choice(Blank(), [host, LOCAL], beyond) == None
  {
    hide Accepts, Find;
    var o := Blank();
    var names: seq<CStr> := [host, LOCAL];
    FindNothing(o, 0, names, beyond);
    var o1 := AppendString(o, host);
    assert o1 == Put(o, [64] + host) && names[1..] == [LOCAL];
    forall k | 0 <= k < o1.index ensures o1.buf[k] != 5 {
      if k < 12 { assert o1.buf[k] == o1.buf[..12][k] == o.buf[..12][k]; } else { assert o1.buf[k] == o1.buf[12..o1.index][k - 12]; }
    }
    FindNothing(o1, 0, names[1..], beyond);
  }

  // -------------------------------------------------- names of other shapes

  lemma {:induction false} InvalidStays(n: Name, ts: seq<Token>)
    requires n.invalid && |n.parts| != 1
    ensures Fold(n, ts).invalid && Fold(n, ts).parts == n.parts
    decreases |ts|
  {
    hide JoinsHost;
    if ts != [] {
      InvalidStays(Visit(n, ts[0]), ts[1..]);
    }
  }

  /** A name that goes on after its fourth part is invalid, and keeps these four. */
  lemma FifthIsInvalid(n: Name, ts: seq<Token>)
    requires |n.parts| == 4 && ts != []
    ensures Fold(n, ts).invalid && Fold(n, ts).parts == n.parts
  {
    InvalidStays(Visit(n, ts[0]), ts[1..]);
  }

  /** A second label that is none of the special ones belongs to the host name. */
  lemma DottedHost(a: CStr, b: CStr)
    requires 0 < |a| && 0 < |b| && |a| + 1 + |b| <= NAME_MAX_LEN && JoinsHost(b) && !SameFold(a, SUB)
    ensures Fold(NO_NAME, Texts([a, b, LOCAL])) == Name([a + [DOT] + b, LOCAL], false, false)
  {
    hide JoinsHost;
    LocalStandsAlone();
    var ts := Texts([a, b, LOCAL]);
    assert ts == [Text(a), Text(b), Text(LOCAL)];
    assert ts[1..] == [Text(b), Text(LOCAL)] && ts[1..][1..] == [Text(LOCAL)] && ts[1..][1..][1..] == [];
    var n1 := Visit(NO_NAME, Text(a));
    assert n1 == Name([a], false, false);
    var n2 := Visit(n1, Text(b));
    assert n2 == Name([a + [DOT] + b], false, false);
    var n3 := Visit(n2, Text(LOCAL));
    assert n3 == Name([a + [DOT] + b, LOCAL], false, false);
    assert Fold(n2, [Text(LOCAL)]) == Fold(n3, []) == n3;
    assert Fold(n1, ts[1..]) == Fold(n2, [Text(LOCAL)]);
    assert Fold(NO_NAME, ts) == Fold(n1, ts[1..]);
  }
}
