/** The name a host takes after a lost conflict: a number at its end goes up. */
module Mangle {
  import opened Options

  const INT_MAX: nat := 0x7FFFFFFF

  // --------------------------------------------------------------- numbers

  predicate IsDigit(c: char) {
    '0' <= c <= '9'
  }

  predicate AllDigits(s: string) {
    forall i :: 0 <= i < |s| ==> IsDigit(s[i])
  }

  function Digit(n: nat): char
    requires n < 10
  {
    '0' + n as char
  }

  /** sprintf("%d", n) */
  function Decimal(n: nat): (s: string)
    ensures |s| > 0 && AllDigits(s)
  {
    if n < 10 then [Digit(n)] else Decimal(n / 10) + [Digit(n % 10)]
  }

  /** The value of a string of digits. */
  function Value(s: string): nat
    requires AllDigits(s)
  {
    if s == [] then 0
    else
      assert IsDigit(s[|s| - 1]);
      10 * Value(s[..|s| - 1]) + (s[|s| - 1] as int - '0' as int)
  }

  lemma {:induction false} ValueOfDecimal(n: nat)
    ensures Value(Decimal(n)) == n
  {
    if n >= 10 {
      ValueOfDecimal(n / 10);
      var s := Decimal(n);
      assert s[..|s| - 1] == Decimal(n / 10);
    } else {
      assert Decimal(n)[..0] == [];
    }
  }

  /** No shorter string of digits has the value. */
  lemma {:induction false} DecimalIsShortest(s: string)
    requires |s| > 0 && AllDigits(s)
    ensures |Decimal(Value(s))| <= |s|
    decreases |s|
  {
    var front := s[..|s| - 1];
    var n := Value(s);
    assert n / 10 == Value(front);
    if |s| > 1 {
      DecimalIsShortest(front);
    }
  }

  /** Counting on takes at most one digit more. */
  lemma {:induction false} NextIsLonger(n: nat)
    ensures |Decimal(n + 1)| <= |Decimal(n)| + 1
  {
    if n >= 10 {
      if (n + 1) % 10 == 0 {
        NextIsLonger(n / 10);
        assert (n + 1) / 10 == n / 10 + 1;
      } else {
        assert (n + 1) / 10 == n / 10;
      }
    } else if n == 9 {
      assert |Decimal(10)| == |Decimal(1)| + 1;
    }
  }

  // ------------------------------------------------------------- the suffix

  /** strrchr(s, '-'): the last dash, or the length without one. */
  function LastDash(s: string): (i: nat)
    ensures i <= |s| && (i < |s| ==> s[i] == '-' && forall k :: i < k < |s| ==> s[k] != '-')
    ensures i == |s| ==> '-' !in s
  {
    if s == [] then 0
    else if s[|s| - 1] == '-' then |s| - 1
    else
      var i := LastDash(s[..|s| - 1]);
      assert s == s[..|s| - 1] + [s[|s| - 1]];
      if i == |s| - 1 then |s| else i
  }

  predicate IsSpace(c: char) {
    c == ' ' || '\t' <= c <= '\r'
  }

  function SkipSpaces(s: string): (r: string)
    ensures |r| <= |s|
  {
    if s == [] || !IsSpace(s[0]) then s else SkipSpaces(s[1..])
  }

  /** strtol on the text behind the last dash: its value when the text is used up. Text
      without digits is used up only when it is empty. */
  function Strtol(tail: string): Option<nat> {
    var t := SkipSpaces(tail);
    var u := if t != [] && t[0] == '+' then t[1..] else t;
    if tail == [] then Some(0)
    else if u != [] && AllDigits(u) then Some(Value(u))
    else None
  }

  /** The number at the end of a name. */
  function Suffix(name: string): Option<nat> {
    var p := LastDash(name);
    if p == |name| then None else Strtol(name[p + 1..])
  }

  function Base(name: string): string {
    if Suffix(name).None? then name else name[..LastDash(name)]
  }

  function Next(name: string): nat {
    match Suffix(name) case None => 2 case Some(n) => n + 1
  }

  /** _mdns_mangle_name */
  function Mangled(name: string): string {
    Base(name) + "-" + Decimal(Next(name))
  }

  /** The bytes allocated for the new name. */
  function Allocated(name: string): nat {
    if Suffix(name).None? then |name| + 3 else |name| + 2
  }

  /** The number stays an int. */
  predicate InRange(name: string) {
    Suffix(name).Some? ==> Suffix(name).value < INT_MAX
  }

  function Iterate(name: string, n: nat): string {
    if n == 0 then name else Mangled(Iterate(name, n - 1))
  }

  // -------------------------------------------------------------- progress

  lemma DashBefore(base: string, digits: string)
    requires AllDigits(digits)
    ensures LastDash(base + "-" + digits) == |base|
  {
    hide LastDash;
    var s := base + "-" + digits;
    forall d | d in digits ensures d != '-' {
      var i :| 0 <= i < |digits| && digits[i] == d;
      assert IsDigit(digits[i]);
    }
    assert s[|base|..] == "-" + digits;
    forall k | |base| < k < |s| ensures s[k] != '-' {
      assert s[k] in digits;
    }
    LastDashIs(s, |base|);
  }

  lemma NoDash(s: string)
    ensures (forall k :: 0 <= k < |s| ==> s[k] != '-') ==> LastDash(s) == |s|
  {
  }

  lemma LastDashIs(s: string, i: nat)
    requires i < |s| && s[i] == '-' && forall k :: i < k < |s| ==> s[k] != '-'
    ensures LastDash(s) == i
  {
    assert s[i] in s;
  }

  /** A printed number is read back. */
  lemma StrtolOfDecimal(n: nat)
    ensures Strtol(Decimal(n)) == Some(n)
  {
    ValueOfDecimal(n);
    var s := Decimal(n);
    assert IsDigit(s[0]);
    assert SkipSpaces(s) == s;
  }

  /** The new name ends in the next number, behind the same base. */
  lemma MangledSuffix(name: string)
    ensures Suffix(Mangled(name)) == Some(Next(name))
    ensures Base(Mangled(name)) == Base(name)
  {
    var base, digits := Base(name), Decimal(Next(name));
    var s := Mangled(name);
    DashBefore(base, digits);
    assert s[|base| + 1..] == digits;
    StrtolOfDecimal(Next(name));
  }

  /** The new name fits what was allocated for it, with its terminating zero. */
  lemma MangledFits(name: string)
    ensures |Mangled(name)| + 1 <= Allocated(name)
  {
    if Suffix(name).Some? {
      var p := LastDash(name);
      var tail := name[p + 1..];
      var n := Suffix(name).value;
      var t := SkipSpaces(tail);
      var u := if t != [] && t[0] == '+' then t[1..] else t;
      if tail == [] {
        assert Decimal(1) == [Digit(1)];
      } else {
        DecimalIsShortest(u);
        NextIsLonger(n);
      }
    }
  }

  function Rank(name: string): int {
    match Suffix(name) case None => -1 case Some(n) => n
  }

  lemma {:induction false} RankGrows(name: string, i: nat, j: nat)
    requires i < j
    ensures Rank(Iterate(name, i)) < Rank(Iterate(name, j))
    decreases j
  {
    hide Suffix, Mangled;
    MangledSuffix(Iterate(name, j - 1));
    if i < j - 1 {
      RankGrows(name, i, j - 1);
    }
  }

  /** Renaming again and again never comes back to a name, as long as the numbers stay
      in range; every name fits its allocation. */
  lemma NamesDiffer(name: string, i: nat, j: nat)
    requires i < j && forall k :: 0 <= k < j ==> InRange(Iterate(name, k))
    ensures Iterate(name, i) != Iterate(name, j)
    ensures |Iterate(name, j)| + 1 <= Allocated(Iterate(name, j - 1))
    ensures Suffix(Iterate(name, j)).Some? && Suffix(Iterate(name, j)).value <= INT_MAX
  {
    RankGrows(name, i, j);
    MangledFits(Iterate(name, j - 1));
    MangledSuffix(Iterate(name, j - 1));
    assert InRange(Iterate(name, j - 1));
  }

  // -------------------------------------------------------------- the code

  /** _mdns_mangle_name; the result is the string in the allocated bytes. */
  method MangleName(name: string) returns (ret: string, size: nat)
    requires InRange(name)
    ensures ret == Mangled(name) && size == Allocated(name) && |ret| < size
  {
    hide LastDash, Strtol;
    MangledFits(name);
    NoDash(name);
    var p := |name|;
    while p > 0 && name[p - 1] != '-'
      invariant 0 <= p <= |name| && forall k :: p <= k < |name| ==> name[k] != '-'
    {
      p := p - 1;
    }
    var found := p > 0;
    var suffix := 2;
    if found {
      p := p - 1;
      LastDashIs(name, p);
      var value := Strtol(name[p + 1..]);
      if value.None? {
        found := false;
      } else {
        suffix := value.value;
      }
    }
    if !found {
      size := |name| + 3;
      ret := name + "-2";
      assert Decimal(2) == "2";
    } else {
      size := |name| + 2;
      ret := name[..p] + "-" + Decimal(suffix + 1);
    }
  }
}
