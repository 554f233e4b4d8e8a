/** Shared vocabulary: optional values, results carrying a Python exception,
    and the handful of Python string operations the checks rely on
    (`split`, `join`, `in`, `endswith`, `lower`, `strip`, `str(int)`, `int(str)`). */
module Common {

  datatype Option<+T> = None | Some(value: T)

  /** The Python exceptions that the modelled code raises or lets escape. */
  datatype Error =
    | ValueError(msg: string)
    | TypeError(msg: string)
    | ImportError(msg: string)
    | ZeroDivisionError
    | UnboundLocalError(variable: string)
    | AttributeError(msg: string)

  datatype Result<+T> = Ok(value: T) | Err(error: Error)

  // ---------------------------------------------------------------------------
  // Characters

  predicate IsDigit(c: char) { '0' <= c <= '9' }

  function DigitValue(c: char): (d: nat)
    requires IsDigit(c)
    ensures d < 10
  {
    (c as int - '0' as int) as nat
  }

  function DigitChar(d: nat): (c: char)
    requires d < 10
    ensures IsDigit(c) && DigitValue(c) == d
  {
    ('0' as int + d) as char
  }

  /** The characters Python's `str.strip()` removes that lie in the ASCII range. */
  predicate IsSpace(c: char) {
    c == ' ' || (9 <= c as int <= 13) || (28 <= c as int <= 31)
  }

  function LowerChar(c: char): char {
    if 'A' <= c <= 'Z' then (c as int + 32) as char else c
  }

  /** `s.lower()` on the ASCII letters. */
  function ToLower(s: string): (r: string)
    ensures |r| == |s|
    ensures forall i :: 0 <= i < |s| ==> r[i] == LowerChar(s[i])
  {
    seq(|s|, i requires 0 <= i < |s| => LowerChar(s[i]))
  }

  // ---------------------------------------------------------------------------
  // Substrings

  predicate StartsWith(s: string, prefix: string) {
    |prefix| <= |s| && s[..|prefix|] == prefix
  }

  predicate EndsWith(s: string, suffix: string) {
    |suffix| <= |s| && s[|s| - |suffix|..] == suffix
  }

  /** Python's `sub in s`. */
  predicate ContainsSub(s: string, sub: string)
    decreases |s|
  {
    StartsWith(s, sub) || (|s| > 0 && ContainsSub(s[1..], sub))
  }

  lemma {:induction false} ContainsSubAt(s: string, sub: string, i: nat)
    requires i + |sub| <= |s| && s[i..i + |sub|] == sub
    ensures ContainsSub(s, sub)
    decreases i
  {
    if i > 0 {
      assert s[1..][i - 1..i - 1 + |sub|] == s[i..i + |sub|];
      ContainsSubAt(s[1..], sub, i - 1);
    }
  }

  lemma {:induction false} ContainsSubWitness(s: string, sub: string) returns (i: nat)
    requires ContainsSub(s, sub)
    ensures i + |sub| <= |s| && s[i..i + |sub|] == sub
    decreases |s|
  {
    if StartsWith(s, sub) {
      i := 0;
    } else {
      var j := ContainsSubWitness(s[1..], sub);
      assert s[1..][j..j + |sub|] == s[j + 1..j + 1 + |sub|];
      i := j + 1;
    }
  }

  // ---------------------------------------------------------------------------
  // split / join

  function Count(s: string, c: char): nat {
    if s == [] then 0 else (if s[0] == c then 1 else 0) + Count(s[1..], c)
  }

  lemma {:induction false} CountZero(s: string, c: char)
    ensures Count(s, c) == 0 <==> c !in s
  {
    if s != [] {
      CountZero(s[1..], c);
      assert s == [s[0]] + s[1..];
    }
  }

  /** Python's `s.split(sep)` for a one-character separator. */
  function Split(s: string, sep: char): (parts: seq<string>)
    ensures |parts| == Count(s, sep) + 1
    ensures forall i :: 0 <= i < |parts| ==> sep !in parts[i]
    decreases |s|
  {
    if s == [] then [""]
    else
      var rest := Split(s[1..], sep);
      if s[0] == sep then [""] + rest
      else [[s[0]] + rest[0]] + rest[1..]
  }

  /** Python's `sep.join(parts)`. */
  function Join(sep: string, parts: seq<string>): string {
    if parts == [] then ""
    else if |parts| == 1 then parts[0]
    else parts[0] + sep + Join(sep, parts[1..])
  }

  /** What comes before an element in a joined string. */
  function JoinPrefix(sep: string, a: seq<string>): string {
    if a == [] then "" else Join(sep, a) + sep
  }

  /** What comes after an element in a joined string. */
  function JoinSuffix(sep: string, b: seq<string>): string {
    if b == [] then "" else sep + Join(sep, b)
  }

  /** The first element of a joined list, then the rest. */
  lemma JoinFirst(sep: string, x: string, b: seq<string>)
    ensures Join(sep, [x] + b) == x + JoinSuffix(sep, b)
  {
    if b != [] {
      assert ([x] + b)[1..] == b;
    }
  }

  lemma JoinPrefixCons(sep: string, a: seq<string>)
    requires a != []
    ensures JoinPrefix(sep, a) == a[0] + sep + JoinPrefix(sep, a[1..])
  {
    if a[1..] != [] {
      assert a == [a[0]] + a[1..];
      assert Join(sep, a) == a[0] + sep + Join(sep, a[1..]);
    } else {
      assert a == [a[0]];
    }
  }

  /** Joining puts each element between a text fixed by the elements before it
      and a text fixed by the elements after it. */
  lemma {:induction false} JoinSplice(sep: string, a: seq<string>, x: string, b: seq<string>)
    ensures Join(sep, a + [x] + b) == JoinPrefix(sep, a) + x + JoinSuffix(sep, b)
    decreases |a|
  {
    if a == [] {
      assert a + [x] + b == [x] + b;
      JoinFirst(sep, x, b);
    } else {
      var a' := a[1..];
      var s := a + [x] + b;
      assert s[0] == a[0] && s[1..] == a' + [x] + b;
      assert Join(sep, s) == a[0] + sep + Join(sep, a' + [x] + b);
      JoinSplice(sep, a', x, b);
      JoinPrefixCons(sep, a);
      Regroup(a[0], sep, JoinPrefix(sep, a'), x, JoinSuffix(sep, b));
    }
  }

  lemma Regroup(p: string, q: string, r: string, x: string, y: string)
    ensures p + q + (r + x + y) == (p + q + r) + x + y
  {
  }

  /** Two texts that agree around their middle parts agree on them. */
  lemma SpliceInjective(p: string, x: string, y: string, q: string)
    ensures p + x + q == p + y + q ==> x == y
  {
    if p + x + q == p + y + q {
      assert |x| == |y|;
      assert x == (p + x + q)[|p|..|p| + |x|];
      assert y == (p + y + q)[|p|..|p| + |y|];
    }
  }

  /** Splitting and joining back on the same separator gives the input. */
  lemma {:induction false} JoinSplit(s: string, sep: char)
    ensures Join([sep], Split(s, sep)) == s
    decreases |s|
  {
    if s != [] {
      JoinSplit(s[1..], sep);
      var rest := Split(s[1..], sep);
      if s[0] == sep {
        assert Split(s, sep) == [""] + rest;
        assert s == [s[0]] + s[1..];
      } else {
        if |rest| == 1 {
          assert Split(s, sep) == [[s[0]] + rest[0]];
        } else {
          assert ([[s[0]] + rest[0]] + rest[1..])[1..] == rest[1..];
        }
        assert s == [s[0]] + s[1..];
      }
    }
  }

  /** A string without the separator splits into itself alone. */
  lemma {:induction false} SplitNoSep(s: string, sep: char)
    requires sep !in s
    ensures Split(s, sep) == [s]
  {
    CountZero(s, sep);
    JoinSplit(s, sep);
  }

  /** Splitting `a + [sep] + b` where `a` holds no separator cuts exactly there. */
  lemma {:induction false} SplitAt(a: string, b: string, sep: char)
    requires sep !in a
    ensures Split(a + [sep] + b, sep) == [a] + Split(b, sep)
    decreases |a|
  {
    if a == [] {
      assert a + [sep] + b == [sep] + b;
      assert ([sep] + b)[1..] == b;
    } else {
      assert (a + [sep] + b)[1..] == a[1..] + [sep] + b;
      SplitAt(a[1..], b, sep);
      assert [a[0]] + a[1..] == a;
    }
  }

  /** Everything before the last `sep`, or the whole string: `s.rsplit(sep, 1)[0]`. */
  function BeforeLast(s: string, sep: char): (r: string)
    ensures |r| <= |s| && r == s[..|r|]
    ensures sep !in s ==> r == s
    ensures sep in s ==> |r| < |s| && s[|r|] == sep && sep !in s[|r| + 1..]
    decreases |s|
  {
    if s == [] then s
    else if s[|s| - 1] == sep then s[..|s| - 1]
    else
      var r := BeforeLast(s[..|s| - 1], sep);
      assert s[..|s| - 1][..|r|] == s[..|r|];
      if sep in s[..|s| - 1] then
        assert s[|r| + 1..] == s[..|s| - 1][|r| + 1..] + [s[|s| - 1]];
        r
      else
        assert s == s[..|s| - 1] + [s[|s| - 1]];
        s
  }

  /** The last field of `s.split(sep)`, i.e. `s.split(sep)[-1]`. */
  function AfterLast(s: string, sep: char): (r: string)
    ensures sep !in r
  {
    var parts := Split(s, sep);
    parts[|parts| - 1]
  }

  /** The last field after a separator is what follows the last separator. */
  lemma {:induction false} AfterLastAppend(a: string, b: string, sep: char)
    requires sep !in b
    ensures AfterLast(a + [sep] + b, sep) == b
    decreases |a|
  {
    if a == [] {
      SplitAt([], b, sep);
      SplitNoSep(b, sep);
    } else {
      var s := a + [sep] + b;
      var t := a[1..] + [sep] + b;
      assert s[1..] == t;
      AfterLastAppend(a[1..], b, sep);
      assert sep in t by {
        assert t[|a| - 1] == sep;
      }
      CountZero(t, sep);
    }
  }

  // ---------------------------------------------------------------------------
  // strip

  function StripLeft(s: string): (r: string)
    ensures |r| <= |s| && r == s[|s| - |r|..]
    ensures r == [] || !IsSpace(r[0])
    decreases |s|
  {
    if s != [] && IsSpace(s[0]) then StripLeft(s[1..]) else s
  }

  function StripRight(s: string): (r: string)
    ensures |r| <= |s| && r == s[..|r|]
    ensures r == [] || !IsSpace(r[|r| - 1])
    decreases |s|
  {
    if s != [] && IsSpace(s[|s| - 1]) then StripRight(s[..|s| - 1]) else s
  }

  /** Python's `s.strip()` over the ASCII whitespace. */
  function Strip(s: string): string {
    StripRight(StripLeft(s))
  }

  lemma StripNoSpaceEnds(s: string)
    requires s != [] && !IsSpace(s[0]) && !IsSpace(s[|s| - 1])
    ensures Strip(s) == s
  {
  }

  // ---------------------------------------------------------------------------
  // str(int) and int(str)

  function NatToString(n: nat): (s: string)
    ensures s != [] && forall i :: 0 <= i < |s| ==> IsDigit(s[i])
  {
    if n < 10 then [DigitChar(n)] else NatToString(n / 10) + [DigitChar(n % 10)]
  }

  /** Python's `str(i)` for an `int`. */
  function IntToString(i: int): string {
    if i < 0 then "-" + NatToString(-i) else NatToString(i)
  }

  /** The value of a string of decimal digits. */
  function DigitsValue(s: string): nat
    requires forall i :: 0 <= i < |s| ==> IsDigit(s[i])
  {
    if s == [] then 0 else DigitsValue(s[..|s| - 1]) * 10 + DigitValue(s[|s| - 1])
  }

  lemma {:induction false} DigitsValueNatToString(n: nat)
    ensures DigitsValue(NatToString(n)) == n
  {
    if n >= 10 {
      DigitsValueNatToString(n / 10);
      var s := NatToString(n);
      assert s[..|s| - 1] == NatToString(n / 10);
    }
  }

  /** Digits with single underscores between them, as Python's `int()` accepts. */
  predicate ValidDigitGroups(s: string) {
    && |s| > 0 && IsDigit(s[0]) && IsDigit(s[|s| - 1])
    && DigitsOrSingleUnderscores(s)
  }

  predicate DigitsOrSingleUnderscores(s: string)
    decreases |s|
  {
    || s == []
    || (IsDigit(s[0]) && DigitsOrSingleUnderscores(s[1..]))
    || (s[0] == '_' && |s| >= 2 && IsDigit(s[1]) && DigitsOrSingleUnderscores(s[1..]))
  }

  lemma {:induction false} AllDigitsGrouped(s: string)
    requires forall i :: 0 <= i < |s| ==> IsDigit(s[i])
    ensures DigitsOrSingleUnderscores(s)
  {
    if s != [] {
      AllDigitsGrouped(s[1..]);
    }
  }

  lemma {:induction false} GroupedChars(s: string)
    requires DigitsOrSingleUnderscores(s)
    ensures forall i :: 0 <= i < |s| ==> IsDigit(s[i]) || s[i] == '_'
  {
    if s != [] {
      GroupedChars(s[1..]);
      assert forall i :: 1 <= i < |s| ==> s[i] == s[1..][i - 1];
    }
  }

  function RemoveUnderscores(s: string): (r: string)
    ensures (forall i :: 0 <= i < |s| ==> IsDigit(s[i]) || s[i] == '_') ==> forall i :: 0 <= i < |r| ==> IsDigit(r[i])
    ensures '_' !in s ==> r == s
  {
    if s == [] then [] else (if s[0] == '_' then [] else [s[0]]) + RemoveUnderscores(s[1..])
  }

  function ParseDigitGroups(s: string): Option<nat> {
    if ValidDigitGroups(s) then
      GroupedChars(s);
      var d := RemoveUnderscores(s);
      Some(DigitsValue(d))
    else None
  }

  /** Python's `int(s)` for a base-10 string: surrounding whitespace, an
      optional sign, digits grouped by single underscores. */
  function ParseInt(s: string): Option<int> {
    var t := Strip(s);
    if |t| > 0 && (t[0] == '-' || t[0] == '+') then
      match ParseDigitGroups(t[1..])
      case Some(n) => Some(if t[0] == '-' then 0 - n as int else n as int)
      case None => None
    else
      match ParseDigitGroups(t)
      case Some(n) => Some(n)
      case None => None
  }

  lemma NatStringParses(n: nat)
    ensures ParseDigitGroups(NatToString(n)) == Some(n)
  {
    var d := NatToString(n);
    DigitsValueNatToString(n);
    AllDigitsGrouped(d);
    assert ValidDigitGroups(d);
    assert RemoveUnderscores(d) == d;
  }

  lemma ParseIntNoSign(d: string, n: nat)
    requires Strip(d) == d && ParseDigitGroups(d) == Some(n) && d[0] != '-' && d[0] != '+'
    ensures ParseInt(d) == Some(n)
  {
  }

  lemma ParseIntMinus(t: string, n: nat)
    requires |t| > 1 && t[0] == '-' && ParseDigitGroups(t[1..]) == Some(n) && Strip(t) == t
    ensures ParseInt(t) == Some(-(n as int))
  {
  }

  lemma StripIntString(i: int)
    ensures Strip(IntToString(i)) == IntToString(i)
  {
    var s := IntToString(i);
    if i < 0 {
      assert s[0] == '-';
    }
    assert IsDigit(s[|s| - 1]);
    StripNoSpaceEnds(s);
  }

  /** `int(str(i)) == i`. */
  lemma ParseIntToString(i: int)
    ensures ParseInt(IntToString(i)) == Some(i)
  {
    var s := IntToString(i);
    var n: nat := if i < 0 then -i else i;
    var d := NatToString(n);
    NatStringParses(n);
    if i < 0 {
      assert s[1..] == d by { assert s == "-" + d; }
      StripIntString(i);
      assert Strip(s) == s;
      assert s[0] == '-';
      assert |s| > 1;
      assert ParseDigitGroups(s[1..]) == Some(n);
      ParseIntMinus(s, n);
    } else {
      StripIntString(i);
      ParseIntNoSign(s, n);
    }
  }

  /** `str` is injective on integers. */
  lemma IntToStringInjective(i: int, j: int)
    requires IntToString(i) == IntToString(j)
    ensures i == j
  {
    ParseIntToString(i);
    ParseIntToString(j);
  }

  // ---------------------------------------------------------------------------
  // str.replace

  /** Python's `s.replace(old, new)` for a non-empty `old`: every non-overlapping
      occurrence, scanning from the left. */
  function ReplaceAll(s: string, pat: string, rep: string): string
    requires pat != []
    decreases |s|
  {
    if |s| < |pat| then s
    else if s[..|pat|] == pat then rep + ReplaceAll(s[|pat|..], pat, rep)
    else [s[0]] + ReplaceAll(s[1..], pat, rep)
  }

  // ---------------------------------------------------------------------------
  // Sequences

  /** The values of `rs` in order, or the first error among them: a loop
      that stops at the first exception. */
  function Gather<T>(rs: seq<Result<T>>): Result<seq<T>>
    decreases |rs|
  {
    if rs == [] then Ok([])
    else
      match Gather(rs[..|rs| - 1])
      case Err(e) => Err(e)
      case Ok(vs) =>
        match rs[|rs| - 1]
        case Err(e) => Err(e)
        case Ok(v) => Ok(vs + [v])
  }

  /** Gathering succeeds iff every result does, and then holds their values in
      order; otherwise it carries the error of the first failing result. */
  lemma {:induction false} GatherSpec<T>(rs: seq<Result<T>>)
    ensures Gather(rs).Ok? <==> forall i :: 0 <= i < |rs| ==> rs[i].Ok?
    ensures Gather(rs).Ok? ==>
      |Gather(rs).value| == |rs| && forall i :: 0 <= i < |rs| ==> rs[i] == Ok(Gather(rs).value[i])
    ensures Gather(rs).Err? ==>
      exists i :: 0 <= i < |rs| && rs[i] == Err(Gather(rs).error) && forall j :: 0 <= j < i ==> rs[j].Ok?
    decreases |rs|
  {
    if rs != [] {
      var init := rs[..|rs| - 1];
      GatherSpec(init);
      assert forall i :: 0 <= i < |init| ==> init[i] == rs[i];
      var g := Gather(init);
      if g.Ok? && rs[|rs| - 1].Ok? {
        assert Gather(rs).value == g.value + [rs[|rs| - 1].value];
      }
    }
  }

  /** One more result after the ones gathered so far. */
  lemma GatherSnoc<T>(rs: seq<Result<T>>, i: nat)
    requires i < |rs|
    ensures Gather(rs[..i + 1]) ==
      match Gather(rs[..i])
      case Err(e) => Err(e)
      case Ok(vs) => (match rs[i] case Err(e) => Err(e) case Ok(v) => Ok(vs + [v]))
  {
    assert rs[..i + 1][..i] == rs[..i];
  }

  /** Once an error is met, later results are not looked at. */
  lemma {:induction false} GatherStops<T>(rs: seq<Result<T>>, i: nat)
    requires i <= |rs| && Gather(rs[..i]).Err?
    ensures Gather(rs) == Gather(rs[..i])
    decreases |rs| - i
  {
    if i < |rs| {
      GatherSnoc(rs, i);
      GatherStops(rs, i + 1);
    } else {
      assert rs[..i] == rs;
    }
  }

  /** The concatenation of a sequence of sequences. */
  function Flatten<T>(ss: seq<seq<T>>): seq<T>
    decreases |ss|
  {
    if ss == [] then [] else Flatten(ss[..|ss| - 1]) + ss[|ss| - 1]
  }

  /** Flattening a sequence that starts with `x`. */
  lemma {:induction false} FlattenCons<T>(x: seq<T>, ss: seq<seq<T>>)
    ensures Flatten([x] + ss) == x + Flatten(ss)
    decreases |ss|
  {
    if ss != [] {
      var init := ss[..|ss| - 1];
      assert ([x] + ss)[..|ss|] == [x] + init;
      FlattenCons(x, init);
    }
  }

  function SumInts(s: seq<int>): int {
    if s == [] then 0 else s[0] + SumInts(s[1..])
  }

  lemma {:induction false} SumIntsAppend(a: seq<int>, b: seq<int>)
    ensures SumInts(a + b) == SumInts(a) + SumInts(b)
  {
    if a == [] {
      assert a + b == b;
    } else {
      assert (a + b)[0] == a[0];
      assert (a + b)[1..] == a[1..] + b;
      SumIntsAppend(a[1..], b);
    }
  }

  /** The elements of `s` that satisfy `keep`, in order: `[x for x in s if keep(x)]`. */
  function Filter<T(!new)>(s: seq<T>, keep: T -> bool): (r: seq<T>)
    ensures IsSubsequence(r, s)
    ensures forall x :: x in r <==> x in s && keep(x)
  {
    if s == [] then []
    else
      var rest := Filter(s[1..], keep);
      assert forall x :: x in s <==> x == s[0] || x in s[1..];
      assert [s[0]] + s[1..] == s;
      if keep(s[0]) then
        SubsequenceCons(s[0], rest, s[1..]);
        [s[0]] + rest
      else
        SubsequenceSkip(s[0], rest, s[1..]);
        rest
  }

  /** Filtering distributes over concatenation. */
  lemma {:induction false} FilterAppend<T(!new)>(a: seq<T>, b: seq<T>, keep: T -> bool)
    ensures Filter(a + b, keep) == Filter(a, keep) + Filter(b, keep)
    decreases |a|
  {
    if a == [] {
      assert a + b == b;
    } else {
      assert (a + b)[1..] == a[1..] + b;
      assert (a + b)[0] == a[0];
      FilterAppend(a[1..], b, keep);
    }
  }

  lemma {:induction false} FilterNone<T(!new)>(s: seq<T>, keep: T -> bool)
    requires forall i :: 0 <= i < |s| ==> !keep(s[i])
    ensures Filter(s, keep) == []
  {
    if s != [] {
      FilterNone(s[1..], keep);
    }
  }

  /** `a` is obtained from `b` by deleting elements (keeps their order). */
  predicate IsSubsequence<T(==)>(a: seq<T>, b: seq<T>)
    decreases |b|
  {
    if a == [] then true
    else if b == [] then false
    else if a[0] == b[0] then IsSubsequence(a[1..], b[1..])
    else IsSubsequence(a, b[1..])
  }

  lemma {:induction false} SubsequenceCons<T>(x: T, a: seq<T>, b: seq<T>)
    requires IsSubsequence(a, b)
    ensures IsSubsequence([x] + a, [x] + b)
  {
    assert ([x] + a)[1..] == a;
    assert ([x] + b)[1..] == b;
  }

  lemma {:induction false} SubsequenceSkip<T>(x: T, a: seq<T>, b: seq<T>)
    requires IsSubsequence(a, b)
    ensures IsSubsequence(a, [x] + b)
    decreases |b|, 1
  {
    assert ([x] + b)[1..] == b;
    if a != [] && a[0] == x {
      SubsequenceDrop(a, b);
    }
  }

  lemma {:induction false} SubsequenceDrop<T>(a: seq<T>, b: seq<T>)
    requires a != [] && IsSubsequence(a, b)
    ensures IsSubsequence(a[1..], b)
    decreases |b|, 0
  {
    if a[0] == b[0] {
      SubsequenceSkip(b[0], a[1..], b[1..]);
      assert [b[0]] + b[1..] == b;
    } else {
      SubsequenceDrop(a, b[1..]);
      SubsequenceSkip(b[0], a[1..], b[1..]);
      assert [b[0]] + b[1..] == b;
    }
  }

  lemma {:induction false} SubsequenceRefl<T>(a: seq<T>)
    ensures IsSubsequence(a, a)
  {
    if a != [] {
      SubsequenceRefl(a[1..]);
    }
  }

  lemma {:induction false} SubsequenceTrans<T>(a: seq<T>, b: seq<T>, c: seq<T>)
    requires IsSubsequence(a, b) && IsSubsequence(b, c)
    ensures IsSubsequence(a, c)
    decreases |c|
  {
    if a != [] {
      if b[0] == c[0] {
        if a[0] == b[0] {
          SubsequenceTrans(a[1..], b[1..], c[1..]);
        } else {
          SubsequenceTrans(a, b[1..], c[1..]);
        }
      } else {
        SubsequenceTrans(a, b, c[1..]);
        if a[0] == c[0] {
          SubsequenceDrop(a, c[1..]);
        }
      }
    }
  }

  lemma {:induction false} SubsequenceLength<T>(a: seq<T>, b: seq<T>)
    requires IsSubsequence(a, b)
    ensures |a| <= |b|
    decreases |b|
  {
    if a != [] {
      if a[0] == b[0] {
        SubsequenceLength(a[1..], b[1..]);
      } else {
        SubsequenceLength(a, b[1..]);
      }
    }
  }
}
