/** The Python 2 `str` operations `run_plugin` and the AJAX requests rely on, each characterised
    by the property that makes it what it is (a split is undone by a join,
    a strip removes only the given characters, ...). */
module PyStr {

  /** `sub in s` */
  predicate Contains(s: string, sub: string)
    decreases |s|
  {
    sub <= s || (s != [] && Contains(s[1..], sub))
  }

  /** `s.startswith(p)` */
  predicate StartsWith(s: string, p: string)
  {
    p <= s
  }

  /** `s.endswith(suffix)` */
  predicate EndsWith(s: string, suffix: string)
  {
    |suffix| <= |s| && s[|s| - |suffix|..] == suffix
  }

  lemma {:induction false} ContainsShorter(s: string, sub: string)
    requires |s| < |sub|
    ensures !Contains(s, sub)
  {
    if s != [] {
      ContainsShorter(s[1..], sub);
    }
  }

  lemma {:induction false} ContainsAt(s: string, sub: string, i: nat)
    requires i + |sub| <= |s| && s[i..i + |sub|] == sub
    ensures Contains(s, sub)
  {
    if i > 0 {
      assert s[1..][i - 1..i - 1 + |sub|] == sub;
      ContainsAt(s[1..], sub, i - 1);
    } else {
      assert sub <= s;
    }
  }

  lemma {:induction false} ContainsWitness(s: string, sub: string) returns (i: nat)
    requires Contains(s, sub)
    ensures i + |sub| <= |s| && s[i..i + |sub|] == sub
    decreases |s|
  {
    if sub <= s {
      i := 0;
    } else {
      var j := ContainsWitness(s[1..], sub);
      assert s[1..][j..j + |sub|] == s[j + 1..j + 1 + |sub|];
      i := j + 1;
    }
  }

  /** `s.split(sep)` for a non-empty separator: scans left to right and cuts
      at every non-overlapping occurrence of `sep`. */
  function Split(s: string, sep: string): (parts: seq<string>)
    requires sep != []
    ensures |parts| >= 1
  {
    SplitFrom(s, sep, [])
  }

  function SplitFrom(s: string, sep: string, acc: string): (parts: seq<string>)
    requires sep != []
    ensures |parts| >= 1
    decreases |s|
  {
    if s == [] then [acc]
    else if sep <= s then [acc] + SplitFrom(s[|sep|..], sep, [])
    else SplitFrom(s[1..], sep, acc + [s[0]])
  }

  /** One step of splitting on a one-character separator. */
  lemma SplitFromStep(s: string, c: char, acc: string)
    ensures s == [] ==> SplitFrom(s, [c], acc) == [acc]
    ensures s != [] && s[0] == c ==> SplitFrom(s, [c], acc) == [acc] + SplitFrom(s[1..], [c], [])
    ensures s != [] && s[0] != c ==> SplitFrom(s, [c], acc) == SplitFrom(s[1..], [c], acc + [s[0]])
  {
    if s != [] {
      assert [c] <= s <==> s[0] == c;
    }
  }

  /** `sep.join(parts)` */
  function Join(parts: seq<string>, sep: string): string
  {
    if |parts| == 0 then []
    else if |parts| == 1 then parts[0]
    else parts[0] + sep + Join(parts[1..], sep)
  }

  lemma {:induction false} SplitFromJoin(s: string, sep: string, acc: string)
    requires sep != []
    ensures Join(SplitFrom(s, sep, acc), sep) == acc + s
    decreases |s|
  {
    hide Join, SplitFrom;
    JoinSteps(SplitFrom(s, sep, acc), sep);
    SplitFromSteps(s, sep, acc);
    if s == [] {
      assert acc + s == acc;
    } else if sep <= s {
      var tail := s[|sep|..];
      var rest := SplitFrom(tail, sep, []);
      SplitFromJoin(tail, sep, []);
      JoinSteps([acc] + rest, sep);
      assert ([acc] + rest)[1..] == rest;
      assert s == sep + tail;
      assert acc + sep + tail == acc + s;
    } else {
      SplitFromJoin(s[1..], sep, acc + [s[0]]);
      assert acc + [s[0]] + s[1..] == acc + s;
    }
  }

  /** One step of `Join`. */
  lemma JoinSteps(parts: seq<string>, sep: string)
    ensures |parts| == 1 ==> Join(parts, sep) == parts[0]
    ensures |parts| >= 2 ==> Join(parts, sep) == parts[0] + sep + Join(parts[1..], sep)
  {
  }

  /** One step of `SplitFrom`. */
  lemma SplitFromSteps(s: string, sep: string, acc: string)
    requires sep != []
    ensures s == [] ==> SplitFrom(s, sep, acc) == [acc]
    ensures s != [] && sep <= s ==> SplitFrom(s, sep, acc) == [acc] + SplitFrom(s[|sep|..], sep, [])
    ensures s != [] && !(sep <= s) ==> SplitFrom(s, sep, acc) == SplitFrom(s[1..], sep, acc + [s[0]])
  {
  }

  /** Joining one more piece adds a separator and the piece at the end. */
  lemma {:induction false} JoinSnoc(parts: seq<string>, p: string, sep: string)
    requires |parts| >= 1
    ensures Join(parts + [p], sep) == Join(parts, sep) + sep + p
    decreases |parts|
  {
    JoinSteps(parts + [p], sep);
    assert (parts + [p])[1..] == parts[1..] + [p];
    if |parts| == 1 {
      JoinSteps([p], sep);
    } else {
      JoinSnoc(parts[1..], p, sep);
      JoinSteps(parts, sep);
    }
  }

  /** A character found in no piece and not in the separator is not in the join. */
  lemma {:induction false} NotInJoin(parts: seq<string>, sep: string, c: char)
    requires c !in sep
    requires forall k :: 0 <= k < |parts| ==> c !in parts[k]
    ensures c !in Join(parts, sep)
    decreases |parts|
  {
    JoinSteps(parts, sep);
    if |parts| >= 2 {
      NotInJoin(parts[1..], sep, c);
    }
  }

  /** Joining the pieces of a split with the same separator gives back the string. */
  lemma JoinSplit(s: string, sep: string)
    requires sep != []
    ensures Join(Split(s, sep), sep) == s
  {
    SplitFromJoin(s, sep, []);
  }

  /** A piece free of a one-character separator is cut off whole. */
  lemma {:induction false} SplitFromPiece(x: string, c: char, rest: string, acc: string)
    requires c !in x
    ensures SplitFrom(x, [c], acc) == [acc + x]
    ensures SplitFrom(x + [c] + rest, [c], acc) == [acc + x] + SplitFrom(rest, [c], [])
    decreases |x|
  {
    if x == [] {
      assert acc + x == acc;
      assert [c] + rest == x + [c] + rest;
      assert [c] <= [c] + rest && ([c] + rest)[1..] == rest;
    } else {
      assert x[0] != c && (x + [c] + rest)[0] == x[0];
      assert (x + [c] + rest)[1..] == x[1..] + [c] + rest;
      assert acc + [x[0]] + x[1..] == acc + x;
      SplitFromPiece(x[1..], c, rest, acc + [x[0]]);
    }
  }

  /** Splitting a join on a one-character separator recovers the pieces
      when no piece contains the separator. */
  lemma {:induction false} SplitJoin(parts: seq<string>, c: char)
    requires |parts| >= 1
    requires forall k :: 0 <= k < |parts| ==> c !in parts[k]
    ensures Split(Join(parts, [c]), [c]) == parts
  {
    if |parts| == 1 {
      SplitFromPiece(parts[0], c, [], []);
      assert [] + parts[0] == parts[0];
    } else {
      SplitJoin(parts[1..], c);
      SplitFromPiece(parts[0], c, Join(parts[1..], [c]), []);
      assert Join(parts, [c]) == parts[0] + [c] + Join(parts[1..], [c]);
      assert [] + parts[0] == parts[0];
      assert parts == [parts[0]] + parts[1..];
    }
  }

  /** The characters `str.split()` and `str.strip()` treat as white space. */
  predicate IsSpace(ch: char)
  {
    ch == ' ' || ch == '\t' || ch == '\n' || ch == '\r' || ch == '\U{0B}' || ch == '\U{0C}'
  }

  predicate NoSpace(s: string)
  {
    forall i :: 0 <= i < |s| ==> !IsSpace(s[i])
  }

  /** `s.split()`: the maximal runs of non-space characters, in order. */
  function SplitWords(s: string): (words: seq<string>)
    ensures forall k :: 0 <= k < |words| ==> words[k] != [] && NoSpace(words[k])
  {
    WordsFrom(s, [])
  }

  function WordsFrom(s: string, acc: string): (words: seq<string>)
    requires NoSpace(acc)
    ensures forall k :: 0 <= k < |words| ==> words[k] != [] && NoSpace(words[k])
    decreases |s|
  {
    if s == [] then (if acc == [] then [] else [acc])
    else if IsSpace(s[0]) then (if acc == [] then [] else [acc]) + WordsFrom(s[1..], [])
    else WordsFrom(s[1..], acc + [s[0]])
  }

  /** `s.lstrip(chars)`: drops the longest prefix made of characters of `chars`. */
  function LStrip(s: string, chars: string): (r: string)
    ensures |r| <= |s| && r == s[|s| - |r|..]
    ensures forall i :: 0 <= i < |s| - |r| ==> s[i] in chars
    ensures r == [] || r[0] !in chars
    decreases |s|
  {
    if s != [] && s[0] in chars then LStrip(s[1..], chars) else s
  }

  /** `s.rstrip(chars)`: drops the longest suffix made of characters of `chars`. */
  function RStrip(s: string, chars: string): (r: string)
    ensures |r| <= |s| && r == s[..|r|]
    ensures forall i :: |r| <= i < |s| ==> s[i] in chars
    ensures r == [] || r[|r| - 1] !in chars
    decreases |s|
  {
    if s != [] && s[|s| - 1] in chars then RStrip(s[..|s| - 1], chars) else s
  }

  const WHITESPACE: string := " \t\n\r\U{0B}\U{0C}"

  /** `s.strip()` */
  function Strip(s: string): string
  {
    RStrip(LStrip(s, WHITESPACE), WHITESPACE)
  }

  /** `s.lower()` on a byte string: only ASCII capitals change. */
  function Lower(s: string): (r: string)
    ensures |r| == |s|
    ensures forall i :: 0 <= i < |s| ==>
      r[i] == if 'A' <= s[i] <= 'Z' then (s[i] as int + 32) as char else s[i]
  {
    seq(|s|, i requires 0 <= i < |s| => if 'A' <= s[i] <= 'Z' then (s[i] as int + 32) as char else s[i])
  }

  /** Python's reading of a slice bound `i` on a sequence of length `n`. */
  function Bound(i: int, n: nat): (k: nat)
    ensures k <= n
    ensures 0 <= i <= n ==> k == i
  {
    if i < 0 then (if i + n < 0 then 0 else i + n) else if i > n then n else i
  }

  /** `s[i:j]` with Python's treatment of negative and out-of-range bounds. */
  function Slice<T>(s: seq<T>, i: int, j: int): (r: seq<T>)
    ensures |r| <= |s|
    ensures Bound(i, |s|) <= Bound(j, |s|) ==> r == s[Bound(i, |s|)..Bound(j, |s|)]
    ensures Bound(j, |s|) <= Bound(i, |s|) ==> r == []
  {
    var lo, hi := Bound(i, |s|), Bound(j, |s|);
    if lo < hi then s[lo..hi] else []
  }

  /** `str(n)` for a natural number. */
  function Decimal(n: nat): (r: string)
    ensures r != []
    ensures forall i :: 0 <= i < |r| ==> '0' <= r[i] <= '9'
  {
    if n < 10 then [Digit(n)] else Decimal(n / 10) + [Digit(n % 10)]
  }

  function Digit(d: nat): (ch: char)
    requires d < 10
    ensures '0' <= ch <= '9' && ch as int - '0' as int == d
  {
    (d + '0' as int) as char
  }

  /** `int(s)` on a string of decimal digits. */
  function DecimalValue(s: string): nat
    requires forall i :: 0 <= i < |s| ==> '0' <= s[i] <= '9'
  {
    if s == [] then 0 else 10 * DecimalValue(s[..|s| - 1]) + (s[|s| - 1] as int - '0' as int)
  }

  /** `int(str(n)) == n` */
  lemma {:induction false} DecimalRoundTrip(n: nat)
    ensures DecimalValue(Decimal(n)) == n
  {
    if n >= 10 {
      DecimalRoundTrip(n / 10);
      var r := Decimal(n);
      assert r[..|r| - 1] == Decimal(n / 10);
    }
  }

  /** `str(i)` for any integer. */
  function IntText(i: int): (r: string)
    ensures r != []
  {
    if i < 0 then "-" + Decimal(-i) else Decimal(i)
  }
}
