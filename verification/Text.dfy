/** Splitting, joining and decimal numbers, as the FEN codec uses them. */
module Text {
  // ---- splitting on one separator

  /** Index of the first `c` in `s`, or |s|. */
  function IndexOf(s: string, c: char): (i: nat)
    ensures i <= |s| && c !in s[..i] && (i < |s| ==> s[i] == c)
  {
    if s == "" || s[0] == c then 0 else 1 + IndexOf(s[1..], c)
  }

  function SplitOn(s: string, c: char): (parts: seq<string>)
    ensures |parts| >= 1
    decreases |s|
  {
    var i := IndexOf(s, c);
    if i == |s| then [s] else [s[..i]] + SplitOn(s[i + 1..], c)
  }

  function Join(parts: seq<string>, c: char): string {
    if parts == [] then ""
    else if |parts| == 1 then parts[0]
    else parts[0] + [c] + Join(parts[1..], c)
  }

  ghost predicate Free(parts: seq<string>, c: char) {
    forall i :: 0 <= i < |parts| ==> c !in parts[i]
  }

  lemma {:induction false} IndexOfAfter(a: string, c: char, rest: string)
    requires c !in a
    ensures IndexOf(a + [c] + rest, c) == |a|
    ensures IndexOf(a, c) == |a|
  {
    var s := a + [c] + rest;
    if a != "" {
      assert a[0] in a && s[0] == a[0];
      assert s[1..] == a[1..] + [c] + rest;
      IndexOfAfter(a[1..], c, rest);
    }
  }

  lemma SplitFirst(a: string, c: char, rest: string)
    requires c !in a
    ensures SplitOn(a, c) == [a]
    ensures SplitOn(a + [c] + rest, c) == [a] + SplitOn(rest, c)
  {
    IndexOfAfter(a, c, rest);
    var s := a + [c] + rest;
    assert s[..|a|] == a && s[|a| + 1..] == rest;
  }

  lemma {:induction false} SplitJoin(parts: seq<string>, c: char)
    requires parts != [] && Free(parts, c)
    ensures SplitOn(Join(parts, c), c) == parts
  {
    if |parts| == 1 {
      SplitFirst(parts[0], c, "");
    } else {
      var first, others := parts[0], parts[1..];
      var rest := Join(others, c);
      SplitJoin(others, c);
      SplitFirst(first, c, rest);
      assert Join(parts, c) == first + [c] + rest;
      assert [first] + others == parts;
    }
  }

  lemma HeadThenTail(parts: seq<string>, n: nat, more: seq<string>)
    requires 0 < n < |parts|
    ensures parts[1..][n - 1..] == parts[n..]
    ensures [parts[0]] + (parts[1..][..n - 1] + more) == parts[..n] + more
  {
  }

  lemma SplitHead(parts: seq<string>, c: char)
    requires |parts| > 1 && c !in parts[0]
    ensures SplitOn(Join(parts, c), c) == [parts[0]] + SplitOn(Join(parts[1..], c), c)
  {
    SplitFirst(parts[0], c, Join(parts[1..], c));
  }

  /** Whatever follows, the first parts come apart. */
  lemma {:induction false} SplitPrefix(parts: seq<string>, c: char, n: nat)
    requires n < |parts| && Free(parts[..n], c)
    ensures SplitOn(Join(parts, c), c) == parts[..n] + SplitOn(Join(parts[n..], c), c)
  {
    if n > 0 {
      var others := parts[1..];
      assert parts[..n][0] == parts[0];
      assert others[..n - 1] == parts[..n][1..];
      SplitHead(parts, c);
      SplitPrefix(others, c, n - 1);
      HeadThenTail(parts, n, SplitOn(Join(parts[n..], c), c));
    } else {
      assert parts[0..] == parts;
    }
  }

  // ---- whitespace-separated fields

  /** The characters `\s` matches. */
  predicate IsSpace(c: char) {
    var n := c as int;
    || 9 <= n <= 13 || n == 32 || n == 0xA0 || n == 0x1680 || 0x2000 <= n <= 0x200A
    || n == 0x2028 || n == 0x2029 || n == 0x202F || n == 0x205F || n == 0x3000 || n == 0xFEFF
  }

  predicate IsWord(s: string) {
    s != "" && forall i :: 0 <= i < |s| ==> !IsSpace(s[i])
  }

  function WordLength(s: string): (n: nat)
    ensures n <= |s| && forall i :: 0 <= i < n ==> !IsSpace(s[i])
    ensures n < |s| ==> IsSpace(s[n])
  {
    if s == "" || IsSpace(s[0]) then 0 else 1 + WordLength(s[1..])
  }

  /** The maximal runs of non-space characters. */
  function Fields(s: string): seq<string>
    decreases |s|
  {
    if s == "" then []
    else if IsSpace(s[0]) then Fields(s[1..])
    else
      var n := WordLength(s);
      [s[..n]] + Fields(s[n..])
  }

  ghost predicate Words(parts: seq<string>) {
    forall i :: 0 <= i < |parts| ==> IsWord(parts[i])
  }

  lemma {:induction false} FirstWord(w: string, tail: string)
    requires forall i :: 0 <= i < |w| ==> !IsSpace(w[i])
    requires tail == "" || IsSpace(tail[0])
    ensures WordLength(w + tail) == |w|
  {
    if w != "" {
      assert (w + tail)[0] == w[0] && (w + tail)[1..] == w[1..] + tail;
      FirstWord(w[1..], tail);
    } else {
      assert w + tail == tail;
    }
  }

  lemma FieldsAfter(w: string, c: char, rest: string)
    requires IsWord(w) && IsSpace(c)
    ensures Fields(w) == [w]
    ensures Fields(w + [c] + rest) == [w] + Fields(rest)
  {
    FirstWord(w, "");
    assert w + "" == w && w[..|w|] == w && w[|w|..] == "";
    FirstWord(w, [c] + rest);
    var s := w + ([c] + rest);
    assert s == w + [c] + rest && !IsSpace(s[0]);
    assert s[..|w|] == w && s[|w|..] == [c] + rest;
    assert ([c] + rest)[1..] == rest;
    assert Fields([c] + rest) == Fields(rest);
  }

  lemma {:induction false} FieldsOfJoined(parts: seq<string>)
    requires Words(parts)
    ensures Fields(Join(parts, ' ')) == parts
  {
    if |parts| == 1 {
      FieldsAfter(parts[0], ' ', "");
    } else if |parts| > 1 {
      FieldsAfter(parts[0], ' ', Join(parts[1..], ' '));
      FieldsOfJoined(parts[1..]);
    }
  }

  lemma FieldsOfHead(first: string, rest: seq<string>)
    requires IsWord(first) && rest != []
    ensures Fields(Join([first] + rest, ' ')) == [first] + Fields(Join(rest, ' '))
  {
    var parts := [first] + rest;
    assert parts[0] == first && parts[1..] == rest;
    FieldsAfter(first, ' ', Join(rest, ' '));
  }

  lemma LooseFirst(w: string, c: char, after: seq<string>)
    requires IsWord(w) && IsSpace(c) && Words(after)
    ensures Fields(Join([w + [c]] + after, ' ')) == [w] + after
  {
    var parts := [w + [c]] + after;
    assert parts[0] == w + [c] && parts[1..] == after;
    FieldsOfJoined(after);
    if after == [] {
      FieldsAfter(w, c, "");
      assert w + [c] + "" == w + [c];
    } else {
      var tail := Join(after, ' ');
      FieldsAfter(w, c, [' '] + tail);
      assert ([' '] + tail)[1..] == tail;
      assert Join(parts, ' ') == w + [c] + ([' '] + tail);
    }
  }

  lemma LooseShape(before: seq<string>, x: string, after: seq<string>)
    requires before != []
    ensures var rest := before[1..] + [x] + after; rest != [] && [before[0]] + rest == before + [x] + after
  {
  }

  /** A space character at the end of a part is lost. */
  lemma {:induction false} FieldsOfLoose(before: seq<string>, w: string, c: char, after: seq<string>)
    requires Words(before) && IsWord(w) && IsSpace(c) && Words(after)
    ensures Fields(Join(before + [w + [c]] + after, ' ')) == before + [w] + after
  {
    if before == [] {
      LooseFirst(w, c, after);
      assert [] + [w + [c]] + after == [w + [c]] + after && [] + [w] + after == [w] + after;
    } else {
      FieldsOfLoose(before[1..], w, c, after);
      FieldsOfHead(before[0], before[1..] + [w + [c]] + after);
      LooseShape(before, w + [c], after);
      LooseShape(before, w, after);
    }
  }

  // ---- decimal numbers

  function DigitChar(d: int): char
    requires 0 <= d < 10
  {
    '0' + d as char
  }

  predicate IsDigit(c: char) {
    '0' <= c <= '9'
  }

  function DigitValue(c: char): (d: int)
    requires IsDigit(c)
    ensures 0 <= d < 10
  {
    c as int - '0' as int
  }

  predicate IsDigits(s: string) {
    s != "" && forall i :: 0 <= i < |s| ==> IsDigit(s[i])
  }

  function NatText(n: nat): (s: string)
    ensures IsDigits(s)
  {
    if n < 10 then [DigitChar(n)] else NatText(n / 10) + [DigitChar(n % 10)]
  }

  function IntText(n: int): string {
    if n < 0 then "-" + NatText(-n) else NatText(n)
  }

  function NatValue(s: string): (n: nat)
    requires forall i :: 0 <= i < |s| ==> IsDigit(s[i])
  {
    if s == "" then 0 else NatValue(s[..|s| - 1]) * 10 + DigitValue(s[|s| - 1])
  }

  lemma {:induction false} NatRoundTrip(n: nat)
    ensures NatValue(NatText(n)) == n
  {
    if n < 10 {
      assert NatText(n)[..0] == "";
    } else {
      NatRoundTrip(n / 10);
      var s := NatText(n);
      assert s[..|s| - 1] == NatText(n / 10);
    }
  }

  lemma IntTextShape(n: int)
    ensures if n < 0 then IntText(n)[0] == '-' && IntText(n)[1..] == NatText(-n)
            else IntText(n)[0] != '-' && IntText(n) == NatText(n)
  {
    if n >= 0 {
      assert IsDigit(NatText(n)[0]);
    }
  }

  lemma IntTextParts(n: int)
    ensures if n < 0 then IntText(n)[0] == '-' && NatValue(IntText(n)[1..]) == -n
            else IntText(n)[0] != '-' && NatValue(IntText(n)) == n
  {
    IntTextShape(n);
    NatRoundTrip(if n < 0 then -n else n);
  }

  lemma IntTextInjective(m: int, n: int)
    requires IntText(m) == IntText(n)
    ensures m == n
  {
    IntTextParts(m);
    IntTextParts(n);
  }

  lemma IntTextIsWord(n: int)
    ensures IsWord(IntText(n)) && '+' !in IntText(n)
  {
    var s := IntText(n);
    forall i | 0 <= i < |s|
      ensures IsDigit(s[i]) || s[i] == '-'
    {
    }
  }
}
