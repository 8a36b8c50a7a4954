/** The string operations of the Go standard library that the program relies on:
    TrimSpace, TrimRight, Split, Join and Fields of the package strings, and Atoi of the
    package strconv. A string is a sequence of code points; texts that are not valid UTF-8
    have no counterpart here. Each operation comes with the laws that the editor of the
    hosts file and the key grammar use. */
module Text {
  import opened Wrappers

  // ----- white space -----

  /** The code points that Go's unicode.IsSpace accepts. */
  predicate IsSpace(c: char) {
    || c == ' '
    || '\t' <= c <= '\r'
    || c == '\U{0085}' || c == '\U{00A0}' || c == '\U{1680}'
    || '\U{2000}' <= c <= '\U{200A}'
    || c == '\U{2028}' || c == '\U{2029}' || c == '\U{202F}' || c == '\U{205F}' || c == '\U{3000}'
  }

  function TrimLeft(s: string): string {
    if s != "" && IsSpace(s[0]) then TrimLeft(s[1..]) else s
  }

  function TrimRight(s: string): string {
    if s != "" && IsSpace(s[|s| - 1]) then TrimRight(s[..|s| - 1]) else s
  }

  function TrimSpace(s: string): string {
    TrimRight(TrimLeft(s))
  }

  lemma TrimSpaceOfTrimmed(s: string)
    requires s != "" && !IsSpace(s[0]) && !IsSpace(s[|s| - 1])
    ensures TrimSpace(s) == s
  {
  }

  lemma {:induction false} TrimLeftStrips(a: string, s: string)
    requires forall i | 0 <= i < |a| :: IsSpace(a[i])
    requires s == "" || !IsSpace(s[0])
    ensures TrimLeft(a + s) == s
  {
    if a == "" {
      assert a + s == s;
    } else {
      assert (a + s)[1..] == a[1..] + s;
      TrimLeftStrips(a[1..], s);
    }
  }

  lemma {:induction false} TrimRightStrips(s: string, b: string)
    requires forall i | 0 <= i < |b| :: IsSpace(b[i])
    requires s == "" || !IsSpace(s[|s| - 1])
    ensures TrimRight(s + b) == s
  {
    if b == "" {
      assert s + b == s;
    } else {
      assert (s + b)[..|s + b| - 1] == s + b[..|b| - 1];
      TrimRightStrips(s, b[..|b| - 1]);
    }
  }

  /** White space on both sides of a text goes, and nothing else. */
  lemma TrimSpaceStrips(a: string, s: string, b: string)
    requires forall i | 0 <= i < |a| :: IsSpace(a[i])
    requires forall i | 0 <= i < |b| :: IsSpace(b[i])
    requires s != "" && !IsSpace(s[0]) && !IsSpace(s[|s| - 1])
    ensures TrimSpace(a + s + b) == s
  {
    assert a + s + b == a + (s + b);
    TrimLeftStrips(a, s + b);
    TrimRightStrips(s, b);
  }

  /** strings.TrimRight(s, "\n") */
  function TrimNewlines(s: string): (r: string)
    ensures r <= s
    ensures r == "" || r[|r| - 1] != '\n'
    ensures forall i | |r| <= i < |s| :: s[i] == '\n'
  {
    if s != "" && s[|s| - 1] == '\n' then TrimNewlines(s[..|s| - 1]) else s
  }

  // ----- lines -----

  predicate OneLine(s: string) {
    '\n' !in s
  }

  /** strings.Split(s, "\n"): always at least one line. */
  function Split(s: string): (r: seq<string>)
    ensures |r| >= 1
  {
    if s == "" then [""]
    else if s[0] == '\n' then [""] + Split(s[1..])
    else
      var rest := Split(s[1..]);
      [[s[0]] + rest[0]] + rest[1..]
  }

  /** strings.Join(lines, "\n") */
  function Join(lines: seq<string>): string {
    if lines == [] then ""
    else if |lines| == 1 then lines[0]
    else lines[0] + "\n" + Join(lines[1..])
  }

  lemma SplitCons(c: char, s: string)
    ensures Split([c] + s) ==
            if c == '\n' then [""] + Split(s) else [[c] + Split(s)[0]] + Split(s)[1..]
  {
  }

  lemma {:induction false} SplitConcat(a: string, b: string)
    ensures Split(a + "\n" + b) == Split(a) + Split(b)
  {
    if a == "" {
      assert a + "\n" + b == ['\n'] + b;
      SplitCons('\n', b);
    } else {
      var rest := a[1..];
      assert a + "\n" + b == [a[0]] + (rest + "\n" + b) && a == [a[0]] + rest;
      SplitConcat(rest, b);
      SplitCons(a[0], rest + "\n" + b);
      SplitCons(a[0], rest);
      FirstLineGrows(a[0], Split(rest), Split(b));
    }
  }

  lemma FirstLineGrows(c: char, a: seq<string>, b: seq<string>)
    requires a != []
    ensures [""] + (a + b) == ([""] + a) + b
    ensures [[c] + (a + b)[0]] + (a + b)[1..] == ([[c] + a[0]] + a[1..]) + b
  {
    assert (a + b)[1..] == a[1..] + b;
  }

  lemma {:induction false} SplitOneLine(s: string)
    requires OneLine(s)
    ensures Split(s) == [s]
  {
    if s != "" {
      SplitOneLine(s[1..]);
      assert [s[0]] + s[1..] == s;
    }
  }

  lemma {:induction false} SplitLinesAreLines(s: string)
    ensures forall i | 0 <= i < |Split(s)| :: OneLine(Split(s)[i])
  {
    if s != "" {
      SplitLinesAreLines(s[1..]);
    }
  }

  /** Splitting undoes joining. */
  lemma {:induction false} SplitJoin(lines: seq<string>)
    requires lines != []
    requires forall i | 0 <= i < |lines| :: OneLine(lines[i])
    ensures Split(Join(lines)) == lines
  {
    SplitOneLine(lines[0]);
    if |lines| > 1 {
      SplitJoin(lines[1..]);
      SplitConcat(lines[0], Join(lines[1..]));
    }
  }

  /** Joining undoes splitting. */
  lemma {:induction false} JoinSplit(s: string)
    ensures Join(Split(s)) == s
  {
    if s != "" {
      JoinSplit(s[1..]);
      var rest := Split(s[1..]);
      if s[0] == '\n' {
        assert Split(s)[1..] == rest;
      } else {
        assert Split(s)[1..] == rest[1..];
        if |rest| > 1 {
          assert Join(Split(s)) == [s[0]] + rest[0] + "\n" + Join(rest[1..]);
        }
      }
    }
  }

  lemma {:induction false} JoinConcat(a: seq<string>, b: seq<string>)
    requires a != [] && b != []
    ensures Join(a + b) == Join(a) + "\n" + Join(b)
  {
    if |a| == 1 {
      assert (a + b)[1..] == b;
    } else {
      JoinConcat(a[1..], b);
      assert (a + b)[1..] == a[1..] + b;
    }
  }

  // ----- words -----

  /** The number of leading non-space characters. */
  function WordLength(s: string): (n: nat)
    ensures n <= |s|
    ensures s != "" && !IsSpace(s[0]) ==> n > 0
  {
    if s == "" || IsSpace(s[0]) then 0 else 1 + WordLength(s[1..])
  }

  /** strings.Fields */
  function Fields(s: string): seq<string>
    decreases |s|
  {
    if s == "" then []
    else if IsSpace(s[0]) then Fields(s[1..])
    else [s[..WordLength(s)]] + Fields(s[WordLength(s)..])
  }

  predicate NoSpace(s: string) {
    forall i | 0 <= i < |s| :: !IsSpace(s[i])
  }

  predicate Blank(s: string) {
    forall i | 0 <= i < |s| :: IsSpace(s[i])
  }

  lemma {:induction false} WordLengthOfWord(w: string, rest: string)
    requires NoSpace(w)
    requires rest == "" || IsSpace(rest[0])
    ensures WordLength(w + rest) == |w|
  {
    if w == "" {
      assert w + rest == rest;
    } else {
      assert (w + rest)[1..] == w[1..] + rest;
      WordLengthOfWord(w[1..], rest);
    }
  }

  lemma {:induction false} FieldsEmptyWhenBlank(s: string)
    ensures Fields(s) == [] <==> Blank(s)
    decreases |s|
  {
    if s != "" && IsSpace(s[0]) {
      FieldsEmptyWhenBlank(s[1..]);
      assert Blank(s[1..]) ==> Blank(s) by {
        assert s == [s[0]] + s[1..];
      }
    }
  }

  /** A word followed by a space and more text: the first field is the word, the others are
      those of the rest, and there is a second one unless the rest is blank. */
  lemma FieldsOfPair(w: string, rest: string)
    requires w != "" && NoSpace(w)
    ensures Fields(w + " " + rest) == [w] + Fields(rest)
    ensures |Fields(w + " " + rest)| >= 2 <==> !Blank(rest)
  {
    var s := w + " " + rest;
    assert s == w + (" " + rest);
    WordLengthOfWord(w, " " + rest);
    assert s[..|w|] == w && s[|w|..] == " " + rest;
    assert (" " + rest)[1..] == rest;
    FieldsEmptyWhenBlank(rest);
  }

  // ----- numbers -----

  predicate AllDigits(s: string) {
    forall i | 0 <= i < |s| :: '0' <= s[i] <= '9'
  }

  function DecimalValue(s: string): nat
    requires AllDigits(s)
  {
    if s == "" then 0
    else DecimalValue(s[..|s| - 1]) * 10 + (s[|s| - 1] as int - '0' as int)
  }

  const MIN_INT := -0x8000_0000_0000_0000
  const MAX_INT := 0x7FFF_FFFF_FFFF_FFFF

  /** strconv.Atoi on a platform with 64-bit int: an optional sign, at least one
      decimal digit, nothing else, and no overflow. */
  function Atoi(s: string): Option<int> {
    var signed := s != "" && (s[0] == '-' || s[0] == '+');
    var digits := if signed then s[1..] else s;
    if digits == "" || !AllDigits(digits) then None
    else
      var magnitude: int := DecimalValue(digits);
      var v := if signed && s[0] == '-' then -magnitude else magnitude;
      if MIN_INT <= v <= MAX_INT then Some(v) else None
  }

  function Decimal(n: nat): (s: string)
    ensures s != "" && AllDigits(s)
  {
    (if n < 10 then "" else Decimal(n / 10)) + ["0123456789"[n % 10]]
  }

  /** The digits of a number have its value. */
  lemma {:induction false} DecimalValueOfDecimal(n: nat)
    ensures DecimalValue(Decimal(n)) == n
  {
    var s := Decimal(n);
    assert s[|s| - 1] as int - '0' as int == n % 10;
    if n >= 10 {
      DecimalValueOfDecimal(n / 10);
      assert s[..|s| - 1] == Decimal(n / 10);
    } else {
      assert s[..|s| - 1] == "";
    }
  }

  /** A number as far as it fits into 64 bits. */
  function Fitting(v: int): Option<int> {
    if -0x8000_0000_0000_0000 <= v < 0x8000_0000_0000_0000 then Some(v) else None
  }

  /** Digits, with either sign or without one, are read as their value when it fits. */
  lemma AtoiOfDigits(s: string)
    requires s != "" && AllDigits(s)
    ensures Atoi(s) == Fitting(DecimalValue(s))
    ensures Atoi(['+'] + s) == Fitting(DecimalValue(s)) && Atoi(['-'] + s) == Fitting(0 - DecimalValue(s))
  {
    assert '0' <= s[0] <= '9';
    assert (['+'] + s)[1..] == s && (['-'] + s)[1..] == s;
  }
}
