/** The parts of Go's `strings` and `strconv` packages that the controllers call:
    decimal printing and parsing with 64-bit limits, splitting, joining and searching. */
module GoStrings {

  datatype Option<+T> = None | Some(value: T)

  const MAX_UINT64: int := 0xFFFF_FFFF_FFFF_FFFF
  const MAX_INT64: int := 0x7FFF_FFFF_FFFF_FFFF
  const MIN_INT64: int := -0x8000_0000_0000_0000

  predicate IsInt64(n: int) { MIN_INT64 <= n <= MAX_INT64 }

  // ---------- decimal printing ----------

  predicate IsDigit(c: char) { '0' <= c <= '9' }

  function DigitChar(d: int): (c: char)
    requires 0 <= d < 10
    ensures IsDigit(c) && DigitValue(c) == d
  {
    ['0', '1', '2', '3', '4', '5', '6', '7', '8', '9'][d]
  }

  function DigitValue(c: char): (d: nat)
    requires IsDigit(c)
    ensures d < 10
  {
    c as int - '0' as int
  }

  /** strconv.Itoa on a natural number. */
  function Digits(n: nat): (s: string)
    ensures s != "" && forall c :: c in s ==> IsDigit(c)
  {
    if n < 10 then [DigitChar(n)] else Digits(n / 10) + [DigitChar(n % 10)]
  }

  /** strconv.Itoa. */
  function Itoa(n: int): (s: string)
    ensures s != "" && forall c :: c in s ==> IsDigit(c) || c == '-'
  {
    if n < 0 then "-" + Digits(-n) else Digits(n)
  }

  // ---------- decimal parsing ----------

  datatype ParseResult = Parsed(n: int) | SyntaxError | RangeError(limit: int)

  /** The digit loop of strconv.ParseUint: a bad character is reported before an overflow at
      the same position, and an overflow stops the loop. */
  function ScanDigits(s: string, acc: nat): (r: ParseResult)
    ensures r.Parsed? ==> r.n >= 0
  {
    if s == "" then Parsed(acc)
    else if !IsDigit(s[0]) then SyntaxError
    else if acc * 10 + DigitValue(s[0]) > MAX_UINT64 then RangeError(MAX_UINT64)
    else ScanDigits(s[1..], acc * 10 + DigitValue(s[0]))
  }

  /** strconv.ParseInt(s, 10, 64). */
  function ParseInt(s: string): (r: ParseResult)
    ensures r.Parsed? ==> IsInt64(r.n)
  {
    var negative := s != "" && s[0] == '-';
    var body := if s != "" && (s[0] == '-' || s[0] == '+') then s[1..] else s;
    if body == "" then SyntaxError
    else match ScanDigits(body, 0)
      case SyntaxError => SyntaxError
      case RangeError(_) => RangeError(if negative then MIN_INT64 else MAX_INT64)
      case Parsed(u) =>
        if !negative && u > MAX_INT64 then RangeError(MAX_INT64)
        else if negative && u > -MIN_INT64 then RangeError(MIN_INT64)
        else Parsed(if negative then -u else u)
  }

  /** The value strconv.Atoi returns; on a malformed string it returns 0 and on an overflow the
      limit, together with an error that the callers of interest only log. */
  function Atoi(s: string): int {
    match ParseInt(s)
    case Parsed(n) => n
    case SyntaxError => 0
    case RangeError(limit) => limit
  }

  lemma {:induction false} ScanSnoc(s: string, c: char, acc: nat, v: nat)
    requires ScanDigits(s, acc) == Parsed(v) && IsDigit(c)
    requires v * 10 + DigitValue(c) <= MAX_UINT64
    ensures ScanDigits(s + [c], acc) == Parsed(v * 10 + DigitValue(c))
  {
    if s == "" {
      assert s + [c] == [c];
      assert [c][1..] == "";
    } else {
      assert (s + [c])[1..] == s[1..] + [c];
      ScanSnoc(s[1..], c, acc * 10 + DigitValue(s[0]), v);
    }
  }

  lemma {:induction false} ScanOfDigits(n: nat)
    requires n <= MAX_UINT64
    ensures ScanDigits(Digits(n), 0) == Parsed(n)
  {
    if n < 10 {
      assert Digits(n)[1..] == "";
    } else {
      ScanOfDigits(n / 10);
      ScanSnoc(Digits(n / 10), DigitChar(n % 10), 0, n / 10);
    }
  }

  lemma ParseOfDigits(n: nat)
    requires n <= MAX_INT64
    ensures ParseInt(Digits(n)) == Parsed(n)
  {
    ScanOfDigits(n);
    assert Digits(n)[0] in Digits(n);
  }

  lemma ParseOfNegative(n: int)
    requires MIN_INT64 <= n < 0
    ensures ParseInt("-" + Digits(-n)) == Parsed(n)
  {
    ScanOfDigits(-n);
    assert ("-" + Digits(-n))[1..] == Digits(-n);
  }

  /** Parsing inverts printing on every 64-bit integer, negative ones included. */
  lemma ParseOfItoa(n: int)
    requires IsInt64(n)
    ensures ParseInt(Itoa(n)) == Parsed(n)
  {
    if n < 0 { ParseOfNegative(n); } else { ParseOfDigits(n); }
  }

  // ---------- splitting and joining ----------

  /** strings.Split with a one-character separator. */
  function Split(s: string, sep: char): (parts: seq<string>)
    ensures |parts| >= 1
  {
    if s == "" then [""]
    else
      var rest := Split(s[1..], sep);
      if s[0] == sep then [""] + rest else [[s[0]] + rest[0]] + rest[1..]
  }

  lemma {:induction false} SplitConcat(a: string, sep: char, b: string)
    ensures Split(a + [sep] + b, sep) == Split(a, sep) + Split(b, sep)
  {
    var s := a + [sep] + b;
    if a == "" {
      assert s[1..] == b;
    } else {
      assert s[1..] == a[1..] + [sep] + b;
      SplitConcat(a[1..], sep, b);
    }
  }

  lemma {:induction false} SplitWhole(s: string, sep: char)
    requires sep !in s
    ensures Split(s, sep) == [s]
  {
    if s != "" {
      SplitWhole(s[1..], sep);
      assert [s[0]] + s[1..] == s;
    }
  }

  /** A separator-free head is split off unchanged. */
  lemma SplitHead(head: string, sep: char, rest: string)
    requires sep !in head
    ensures Split(head + [sep] + rest, sep) == [head] + Split(rest, sep)
  {
    SplitConcat(head, sep, rest);
    SplitWhole(head, sep);
  }

  /** No part contains the separator, and there are two parts as soon as the text does. */
  lemma {:induction false} SplitParts(s: string, sep: char)
    ensures forall p :: p in Split(s, sep) ==> sep !in p
    ensures sep in s <==> |Split(s, sep)| >= 2
  {
    if s != "" { SplitParts(s[1..], sep); }
  }

  /** strings.Join with a one-character separator. */
  function Join(parts: seq<string>, sep: char): string {
    if parts == [] then ""
    else if |parts| == 1 then parts[0]
    else parts[0] + [sep] + Join(parts[1..], sep)
  }

  lemma {:induction false} SplitOfJoin(parts: seq<string>, sep: char)
    requires parts != [] && forall p :: p in parts ==> sep !in p
    ensures Split(Join(parts, sep), sep) == parts
  {
    if |parts| == 1 {
      SplitWhole(parts[0], sep);
    } else {
      SplitOfJoin(parts[1..], sep);
      SplitHead(parts[0], sep, Join(parts[1..], sep));
    }
  }

  // ---------- prefixes and substrings ----------

  /** strings.TrimPrefix. */
  function TrimPrefix(s: string, prefix: string): string {
    if prefix <= s then s[|prefix|..] else s
  }

  /** strings.Contains. */
  predicate Contains(s: string, sub: string) {
    sub <= s || (s != "" && Contains(s[1..], sub))
  }

  /** `sub` is somewhere in the text, with anything before and after it. */
  ghost predicate Occurs(sub: string, s: string) {
    exists before: string, after: string :: s == before + sub + after
  }

  /** A text that has `sub` somewhere, with anything before and after, contains it. */
  lemma {:induction false} ContainsMiddle(before: string, sub: string, after: string)
    ensures Contains(before + sub + after, sub)
  {
    if before == "" {
      assert before + sub + after == sub + after;
    } else {
      ContainsMiddle(before[1..], sub, after);
      assert (before + sub + after)[1..] == before[1..] + sub + after;
    }
  }

  lemma {:induction false} ContainsOccurs(s: string, sub: string)
    requires Contains(s, sub)
    ensures Occurs(sub, s)
  {
    if sub <= s {
      assert s == "" + sub + s[|sub|..];
    } else {
      ContainsOccurs(s[1..], sub);
      var before, after :| s[1..] == before + sub + after;
      assert s == ([s[0]] + before) + sub + after;
    }
  }

  /** strings.Contains finds exactly the texts that occur. */
  lemma ContainsMeans(s: string, sub: string)
    ensures Contains(s, sub) <==> Occurs(sub, s)
  {
    if Contains(s, sub) { ContainsOccurs(s, sub); }
    if Occurs(sub, s) {
      var before, after :| s == before + sub + after;
      ContainsMiddle(before, sub, after);
    }
  }
}
