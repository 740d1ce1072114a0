/** Decimal numerals and separator-joined keys: the strings a partial's keys become on the wire. */
module Wire {
  import opened Common

  const SEP := '\U{1f}'

  // --- str.join and str.split ---

  function Join(a: string, b: string): string {
    a + [SEP] + b
  }

  /** The pieces of `s` between separators; always at least one. */
  function Split(s: string): (parts: seq<string>)
    ensures |parts| >= 1
  {
    if |s| == 0 then [""]
    else
      var rest := Split(s[1..]);
      if s[0] == SEP then [""] + rest else [[s[0]] + rest[0]] + rest[1..]
  }

  lemma {:induction false} SplitWhole(s: string)
    ensures SEP !in s ==> Split(s) == [s]
    ensures SEP in s ==> |Split(s)| >= 2
  {
    if |s| > 0 {
      SplitWhole(s[1..]);
      assert s == [s[0]] + s[1..];
    }
  }

  lemma {:induction false} SplitJoin(a: string, b: string)
    ensures Split(Join(a, b)) == Split(a) + Split(b)
  {
    var s := Join(a, b);
    if |a| == 0 {
      assert s[1..] == b;
    } else {
      assert s[1..] == Join(a[1..], b);
      SplitJoin(a[1..], b);
    }
  }

  /** A joined key splits back into two parts exactly when neither part holds the separator. */
  lemma JoinedSplits(a: string, b: string)
    ensures Join(a, b) == a + "\U{1f}" + b
    ensures Split(Join(a, b)) == [a, b] <==> '\U{1f}' !in a && '\U{1f}' !in b
    ensures |Split(Join(a, b))| == 2 <==> SEP !in a && SEP !in b
  {
    SplitJoin(a, b);
    SplitWhole(a);
    SplitWhole(b);
  }

  // --- str(int) and int(str) ---

  function Digit(d: int): char
    requires 0 <= d < 10
  {
    '0' + d as char
  }

  function DigitValue(c: char): Option<nat> {
    if '0' <= c <= '9' then
      var value: nat := (c as int) - ('0' as int);
      Some(value)
    else None
  }

  function Digits(n: nat): (s: string)
    ensures |s| > 0
  {
    if n < 10 then [Digit(n)] else Digits(n / 10) + [Digit(n % 10)]
  }

  function Numeral(n: int): string {
    if n < 0 then "-" + Digits(-n) else Digits(n)
  }

  function ParseDigits(s: string): Option<nat> {
    if |s| == 0 then None
    else
      var last := DigitValue(s[|s| - 1]);
      if last.None? then None
      else if |s| == 1 then last
      else
        var front := ParseDigits(s[..|s| - 1]);
        if front.None? then None else Some(10 * front.value + last.value)
  }

  function ParseInt(s: string): Option<int> {
    if |s| > 0 && s[0] == '-' then
      var n := ParseDigits(s[1..]);
      if n.None? then None else Some(0 - n.value)
    else
      var n := ParseDigits(s);
      if n.None? then None else Some(n.value as int)
  }

  lemma {:induction false} DigitsParse(n: nat)
    ensures ParseDigits(Digits(n)) == Some(n)
    ensures Digits(n)[0] != '-' && SEP !in Digits(n)
  {
    if n >= 10 {
      DigitsParse(n / 10);
      var s := Digits(n);
      assert s[..|s| - 1] == Digits(n / 10);
      assert s[0] == Digits(n / 10)[0];
    }
  }

  /** `s` writes `n` in base ten, without a leading zero. */
  ghost predicate IsDecimal(s: string, n: nat) {
    if |s| == 0 then false
    else
      var last := s[|s| - 1] as int - 48;
      && 0 <= last < 10
      && if |s| == 1 then n == last else n >= 10 && n % 10 == last && IsDecimal(s[..|s| - 1], n / 10)
  }

  lemma DigitIff(c: char, d: nat)
    requires d < 10
    ensures c == Digit(d) <==> c as int - 48 == d
  {}

  lemma LastDigit(front: string, c: char, s: string)
    requires |s| > 0
    ensures s == front + [c] <==> s[..|s| - 1] == front && s[|s| - 1] == c
  {
    assert s == s[..|s| - 1] + [s[|s| - 1]];
  }

  lemma {:induction false} DecimalIff(s: string, n: nat)
    ensures IsDecimal(s, n) <==> s == Digits(n)
    decreases n
  {
    if |s| > 0 {
      hide Digit;
      DigitIff(s[|s| - 1], n % 10);
      if n < 10 {
        LastDigit([], Digit(n), s);
      } else {
        LastDigit(Digits(n / 10), Digit(n % 10), s);
        DecimalIff(s[..|s| - 1], n / 10);
      }
    }
  }

  lemma SignParses(digits: string, n: nat)
    requires ParseDigits(digits) == Some(n)
    ensures ParseInt("-" + digits) == Some(0 - n)
  {
    assert ("-" + digits)[1..] == digits;
  }

  /** Numerals, negative ones included, parse back, and hold no separator. */
  lemma NumeralParses(n: int)
    ensures ParseInt(Numeral(n)) == Some(n)
    ensures SEP !in Numeral(n)
  {
    if n < 0 {
      DigitsParse(-n);
      SignParses(Digits(-n), -n);
    } else {
      DigitsParse(n);
    }
  }

  // --- Keys ---

  function PairKey(k: (string, string)): string {
    Join(k.0, k.1)
  }

  function ParsePair(s: string): Option<(string, string)> {
    var parts := Split(s);
    if |parts| == 2 then Some((parts[0], parts[1])) else None
  }

  function MinuteName(k: (string, int)): string {
    Join(k.0, Numeral(k.1))
  }

  function ParseMinute(s: string): Option<(string, int)> {
    var parts := Split(s);
    if |parts| != 2 then None
    else
      var minute := ParseInt(parts[1]);
      if minute.None? then None else Some((parts[0], minute.value))
  }

  function SlotName(k: (int, string)): string {
    Join(Numeral(k.0), k.1)
  }

  function ParseSlot(s: string): Option<(int, string)> {
    var parts := Split(s);
    if |parts| != 2 then None
    else
      var hour := ParseInt(parts[0]);
      if hour.None? then None else Some((hour.value, parts[1]))
  }

  function HostName(host: string): string {
    host
  }

  function ParseHost(s: string): Option<string> {
    Some(s)
  }

  lemma PairParses(k: (string, string))
    ensures SEP !in k.0 && SEP !in k.1 ==> ParsePair(PairKey(k)) == Some(k)
    ensures SEP in k.0 || SEP in k.1 ==> ParsePair(PairKey(k)) == None
  {
    JoinedSplits(k.0, k.1);
  }

  lemma MinuteParses(k: (string, int))
    ensures SEP !in k.0 ==> ParseMinute(MinuteName(k)) == Some(k)
    ensures SEP in k.0 ==> ParseMinute(MinuteName(k)) == None
  {
    NumeralParses(k.1);
    JoinedSplits(k.0, Numeral(k.1));
  }

  lemma SlotParses(k: (int, string))
    ensures SEP !in k.1 ==> ParseSlot(SlotName(k)) == Some(k)
    ensures SEP in k.1 ==> ParseSlot(SlotName(k)) == None
  {
    NumeralParses(k.0);
    JoinedSplits(Numeral(k.0), k.1);
  }
}
