/** The grouping decision: string tests on a client address against the private ranges of
    section 3 of RFC 1918. */
module NetworkGroup {
  import opened Messages

  const LOCAL_NETWORK := "LOCAL_NETWORK"
  const INT_MAX: int := 0x7fff_ffff

  // ----- The library calls the classifier makes ------------------------------

  predicate StartsWith(text: string, prefix: string) {
    prefix <= text
  }

  /** `text.split("\\.")` before trailing empty parts are dropped. */
  function Parts(text: string): (parts: seq<string>)
    ensures |parts| >= 1
  {
    if text == "" then [""]
    else
      var rest := Parts(text[1..]);
      if text[0] == '.' then [""] + rest else [[text[0]] + rest[0]] + rest[1..]
  }

  function DropTrailingEmpty(parts: seq<string>): seq<string> {
    if parts != [] && parts[|parts| - 1] == "" then DropTrailingEmpty(parts[..|parts| - 1]) else parts
  }

  function Split(text: string): seq<string> {
    if text == "" then [""] else DropTrailingEmpty(Parts(text))
  }

  predicate IsDigit(c: char) {
    '0' <= c <= '9'
  }

  function DigitValue(c: char): nat
    requires IsDigit(c)
  {
    c as int - '0' as int
  }

  function DigitsValue(text: string): nat
    requires forall c :: c in text ==> IsDigit(c)
  {
    if text == "" then 0 else 10 * DigitsValue(text[..|text| - 1]) + DigitValue(text[|text| - 1])
  }

  /** `Integer.parseInt` on ASCII text; None stands for its NumberFormatException. */
  function ParseInt(text: string): Option<int> {
    var signed := text != "" && (text[0] == '-' || text[0] == '+');
    var digits := if signed then text[1..] else text;
    if digits == "" || exists c :: c in digits && !IsDigit(c) then None
    else
      var magnitude: int := DigitsValue(digits);
      var v := if text[0] == '-' then -magnitude else magnitude;
      if -INT_MAX - 1 <= v <= INT_MAX then Some(v) else None
  }

  // ----- The classifier ------------------------------------------------------

  predicate IsPrivate172(ip: string) {
    var parts := Split(ip);
    |parts| >= 2 &&
    match ParseInt(parts[1])
    case None => false
    case Some(second) => 16 <= second <= 31
  }

  predicate IsLocalNetwork(ip: string) {
    || StartsWith(ip, "192.168.")
    || StartsWith(ip, "10.")
    || (StartsWith(ip, "172.") && IsPrivate172(ip))
    || ip == "127.0.0.1"
    || ip == "::1"
    || ip == "0:0:0:0:0:0:0:1"
    || StartsWith(ip, "fe80:")
  }

  function GroupOf(ip: string): string {
    if IsLocalNetwork(ip) then LOCAL_NETWORK else ip
  }

  // ----- Addresses in decimal ------------------------------------------------

  function Decimal(n: nat): (text: string)
    ensures text != ""
  {
    if n < 10 then [('0' as int + n) as char]
    else Decimal(n / 10) + [('0' as int + n % 10) as char]
  }

  function Dotted(a: nat, b: nat, c: nat, d: nat): string {
    Decimal(a) + "." + (Decimal(b) + "." + (Decimal(c) + "." + Decimal(d)))
  }

  predicate AllDigits(text: string) {
    forall c :: c in text ==> IsDigit(c)
  }

  /** Printing then parsing gives the number back. */
  lemma {:induction false} DecimalParses(n: nat)
    ensures AllDigits(Decimal(n)) && DigitsValue(Decimal(n)) == n
  {
    if n >= 10 {
      DecimalParses(n / 10);
      var last := ('0' as int + n % 10) as char;
      var front := Decimal(n / 10);
      assert (front + [last])[..|front|] == front;
    } else {
      assert Decimal(n)[..0] == "";
    }
  }

  lemma DecimalInjective(m: nat, n: nat)
    requires Decimal(m) == Decimal(n)
    ensures m == n
  {
    DecimalParses(m);
    DecimalParses(n);
  }

  lemma ParseDecimal(n: nat)
    ensures ParseInt(Decimal(n)) == if n <= INT_MAX then Some(n) else None
  {
    DecimalParses(n);
    var text := Decimal(n);
    assert text[0] in text;
  }

  /** A dotted text starts with "x." for digits x exactly when its first part is x. */
  lemma PrefixIsFirstPart(first: string, rest: string, x: string)
    requires AllDigits(first) && AllDigits(x)
    ensures x + "." <= first + "." + rest <==> first == x
  {
    var text := first + "." + rest;
    assert forall i :: 0 <= i < |first| ==> text[i] == first[i] && first[i] in first;
    if x + "." <= text {
      assert forall i :: 0 <= i < |x| ==> text[i] == (x + ".")[i] == x[i] && x[i] in x;
      assert text[|x|] == (x + ".")[|x|] == '.' && text[|first|] == '.';
      assert |x| == |first|;
    }
  }

  lemma {:induction false} PartsOfFirst(first: string, rest: string)
    requires '.' !in first
    ensures Parts(first + "." + rest) == [first] + Parts(rest)
  {
    var text := first + "." + rest;
    if first == "" {
      assert text[1..] == rest;
    } else {
      assert first[0] in first;
      assert forall c :: c in first[1..] ==> c in first;
      PartsOfFirst(first[1..], rest);
      assert text[1..] == first[1..] + "." + rest;
      assert first == [first[0]] + first[1..];
    }
  }

  lemma {:induction false} PartsOfLast(last: string)
    requires '.' !in last
    ensures Parts(last) == [last]
  {
    if last != "" {
      assert last[0] in last;
      assert forall c :: c in last[1..] ==> c in last;
      PartsOfLast(last[1..]);
      assert last == [last[0]] + last[1..];
    }
  }

  lemma SplitDotted(a: nat, b: nat, c: nat, d: nat)
    ensures Split(Dotted(a, b, c, d)) == [Decimal(a), Decimal(b), Decimal(c), Decimal(d)]
  {
    DecimalParses(a);
    DecimalParses(b);
    DecimalParses(c);
    DecimalParses(d);
    var cd := Decimal(c) + "." + Decimal(d);
    var bcd := Decimal(b) + "." + cd;
    PartsOfFirst(Decimal(a), bcd);
    PartsOfFirst(Decimal(b), cd);
    PartsOfFirst(Decimal(c), Decimal(d));
    PartsOfLast(Decimal(d));
    FourParts(Decimal(a), Decimal(b), Decimal(c), Decimal(d));
  }

  lemma FourParts(a: string, b: string, c: string, d: string)
    requires d != ""
    ensures [a] + ([b] + ([c] + [d])) == [a, b, c, d]
    ensures DropTrailingEmpty([a, b, c, d]) == [a, b, c, d]
  {
  }

  lemma SomeDecimals()
    ensures Decimal(10) == "10" && Decimal(127) == "127" && Decimal(168) == "168"
    ensures Decimal(172) == "172" && Decimal(192) == "192" && Decimal(0) == "0" && Decimal(1) == "1"
  {
    assert Decimal(12) == "12" && Decimal(16) == "16" && Decimal(17) == "17" && Decimal(19) == "19";
  }

  lemma FirstOctet(a: nat, b: nat, c: nat, d: nat, x: nat)
    ensures Decimal(x) + "." <= Dotted(a, b, c, d) <==> a == x
  {
    DecimalParses(a);
    DecimalParses(x);
    var rest := Decimal(b) + "." + (Decimal(c) + "." + Decimal(d));
    PrefixIsFirstPart(Decimal(a), rest, Decimal(x));
    if Decimal(a) == Decimal(x) {
      DecimalInjective(a, x);
    }
  }

  lemma TwoOctets(a: nat, b: nat, c: nat, d: nat, x: nat, y: nat)
    ensures Decimal(x) + "." + Decimal(y) + "." <= Dotted(a, b, c, d) <==> a == x && b == y
  {
    var prefix := Decimal(x) + "." + Decimal(y) + ".";
    var head := Decimal(x) + ".";
    var rest := Decimal(b) + "." + (Decimal(c) + "." + Decimal(d));
    var text := Dotted(a, b, c, d);
    FirstOctet(a, b, c, d, x);
    assert prefix == head + (Decimal(y) + ".");
    if a == x {
      assert text == head + rest;
      SamePrefix(head, Decimal(y) + ".", rest);
      DecimalParses(b);
      DecimalParses(y);
      PrefixIsFirstPart(Decimal(b), Decimal(c) + "." + Decimal(d), Decimal(y));
      if Decimal(b) == Decimal(y) {
        DecimalInjective(b, y);
      }
    }
  }

  lemma SamePrefix(head: string, x: string, y: string)
    ensures head + x <= head + y <==> x <= y
  {
    if head + x <= head + y {
      assert (head + x)[|head|..] == x && (head + y)[|head|..] == y;
    }
  }

  lemma Loopback(a: nat, b: nat, c: nat, d: nat)
    ensures Dotted(a, b, c, d) == "127.0.0.1" <==> a == 127 && b == 0 && c == 0 && d == 1
  {
    SomeDecimals();
    assert Dotted(127, 0, 0, 1) == "127.0.0.1";
    if Dotted(a, b, c, d) == "127.0.0.1" {
      SplitDotted(a, b, c, d);
      SplitDotted(127, 0, 0, 1);
      DecimalInjective(a, 127);
      DecimalInjective(b, 0);
      DecimalInjective(c, 0);
      DecimalInjective(d, 1);
    }
  }

  /** None of the IPv6 tests ever matches a dotted address. */
  lemma NotIPv6(a: nat, b: nat, c: nat, d: nat)
    ensures var ip := Dotted(a, b, c, d);
            ip != "::1" && ip != "0:0:0:0:0:0:0:1" && !StartsWith(ip, "fe80:")
  {
    var ip := Dotted(a, b, c, d);
    DecimalParses(a);
    assert ip[|Decimal(a)|] == '.' && '.' in ip;
    assert '.' !in "0:0:0:0:0:0:0:1";
    assert ip[0] == Decimal(a)[0] && Decimal(a)[0] in Decimal(a);
  }

  // ----- The results ---------------------------------------------------------

  /** The string tests decide the numeric ranges, for all numbers in the four places. */
  lemma ClassifierIsNumeric(a: nat, b: nat, c: nat, d: nat)
    ensures IsLocalNetwork(Dotted(a, b, c, d)) <==>
            || a == 10
            || (a == 192 && b == 168)
            || (a == 172 && 16 <= b <= 31)
            || (a == 127 && b == 0 && c == 0 && d == 1)
  {
    SomeDecimals();
    assert "10." == Decimal(10) + "." && "172." == Decimal(172) + ".";
    assert "192.168." == Decimal(192) + "." + Decimal(168) + ".";
    FirstOctet(a, b, c, d, 10);
    FirstOctet(a, b, c, d, 172);
    TwoOctets(a, b, c, d, 192, 168);
    Loopback(a, b, c, d);
    NotIPv6(a, b, c, d);
    SplitDotted(a, b, c, d);
    ParseDecimal(b);
  }

  function Address(a: nat, b: nat, c: nat, d: nat): nat {
    a * 0x100_0000 + b * 0x1_0000 + c * 0x100 + d
  }

  /** For octets, the ranges are the three blocks 10/8, 172.16/12 and 192.168/16 by mask. */
  lemma ClassifierMatchesMasks(a: nat, b: nat, c: nat, d: nat)
    requires a <= 255 && b <= 255 && c <= 255 && d <= 255
    ensures var v := Address(a, b, c, d);
            IsLocalNetwork(Dotted(a, b, c, d)) <==>
            || v / 0x100_0000 == Address(10, 0, 0, 0) / 0x100_0000
            || v / 0x10_0000 == Address(172, 16, 0, 0) / 0x10_0000
            || v / 0x1_0000 == Address(192, 168, 0, 0) / 0x1_0000
            || v == Address(127, 0, 0, 1)
  {
    ClassifierIsNumeric(a, b, c, d);
    MaskedAddress(a, b, c, d);
    assert 172 * 0x10 + 1 == 2753;
  }

  /** The upper 16, 8 and 12 bits of an address. */
  lemma MaskedAddress(a: nat, b: nat, c: nat, d: nat)
    requires a <= 255 && b <= 255 && c <= 255 && d <= 255
    ensures Address(a, b, c, d) / 0x1_0000 == a * 0x100 + b
    ensures Address(a, b, c, d) / 0x100_0000 == a
    ensures Address(a, b, c, d) / 0x10_0000 == a * 0x10 + b / 0x10
  {
  }

  // ----- Addresses beginning with 172., well formed or not --------------------

  function Zeros(k: nat): string {
    if k == 0 then "" else "0" + Zeros(k - 1)
  }

  /** The text is n in decimal, possibly with leading zeros and a plus sign. */
  ghost predicate Spells(text: string, n: nat) {
    exists k: nat :: text == Zeros(k) + Decimal(n) || text == "+" + (Zeros(k) + Decimal(n))
  }

  lemma {:induction false} ZerosKeepValue(k: nat, n: nat)
    ensures AllDigits(Zeros(k) + Decimal(n)) && DigitsValue(Zeros(k) + Decimal(n)) == n
  {
    DecimalParses(n);
    ZerosInFront(k, Decimal(n));
  }

  lemma {:induction false} ZerosInFront(k: nat, digits: string)
    requires AllDigits(digits)
    ensures AllDigits(Zeros(k) + digits) && DigitsValue(Zeros(k) + digits) == DigitsValue(digits)
    decreases |digits| + k
  {
    if digits == "" {
      OnlyZeros(k);
      assert Zeros(k) + digits == Zeros(k);
    } else {
      var front, last := digits[..|digits| - 1], digits[|digits| - 1];
      assert last in digits && forall c :: c in front ==> c in digits;
      ZerosInFront(k, front);
      assert (Zeros(k) + digits)[..|Zeros(k) + digits| - 1] == Zeros(k) + front;
    }
  }

  lemma {:induction false} OnlyZeros(k: nat)
    ensures AllDigits(Zeros(k)) && DigitsValue(Zeros(k)) == 0
  {
    if k > 0 {
      OnlyZeros(k - 1);
      ZerosEnd(k - 1);
      assert Zeros(k)[..k - 1] == Zeros(k - 1) && Zeros(k)[k - 1] == '0';
    }
  }

  lemma {:induction false} ZerosEnd(k: nat)
    ensures |Zeros(k)| == k && "0" + Zeros(k) == Zeros(k) + "0"
  {
    if k > 0 {
      ZerosEnd(k - 1);
      assert "0" + Zeros(k) == "0" + (Zeros(k - 1) + "0") == ("0" + Zeros(k - 1)) + "0";
    }
  }

  lemma OneDigit(c: char)
    requires IsDigit(c)
    ensures Decimal(DigitValue(c)) == [c]
  {
  }

  lemma OneMoreDigit(v: nat, c: char)
    requires v > 0 && IsDigit(c)
    ensures Decimal(10 * v + DigitValue(c)) == Decimal(v) + [c]
  {
    var n := 10 * v + DigitValue(c);
    assert n / 10 == v && n % 10 == DigitValue(c);
  }

  /** Every digit text is its value in decimal, behind leading zeros. */
  lemma {:induction false} DigitsAreDecimal(digits: string) returns (k: nat)
    requires digits != "" && AllDigits(digits)
    ensures digits == Zeros(k) + Decimal(DigitsValue(digits))
    decreases |digits|
  {
    var front, last := digits[..|digits| - 1], digits[|digits| - 1];
    assert last in digits && forall c :: c in front ==> c in digits;
    assert digits == front + [last];
    OneDigit(last);
    if front == "" {
      k := 0;
      assert DigitsValue(digits) == DigitValue(last);
      assert Zeros(0) + [last] == digits;
    } else {
      var z := DigitsAreDecimal(front);
      k := AppendDigit(front, last, z);
    }
  }

  lemma AppendDigit(front: string, last: char, z: nat) returns (k: nat)
    requires AllDigits(front) && IsDigit(last) && front == Zeros(z) + Decimal(DigitsValue(front))
    ensures AllDigits(front + [last])
    ensures front + [last] == Zeros(k) + Decimal(DigitsValue(front + [last]))
  {
    var v := DigitsValue(front);
    assert (front + [last])[..|front|] == front;
    assert DigitsValue(front + [last]) == 10 * v + DigitValue(last);
    if v == 0 {
      OneDigit('0');
      OneDigit(last);
      ZerosEnd(z);
      k := z + 1;
      assert front == Zeros(k);
    } else {
      k := z;
      OneMoreDigit(v, last);
      assert (Zeros(z) + Decimal(v)) + [last] == Zeros(z) + (Decimal(v) + [last]);
    }
  }

  /** For any text between the first two dots, or after the first: it parses to n exactly if it
      spells n. */
  lemma ParsesIfSpelled(text: string, n: nat)
    requires 0 < n <= INT_MAX
    ensures ParseInt(text) == Some(n) <==> Spells(text, n)
  {
    if k: nat :| text == Zeros(k) + Decimal(n) || text == "+" + (Zeros(k) + Decimal(n)) {
      ZerosKeepValue(k, n);
      SpelledParses(text, Zeros(k) + Decimal(n), n);
    }
    if ParseInt(text) == Some(n) {
      var digits := if text[0] == '+' then text[1..] else text;
      assert digits != "" && AllDigits(digits);
      var k := DigitsAreDecimal(digits);
      assert text[0] == '+' ==> text == "+" + digits;
    }
  }

  lemma SpelledParses(text: string, digits: string, n: nat)
    requires digits != "" && AllDigits(digits) && DigitsValue(digits) == n <= INT_MAX
    requires text == digits || text == "+" + digits
    ensures ParseInt(text) == Some(n)
  {
    assert digits[0] in digits;
    if text != digits {
      assert text[1..] == digits;
    }
  }

  lemma {:induction false} SecondSurvives(parts: seq<string>)
    requires |parts| >= 2 && parts[1] != ""
    ensures var d := DropTrailingEmpty(parts); |d| >= 2 && d[0] == parts[0] && d[1] == parts[1]
    decreases |parts|
  {
    if parts[|parts| - 1] == "" {
      SecondSurvives(parts[..|parts| - 1]);
    }
  }

  /** Whatever follows 172., the address is local exactly if the text up to the next dot spells
      a number from 16 to 31. */
  lemma SecondPartDecides(second: string, tail: string)
    requires '.' !in second && (tail == "" || tail[0] == '.')
    ensures IsLocalNetwork("172." + second + tail) <==> exists n :: 16 <= n <= 31 && Spells(second, n)
  {
    var ip := "172." + second + tail;
    assert ip[..4] == "172." && ip[0] == '1' && ip[1] == '7';
    assert "172." <= ip && !("192.168." <= ip) && !("10." <= ip) && !("fe80:" <= ip);
    SecondPart(second, tail);
    forall n: nat | 16 <= n <= 31 ensures ParseInt(second) == Some(n) <==> Spells(second, n) {
      ParsesIfSpelled(second, n);
    }
    if second == "" {
      assert forall n :: 16 <= n <= 31 ==> !(ParseInt(second) == Some(n));
    }
  }

  lemma SecondPart(second: string, tail: string)
    requires '.' !in second && (tail == "" || tail[0] == '.')
    ensures var parts := Split("172." + second + tail);
            if second != "" then |parts| >= 2 && parts[1] == second
            else |parts| < 2 || parts[1] == ""
  {
    var ip := "172." + second + tail;
    assert ip == "172" + "." + (second + tail);
    PartsOfFirst("172", second + tail);
    if tail == "" {
      assert second + tail == second;
      PartsOfLast(second);
    } else {
      assert second + tail == second + "." + tail[1..];
      PartsOfFirst(second, tail[1..]);
    }
    var parts := Parts(ip);
    assert |parts| >= 2 && parts[1] == second;
    if second != "" {
      SecondSurvives(parts);
    } else {
      DropKeepsFront(parts);
    }
  }

  lemma {:induction false} DropKeepsFront(parts: seq<string>)
    ensures DropTrailingEmpty(parts) <= parts
    decreases |parts|
  {
    if parts != [] && parts[|parts| - 1] == "" {
      DropKeepsFront(parts[..|parts| - 1]);
    }
  }

  /** Of the addresses without a dot, the local ones are the IPv6 loopback in its two spellings
      and the link-local ones. */
  lemma WithoutDots(ip: string)
    requires '.' !in ip
    ensures IsLocalNetwork(ip) <==>
            || ip == "::1" || ip == "0:0:0:0:0:0:0:1"
            || (|ip| >= 5 && ip[0] == 'f' && ip[1] == 'e' && ip[2] == '8' && ip[3] == '0' && ip[4] == ':')
  {
    if |ip| >= 5 && ip[..5] == "fe80:" {
      assert "fe80:" <= ip;
    }
    assert "192.168."[3] == '.' && "10."[2] == '.' && "172."[3] == '.' && "127.0.0.1"[3] == '.';
  }

  /** Two clients are grouped together exactly when both are local or share an address. */
  lemma SameGroup(a: nat, b: nat, c: nat, d: nat, ip: string)
    requires ip != LOCAL_NETWORK
    ensures var me := Dotted(a, b, c, d);
            GroupOf(me) == GroupOf(ip) <==>
            me == ip || (IsLocalNetwork(me) && IsLocalNetwork(ip))
  {
    var me := Dotted(a, b, c, d);
    DecimalParses(a);
    assert me[0] == Decimal(a)[0] && Decimal(a)[0] in Decimal(a);
    assert me != LOCAL_NETWORK;
  }

  /** `beforeHandshake` writes the group of the client's address into the session. */
  class Attributes {
    var entries: map<string, string>

    method BeforeHandshake(ip: Option<string>) returns (proceed: bool)
      modifies this
      ensures proceed
      ensures ip.None? ==> entries == old(entries)
      ensures ip.Some? ==>
                var group := if IsLocalNetwork(ip.value) then "LOCAL_NETWORK" else ip.value;
                entries == old(entries)["NETWORK_GROUP" := group]
    {
      if ip.Some? {
        var group := if IsLocalNetwork(ip.value) then LOCAL_NETWORK else ip.value;
        entries := entries["NETWORK_GROUP" := group];
      }
      proceed := true;
    }
  }
}
