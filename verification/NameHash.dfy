/** The 32-bit rolling hash behind display names, and its cache. */
module NameHash {

  /** A UTF-16 code unit. */
  type CodeUnit = c: nat | c < 0x1_0000

  const TWO32: int := 0x1_0000_0000

  // ----- Bitwise exclusive or on naturals ------------------------------------

  function Xor(a: nat, b: nat): nat {
    if a == 0 && b == 0 then 0 else 2 * Xor(a / 2, b / 2) + (a % 2 + b % 2) % 2
  }

  lemma XorDigits(a: nat, b: nat)
    ensures Xor(a, b) == 2 * Xor(a / 2, b / 2) + (a % 2 + b % 2) % 2
    ensures Xor(a, b) / 2 == Xor(a / 2, b / 2) && Xor(a, b) % 2 == (a % 2 + b % 2) % 2
  {
  }

  lemma {:induction false} XorUndoes(a: nat, b: nat)
    ensures Xor(Xor(a, b), b) == a
  {
    if a != 0 || b != 0 {
      var x := Xor(a, b);
      XorDigits(a, b);
      XorUndoes(a / 2, b / 2);
      XorDigits(x, b);
      BitUndoes(a % 2, b % 2);
      assert Xor(x, b) == 2 * (a / 2) + a % 2;
    }
  }

  lemma BitUndoes(p: nat, q: nat)
    requires p < 2 && q < 2
    ensures ((p + q) % 2 + q) % 2 == p
  {
  }

  lemma {:induction false} XorCommutes(a: nat, b: nat)
    ensures Xor(a, b) == Xor(b, a)
  {
    if a != 0 || b != 0 {
      XorCommutes(a / 2, b / 2);
    }
  }

  function Pow2(k: nat): nat {
    if k == 0 then 1 else 2 * Pow2(k - 1)
  }

  /** Bit k of the result is the exclusive or of the bits k. */
  lemma {:induction false} XorBitwise(a: nat, b: nat, k: nat)
    ensures Bit(Xor(a, b), k) != (Bit(a, k) == Bit(b, k))
    decreases k
  {
    XorDigits(a, b);
    if k > 0 {
      XorBitwise(a / 2, b / 2, k - 1);
    }
  }

  predicate Bit(n: nat, k: nat) {
    if k == 0 then n % 2 == 1 else Bit(n / 2, k - 1)
  }

  lemma {:induction false} XorBounded(a: nat, b: nat, k: nat)
    requires a < Pow2(k) && b < Pow2(k)
    ensures Xor(a, b) < Pow2(k)
    decreases k
  {
    if k > 0 && (a != 0 || b != 0) {
      XorBounded(a / 2, b / 2, k - 1);
    }
  }

  lemma Pow32()
    ensures Pow2(32) == TWO32
  {
    assert Pow2(8) == 256;
    assert Pow2(16) == 65536;
    assert Pow2(24) == 16777216;
  }

  // ----- JavaScript's 32-bit operators ---------------------------------------

  /** `ToInt32`: the signed 32-bit value congruent to x. */
  function ToInt32(x: int): int {
    var r := x % TWO32;
    if r >= TWO32 / 2 then r - TWO32 else r
  }

  /** `x >>> 0`. */
  function ToUint32(x: int): nat {
    x % TWO32
  }

  function ShiftLeft5(x: int): int {
    ToInt32(ToInt32(x) * 32)
  }

  /** `x ^ y`: on the 32-bit patterns, read as a signed number. */
  function XorSigned(x: int, y: int): int {
    ToInt32(Xor(ToUint32(x), ToUint32(y)))
  }

  /** One turn of the loop, operator by operator. */
  function Turn(h: nat, c: CodeUnit): nat {
    ToUint32(XorSigned(ShiftLeft5(h) + h, c))
  }

  // ----- What a turn computes ------------------------------------------------

  lemma ToInt32Congruent(x: int)
    ensures ToInt32(x) % TWO32 == x % TWO32
    ensures exists k :: ToInt32(x) == x + k * TWO32
  {
    var q := x / TWO32;
    assert x == q * TWO32 + x % TWO32;
    if x % TWO32 >= TWO32 / 2 {
      assert ToInt32(x) == x + (-q - 1) * TWO32;
    } else {
      assert ToInt32(x) == x + (-q) * TWO32;
    }
  }

  lemma AddMultiple(x: int, k: int)
    ensures (x + k * TWO32) % TWO32 == x % TWO32
  {
  }

  lemma ShiftPlus(h: nat)
    ensures (ShiftLeft5(h) + h) % TWO32 == (33 * h) % TWO32
  {
    ToInt32Congruent(h);
    var j :| ToInt32(h) == h + j * TWO32;
    var shifted := ToInt32(h) * 32;
    ToInt32Congruent(shifted);
    var k :| ToInt32(shifted) == shifted + k * TWO32;
    assert ShiftLeft5(h) + h == 33 * h + (32 * j + k) * TWO32;
    AddMultiple(33 * h, 32 * j + k);
  }

  /** Despite the signed shift and the wide sum, a turn is multiplication by 33 modulo 2^32
      followed by an exclusive or with the code unit. */
  lemma TurnIsArithmetic(h: nat, c: CodeUnit)
    requires h < TWO32
    ensures Turn(h, c) == Xor((33 * h) % TWO32, c)
    ensures Turn(h, c) < TWO32
  {
    ShiftPlus(h);
    var x := (33 * h) % TWO32;
    assert ToUint32(c) == c;
    Pow32();
    XorBounded(x, c, 32);
    ToInt32Congruent(Xor(x, c));
  }

  /** 33 has an inverse modulo 2^32. */
  const INVERSE33: nat := 1041204193

  function Unturn(h: nat, c: CodeUnit): nat {
    (INVERSE33 * Xor(h, c)) % TWO32
  }

  lemma MultiplyBack(h: nat)
    requires h < TWO32
    ensures (INVERSE33 * ((33 * h) % TWO32)) % TWO32 == h
    ensures (33 * ((INVERSE33 * h) % TWO32)) % TWO32 == h
  {
    var q := (33 * h) / TWO32;
    var r := (33 * h) % TWO32;
    assert 33 * h == q * TWO32 + r;
    assert INVERSE33 * r == h + (8 * h - INVERSE33 * q) * TWO32;
    AddMultiple(h, 8 * h - INVERSE33 * q);
    var p := (INVERSE33 * h) / TWO32;
    var s := (INVERSE33 * h) % TWO32;
    assert INVERSE33 * h == p * TWO32 + s;
    assert 33 * s == h + (8 * h - 33 * p) * TWO32;
    AddMultiple(h, 8 * h - 33 * p);
  }

  /** For each code unit a turn is a bijection on the 32-bit numbers. */
  lemma TurnIsBijective(h: nat, c: CodeUnit)
    requires h < TWO32
    ensures Unturn(Turn(h, c), c) == h
    ensures Unturn(h, c) < TWO32 && Turn(Unturn(h, c), c) == h
  {
    TurnIsArithmetic(h, c);
    XorUndoes((33 * h) % TWO32, c);
    MultiplyBack(h);
    TurnIsArithmetic(Unturn(h, c), c);
    Pow32();
    XorBounded(h, c, 32);
    MultiplyBack(Xor(h, c));
    XorUndoes(h, c);
  }

  // ----- The hash ------------------------------------------------------------

  function HashFrom(h: nat, text: seq<CodeUnit>): nat {
    if text == [] then h else Turn(HashFrom(h, text[..|text| - 1]), text[|text| - 1])
  }

  function Hash(text: seq<CodeUnit>): nat {
    HashFrom(5381, text)
  }

  lemma {:induction false} HashInRange(h: nat, text: seq<CodeUnit>)
    requires h < TWO32
    ensures HashFrom(h, text) < TWO32
  {
    if text != [] {
      HashInRange(h, text[..|text| - 1]);
      TurnIsArithmetic(HashFrom(h, text[..|text| - 1]), text[|text| - 1]);
    }
  }

  lemma {:induction false} HashConcat(h: nat, x: seq<CodeUnit>, y: seq<CodeUnit>)
    ensures HashFrom(h, x + y) == HashFrom(HashFrom(h, x), y)
    decreases |y|
  {
    if y == [] {
      assert x + y == x;
    } else {
      assert (x + y)[..|x + y| - 1] == x + y[..|y| - 1];
      HashConcat(h, x, y[..|y| - 1]);
    }
  }

  /** The hash of the empty id, and what one more code unit does. */
  lemma HashSteps(text: seq<CodeUnit>, c: CodeUnit)
    ensures Hash([]) == 5381
    ensures Hash(text + [c]) == Xor(33 * Hash(text) % 0x1_0000_0000, c) < 0x1_0000_0000
  {
    HashInRange(5381, text);
    AppendUnit(5381, text, c);
    TurnIsArithmetic(Hash(text), c);
  }

  /** A common suffix keeps different states different. */
  lemma {:induction false} SuffixKeepsApart(g: nat, h: nat, text: seq<CodeUnit>)
    requires g < TWO32 && h < TWO32
    ensures HashFrom(g, text) == HashFrom(h, text) <==> g == h
  {
    if text != [] {
      var front, c := text[..|text| - 1], text[|text| - 1];
      SuffixKeepsApart(g, h, front);
      HashInRange(g, front);
      HashInRange(h, front);
      TurnIsBijective(HashFrom(g, front), c);
      TurnIsBijective(HashFrom(h, front), c);
    }
  }

  /** Ids that differ in exactly one code unit never collide. */
  lemma OneUnitApart(x: seq<CodeUnit>, y: seq<CodeUnit>, i: nat)
    requires |x| == |y| && i < |x| && x[i] != y[i]
    requires forall j :: 0 <= j < |x| && j != i ==> x[j] == y[j]
    ensures Hash(x) != Hash(y)
  {
    var prefix, suffix := x[..i], x[i + 1..];
    assert x == (prefix + [x[i]]) + suffix && y == (prefix + [y[i]]) + suffix;
    var h := Hash(prefix);
    HashInRange(5381, prefix);
    AppendUnit(5381, prefix, x[i]);
    AppendUnit(5381, prefix, y[i]);
    TurnIsArithmetic(h, x[i]);
    TurnIsArithmetic(h, y[i]);
    var m := (33 * h) % TWO32;
    XorCommutes(m, x[i]);
    XorCommutes(m, y[i]);
    XorUndoes(x[i], m);
    XorUndoes(y[i], m);
    HashConcat(5381, prefix + [x[i]], suffix);
    HashConcat(5381, prefix + [y[i]], suffix);
    SuffixKeepsApart(Turn(h, x[i]), Turn(h, y[i]), suffix);
  }

  lemma AppendUnit(h: nat, text: seq<CodeUnit>, c: CodeUnit)
    ensures HashFrom(h, text + [c]) == Turn(HashFrom(h, text), c)
  {
    assert (text + [c])[..|text|] == text;
  }

  /** The loop of `hash`. */
  method ComputeHash(text: seq<CodeUnit>) returns (h: nat)
    ensures h == Hash(text) && h < TWO32
  {
    h := 5381;
    for i := 0 to |text|
      invariant h == HashFrom(5381, text[..i]) && h < TWO32
    {
      AppendUnit(5381, text[..i], text[i]);
      assert text[..i + 1] == text[..i] + [text[i]];
      TurnIsArithmetic(h, text[i]);
      h := ToUint32(XorSigned(ShiftLeft5(h) + h, text[i]));
    }
    assert text[..|text|] == text;
  }

  // ----- Display names -------------------------------------------------------

  const LIST_LENGTH: nat := 40

  /** The two word lists. */
  datatype Lexicon = Lexicon(adjectives: seq<string>, nouns: seq<string>)
  {
    predicate Valid() {
      |adjectives| == LIST_LENGTH && |nouns| == LIST_LENGTH
    }
  }

  /** The UTF-16 code units of a character. */
  function UnitsOf(c: char): seq<CodeUnit> {
    var u := c as int;
    if u < 0x1_0000 then [u] else [0xD800 + (u - 0x1_0000) / 0x400 % 0x400, 0xDC00 + (u - 0x1_0000) % 0x400]
  }

  function Units(text: string): seq<CodeUnit> {
    if text == "" then [] else UnitsOf(text[0]) + Units(text[1..])
  }

  /** The positions of the adjective and the noun in their lists. */
  datatype Pick = Pick(adjective: nat, noun: nat)

  function PickOf(h: nat): (p: Pick)
    ensures p.adjective < LIST_LENGTH && p.noun < LIST_LENGTH
  {
    Pick(h % LIST_LENGTH, h / LIST_LENGTH % LIST_LENGTH)
  }

  function LastThree(id: seq<CodeUnit>): seq<CodeUnit> {
    if |id| <= 3 then id else id[|id| - 3..]
  }

  const SPACE: CodeUnit := 0x20

  datatype DisplayName = DisplayName(text: seq<CodeUnit>)

  /** The adjective, the noun and the end of the id, separated by spaces. */
  function Compose(adjective: string, noun: string, suffix: seq<CodeUnit>): DisplayName {
    DisplayName(Units(adjective) + [SPACE] + Units(noun) + [SPACE] + suffix)
  }

  function NameOf(lex: Lexicon, id: seq<CodeUnit>): DisplayName
    requires lex.Valid()
  {
    var p := PickOf(Hash(id));
    Compose(lex.adjectives[p.adjective], lex.nouns[p.noun], LastThree(id))
  }

  /** A character of the basic plane is its own code unit; any other is two surrogates. */
  lemma UnitsAreCodes(c: char)
    ensures var u := UnitsOf(c);
            if c as int < 0x1_0000 then u == [c as int]
            else && |u| == 2 && 0xD800 <= u[0] < 0xDC00 <= u[1] < 0xE000
                 && 0x1_0000 + 0x400 * (u[0] as int - 0xD800) + (u[1] as int - 0xDC00) == c as int
  {
  }

  lemma {:induction false} UnitsOfText(text: string)
    requires forall c :: c in text ==> c as int < 0x1_0000
    ensures |Units(text)| == |text| && forall i :: 0 <= i < |text| ==> Units(text)[i] == text[i] as int
  {
    if text != "" {
      assert text[0] in text && forall c :: c in text[1..] ==> c in text;
      UnitsOfText(text[1..]);
    }
  }

  /** The text ends in the last code units of the id, at most three, and before them stand the
      two words picked by the hash, each followed by a space. */
  ghost predicate NamesId(text: seq<CodeUnit>, lex: Lexicon, id: seq<CodeUnit>)
    requires lex.Valid()
  {
    var h := Hash(id);
    var front := Units(lex.adjectives[h % 40]) + [0x20] + Units(lex.nouns[h / 40 % 40]) + [0x20];
    && |text| == |front| + (if |id| < 3 then |id| else 3)
    && front <= text
    && (|id| >= 1 ==> text[|text| - 1] == id[|id| - 1])
    && (|id| >= 2 ==> text[|text| - 2] == id[|id| - 2])
    && (|id| >= 3 ==> text[|text| - 3] == id[|id| - 3])
  }

  lemma NameIsExact(lex: Lexicon, id: seq<CodeUnit>)
    requires lex.Valid()
    ensures NamesId(NameOf(lex, id).text, lex, id)
  {
    var h := Hash(id);
    var front := Units(lex.adjectives[h % 40]) + [0x20] + Units(lex.nouns[h / 40 % 40]) + [0x20];
    assert NameOf(lex, id).text == front + LastThree(id);
  }

  /** Two ids get the same pair of words exactly when their hashes agree modulo 1600. */
  lemma WordsOfHash(x: seq<CodeUnit>, y: seq<CodeUnit>)
    ensures PickOf(Hash(x)) == PickOf(Hash(y)) <==> Hash(x) % 1600 == Hash(y) % 1600
  {
    SplitModulus(Hash(x));
    SplitModulus(Hash(y));
  }

  /** Then they have the same name exactly when their last three code units agree. */
  lemma SameWordsSameName(lex: Lexicon, x: seq<CodeUnit>, y: seq<CodeUnit>)
    requires lex.Valid() && Hash(x) % 1600 == Hash(y) % 1600
    ensures NameOf(lex, x) == NameOf(lex, y) <==> LastThree(x) == LastThree(y)
  {
    WordsOfHash(x, y);
    var p := PickOf(Hash(x));
    SameSuffix(lex.adjectives[p.adjective], lex.nouns[p.noun], LastThree(x), LastThree(y));
  }

  lemma SameSuffix(adjective: string, noun: string, x: seq<CodeUnit>, y: seq<CodeUnit>)
    ensures Compose(adjective, noun, x) == Compose(adjective, noun, y) <==> x == y
  {
    var words := Units(adjective) + [SPACE] + Units(noun) + [SPACE];
    assert Compose(adjective, noun, x).text[|words|..] == x && Compose(adjective, noun, y).text[|words|..] == y;
  }

  lemma SplitModulus(h: nat)
    ensures h % 1600 == h % 40 + 40 * (h / 40 % 40)
  {
    var q := h / 40;
    assert h == 40 * q + h % 40 && q == 40 * (q / 40) + q % 40;
    assert h == 1600 * (q / 40) + (40 * (q % 40) + h % 40);
  }

  class NameGenerator {
    const lexicon: Lexicon
    var cache: map<seq<CodeUnit>, DisplayName>

    ghost predicate Valid()
      reads this
    {
      lexicon.Valid() && forall id :: id in cache ==> cache[id] == NameOf(lexicon, id)
    }

    constructor (lexicon: Lexicon)
      requires lexicon.Valid()
      ensures Valid() && this.lexicon == lexicon
    {
      this.lexicon := lexicon;
      cache := map[];
    }

    /** Cached or not, the name is the one the id determines. */
    method GetDisplayName(id: seq<CodeUnit>) returns (name: DisplayName)
      requires Valid()
      modifies this
      ensures Valid() && name == NameOf(lexicon, id)
      ensures NamesId(name.text, lexicon, id)
      ensures cache == old(cache)[id := NameOf(lexicon, id)]
    {
      NameIsExact(lexicon, id);
      if id in cache {
        return cache[id];
      }
      var h := ComputeHash(id);
      var adjective := lexicon.adjectives[h % |lexicon.adjectives|];
      var noun := lexicon.nouns[h / |lexicon.adjectives| % |lexicon.nouns|];
      name := Compose(adjective, noun, LastThree(id));
      cache := cache[id := name];
    }
  }

  function NamesFor(lex: Lexicon, ids: seq<seq<CodeUnit>>): (names: seq<DisplayName>)
    requires lex.Valid()
    ensures |names| == |ids|
  {
    if ids == [] then [] else NamesFor(lex, ids[..|ids| - 1]) + [NameOf(lex, ids[|ids| - 1])]
  }

  lemma {:induction false} NamesForAt(lex: Lexicon, ids: seq<seq<CodeUnit>>, i: nat)
    requires lex.Valid() && i < |ids|
    ensures NamesFor(lex, ids)[i] == NameOf(lex, ids[i])
  {
    if i < |ids| - 1 {
      NamesForAt(lex, ids[..|ids| - 1], i);
    }
  }

  /** Over any sequence of calls on one generator every name is the recomputed one. */
  method NamesOf(lexicon: Lexicon, ids: seq<seq<CodeUnit>>) returns (names: seq<DisplayName>)
    requires lexicon.Valid()
    ensures names == NamesFor(lexicon, ids)
  {
    var generator := new NameGenerator(lexicon);
    names := [];
    for i := 0 to |ids|
      invariant generator.lexicon == lexicon && generator.Valid() && fresh(generator)
      invariant names == NamesFor(lexicon, ids[..i])
    {
      var name := generator.GetDisplayName(ids[i]);
      names := names + [name];
      assert ids[..i + 1][..i] == ids[..i];
    }
    assert ids[..|ids|] == ids;
  }
}
