/**
 The licence-key codec of src/services/crypto.rs: random bytes to grouped text, the normalisation every
 lookup goes through, and the display prefix. The keyed hash is a parameter wherever it is needed.
 */
module Crypto {

  newtype Byte = b: int | 0 <= b < 256

  const ALPHABET: string := "ABCDEFGHJKLMNPQRSTUVWXYZ23456789"
  const BRAND: string := "AXUM"
  const GROUPS := 5
  const GROUP_SIZE := 5
  const KEY_BYTES := GROUPS * GROUP_SIZE
  const PREFIX_LENGTH := 14

  predicate IsAsciiAlphanumeric(ch: char) {
    '0' <= ch <= '9' || 'A' <= ch <= 'Z' || 'a' <= ch <= 'z'
  }

  function ToAsciiUppercase(ch: char): char {
    if 'a' <= ch <= 'z' then ch - 'a' + 'A' else ch
  }

  /** A symbol that normalisation neither drops nor changes. */
  predicate IsCanonical(ch: char) {
    IsAsciiAlphanumeric(ch) && ToAsciiUppercase(ch) == ch
  }

  /** Keep the ASCII letters and digits, in upper case. */
  function Normalize(input: string): string {
    if input == [] then []
    else if IsAsciiAlphanumeric(input[0]) then [ToAsciiUppercase(input[0])] + Normalize(input[1..])
    else Normalize(input[1..])
  }

  function Prefix(input: string): string {
    var key := Normalize(input);
    if |key| <= PREFIX_LENGTH then key else key[..PREFIX_LENGTH]
  }

  const LOWER_CASE: string := "abcdefghijklmnopqrstuvwxyz"
  const UPPER_CASE: string := "ABCDEFGHIJKLMNOPQRSTUVWXYZ"
  const DIGITS: string := "0123456789"

  lemma LowerCaseIs(ch: char)
    ensures ch in LOWER_CASE <==> 'a' <= ch <= 'z'
  {
    if 'a' <= ch <= 'z' {
      assert LOWER_CASE[ch as int - 'a' as int] == ch;
    }
  }

  lemma UpperCaseIs(ch: char)
    ensures ch in UPPER_CASE <==> 'A' <= ch <= 'Z'
  {
    if 'A' <= ch <= 'Z' {
      assert UPPER_CASE[ch as int - 'A' as int] == ch;
    }
  }

  /** The characters that count in a typed key are the 62 ASCII letters and digits. */
  lemma AlphanumericIs(ch: char)
    ensures IsAsciiAlphanumeric(ch) <==> ch in LOWER_CASE || ch in UPPER_CASE || ch in DIGITS
  {
    LowerCaseIs(ch);
    UpperCaseIs(ch);
  }

  /** Each lower-case letter becomes its capital, and nothing else changes. */
  lemma UppercaseOf(ch: char, i: nat)
    ensures i < 26 ==> ToAsciiUppercase(LOWER_CASE[i]) == UPPER_CASE[i]
    ensures ch !in LOWER_CASE ==> ToAsciiUppercase(ch) == ch
  {
    LowerCaseIs(ch);
  }

  // ----- the alphabet

  /** The symbol that the low five bits of a byte select; `SymbolIsTableEntry` ties it to the table. */
  function Symbol(b: Byte): (c: char)
    ensures IsCanonical(c)
  {
    var v := b as int % 32;
    if v < 8 then 'A' + (v as char)
    else if v < 13 then 'J' + ((v - 8) as char)
    else if v < 24 then 'P' + ((v - 13) as char)
    else '2' + ((v - 24) as char)
  }

  /** `n` consecutive characters from `first`. */
  function Range(first: char, n: nat): (s: string)
    requires first as int + n <= 128
    ensures |s| == n && forall i :: 0 <= i < n ==> s[i] == first + (i as char)
  {
    if n == 0 then [] else Range(first, n - 1) + [first + ((n - 1) as char)]
  }

  lemma LetterRanges()
    ensures Range('A', 8) == "ABCDEFGH" && Range('J', 5) == "JKLMN"
  {
  }

  lemma LastRanges()
    ensures Range('P', 11) == "PQRSTUVWXYZ" && Range('2', 8) == "23456789"
  {
  }

  lemma Halves()
    ensures "ABCDEFGH" + "JKLMN" == "ABCDEFGHJKLMN"
    ensures "PQRSTUVWXYZ" + "23456789" == "PQRSTUVWXYZ23456789"
  {
  }

  lemma Join(a: string, b: string, c: string, d: string)
    ensures a + b + c + d == (a + b) + (c + d)
  {
  }

  /** The alphabet is the upper-case letters and digits without I, O, 0 and 1, in order. */
  lemma AlphabetIsRanges()
    ensures ALPHABET == Range('A', 8) + Range('J', 5) + Range('P', 11) + Range('2', 8)
  {
    LetterRanges();
    LastRanges();
    Halves();
    Join(Range('A', 8), Range('J', 5), Range('P', 11), Range('2', 8));
    assert "ABCDEFGHJKLMN" + "PQRSTUVWXYZ23456789" == ALPHABET;
  }

  lemma SymbolAtResidue(b: Byte)
    ensures |ALPHABET| == 32 && Symbol(b) == ALPHABET[b as int % 32]
  {
    AlphabetIsRanges();
  }

  /** The number a `u8` stands for. */
  function Value(bits: bv8): Byte {
    bits as int as Byte
  }

  lemma LowFiveBits(bits: bv8)
    ensures (bits & 31) as int == bits as int % 32
  {
  }

  /** `LICENSE_ALPHABET[(byte & 31) as usize]`. */
  lemma SymbolIsTableEntry(bits: bv8, index: int)
    requires index == (bits & 31) as int
    ensures 0 <= index < |ALPHABET| == 32 && Symbol(Value(bits)) == ALPHABET[index]
  {
    LowFiveBits(bits);
    SymbolAtResidue(Value(bits));
  }

  /** Two bytes share a symbol exactly when they agree modulo 32. */
  lemma SymbolDeterminesResidue(a: Byte, b: Byte)
    ensures Symbol(a) == Symbol(b) <==> a as int % 32 == b as int % 32
  {
  }

  // ----- generation

  function Symbols(bytes: seq<Byte>): string {
    if bytes == [] then [] else [Symbol(bytes[0])] + Symbols(bytes[1..])
  }

  function GroupBytes(bytes: seq<Byte>, group: nat): (r: seq<Byte>)
    requires (group + 1) * GROUP_SIZE <= |bytes|
    ensures |r| == GROUP_SIZE
  {
    bytes[group * GROUP_SIZE..(group + 1) * GROUP_SIZE]
  }

  /** `start` and then the first `n` groups of five symbols, each after a dash. */
  function Groups(start: string, bytes: seq<Byte>, n: nat): string
    requires n * GROUP_SIZE <= |bytes|
  {
    if n == 0 then start
    else Groups(start, bytes, n - 1) + ['-'] + Symbols(GroupBytes(bytes, n - 1))
  }

  function KeyText(bytes: seq<Byte>): string
    requires |bytes| == KEY_BYTES
  {
    Groups(BRAND, bytes, |bytes| / GROUP_SIZE)
  }

  lemma {:induction false} SymbolsConcat(a: seq<Byte>, b: seq<Byte>)
    ensures Symbols(a + b) == Symbols(a) + Symbols(b)
  {
    if a == [] {
      assert a + b == b;
    } else {
      assert (a + b)[1..] == a[1..] + b;
      SymbolsConcat(a[1..], b);
    }
  }

  /** One symbol per byte, in order. */
  lemma {:induction false} SymbolsAt(bytes: seq<Byte>)
    ensures |Symbols(bytes)| == |bytes|
    ensures forall i :: 0 <= i < |bytes| ==> Symbols(bytes)[i] == Symbol(bytes[i])
  {
    if bytes == [] {
    } else {
      SymbolsAt(bytes[1..]);
    }
  }

  lemma NextSymbol(bytes: seq<Byte>, to: nat)
    requires to < |bytes|
    ensures Symbols(bytes[..to + 1]) == Symbols(bytes[..to]) + [Symbol(bytes[to])]
  {
    assert bytes[..to + 1] == bytes[..to] + [bytes[to]];
    SymbolsConcat(bytes[..to], [bytes[to]]);
    assert Symbols([bytes[to]]) == [Symbol(bytes[to])];
  }

  function Values(buffer: seq<bv8>): (bytes: seq<Byte>)
    ensures |bytes| == |buffer|
  {
    seq(|buffer|, i requires 0 <= i < |buffer| => Value(buffer[i]))
  }

  /** The nested loops of `generate_license_key`, with the random buffer as input. */
  method GenerateLicenseKey(bytes: array<bv8>) returns (key: string)
    requires bytes.Length == KEY_BYTES
    ensures key == KeyText(Values(bytes[..]))
  {
    ghost var buffer := Values(bytes[..]);
    key := BRAND;
    for group := 0 to GROUPS
      invariant key == Groups(BRAND, buffer, group)
    {
      key := key + ['-'];
      ghost var partial, chunk := key, GroupBytes(buffer, group);
      for index := 0 to GROUP_SIZE
        invariant key == partial + Symbols(chunk[..index])
      {
        var byte := bytes[group * GROUP_SIZE + index];
        var entry := (byte & 31) as int;
        SymbolIsTableEntry(byte, entry);
        assert chunk[index] == Value(byte);
        NextSymbol(chunk, index);
        key := key + [ALPHABET[entry]];
      }
      assert chunk[..GROUP_SIZE] == chunk;
    }
  }

  // ----- normalisation undoes the grouping

  lemma {:induction false} NormalizeIsCanonical(s: string)
    ensures forall i :: 0 <= i < |Normalize(s)| ==> IsCanonical(Normalize(s)[i])
  {
    if s == [] {
    } else {
      NormalizeIsCanonical(s[1..]);
    }
  }

  lemma {:induction false} NormalizeConcat(a: string, b: string)
    ensures Normalize(a + b) == Normalize(a) + Normalize(b)
  {
    if a == [] {
      assert a + b == b;
    } else {
      assert (a + b)[1..] == a[1..] + b;
      NormalizeConcat(a[1..], b);
    }
  }

  lemma NormalizeAround(before: string, middle: string, after: string)
    ensures Normalize(before + middle + after) == Normalize(before) + Normalize(middle) + Normalize(after)
  {
    NormalizeConcat(before + middle, after);
    NormalizeConcat(before, middle);
  }

  lemma {:induction false} NormalizeCanonical(s: string)
    requires forall i :: 0 <= i < |s| ==> IsCanonical(s[i])
    ensures Normalize(s) == s
  {
    if s == [] {
    } else {
      assert IsCanonical(s[0]);
      NormalizeCanonical(s[1..]);
    }
  }

  lemma {:induction false} SymbolsNormalize(bytes: seq<Byte>)
    ensures Normalize(Symbols(bytes)) == Symbols(bytes)
  {
    if bytes == [] {
    } else {
      SymbolsNormalize(bytes[1..]);
    }
  }

  /** Normalising twice changes nothing more. */
  lemma NormalizeIdempotent(s: string)
    ensures Normalize(Normalize(s)) == Normalize(s)
  {
    NormalizeIsCanonical(s);
    NormalizeCanonical(Normalize(s));
  }

  lemma DashVanishes(before: string, after: string)
    ensures Normalize(before + ['-'] + after) == Normalize(before) + Normalize(after)
  {
    NormalizeAround(before, ['-'], after);
    assert Normalize(before) + [] == Normalize(before);
  }

  lemma Reassociate(a: string, b: string, c: string)
    ensures (a + b) + c == a + (b + c)
  {
  }

  function GroupSymbols(bytes: seq<Byte>, n: nat): string
    requires n * GROUP_SIZE <= |bytes|
  {
    if n == 0 then [] else GroupSymbols(bytes, n - 1) + Symbols(GroupBytes(bytes, n - 1))
  }

  lemma SliceJoin(s: seq<Byte>, i: nat, j: nat)
    requires i <= j <= |s|
    ensures s[..i] + s[i..j] == s[..j]
  {
  }

  lemma {:induction false} GroupSymbolsPrefix(bytes: seq<Byte>, n: nat)
    requires n * GROUP_SIZE <= |bytes|
    ensures GroupSymbols(bytes, n) == Symbols(bytes[..n * GROUP_SIZE])
  {
    var end := n * GROUP_SIZE;
    if n == 0 {
      assert bytes[..end] == [];
    } else {
      var mid := (n - 1) * GROUP_SIZE;
      GroupSymbolsPrefix(bytes, n - 1);
      calc {
        GroupSymbols(bytes, n);
        Symbols(bytes[..mid]) + Symbols(bytes[mid..end]);
        { SymbolsConcat(bytes[..mid], bytes[mid..end]); }
        Symbols(bytes[..mid] + bytes[mid..end]);
        { SliceJoin(bytes, mid, end); }
        Symbols(bytes[..end]);
      }
    }
  }

  lemma {:induction false} NormalizeGroups(start: string, bytes: seq<Byte>, n: nat)
    requires n * GROUP_SIZE <= |bytes|
    requires Normalize(start) == start
    ensures Normalize(Groups(start, bytes, n)) == start + GroupSymbols(bytes, n)
  {
    if n == 0 {
      assert start + GroupSymbols(bytes, n) == start;
    } else {
      var group := Symbols(GroupBytes(bytes, n - 1));
      NormalizeGroups(start, bytes, n - 1);
      DashVanishes(Groups(start, bytes, n - 1), group);
      SymbolsNormalize(GroupBytes(bytes, n - 1));
      Reassociate(start, GroupSymbols(bytes, n - 1), group);
    }
  }

  /** What a generated key is looked up by: the brand and one symbol per byte. */
  lemma GeneratedKeyNormalizes(bytes: seq<Byte>)
    requires |bytes| == KEY_BYTES
    ensures Normalize(KeyText(bytes)) == BRAND + Symbols(bytes)
  {
    assert BRAND == ['A', 'X', 'U', 'M'];
    NormalizeCanonical(BRAND);
    NormalizeGroups(BRAND, bytes, GROUPS);
    GroupSymbolsPrefix(bytes, GROUPS);
    assert bytes[..KEY_BYTES] == bytes;
  }

  /** The prefix shown for a generated key is the brand and the first ten symbols. */
  lemma GeneratedKeyPrefix(bytes: seq<Byte>)
    requires |bytes| == KEY_BYTES
    ensures Prefix(KeyText(bytes)) == BRAND + Symbols(bytes[..10])
  {
    GeneratedKeyNormalizes(bytes);
    SymbolsAt(bytes);
    SliceJoin(bytes, 10, KEY_BYTES);
    SymbolsConcat(bytes[..10], bytes[10..]);
    SymbolsAt(bytes[..10]);
    assert bytes[..10] + bytes[10..] == bytes;
    var key, shown := BRAND + Symbols(bytes), BRAND + Symbols(bytes[..10]);
    assert key == shown + Symbols(bytes[10..]);
    assert key[..|shown|] == shown;
  }

  /** A key's stored prefix is the first 14 of the 29 characters it is looked up by, whatever way it is typed. */
  lemma PrefixIsPart(bytes: seq<Byte>)
    requires |bytes| == KEY_BYTES
    ensures |Normalize(KeyText(bytes))| == 29 && |Prefix(KeyText(bytes))| == 14
    ensures Prefix(KeyText(bytes)) == Normalize(KeyText(bytes))[..14]
  {
    GeneratedKeyNormalizes(bytes);
    SymbolsAt(bytes);
  }

  lemma GroupsLength(start: string, bytes: seq<Byte>, n: nat)
    requires n * GROUP_SIZE <= |bytes|
    ensures |Groups(start, bytes, n)| == |start| + 6 * n
  {
    if n == 0 {
    } else {
      GroupsLength(start, bytes, n - 1);
      SymbolsAt(GroupBytes(bytes, n - 1));
    }
  }

  lemma LastGroup(before: string, symbols: string, k: nat)
    requires k < |symbols|
    ensures (before + ['-'] + symbols)[|before|] == '-' && (before + ['-'] + symbols)[|before| + 1 + k] == symbols[k]
  {
  }

  lemma EarlierSymbol(before: string, symbols: string, i: nat)
    requires i < |before|
    ensures (before + ['-'] + symbols)[i] == before[i]
  {
  }

  /** Group `g` of the text: a dash and the symbols of bytes 5g to 5g + 4. */
  lemma {:induction false} GroupAt(start: string, bytes: seq<Byte>, n: nat, g: nat, k: nat)
    requires n * GROUP_SIZE <= |bytes| && g < n && k < GROUP_SIZE
    ensures |Groups(start, bytes, n)| == |start| + 6 * n
    ensures var text, dash := Groups(start, bytes, n), |start| + 6 * g;
            text[dash] == '-' && text[dash + 1 + k] == Symbol(bytes[5 * g + k])
  {
    GroupsLength(start, bytes, n);
    GroupsLength(start, bytes, n - 1);
    var before, symbols := Groups(start, bytes, n - 1), Symbols(GroupBytes(bytes, n - 1));
    SymbolsAt(GroupBytes(bytes, n - 1));
    if g == n - 1 {
      LastGroup(before, symbols, k);
    } else {
      GroupAt(start, bytes, n - 1, g, k);
      EarlierSymbol(before, symbols, |start| + 6 * g);
      EarlierSymbol(before, symbols, |start| + 6 * g + 1 + k);
    }
  }

  lemma {:induction false} StartOf(start: string, bytes: seq<Byte>, n: nat)
    requires n * GROUP_SIZE <= |bytes|
    ensures |Groups(start, bytes, n)| >= |start| && Groups(start, bytes, n)[..|start|] == start
  {
    if n == 0 {
    } else {
      StartOf(start, bytes, n - 1);
      var before := Groups(start, bytes, n - 1);
      assert (before + ['-'] + Symbols(GroupBytes(bytes, n - 1)))[..|start|] == before[..|start|];
    }
  }

  /** The shape of a key: AXUM and five groups of five symbols, each after a dash, 34 characters in all. */
  lemma KeyTextShape(bytes: seq<Byte>, n: nat, g: nat, k: nat)
    requires |bytes| == KEY_BYTES && n == GROUPS && g < n && k < GROUP_SIZE
    ensures |KeyText(bytes)| == 34 && KeyText(bytes)[..4] == "AXUM"
    ensures KeyText(bytes)[4 + 6 * g] == '-' && KeyText(bytes)[4 + 6 * g + 1 + k] == Symbol(bytes[5 * g + k])
  {
    assert |BRAND| == 4;
    GroupAt(BRAND, bytes, n, g, k);
    StartOf(BRAND, bytes, n);
  }

  // ----- exactly which texts are the same key

  /** One harmless change of a typed key. A change that does not apply leaves the text alone. */
  datatype Edit =
    | Insert(at: nat, ch: char)
    | Remove(at: nat)
    | SwapCase(at: nat)

  function OtherCase(ch: char): char {
    if 'a' <= ch <= 'z' then ch - 'a' + 'A' else if 'A' <= ch <= 'Z' then ch - 'A' + 'a' else ch
  }

  function ApplyEdit(s: string, e: Edit): string {
    match e
    case Insert(at, ch) =>
      if at <= |s| && !IsAsciiAlphanumeric(ch) then s[..at] + [ch] + s[at..] else s
    case Remove(at) =>
      if at < |s| && !IsAsciiAlphanumeric(s[at]) then s[..at] + s[at + 1..] else s
    case SwapCase(at) =>
      if at < |s| then s[..at] + [OtherCase(s[at])] + s[at + 1..] else s
  }

  function ApplyEdits(s: string, edits: seq<Edit>): string
    decreases |edits|
  {
    if edits == [] then s else ApplyEdits(ApplyEdit(s, edits[0]), edits[1..])
  }

  /** Replacing a middle part by one with the same normal form keeps the key. */
  lemma ReplaceKeepsKey(s: string, before: string, middle: string, middle': string, after: string)
    requires s == before + middle + after && Normalize(middle) == Normalize(middle')
    ensures Normalize(before + middle' + after) == Normalize(s)
  {
    NormalizeAround(before, middle, after);
    NormalizeAround(before, middle', after);
  }

  lemma EditKeepsKey(s: string, e: Edit)
    ensures Normalize(ApplyEdit(s, e)) == Normalize(s)
  {
    match e
    case Insert(at, ch) =>
      if at <= |s| && !IsAsciiAlphanumeric(ch) {
        assert s == s[..at] + [] + s[at..];
        ReplaceKeepsKey(s, s[..at], [], [ch], s[at..]);
      }
    case Remove(at) =>
      if at < |s| && !IsAsciiAlphanumeric(s[at]) {
        assert s == s[..at] + [s[at]] + s[at + 1..];
        ReplaceKeepsKey(s, s[..at], [s[at]], [], s[at + 1..]);
        assert s[..at] + [] + s[at + 1..] == s[..at] + s[at + 1..];
      }
    case SwapCase(at) =>
      if at < |s| {
        assert s == s[..at] + [s[at]] + s[at + 1..];
        ReplaceKeepsKey(s, s[..at], [s[at]], [OtherCase(s[at])], s[at + 1..]);
      }
  }

  lemma {:induction false} EditsKeepKey(s: string, edits: seq<Edit>)
    ensures Normalize(ApplyEdits(s, edits)) == Normalize(s)
    decreases |edits|
  {
    if edits == [] {
    } else {
      EditKeepsKey(s, edits[0]);
      EditsKeepKey(ApplyEdit(s, edits[0]), edits[1..]);
    }
  }

  lemma SameHeadSameTail(x: char, s: string, y: char, t: string)
    requires [x] + s == [y] + t
    ensures x == y && s == t
  {
    assert ([x] + s)[0] == x && ([y] + t)[0] == y;
    assert ([x] + s)[1..] == s && ([y] + t)[1..] == t;
  }

  lemma RemoveStep(a: string, at: nat)
    requires at < |a| && !IsAsciiAlphanumeric(a[at])
    ensures var s := ApplyEdit(a, Remove(at));
            |s| == |a| - 1 && s[..at] == a[..at] && Normalize(s[at..]) == Normalize(a[at..])
  {
    assert ApplyEdit(a, Remove(at))[at..] == a[at..][1..];
  }

  lemma InsertStep(a: string, b: string, at: nat)
    requires at <= |a| && at < |b| && !IsAsciiAlphanumeric(b[at]) && a[..at] == b[..at]
    ensures var s := ApplyEdit(a, Insert(at, b[at]));
            |s| == |a| + 1 && s[..at + 1] == b[..at + 1] && s[at + 1..] == a[at..]
    ensures Normalize(b[at + 1..]) == Normalize(b[at..])
  {
    assert b[at + 1..] == b[at..][1..];
    assert b[..at + 1] == b[..at] + [b[at]];
  }

  /** The first characters agree up to case and the rests have the same normal form. */
  lemma SameLetterStep(a: string, b: string, at: nat)
    requires at < |a| && at < |b| && IsAsciiAlphanumeric(a[at]) && IsAsciiAlphanumeric(b[at])
    requires Normalize(a[at..]) == Normalize(b[at..])
    ensures Normalize(a[at + 1..]) == Normalize(b[at + 1..])
    ensures a[at] == b[at] || OtherCase(a[at]) == b[at]
  {
    assert a[at + 1..] == a[at..][1..] && b[at + 1..] == b[at..][1..];
    SameHeadSameTail(ToAsciiUppercase(a[at]), Normalize(a[at + 1..]), ToAsciiUppercase(b[at]), Normalize(b[at + 1..]));
  }

  lemma SwapStep(a: string, b: string, at: nat)
    requires at < |a| && at < |b| && OtherCase(a[at]) == b[at] && a[..at] == b[..at]
    ensures var s := ApplyEdit(a, SwapCase(at));
            |s| == |a| && s[..at + 1] == b[..at + 1] && s[at + 1..] == a[at + 1..]
  {
    assert b[..at + 1] == b[..at] + [b[at]];
  }

  lemma FirstEdit(a: string, e: Edit, rest: seq<Edit>)
    ensures ApplyEdits(a, [e] + rest) == ApplyEdits(ApplyEdit(a, e), rest)
  {
    assert ([e] + rest)[1..] == rest;
  }

  /** Texts with the same normal form are one key typed differently: harmless changes lead from one to the other. */
  lemma {:induction false} SameKeyByEdits(a: string, b: string, done: nat) returns (edits: seq<Edit>)
    requires done <= |a| && done <= |b| && a[..done] == b[..done]
    requires Normalize(a[done..]) == Normalize(b[done..])
    ensures ApplyEdits(a, edits) == b
    decreases |a| - done + (|b| - done)
  {
    if done < |a| && !IsAsciiAlphanumeric(a[done]) {
      RemoveStep(a, done);
      edits := SameKeyByEdits(ApplyEdit(a, Remove(done)), b, done);
      FirstEdit(a, Remove(done), edits);
      edits := [Remove(done)] + edits;
    } else if done < |b| && !IsAsciiAlphanumeric(b[done]) {
      InsertStep(a, b, done);
      edits := SameKeyByEdits(ApplyEdit(a, Insert(done, b[done])), b, done + 1);
      FirstEdit(a, Insert(done, b[done]), edits);
      edits := [Insert(done, b[done])] + edits;
    } else if done < |a| && done < |b| {
      SameLetterStep(a, b, done);
      if a[done] == b[done] {
        assert a[..done + 1] == a[..done] + [a[done]] && b[..done + 1] == b[..done] + [b[done]];
        edits := SameKeyByEdits(a, b, done + 1);
      } else {
        SwapStep(a, b, done);
        edits := SameKeyByEdits(ApplyEdit(a, SwapCase(done)), b, done + 1);
        FirstEdit(a, SwapCase(done), edits);
        edits := [SwapCase(done)] + edits;
      }
    } else {
      assert a == a[..done] && b == b[..done];
      edits := [];
    }
  }

  /** Two texts are the same key exactly when harmless changes lead from one to the other. */
  lemma SameKeyIffEdits(a: string, b: string)
    ensures Normalize(a) == Normalize(b) <==> exists edits :: ApplyEdits(a, edits) == b
  {
    if Normalize(a) == Normalize(b) {
      assert a[0..] == a && b[0..] == b;
      var edits := SameKeyByEdits(a, b, 0);
    }
    forall edits | ApplyEdits(a, edits) == b ensures Normalize(a) == Normalize(b) {
      EditsKeepKey(a, edits);
    }
  }

  // ----- the exact distribution of keys

  function Pow(base: nat, exponent: nat): nat {
    if exponent == 0 then 1 else base * Pow(base, exponent - 1)
  }

  lemma Regroup(a: nat, x: nat, b: nat, y: nat)
    ensures (a * x) * (b * y) == (a * b) * (x * y)
  {
    calc {
      (a * x) * (b * y);
      a * (x * (b * y));
      a * (b * (x * y));
      (a * b) * (x * y);
    }
  }

  lemma {:induction false} PowProduct(a: nat, b: nat, n: nat)
    ensures Pow(a, n) * Pow(b, n) == Pow(a * b, n)
  {
    if n == 0 {
    } else {
      PowProduct(a, b, n - 1);
      Regroup(a, Pow(a, n - 1), b, Pow(b, n - 1));
    }
  }

  /** All sequences whose head is in `heads` and whose tail is in `tails`. */
  ghost function Prepend(heads: set<Byte>, tails: set<seq<Byte>>): set<seq<Byte>> {
    set h, t | h in heads && t in tails :: [h] + t
  }

  lemma InPrepend(heads: set<Byte>, tails: set<seq<Byte>>, s: seq<Byte>)
    ensures s in Prepend(heads, tails) <==> s != [] && s[0] in heads && s[1..] in tails
  {
    if s != [] && s[0] in heads && s[1..] in tails {
      assert s == [s[0]] + s[1..];
    }
    if s in Prepend(heads, tails) {
      var h, t :| h in heads && t in tails && s == [h] + t;
      assert s[1..] == t;
    }
  }

  lemma PrependOneMore(h: Byte, tails: set<seq<Byte>>, t: seq<Byte>)
    requires t !in tails
    ensures Prepend({h}, tails + {t}) == Prepend({h}, tails) + {[h] + t} && [h] + t !in Prepend({h}, tails)
  {
    assert ([h] + t)[1..] == t;
    InPrepend({h}, tails, [h] + t);
    forall s ensures s in Prepend({h}, tails + {t}) <==> s in Prepend({h}, tails) || s == [h] + t {
      InPrepend({h}, tails + {t}, s);
      InPrepend({h}, tails, s);
      assert s != [] ==> s == [s[0]] + s[1..];
    }
  }

  lemma {:induction false} PrependOneSize(h: Byte, tails: set<seq<Byte>>)
    ensures |Prepend({h}, tails)| == |tails|
  {
    if tails == {} {
      assert Prepend({h}, tails) == {};
    } else {
      var t :| t in tails;
      PrependOneSize(h, tails - {t});
      PrependOneMore(h, tails - {t}, t);
      assert tails == (tails - {t}) + {t};
    }
  }

  lemma PrependSplit(h: Byte, rest: set<Byte>, tails: set<seq<Byte>>)
    requires h !in rest
    ensures |Prepend(rest + {h}, tails)| == |Prepend(rest, tails)| + |Prepend({h}, tails)|
  {
    forall s
      ensures s in Prepend(rest + {h}, tails) <==> s in Prepend(rest, tails) || s in Prepend({h}, tails)
      ensures !(s in Prepend(rest, tails) && s in Prepend({h}, tails))
    {
      InPrepend(rest + {h}, tails, s);
      InPrepend(rest, tails, s);
      InPrepend({h}, tails, s);
    }
    assert Prepend(rest + {h}, tails) == Prepend(rest, tails) + Prepend({h}, tails);
    assert Prepend(rest, tails) !! Prepend({h}, tails);
  }

  lemma MulSuccessor(n: nat, m: nat)
    ensures (n + 1) * m == n * m + m
  {
  }

  lemma {:induction false} PrependSize(heads: set<Byte>, tails: set<seq<Byte>>)
    ensures |Prepend(heads, tails)| == |heads| * |tails|
  {
    if heads == {} {
      assert Prepend(heads, tails) == {};
    } else {
      var h :| h in heads;
      var rest := heads - {h};
      assert heads == rest + {h};
      PrependSize(rest, tails);
      PrependOneSize(h, tails);
      PrependSplit(h, rest, tails);
      MulSuccessor(|rest|, |tails|);
    }
  }

  /** The eight bytes with the same low five bits as `b`. */
  ghost function SameResidue(b: Byte): (s: set<Byte>)
    ensures forall c: Byte :: c in s <==> c as int % 32 == b as int % 32
  {
    var r: Byte := ((b as int) % 32) as Byte;
    {r, r + 32, r + 64, r + 96, r + 128, r + 160, r + 192, r + 224}
  }

  lemma SameResidueSize(b: Byte)
    ensures |SameResidue(b)| == 8
  {
    var r: Byte := ((b as int) % 32) as Byte;
    assert |{r, r + 32, r + 64, r + 96}| == 4;
    assert |{r + 128, r + 160, r + 192, r + 224}| == 4;
    assert SameResidue(b) == {r, r + 32, r + 64, r + 96} + {r + 128, r + 160, r + 192, r + 224};
  }

  predicate IsBelow(c: Byte, n: nat) {
    (c as int) < n
  }

  ghost function AllBytes(): set<Byte> {
    set c: Byte | IsBelow(c, 256)
  }

  lemma {:induction false} BytesBelowSize(n: nat)
    requires n <= 256
    ensures |set c: Byte | IsBelow(c, n)| == n
  {
    if n == 0 {
    } else {
      var m := n - 1;
      BytesBelowSize(m);
      assert (set c: Byte | IsBelow(c, n)) == (set c: Byte | IsBelow(c, m)) + {m as Byte};
    }
  }

  /** All byte buffers of one length. */
  ghost function Buffers(n: nat): set<seq<Byte>> {
    if n == 0 then {[]} else Prepend(AllBytes(), Buffers(n - 1))
  }

  lemma {:induction false} BuffersExact(n: nat, bytes: seq<Byte>)
    ensures bytes in Buffers(n) <==> |bytes| == n
  {
    if n == 0 {
    } else {
      InPrepend(AllBytes(), Buffers(n - 1), bytes);
      if bytes != [] {
        BuffersExact(n - 1, bytes[1..]);
      }
    }
  }

  lemma {:induction false} BuffersSize(n: nat)
    ensures |Buffers(n)| == Pow(256, n)
  {
    if n == 0 {
    } else {
      BuffersSize(n - 1);
      BytesBelowSize(256);
      PrependSize(AllBytes(), Buffers(n - 1));
    }
  }

  /** The buffers that spell the same symbols as `bytes`. */
  ghost function Spelling(bytes: seq<Byte>): set<seq<Byte>> {
    if bytes == [] then {[]} else Prepend(SameResidue(bytes[0]), Spelling(bytes[1..]))
  }

  lemma {:induction false} SpellingExact(bytes: seq<Byte>, other: seq<Byte>)
    ensures other in Spelling(bytes) <==> Symbols(other) == Symbols(bytes)
  {
    if bytes != [] {
      InPrepend(SameResidue(bytes[0]), Spelling(bytes[1..]), other);
      if other != [] {
        SpellingExact(bytes[1..], other[1..]);
        SymbolDeterminesResidue(bytes[0], other[0]);
        if Symbols(other) == Symbols(bytes) {
          SameHeadSameTail(Symbol(other[0]), Symbols(other[1..]), Symbol(bytes[0]), Symbols(bytes[1..]));
        }
      }
    } else if Symbols(other) == Symbols(bytes) {
      assert |other| == 0;
    }
  }

  lemma {:induction false} SpellingSize(bytes: seq<Byte>)
    ensures |Spelling(bytes)| == Pow(8, |bytes|)
  {
    if bytes == [] {
    } else {
      SpellingSize(bytes[1..]);
      SameResidueSize(bytes[0]);
      PrependSize(SameResidue(bytes[0]), Spelling(bytes[1..]));
    }
  }

  lemma SameKeyIffSpelling(bytes: seq<Byte>, other: seq<Byte>)
    requires |bytes| == KEY_BYTES && |other| == KEY_BYTES
    ensures other in Spelling(bytes) <==> Normalize(KeyText(other)) == Normalize(KeyText(bytes))
  {
    SpellingExact(bytes, other);
    GeneratedKeyNormalizes(bytes);
    GeneratedKeyNormalizes(other);
    DropStart(BRAND, Symbols(bytes), Symbols(other));
  }

  lemma DropStart(start: string, a: string, b: string)
    ensures start + a == start + b <==> a == b
  {
    assert (start + a)[|start|..] == a && (start + b)[|start|..] == b;
  }

  lemma SpellingLength(bytes: seq<Byte>, other: seq<Byte>)
    requires other in Spelling(bytes)
    ensures |other| == |bytes|
  {
    SpellingExact(bytes, other);
    SymbolsAt(bytes);
    SymbolsAt(other);
  }

  /** Every key comes from exactly 8^25 of the 256^25 buffers, so each of the 32^25 keys is equally likely. */
  lemma KeysAreUniform(bytes: seq<Byte>, n: nat)
    requires |bytes| == n == KEY_BYTES
    ensures forall other :: other in Buffers(n) <==> |other| == n
    ensures forall other :: |other| == n ==>
        (other in Spelling(bytes) <==> Normalize(KeyText(other)) == Normalize(KeyText(bytes)))
    ensures Spelling(bytes) <= Buffers(n)
    ensures |Spelling(bytes)| == Pow(8, n) && |Buffers(n)| == Pow(256, n)
    ensures Pow(32, n) * |Spelling(bytes)| == |Buffers(n)|
  {
    forall other ensures other in Buffers(n) <==> |other| == n {
      BuffersExact(n, other);
    }
    forall other | |other| == n
      ensures other in Spelling(bytes) <==> Normalize(KeyText(other)) == Normalize(KeyText(bytes))
    {
      SameKeyIffSpelling(bytes, other);
    }
    forall other | other in Spelling(bytes) ensures |other| == n {
      SpellingLength(bytes, other);
    }
    SpellingSize(bytes);
    BuffersSize(n);
    PowProduct(32, 8, n);
  }
}
