/**
 * DomainFactory: the validation rules that guard the creation of every entity. The ID
 * generator is consulted at one fixed point of each rule chain; `newId` is the outcome
 * that call would return, and it only matters if the chain gets that far.
 */
module Factory {
  import opened Models
  import opened Text

  /** Invariant of an account the factory creates. */
  predicate WellFormedAccount(a: BankAccount) {
    !IsBlank(a.name) && a.balance >= 0.0
  }

  /** Invariant of a category the factory creates. */
  predicate WellFormedCategory(c: Category) {
    !IsBlank(c.name) && IsKnownType(c.kind)
  }

  /** Invariant of an operation the factory creates. */
  predicate WellFormedOperation(o: Operation) {
    IsKnownType(o.kind) && !IsBlank(o.accountId) && !IsBlank(o.categoryId)
    && o.amount > 0.0 && o.date != 0 && TrimSpace(o.description) == o.description
  }

  /** CreateBankAccount: a blank name is refused before any ID is generated; a generator
      failure comes next, ahead of the negative-balance check. The name is kept as given. */
  function CreateBankAccount(name: string, initialBalance: real, newId: Result<string>): (r: Result<BankAccount>)
    ensures r.Ok? <==> !IsBlank(name) && newId.Ok? && initialBalance >= 0.0
    ensures r.Ok? ==> (WellFormedAccount(r.value)
                       && r.value == BankAccount(newId.value, name, initialBalance))
    ensures IsBlank(name) ==> r == Err(Rejected(AccountNameRequired))
    ensures !IsBlank(name) && newId.Err? ==> r == Err(IdFailed(AccountEntity, newId.error))
    ensures !IsBlank(name) && newId.Ok? && initialBalance < 0.0 ==> r == Err(Rejected(NegativeInitialBalance))
  {
    if TrimSpace(name) == [] then Err(Rejected(AccountNameRequired))
    else if newId.Err? then Err(IdFailed(AccountEntity, newId.error))
    else if initialBalance < 0.0 then Err(Rejected(NegativeInitialBalance))
    else Ok(BankAccount(newId.value, name, initialBalance))
  }

  /** CreateCategory: a blank name, then an unknown type, are refused before any ID is
      generated. The name is kept as given. */
  function CreateCategory(name: string, kind: string, newId: Result<string>): (r: Result<Category>)
    ensures r.Ok? <==> !IsBlank(name) && IsKnownType(kind) && newId.Ok?
    ensures r.Ok? ==> WellFormedCategory(r.value) && r.value == Category(newId.value, kind, name)
    ensures IsBlank(name) ==> r == Err(Rejected(CategoryNameRequired))
    ensures !IsBlank(name) && !IsKnownType(kind) ==> r == Err(Rejected(InvalidCategoryType))
    ensures !IsBlank(name) && IsKnownType(kind) && newId.Err? ==> r == Err(IdFailed(CategoryEntity, newId.error))
  {
    if TrimSpace(name) == [] then Err(Rejected(CategoryNameRequired))
    else if !IsKnownType(kind) then Err(Rejected(InvalidCategoryType))
    else if newId.Err? then Err(IdFailed(CategoryEntity, newId.error))
    else Ok(Category(newId.value, kind, name))
  }

  /** The reason CreateOperation refuses its arguments, checked in order: type, account
      ID, category ID, amount, date; None when all pass. */
  function OperationDefect(kind: string, accountId: string, categoryId: string, amount: real, date: int): (d: Option<Reason>)
    ensures d.None? <==> IsKnownType(kind) && !IsBlank(accountId) && !IsBlank(categoryId) && amount > 0.0 && date != 0
    ensures !IsKnownType(kind) ==> d == Some(InvalidOperationType)
    ensures IsKnownType(kind) && IsBlank(accountId) ==> d == Some(AccountIdRequired)
    ensures IsKnownType(kind) && !IsBlank(accountId) && IsBlank(categoryId) ==> d == Some(CategoryIdRequired)
    ensures IsKnownType(kind) && !IsBlank(accountId) && !IsBlank(categoryId) && amount <= 0.0 ==> d == Some(NonPositiveAmount)
    ensures IsKnownType(kind) && !IsBlank(accountId) && !IsBlank(categoryId) && amount > 0.0 && date == 0 ==> d == Some(DateRequired)
  {
    if !IsKnownType(kind) then Some(InvalidOperationType)
    else if TrimSpace(accountId) == [] then Some(AccountIdRequired)
    else if TrimSpace(categoryId) == [] then Some(CategoryIdRequired)
    else if amount <= 0.0 then Some(NonPositiveAmount)
    else if date == 0 then Some(DateRequired)
    else None
  }

  /** CreateOperation: the first defect wins; only then is the ID generated. The
      description is stored trimmed, every other field as given. */
  function CreateOperation(kind: string, accountId: string, categoryId: string, amount: real, date: int,
                           description: string, newId: Result<string>): (r: Result<Operation>)
    ensures r.Ok? <==> OperationDefect(kind, accountId, categoryId, amount, date).None? && newId.Ok?
    ensures r.Ok? ==> (WellFormedOperation(r.value)
                       && r.value == Operation(newId.value, kind, accountId, amount, date, TrimSpace(description), categoryId))
    ensures OperationDefect(kind, accountId, categoryId, amount, date).Some? ==>
      r == Err(Rejected(OperationDefect(kind, accountId, categoryId, amount, date).value))
    ensures OperationDefect(kind, accountId, categoryId, amount, date).None? && newId.Err? ==>
      r == Err(IdFailed(OperationEntity, newId.error))
  {
    match OperationDefect(kind, accountId, categoryId, amount, date)
    case Some(reason) => Err(Rejected(reason))
    case None =>
      if newId.Err? then Err(IdFailed(OperationEntity, newId.error))
      else
        TrimSpaceIdempotent(description);
        Ok(Operation(newId.value, kind, accountId, amount, date, TrimSpace(description), categoryId))
  }

  /** Rules checked before the generator is consulted make the outcome independent of it. */
  lemma RefusalIgnoresGenerator(name: string, kind: string, balance: real, g1: Result<string>, g2: Result<string>)
    ensures IsBlank(name) ==> CreateBankAccount(name, balance, g1) == CreateBankAccount(name, balance, g2)
    ensures IsBlank(name) || !IsKnownType(kind) ==> CreateCategory(name, kind, g1) == CreateCategory(name, kind, g2)
  {
  }

  /** The same for operations: any defect is reported whatever the generator would do. */
  lemma OperationRefusalIgnoresGenerator(kind: string, accountId: string, categoryId: string, amount: real,
                                         date: int, description: string, g1: Result<string>, g2: Result<string>)
    requires OperationDefect(kind, accountId, categoryId, amount, date).Some?
    ensures CreateOperation(kind, accountId, categoryId, amount, date, description, g1)
         == CreateOperation(kind, accountId, categoryId, amount, date, description, g2)
  {
  }

  /** A generator failure masks a negative balance: the account error names the
      generator, never the balance. */
  lemma GeneratorFailureMasksBalance(name: string, balance: real, e: Error)
    requires !IsBlank(name) && balance < 0.0
    ensures CreateBankAccount(name, balance, Err(e)) == Err(IdFailed(AccountEntity, e))
    ensures CreateBankAccount(name, balance, Ok("id")) == Err(Rejected(NegativeInitialBalance))
  {
  }
}

/**
 * newUUID: a version-4 UUID from 16 random bytes, written as 36 lower-case characters in
 * the 8-4-4-4-12 layout of section 3 of RFC 4122.
 */
module Uuid {
  import opened Models

  /** Lower-case hexadecimal digit of a value below 16. */
  function HexDigit(n: bv8): (c: char)
    requires n < 16
    ensures IsHexDigit(c)
  {
    if n < 10 then ('0' as int + n as int) as char else ('a' as int + n as int - 10) as char
  }

  predicate IsHexDigit(c: char) {
    '0' <= c <= '9' || 'a' <= c <= 'f'
  }

  /** Value of a lower-case hexadecimal digit; 0 for any other character. */
  function DigitValue(c: char): (n: bv8)
    ensures n < 16
    ensures IsHexDigit(c) ==> HexDigit(n) == c
  {
    if '0' <= c <= '9' then (c as int - '0' as int) as bv8
    else if 'a' <= c <= 'f' then (c as int - 'a' as int + 10) as bv8
    else 0
  }

  lemma DigitRoundTrip(n: bv8)
    requires n < 16
    ensures DigitValue(HexDigit(n)) == n
  {
  }

  /** Character `i` of the hex encoding of `s`: high nibble first. */
  function HexAt(s: seq<bv8>, i: nat): char
    requires i < 2 * |s|
  {
    if i % 2 == 0 then HexDigit(s[i / 2] >> 4) else HexDigit(s[i / 2] & 0x0f)
  }

  /** hex.Encode: two lower-case digits per byte. */
  function Hex(s: seq<bv8>): (h: string)
    ensures |h| == 2 * |s|
    ensures forall i :: 0 <= i < |h| ==> h[i] == HexAt(s, i) && IsHexDigit(h[i])
  {
    seq(2 * |s|, i requires 0 <= i < 2 * |s| => HexAt(s, i))
  }

  /** The bytes a hex text of even length stands for. */
  function Unhex(h: string): (s: seq<bv8>)
    requires |h| % 2 == 0
    ensures |s| == |h| / 2
  {
    seq(|h| / 2, j requires 0 <= j < |h| / 2 => PairValue(h[2 * j], h[2 * j + 1]))
  }

  /** Byte `j` of the decoding is read from digits 2j and 2j+1. */
  lemma UnhexAt(h: string, j: nat)
    requires |h| % 2 == 0 && j < |h| / 2
    ensures Unhex(h)[j] == PairValue(h[2 * j], h[2 * j + 1])
  {
  }

  /** The byte two hex digits stand for, high digit first. */
  function PairValue(hi: char, lo: char): bv8 {
    (DigitValue(hi) << 4) | DigitValue(lo)
  }

  lemma ByteRoundTrip(x: bv8)
    ensures PairValue(HexDigit(x >> 4), HexDigit(x & 0x0f)) == x
  {
    DigitRoundTrip(x >> 4);
    DigitRoundTrip(x & 0x0f);
  }

  /** Decoding an encoding gives the bytes back. */
  lemma UnhexHex(s: seq<bv8>)
    ensures Unhex(Hex(s)) == s
  {
    var h := Hex(s);
    forall j | 0 <= j < |s|
      ensures Unhex(h)[j] == s[j]
    {
      UnhexAt(h, j);
      HexPair(s, j);
      ByteRoundTrip(s[j]);
    }
  }

  /** Byte `j` is written at positions 2j and 2j+1. */
  lemma HexPair(s: seq<bv8>, j: nat)
    requires j < |s|
    ensures Hex(s)[2 * j] == HexDigit(s[j] >> 4)
    ensures Hex(s)[2 * j + 1] == HexDigit(s[j] & 0x0f)
  {
    assert (2 * j) % 2 == 0 && (2 * j) / 2 == j;
    assert (2 * j + 1) % 2 == 1 && (2 * j + 1) / 2 == j;
  }

  /** The version and variant stamp: version nibble 4, variant bits 10. */
  function Stamp(b: seq<bv8>): (s: seq<bv8>)
    requires |b| == 16
    ensures |s| == 16
    ensures s[6] >> 4 == 4 && s[6] & 0x0f == b[6] & 0x0f
    ensures s[8] >> 6 == 2 && s[8] & 0x3f == b[8] & 0x3f
    ensures forall i :: 0 <= i < 16 && i != 6 && i != 8 ==> s[i] == b[i]
  {
    b[6 := (b[6] & 0x0f) | 0x40][8 := (b[8] & 0x3f) | 0x80]
  }

  predicate IsDashPosition(i: int) {
    i == 8 || i == 13 || i == 18 || i == 23
  }

  /** How many dashes precede character `i` of the text. */
  function DashesBefore(i: nat): nat {
    if i < 9 then 0 else if i < 14 then 1 else if i < 19 then 2 else if i < 24 then 3 else 4
  }

  /** The 8-4-4-4-12 text of 16 bytes: 32 hex digits with a dash after the 8th, 12th,
      16th and 20th digit. */
  function UuidText(b: seq<bv8>): (t: string)
    requires |b| == 16
    ensures |t| == 36
  {
    seq(36, i requires 0 <= i < 36 => if IsDashPosition(i) then '-' else HexAt(b, i - DashesBefore(i)))
  }

  /** The text of any 16 bytes has dashes at 8, 13, 18 and 23 and lower-case
      hexadecimal digits everywhere else. */
  lemma UuidLayout(b: seq<bv8>)
    requires |b| == 16
    ensures forall i :: 0 <= i < 36 ==> (UuidText(b)[i] == '-' <==> IsDashPosition(i))
    ensures forall i :: 0 <= i < 36 && !IsDashPosition(i) ==> IsHexDigit(UuidText(b)[i])
  {
  }

  /** After stamping, character 14 is the version digit 4 and character 19 is one of the
      variant digits 8, 9, a, b. */
  lemma UuidVersionAndVariant(b: seq<bv8>)
    requires |b| == 16
    ensures UuidText(Stamp(b))[14] == '4'
    ensures UuidText(Stamp(b))[19] in {'8', '9', 'a', 'b'}
  {
    var s := Stamp(b);
    assert UuidText(s)[14] == HexAt(s, 12) == HexDigit(s[6] >> 4);
    assert s[6] >> 4 == 4;
    assert UuidText(s)[19] == HexAt(s, 16) == HexDigit(s[8] >> 4);
    assert 8 <= s[8] >> 4 < 12;
  }

  /** Position in the text of hex digit `n` (of 32). */
  function DigitPosition(n: nat): nat {
    if n < 8 then n else if n < 12 then n + 1 else if n < 16 then n + 2 else if n < 20 then n + 3 else n + 4
  }

  /** The bytes a UUID text spells, read back from the fixed digit positions. */
  function UuidBytes(t: string): (b: seq<bv8>)
    requires |t| == 36
    ensures |b| == 16
  {
    seq(16, j requires 0 <= j < 16 => PairValue(t[DigitPosition(2 * j)], t[DigitPosition(2 * j + 1)]))
  }

  /** The text determines the bytes: reading them back gives what was written. */
  lemma UuidRoundTrip(b: seq<bv8>)
    requires |b| == 16
    ensures UuidBytes(UuidText(b)) == b
  {
    var t := UuidText(b);
    forall j | 0 <= j < 16
      ensures UuidBytes(t)[j] == b[j]
    {
      UuidDigits(b, j);
      assert UuidBytes(t)[j] == PairValue(t[DigitPosition(2 * j)], t[DigitPosition(2 * j + 1)]);
      ByteRoundTrip(b[j]);
    }
  }

  /** Byte `j` is written as the text's digits 2j and 2j+1. */
  lemma UuidDigits(b: seq<bv8>, j: nat)
    requires |b| == 16 && j < 16
    ensures UuidText(b)[DigitPosition(2 * j)] == HexDigit(b[j] >> 4)
    ensures UuidText(b)[DigitPosition(2 * j + 1)] == HexDigit(b[j] & 0x0f)
  {
    var p, q := DigitPosition(2 * j), DigitPosition(2 * j + 1);
    assert !IsDashPosition(p) && p - DashesBefore(p) == 2 * j;
    assert !IsDashPosition(q) && q - DashesBefore(q) == 2 * j + 1;
    HexPair(b, j);
  }

  /** A digit of the encoding of a slice is the matching digit of the whole. */
  lemma HexAtSlice(b: seq<bv8>, lo: nat, hi: nat, k: nat)
    requires lo <= hi <= |b| && k < 2 * (hi - lo)
    ensures HexAt(b[lo..hi], k) == HexAt(b, 2 * lo + k)
  {
    assert (2 * lo + k) % 2 == k % 2 && (2 * lo + k) / 2 == lo + k / 2;
  }

  /** hex.Encode of `src` into dst[at..at + 2 * |src|]; the rest of dst is untouched. */
  method EncodeHex(dst: array<char>, at: nat, src: seq<bv8>)
    requires at + 2 * |src| <= dst.Length
    modifies dst
    ensures forall i :: 0 <= i < 2 * |src| ==> dst[at + i] == HexAt(src, i)
    ensures forall i :: 0 <= i < dst.Length && !(at <= i < at + 2 * |src|) ==> dst[i] == old(dst[i])
  {
    var j := 0;
    while j < |src|
      invariant 0 <= j <= |src|
      invariant forall i :: 0 <= i < 2 * j ==> dst[at + i] == HexAt(src, i)
      invariant forall i :: 0 <= i < dst.Length && !(at <= i < at + 2 * |src|) ==> dst[i] == old(dst[i])
    {
      HexPair(src, j);
      dst[at + 2 * j] := HexDigit(src[j] >> 4);
      dst[at + 2 * j + 1] := HexDigit(src[j] & 0x0f);
      j := j + 1;
    }
  }

  /** The digits written for bytes b[lo..hi] at `at` are the text's digits there. */
  lemma GroupMatches(dst: seq<char>, b: seq<bv8>, at: nat, lo: nat, hi: nat)
    requires |b| == 16 && |dst| == 36
    requires lo <= hi <= 16 && at + 2 * (hi - lo) <= 36
    requires forall k :: 0 <= k < 2 * (hi - lo) ==> dst[at + k] == HexAt(b[lo..hi], k)
    requires (at, lo, hi) in {(0, 0, 4), (9, 4, 6), (14, 6, 8), (19, 8, 10), (24, 10, 16)}
    ensures forall i :: at <= i < at + 2 * (hi - lo) ==> dst[i] == UuidText(b)[i]
  {
    forall i | at <= i < at + 2 * (hi - lo)
      ensures dst[i] == UuidText(b)[i]
    {
      var k := i - at;
      assert !IsDashPosition(i) && i - DashesBefore(i) == 2 * lo + k;
      assert dst[at + k] == HexAt(b[lo..hi], k);
      HexAtSlice(b, lo, hi, k);
    }
  }

  /** newUUID, given what reading 16 random bytes returned: the bytes are stamped with
      the version and variant, then hex-encoded in groups of 4, 2, 2, 2 and 6 bytes. */
  method NewUuid(random: Result<seq<bv8>>) returns (r: Result<string>)
    requires random.Ok? ==> |random.value| == 16
    ensures r.Err? <==> random.Err?
    ensures r.Err? ==> r.error == RandomFailed
    ensures r.Ok? ==> r.value == UuidText(Stamp(random.value))
  {
    if random.Err? {
      return Err(RandomFailed);
    }
    var b := new bv8[16](i requires 0 <= i < 16 => random.value[i]);
    b[6] := (b[6] & 0x0f) | 0x40;
    b[8] := (b[8] & 0x3f) | 0x80;
    assert b[..] == Stamp(random.value);
    var text := Format(b[..]);
    r := Ok(text);
  }

  /** The second half of newUUID: the 36-character buffer filled group by group. */
  method Format(b: seq<bv8>) returns (text: string)
    requires |b| == 16
    ensures text == UuidText(b)
  {
    var dst := new char[36](_ => ' ');
    WriteGroup(dst, b, 0, 0, 4);
    WriteGroup(dst, b, 9, 4, 6);
    WriteGroup(dst, b, 14, 6, 8);
    WriteGroup(dst, b, 19, 8, 10);
    WriteGroup(dst, b, 24, 10, 16);
    assert dst[..] == UuidText(b);
    text := dst[..];
  }

  /** One step of newUUID: hex-encodes b[lo..hi] into the text at `at` and writes the
      dash that follows the group, except after the last one. */
  method WriteGroup(dst: array<char>, b: seq<bv8>, at: nat, lo: nat, hi: nat)
    requires |b| == 16 && dst.Length == 36
    requires (at, lo, hi) in {(0, 0, 4), (9, 4, 6), (14, 6, 8), (19, 8, 10), (24, 10, 16)}
    requires PrefixMatches(dst[..], b, at)
    modifies dst
    ensures PrefixMatches(dst[..], b, if at == 24 then 36 else at + 2 * (hi - lo) + 1)
  {
    EncodeHex(dst, at, b[lo..hi]);
    GroupMatches(dst[..], b, at, lo, hi);
    if at != 24 {
      dst[at + 2 * (hi - lo)] := '-';
    }
  }

  /** The first `n` characters of `d` are those of the text of `b`. */
  predicate PrefixMatches(d: seq<char>, b: seq<bv8>, n: nat)
    requires |b| == 16 && |d| == 36 && n <= 36
  {
    forall i :: 0 <= i < n ==> d[i] == UuidText(b)[i]
  }
}
