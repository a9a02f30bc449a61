/** Data chunk identifiers: validation, printing, parsing, and the reader's own formatter. */
module ChunkId {
  import opened Words

  const HASH_MIN_LEN: nat := 5
  const HASH_MAX_LEN: nat := 8

  datatype DataChunk = DataChunk(top: u64, firstBlock: u64, lastBlock: u64, lastHash: seq<u8>)

  // ----- hashes -----

  predicate IsWordChar(c: char) {
    '0' <= c <= '9' || 'a' <= c <= 'z' || 'A' <= c <= 'Z' || c == '_'
  }

  predicate ValidHash(hash: string) {
    HASH_MIN_LEN <= |hash| <= HASH_MAX_LEN && forall c :: c in hash ==> IsWordChar(c)
  }

  function Bytes(text: string): seq<u8>
    requires forall c :: c in text ==> c < 128 as char
  {
    seq(|text|, i requires 0 <= i < |text| => assert text[i] in text; ByteOf(text[i]))
  }

  function ByteOf(c: char): u8
    requires c < 128 as char
  {
    c as int
  }

  /** The text of ASCII bytes; `None` where the bytes are not ASCII. */
  function AsciiText(bytes: seq<u8>): Option<string> {
    if forall b :: b in bytes ==> b < 128
    then Some(seq(|bytes|, i requires 0 <= i < |bytes| => assert bytes[i] in bytes; bytes[i] as char))
    else None
  }

  function PadHash(bytes: seq<u8>): seq<u8>
    requires |bytes| <= HASH_MAX_LEN
  {
    bytes + seq(HASH_MAX_LEN - |bytes|, _ => 0)
  }

  /** Everything before the first NUL. */
  function TrimNul(bytes: seq<u8>): seq<u8> {
    if bytes == [] || bytes[0] == 0 then [] else [bytes[0]] + TrimNul(bytes[1..])
  }

  function HashText(padded: seq<u8>): Option<string> {
    AsciiText(TrimNul(padded))
  }

  lemma {:induction false} TrimUndoesPad(bytes: seq<u8>, zeros: seq<u8>)
    requires 0 !in bytes
    requires forall z :: z in zeros ==> z == 0
    ensures TrimNul(bytes + zeros) == bytes
  {
    if bytes == [] {
      assert bytes + zeros == zeros;
      assert zeros != [] ==> zeros[0] in zeros;
    } else {
      assert (bytes + zeros)[1..] == bytes[1..] + zeros;
      TrimUndoesPad(bytes[1..], zeros);
    }
  }

  /** Padding a valid hash to the fixed width loses nothing. */
  lemma {:induction false} HashRoundTrip(hash: string)
    requires ValidHash(hash)
    ensures forall c :: c in hash ==> c < 128 as char
    ensures |PadHash(Bytes(hash))| == HASH_MAX_LEN
    ensures HashText(PadHash(Bytes(hash))) == Some(hash)
  {
    var bytes := Bytes(hash);
    forall b | b in bytes ensures 0 < b < 128 {
      var i :| 0 <= i < |bytes| && bytes[i] == b;
      assert hash[i] in hash;
    }
    TrimUndoesPad(bytes, PadHash(bytes)[|bytes|..]);
    assert PadHash(bytes) == bytes + PadHash(bytes)[|bytes|..];
    assert AsciiText(bytes).value == hash;
  }

  // ----- construction -----

  /** The values the private fields can hold. */
  ghost predicate Valid(chunk: DataChunk) {
    && chunk.top <= chunk.firstBlock <= chunk.lastBlock
    && exists hash :: IsHashOf(hash, chunk.lastHash)
  }

  ghost predicate IsHashOf(hash: string, padded: seq<u8>) {
    ValidHash(hash) && (HashRoundTrip(hash); padded == PadHash(Bytes(hash)))
  }

  function New(top: u64, firstBlock: u64, lastBlock: u64, lastHash: string): (r: Option<DataChunk>)
    ensures r.Some? <==> ValidHash(lastHash) && top <= firstBlock <= lastBlock
    ensures r.Some? ==> Valid(r.value) && HashText(r.value.lastHash) == Some(lastHash)
  {
    if ValidHash(lastHash) && top <= firstBlock <= lastBlock then
      HashRoundTrip(lastHash);
      var chunk := DataChunk(top, firstBlock, lastBlock, PadHash(Bytes(lastHash)));
      assert IsHashOf(lastHash, chunk.lastHash);
      Some(chunk)
    else None
  }

  /** The short hash; total on the values `New` builds. */
  function LastHash(chunk: DataChunk): (hash: string)
    requires Valid(chunk)
    ensures IsHashOf(hash, chunk.lastHash)
  {
    ghost var hash :| IsHashOf(hash, chunk.lastHash);
    HashRoundTrip(hash);
    HashText(chunk.lastHash).value
  }

  /** What a builder stores in the fixed-width hash column. */
  function ChunkHash(chunk: DataChunk): seq<u8>
    requires Valid(chunk)
  {
    HashRoundTrip(LastHash(chunk));
    PadHash(Bytes(LastHash(chunk)))
  }

  // ----- decimal text -----

  function Digit(d: nat): char
    requires d < 10
  {
    '0' + d as char
  }

  predicate IsDigit(c: char) { '0' <= c <= '9' }

  predicate AllDigits(text: string) { forall i :: 0 <= i < |text| ==> IsDigit(text[i]) }

  /** What the standard formatter prints for a number. */
  function Decimal(n: nat): string {
    if n < 10 then [Digit(n)] else Decimal(n / 10) + [Digit(n % 10)]
  }

  function Zeros(k: nat): string { seq(k, _ => '0') }

  /** `{:010}`. */
  function Padded(n: nat): string {
    var text := Decimal(n);
    Zeros(if |text| < 10 then 10 - |text| else 0) + text
  }

  function DigitsValue(text: string): nat
    requires AllDigits(text)
  {
    if text == [] then 0
    else 10 * DigitsValue(text[..|text| - 1]) + (text[|text| - 1] as int - '0' as int)
  }

  /** The standard parser: an optional `+`, at least one digit, no overflow. */
  function ParseU64(text: string): Option<u64> {
    var digits := if text != [] && text[0] == '+' then text[1..] else text;
    if digits == [] || !AllDigits(digits) then None
    else if DigitsValue(digits) > U64_MAX then None
    else Some(DigitsValue(digits))
  }

  lemma {:induction false} DecimalParses(n: nat)
    ensures Decimal(n) != []
    ensures AllDigits(Decimal(n))
    ensures DigitsValue(Decimal(n)) == n
  {
    if n >= 10 {
      DecimalParses(n / 10);
      assert Decimal(n)[..|Decimal(n)| - 1] == Decimal(n / 10);
    } else {
      assert [Digit(n)][..0] == [];
    }
  }

  lemma {:induction false} LeadingZerosIgnored(k: nat, text: string)
    requires AllDigits(text)
    ensures AllDigits(Zeros(k) + text)
    ensures DigitsValue(Zeros(k) + text) == DigitsValue(text)
    decreases |text|, k
  {
    if text != [] {
      var front := text[..|text| - 1];
      assert (Zeros(k) + text)[..k + |text| - 1] == Zeros(k) + front;
      LeadingZerosIgnored(k, front);
    } else if k > 0 {
      assert (Zeros(k) + text)[..k - 1] == Zeros(k - 1) + text;
      LeadingZerosIgnored(k - 1, text);
    } else {
      assert Zeros(k) + text == text;
    }
  }

  /** Reading a padded number gives the number, however wide it is. */
  lemma {:induction false} PaddedParses(n: u64)
    ensures Padded(n) != [] && AllDigits(Padded(n))
    ensures ParseU64(Padded(n)) == Some(n)
  {
    DecimalParses(n);
    var text := Decimal(n);
    LeadingZerosIgnored(if |text| < 10 then 10 - |text| else 0, text);
  }

  // ----- Display and FromStr -----

  function ChunkIdText(top: nat, firstBlock: nat, lastBlock: nat, hash: string): string {
    Padded(top) + "/" + Padded(firstBlock) + "-" + Padded(lastBlock) + "-" + hash
  }

  function Display(chunk: DataChunk): string
    requires Valid(chunk)
  {
    ChunkIdText(chunk.top, chunk.firstBlock, chunk.lastBlock, LastHash(chunk))
  }

  /** The text before and after the first `sep`. */
  function SplitOnce(text: string, sep: char): Option<(string, string)> {
    if text == [] then None
    else if text[0] == sep then Some(([], text[1..]))
    else match SplitOnce(text[1..], sep)
      case None => None
      case Some(parts) => Some(([text[0]] + parts.0, parts.1))
  }

  function FromStr(text: string): Option<DataChunk> {
    match SplitOnce(text, '/')
    case None => None
    case Some((top, range)) =>
      match SplitOnce(range, '-')
      case None => None
      case Some((first, rest)) =>
        match SplitOnce(rest, '-')
        case None => None
        case Some((last, hash)) => FromParts(top, first, last, hash)
  }

  function FromParts(top: string, first: string, last: string, hash: string): Option<DataChunk> {
    match (ParseU64(top), ParseU64(first), ParseU64(last))
    case (Some(t), Some(f), Some(l)) => New(t, f, l, hash)
    case _ => None
  }

  lemma {:induction false} SplitAtSeparator(before: string, sep: char, after: string)
    requires sep !in before
    ensures SplitOnce(before + [sep] + after, sep) == Some((before, after))
  {
    var text := before + [sep] + after;
    if before == [] {
      assert text[1..] == after;
    } else {
      assert text[1..] == before[1..] + [sep] + after;
      assert before[0] in before;
      SplitAtSeparator(before[1..], sep, after);
      assert text[0] == before[0] && before == [before[0]] + before[1..];
    }
  }

  lemma {:induction false} SplitsBack(top: string, first: string, last: string, hash: string)
    requires '/' !in top && '-' !in first && '-' !in last
    ensures FromStr(top + "/" + first + "-" + last + "-" + hash) == FromParts(top, first, last, hash)
  {
    var rest := last + "-" + hash;
    var range := first + "-" + rest;
    assert top + "/" + first + "-" + last + "-" + hash == top + "/" + range;
    SplitAtSeparator(top, '/', range);
    SplitAtSeparator(first, '-', rest);
    SplitAtSeparator(last, '-', hash);
  }

  lemma PartsOf(chunk: DataChunk)
    requires Valid(chunk)
    ensures New(chunk.top, chunk.firstBlock, chunk.lastBlock, LastHash(chunk)) == Some(chunk)
  {
  }

  lemma {:induction false} PaddedHasNoSeparator(n: u64)
    ensures '/' !in Padded(n) && '-' !in Padded(n)
  {
    PaddedParses(n);
  }

  /** Parsing what was printed gives the same chunk, for every chunk there is. */
  lemma {:induction false} PrintParse(chunk: DataChunk)
    requires Valid(chunk)
    ensures FromStr(Display(chunk)) == Some(chunk)
  {
    PaddedHasNoSeparator(chunk.top);
    PaddedHasNoSeparator(chunk.firstBlock);
    PaddedHasNoSeparator(chunk.lastBlock);
    SplitsBack(Padded(chunk.top), Padded(chunk.firstBlock), Padded(chunk.lastBlock), LastHash(chunk));
    PaddedParses(chunk.top);
    PaddedParses(chunk.firstBlock);
    PaddedParses(chunk.lastBlock);
    PartsOf(chunk);
  }

  lemma {:induction false} DigitsHaveNoSeparator(text: string)
    requires AllDigits(text)
    ensures '/' !in text && '-' !in text
  {
  }

  /** Letters, digits and the underscore, by their ASCII codes. */
  predicate WordCode(code: int) { 48 <= code <= 57 || 65 <= code <= 90 || code == 95 || 97 <= code <= 122 }

  predicate AllWord(text: string) { forall i :: 0 <= i < |text| ==> WordCode(text[i] as int) }

  lemma {:induction false} ValidHashIff(hash: string)
    ensures ValidHash(hash) <==> 5 <= |hash| <= 8 && AllWord(hash)
  {
    forall i | 0 <= i < |hash| ensures WordCode(hash[i] as int) <==> IsWordChar(hash[i]) {
    }
    forall i | 0 <= i < |hash| ensures hash[i] in hash {
    }
    if AllWord(hash) {
      forall c | c in hash ensures IsWordChar(c) {
        var i :| 0 <= i < |hash| && hash[i] == c;
      }
    }
  }

  /** The parser takes numbers of any width, and refuses exactly what does not fit or is not a chunk. */
  lemma {:induction false} ParseExact(top: string, first: string, last: string, hash: string)
    requires top != [] && first != [] && last != [] && AllDigits(top) && AllDigits(first) && AllDigits(last)
    ensures var text := top + "/" + first + "-" + last + "-" + hash;
            var (t, f, l) := (DigitsValue(top), DigitsValue(first), DigitsValue(last));
            && (FromStr(text).Some? <==> t <= f <= l <= U64_MAX && 5 <= |hash| <= 8 && AllWord(hash))
            && (FromStr(text).Some? ==>
                  var chunk := FromStr(text).value;
                  && chunk.top == t && chunk.firstBlock == f && chunk.lastBlock == l
                  && HashText(chunk.lastHash) == Some(hash))
  {
    DigitsHaveNoSeparator(top);
    DigitsHaveNoSeparator(first);
    DigitsHaveNoSeparator(last);
    SplitsBack(top, first, last, hash);
    ValidHashIff(hash);
  }

  /** No two chunks print alike. */
  lemma {:induction false} DisplayInjective(a: DataChunk, b: DataChunk)
    requires Valid(a) && Valid(b) && Display(a) == Display(b)
    ensures a == b
  {
    PrintParse(a);
    PrintParse(b);
  }

  // ----- the reader's formatter -----

  function Pow10(k: nat): nat { if k == 0 then 1 else 10 * Pow10(k - 1) }

  /** The low `k` digits of `n`. */
  function Fixed(k: nat, n: nat): (text: string)
    ensures |text| == k
  {
    if k == 0 then [] else Fixed(k - 1, n / 10) + [Digit(n % 10)]
  }

  lemma {:induction false} FixedIsPadded(k: nat, n: nat)
    requires 1 <= k && n < Pow10(k)
    ensures |Decimal(n)| <= k
    ensures Fixed(k, n) == Zeros(k - |Decimal(n)|) + Decimal(n)
  {
    if k > 1 {
      assert n / 10 < Pow10(k - 1);
      FixedIsPadded(k - 1, n / 10);
    }
  }

  lemma {:induction false} FixedOfZero(k: nat)
    ensures Fixed(k, 0) == Zeros(k)
  {
    if k > 0 { FixedOfZero(k - 1); }
  }

  lemma FixedPeels(k: nat, n: nat, tail: string)
    ensures Fixed(k + 1, n) + tail == Fixed(k, n / 10) + ([Digit(n % 10)] + tail)
    ensures n < Pow10(k + 1) ==> n / 10 < Pow10(k)
  {
  }

  lemma {:induction false} WideDecimal(k: nat, n: nat)
    requires n >= Pow10(k)
    ensures |Decimal(n)| > k
  {
    if k > 0 {
      assert n / 10 >= Pow10(k - 1);
      WideDecimal(k - 1, n / 10);
    }
  }

  lemma TenDigits(width: nat)
    requires width == 10
    ensures Pow10(width) == 10_000_000_000
  {
  }

  /** Below ten digits the padded text is the ten-digit form; above, it is the plain one. */
  lemma {:induction false} PaddedForms(width: nat, n: nat)
    requires width == 10
    ensures n < Pow10(width) ==> Padded(n) == Fixed(width, n)
    ensures n >= Pow10(width) ==> Padded(n) == Decimal(n)
  {
    if n < Pow10(width) {
      FixedIsPadded(width, n);
    } else {
      WideDecimal(width, n);
      assert Zeros(0) + Decimal(n) == Decimal(n);
    }
  }

  /** The digit loop: fills a zeroed buffer from the right. */
  method FillDigits(value: nat, width: nat) returns (text: string)
    requires value < Pow10(width)
    ensures text == Fixed(width, value)
  {
    var digits := new char[width](_ => '0');
    var rest: nat, at: nat := value, width;
    ghost var tail := "";
    while rest > 0
      invariant 0 <= at <= width && rest < Pow10(at)
      invariant digits[..] == Zeros(at) + tail
      invariant Fixed(at, rest) + tail == Fixed(width, value)
    {
      at := at - 1;
      FixedPeels(at, rest, tail);
      digits[at] := Digit(rest % 10);
      tail := [Digit(rest % 10)] + tail;
      assert digits[..] == Zeros(at) + tail;
      rest := rest / 10;
    }
    FixedOfZero(at);
    text := digits[..];
  }

  /** The hand-rolled padding prints exactly what `{:010}` prints. */
  method PushPadded(out: string, value: u64) returns (r: string)
    ensures r == out + Padded(value)
  {
    var width := 10;
    TenDigits(width);
    PaddedForms(width, value);
    if value >= 10_000_000_000 {
      return out + Decimal(value);
    }
    var digits := FillDigits(value, width);
    r := out + digits;
  }

  method PushChunkId(out: string, top: u64, firstBlock: u64, lastBlock: u64, hash: string)
    returns (r: string)
    ensures r == out + ChunkIdText(top, firstBlock, lastBlock, hash)
  {
    r := PushPadded(out, top);
    r := r + "/";
    r := PushPadded(r, firstBlock);
    r := r + "-";
    r := PushPadded(r, lastBlock);
    r := r + "-";
    r := r + hash;
  }

  /** A chunk's id can be rebuilt from its numbers and its padded hash. */
  lemma {:induction false} IdRebuilt(chunk: DataChunk)
    requires Valid(chunk)
    ensures ChunkHash(chunk) == chunk.lastHash && |chunk.lastHash| == HASH_MAX_LEN
    ensures HashText(chunk.lastHash) == Some(LastHash(chunk))
    ensures Display(chunk)
         == ChunkIdText(chunk.top, chunk.firstBlock, chunk.lastBlock, HashText(chunk.lastHash).value)
  {
    HashRoundTrip(LastHash(chunk));
  }
}
