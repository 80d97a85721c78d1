/**
 * Conversion between US civil aircraft registrations ("N-Numbers") and
 * the 24-bit ICAO addresses of the US block 0xA00001..0xADF7C7.
 *
 * The block is laid out as nested buckets: a first digit 1-9, then up
 * to four more digits, and at any point a suffix of at most two letters
 * from a 24-letter alphabet without I and O.  Each bucket counts the
 * registrations that share a prefix, so the offset of a registration
 * from the base of the block is a mixed-radix number.
 */
module Registration {
  import opened Wrappers
  import opened Text

  /** Rust `u32`. */
  type u32 = x: int | 0 <= x < 0x1_0000_0000

  /** Rust `u8`. */
  type byte = x: int | 0 <= x < 0x100

  /** An ICAO address as three big-endian bytes (`[u8; 3]`). */
  type Address = a: seq<byte> | |a| == 3 witness [0, 0, 0]

  const US_BASE: u32 := 0xA00000
  const US_MAX: u32 := 0xADF7C7

  /** Suffix letters: the Latin capitals without I and O. */
  const CHARSET: string := "ABCDEFGHJKLMNPQRSTUVWXYZ"
  const ALLCHARS: string := "ABCDEFGHJKLMNPQRSTUVWXYZ0123456789"

  /** Registrations in a bucket that end in a suffix: none, one letter, or two letters. */
  const SUFFIX_SIZE: nat := 1 + 24 * (1 + 24)
  /** The last bucket holds no more digits: nothing, a letter or a digit. */
  const BUCKET4_SIZE: nat := 1 + 24 + 10
  /** A bucket is its suffix part followed by ten sub-buckets, one per digit. */
  const BUCKET3_SIZE: nat := 10 * BUCKET4_SIZE + SUFFIX_SIZE
  const BUCKET2_SIZE: nat := 10 * BUCKET3_SIZE + SUFFIX_SIZE
  const BUCKET1_SIZE: nat := 10 * BUCKET2_SIZE + SUFFIX_SIZE

  /** The size of the bucket selected by the digit at position `level` of the registration. */
  function BucketSize(level: nat): (n: nat)
    requires 1 <= level <= 4
  {
    match level
    case 1 => BUCKET1_SIZE
    case 2 => BUCKET2_SIZE
    case 3 => BUCKET3_SIZE
    case _ => BUCKET4_SIZE
  }

  /** The bucket sizes, and the nine first-digit buckets filling the US block exactly. */
  lemma BlockLayout()
    ensures SUFFIX_SIZE == 601 && BUCKET4_SIZE == 35 && BUCKET3_SIZE == 951
    ensures BUCKET2_SIZE == 10111 && BUCKET1_SIZE == 101711
    ensures US_MAX - US_BASE == 9 * BUCKET1_SIZE
    ensures forall level :: 1 <= level < 4 ==> BucketSize(level) == 10 * BucketSize(level + 1) + SUFFIX_SIZE
  {
  }

  datatype Error =
    | MustStartWithN
    | TooLong
    | InvalidCharacter(c: char)
    | LettersOnlyAsSuffix
    | InvalidSuffix
    | InvalidTailCharacter
    | InvalidDigit
    | LeadingZero
    | OutOfUSRange
    | NotInUSAllocation
    | UnsupportedPrefix
    | IcaoNotInUSRange

  // ---------------------------------------------------------------------
  // Alphabets
  // ---------------------------------------------------------------------

  /** `str::find` for one character: the first position of `c` in `s`. */
  function Find(s: string, c: char): (r: Option<nat>)
    ensures r.None? <==> forall k :: 0 <= k < |s| ==> s[k] != c
    ensures r.Some? ==> r.value < |s| && s[r.value] == c
    ensures r.Some? ==> forall k :: 0 <= k < r.value ==> s[k] != c
  {
    if s == [] then None
    else if s[0] == c then Some(0)
    else
      match Find(s[1..], c)
      case None => None
      case Some(k) => Some(k + 1)
  }

  /** `CHARSET.contains(c)`. */
  predicate IsSuffixLetter(c: char) {
    'A' <= c <= 'Z' && c != 'I' && c != 'O'
  }

  /** `ALLCHARS.contains(c)`. */
  predicate IsRegistrationChar(c: char) {
    IsSuffixLetter(c) || IsDigit(c)
  }

  predicate IsDigit(c: char) {
    '0' <= c <= '9'
  }

  function DigitValue(c: char): int {
    c as int - '0' as int
  }

  /** `u32::to_string` for a single decimal digit. */
  function DigitChar(d: nat): (c: char)
    requires d <= 9
    ensures IsDigit(c) && DigitValue(c) == d
  {
    ('0' as int + d) as char
  }

  /** Position of a character in ALLCHARS: the 24 letters in alphabetical order, then the digits. */
  function Rank(c: char): int {
    if IsDigit(c) then 24 + DigitValue(c)
    else c as int - 'A' as int - (if c > 'I' then 1 else 0) - (if c > 'O' then 1 else 0)
  }

  /** `ALLCHARS.chars().nth(k)`, computed from the layout of the alphabet (see AlphabetLayout). */
  function AlphabetChar(k: nat): (c: char)
    requires k < 34
    ensures Rank(c) == k
    ensures IsRegistrationChar(c)
    ensures IsSuffixLetter(c) <==> k < 24
  {
    if k >= 24 then DigitChar(k - 24)
    else ('A' as int + k + (if k >= 8 then 1 else 0) + (if k >= 13 then 1 else 0)) as char
  }

  /** The two alphabets are listed in rank order, and CHARSET is the letter part of ALLCHARS. */
  lemma AlphabetLayout()
    ensures |CHARSET| == 24 && |ALLCHARS| == 34 && ALLCHARS[..24] == CHARSET
    ensures forall k :: 0 <= k < |ALLCHARS| ==> ALLCHARS[k] == AlphabetChar(k)
  {
  }

  /** The two predicates are membership in the two alphabets. */
  lemma CharClasses(c: char)
    ensures c in CHARSET <==> IsSuffixLetter(c)
    ensures c in ALLCHARS <==> IsRegistrationChar(c)
  {
  }

  /** `CHARSET.find(c)`, computed from the rank of `c` (see IndexIsFind). */
  function LetterIndex(c: char): (r: Option<nat>)
    ensures r.Some? <==> IsSuffixLetter(c)
    ensures r.Some? ==> r.value < 24 && AlphabetChar(r.value) == c
  {
    if IsSuffixLetter(c) then Some(Rank(c)) else None
  }

  /** `ALLCHARS.find(c)`, computed from the rank of `c` (see IndexIsFind). */
  function CharIndex(c: char): (r: Option<nat>)
    ensures r.Some? <==> IsRegistrationChar(c)
    ensures r.Some? ==> r.value < 34 && AlphabetChar(r.value) == c
  {
    if IsRegistrationChar(c) then Some(Rank(c)) else None
  }

  /** The rank lookups agree with searching the alphabets left to right. */
  lemma IndexIsFind(c: char)
    ensures LetterIndex(c) == Find(CHARSET, c)
    ensures CharIndex(c) == Find(ALLCHARS, c)
  {
    AlphabetLayout();
    FindByRank(CHARSET, c);
    FindByRank(ALLCHARS, c);
  }

  /** Searching a string that lists the alphabet in rank order finds a character at its rank, if it is there. */
  lemma FindByRank(s: string, c: char)
    requires |s| <= 34 && forall k :: 0 <= k < |s| ==> s[k] == AlphabetChar(k)
    ensures Find(s, c) == if IsRegistrationChar(c) && Rank(c) < |s| then Some(Rank(c)) else None
  {
    var r := Find(s, c);
    if IsRegistrationChar(c) && Rank(c) < |s| {
      assert AlphabetChar(CharIndex(c).value) == c;
      assert s[Rank(c)] == c;
    }
    if r.Some? {
      assert Rank(s[r.value]) == r.value;
    }
  }

  /** Looking up the `k`-th character of an alphabet gives back `k`. */
  lemma IndexOfAlphabetChar(k: nat)
    requires k < 34
    ensures CharIndex(AlphabetChar(k)) == Some(k)
    ensures k < 24 ==> LetterIndex(AlphabetChar(k)) == Some(k)
  {
  }

  // ---------------------------------------------------------------------
  // Suffixes
  // ---------------------------------------------------------------------

  /** `get_suffix`: the suffix at offset `k` of a bucket (0 is no suffix, 1 is "A", 2 is "AA", 3 is "AB", ...). */
  function SuffixAt(k: nat): (r: string)
    requires k < SUFFIX_SIZE
    ensures |r| <= 2
    ensures forall j :: 0 <= j < |r| ==> IsSuffixLetter(r[j])
    ensures r == [] <==> k == 0
  {
    if k == 0 then ""
    else
      var first := AlphabetChar((k - 1) / 25);
      var rem := (k - 1) % 25;
      if rem == 0 then [first] else [first, AlphabetChar(rem - 1)]
  }

  /** `suffix_offset`: the offset of a suffix within its bucket, if it is one. */
  function SuffixOffset(s: string): (r: Option<nat>)
    ensures r.Some? ==> |s| <= 2 && r.value < SUFFIX_SIZE
  {
    if s == [] then Some(0)
    else if |s| > 2 then None
    else match LetterIndex(s[0])
      case None => None
      case Some(i0) =>
        if |s| == 1 then Some(25 * i0 + 1)
        else match LetterIndex(s[1])
          case None => None
          case Some(i1) => Some(25 * i0 + 1 + i1 + 1)
  }

  /** The suffixes starting with the letter of index `i0`. */
  lemma SuffixAtLetters(s: string, i0: nat, i1: nat)
    requires i0 < 24 && i1 < 24
    requires 1 <= |s| <= 2 && s[0] == AlphabetChar(i0) && (|s| == 2 ==> s[1] == AlphabetChar(i1))
    ensures |s| == 1 ==> SuffixAt(25 * i0 + 1) == s
    ensures |s| == 2 ==> SuffixAt(25 * i0 + 1 + i1 + 1) == s
  {
    assert (25 * i0) / 25 == i0 && (25 * i0) % 25 == 0;
    assert (25 * i0 + (i1 + 1)) / 25 == i0 && (25 * i0 + (i1 + 1)) % 25 == i1 + 1;
    if |s| == 2 {
      assert s == [s[0], s[1]];
    } else {
      assert s == [s[0]];
    }
  }

  lemma SuffixOffsetOfOne(s: string, i0: nat)
    requires |s| == 1 && LetterIndex(s[0]) == Some(i0)
    ensures SuffixOffset(s) == Some(25 * i0 + 1)
  {
  }

  lemma SuffixOffsetOfTwo(s: string, i0: nat, i1: nat)
    requires |s| == 2 && LetterIndex(s[0]) == Some(i0) && LetterIndex(s[1]) == Some(i1)
    ensures SuffixOffset(s) == Some(25 * i0 + 1 + i1 + 1)
  {
  }

  /** SuffixOffset accepts exactly the strings of at most two suffix letters, and SuffixAt inverts it. */
  lemma SuffixOffsetInverse(s: string)
    ensures SuffixOffset(s).Some? <==> |s| <= 2 && forall j :: 0 <= j < |s| ==> IsSuffixLetter(s[j])
    ensures SuffixOffset(s).Some? ==> SuffixOffset(s).value < SUFFIX_SIZE
    ensures SuffixOffset(s).Some? ==> SuffixAt(SuffixOffset(s).value) == s
  {
    if s != [] && |s| <= 2 && IsSuffixLetter(s[0]) {
      var i0 := LetterIndex(s[0]).value;
      if |s| == 1 {
        SuffixOffsetOfOne(s, i0);
        SuffixAtLetters(s, i0, 0);
      } else if IsSuffixLetter(s[1]) {
        var i1 := LetterIndex(s[1]).value;
        SuffixOffsetOfTwo(s, i0, i1);
        SuffixAtLetters(s, i0, i1);
      }
    }
  }

  /** Every offset of a bucket names a different suffix: SuffixOffset inverts SuffixAt. */
  lemma SuffixRoundTrip(k: nat)
    requires k < SUFFIX_SIZE
    ensures SuffixOffset(SuffixAt(k)) == Some(k)
  {
    if k == 0 {
      assert SuffixAt(k) == [];
    } else {
      var i0, rem := (k - 1) / 25, (k - 1) % 25;
      if rem == 0 {
        assert k == 25 * i0 + 1;
        LetterSuffixRoundTrip(i0, 0, 1);
      } else {
        SuffixRoundTripTwo(k);
      }
    }
  }

  lemma SuffixRoundTripTwo(k: nat)
    requires 0 < k < SUFFIX_SIZE && (k - 1) % 25 != 0
    ensures SuffixOffset(SuffixAt(k)) == Some(k)
  {
    var i0, rem := (k - 1) / 25, (k - 1) % 25;
    assert k == 25 * i0 + 1 + (rem - 1) + 1;
    LetterSuffixRoundTrip(i0, rem - 1, 2);
  }

  lemma LetterSuffixRoundTrip(i0: nat, i1: nat, len: nat)
    requires i0 < 24 && i1 < 24 && 1 <= len <= 2
    ensures len == 1 ==> SuffixOffset(SuffixAt(25 * i0 + 1)) == Some(25 * i0 + 1)
    ensures len == 2 ==> SuffixOffset(SuffixAt(25 * i0 + 1 + i1 + 1)) == Some(25 * i0 + 1 + i1 + 1)
  {
    IndexOfAlphabetChar(i0);
    IndexOfAlphabetChar(i1);
    if len == 1 {
      var t := [AlphabetChar(i0)];
      SuffixAtLetters(t, i0, i1);
      SuffixOffsetOfOne(t, i0);
    } else {
      var t := [AlphabetChar(i0), AlphabetChar(i1)];
      SuffixAtLetters(t, i0, i1);
      SuffixOffsetOfTwo(t, i0, i1);
    }
  }

  // ---------------------------------------------------------------------
  // N-Number to address
  // ---------------------------------------------------------------------

  /** The input as `us_n_to_icao_u32` examines it: trimmed and upper-cased. */
  function Normalize(s: string): (r: string)
    ensures |r| <= |s| && Trimmed(r)
    ensures forall k :: 0 <= k < |r| ==> !('a' <= r[k] <= 'z')
  {
    TrimSpec(s);
    UpperTrimmed(Trim(s));
    UpperSpec(Trim(s));
    Upper(Trim(s))
  }

  /** Position of the first character outside ALLCHARS, if any. */
  function FirstInvalid(s: string): (r: Option<nat>)
    ensures r.Some? ==> r.value < |s|
  {
    if s == [] then None
    else if !IsRegistrationChar(s[0]) then Some(0)
    else
      match FirstInvalid(s[1..])
      case None => None
      case Some(k) => Some(k + 1)
  }

  /** FirstInvalid finds the first character outside ALLCHARS, and finds one if there is one. */
  lemma {:induction false} FirstInvalidSpec(s: string)
    ensures FirstInvalid(s).None? <==> forall k :: 0 <= k < |s| ==> IsRegistrationChar(s[k])
    ensures FirstInvalid(s).Some? ==> !IsRegistrationChar(s[FirstInvalid(s).value])
    ensures FirstInvalid(s).Some? ==> forall k :: 0 <= k < FirstInvalid(s).value ==> IsRegistrationChar(s[k])
  {
    if s != [] && IsRegistrationChar(s[0]) {
      FirstInvalidSpec(s[1..]);
      assert forall k :: 1 <= k < |s| ==> s[k] == s[1..][k - 1];
    }
  }

  /** A suffix letter somewhere after 'N' and before the last two characters. */
  predicate LetterInMiddle(s: string) {
    |s| > 3 && exists k :: 1 <= k < |s| - 2 && IsSuffixLetter(s[k])
  }

  /** The format checks of `us_n_to_icao_u32`, in its order; None when all pass. */
  function CheckFormat(s: string): (r: Option<Error>)
    ensures r.None? ==> 1 <= |s| <= 6 && s[0] == 'N'
  {
    if !StartsWith(s, "N") then Some(MustStartWithN)
    else if Utf8Len(s) > 6 then Some(TooLong)
    else match FirstInvalid(s)
      case Some(k) => Some(InvalidCharacter(s[k]))
      case None => if LetterInMiddle(s) then Some(LettersOnlyAsSuffix) else None
  }

  /** A string that passes the format checks is made of ALLCHARS characters, with letters only in the last two places. */
  lemma CheckFormatPassed(s: string)
    requires CheckFormat(s) == None
    ensures forall k :: 0 <= k < |s| ==> IsRegistrationChar(s[k])
    ensures forall k :: 1 <= k < |s| - 2 ==> IsDigit(s[k])
  {
    FirstInvalidSpec(s);
  }

  /**
   * What the loop of `us_n_to_icao_u32` adds to the count for the
   * characters `rest[i..]` after 'N' (positions count from 0 after 'N').
   * At position 4 any character adds its ALLCHARS index plus one; a suffix
   * letter adds its offset and ends the loop; a digit adds its bucket
   * (at position 0 the digit minus one times BUCKET1_SIZE, so a leading '0'
   * subtracts a whole bucket).
   */
  function TailFrom(rest: string, i: nat): (r: Result<int, Error>)
    requires i <= 4 && i <= |rest|
    ensures r.Failure? ==> r.error == InvalidSuffix || r.error == InvalidTailCharacter || r.error == InvalidDigit
    ensures r.Success? && i > 0 ==> 0 <= r.value < BucketSize(i)
    ensures r.Success? && i == 0 ==> -(BUCKET1_SIZE as int) <= r.value < 9 * BUCKET1_SIZE
    ensures r.Success? && i == 0 && (rest == [] || rest[0] != '0') ==> r.value >= 0
    decreases |rest| - i
  {
    if i == |rest| then Success(0)
    else if i == 4 then
      match CharIndex(rest[4])
      case None => Failure(InvalidTailCharacter)
      case Some(n) => Success(n + 1)
    else if IsSuffixLetter(rest[i]) then
      SuffixOffsetInverse(rest[i..]);
      match SuffixOffset(rest[i..])
      case None => Failure(InvalidSuffix)
      case Some(n) => Success(n)
    else if !IsDigit(rest[i]) then Failure(InvalidDigit)
    else
      var term := DigitTerm(i, DigitValue(rest[i]));
      match TailFrom(rest, i + 1)
      case Failure(e) => Failure(e)
      case Success(t) => Success(term + t)
  }

  /**
   * Once every character is in ALLCHARS the bare "Invalid character" and
   * "Invalid digit" errors of the loop cannot occur: the only error left is
   * a suffix that is not one.
   */
  lemma {:induction false} TailFromErrors(rest: string, i: nat)
    requires i <= 4 && i <= |rest|
    requires forall k :: 0 <= k < |rest| ==> IsRegistrationChar(rest[k])
    ensures TailFrom(rest, i).Failure? ==> TailFrom(rest, i).error == InvalidSuffix
    decreases |rest| - i
  {
    if i < |rest| && i < 4 && IsDigit(rest[i]) {
      TailFromErrors(rest, i + 1);
    }
  }

  /** What a digit `d` at position `i` after 'N' adds to the count. */
  function DigitTerm(i: nat, d: nat): (t: int)
    requires i <= 3 && d <= 9
    ensures i == 0 ==> -(BUCKET1_SIZE as int) <= t <= 8 * BUCKET1_SIZE && (d >= 1 ==> t >= 0)
    ensures i > 0 ==> SUFFIX_SIZE <= t && t + BucketSize(i + 1) <= BucketSize(i)
  {
    BlockLayout();
    if i == 0 then (d - 1) * BUCKET1_SIZE else d * BucketSize(i + 1) + SUFFIX_SIZE
  }

  /** The final range check of `us_n_to_icao_u32`. */
  function InUSRange(icao: int): (r: Result<u32, Error>)
    requires icao >= 0
    ensures r.Success? <==> icao <= US_MAX
    ensures r.Success? ==> r.value == icao
  {
    if icao > US_MAX then Failure(OutOfUSRange) else Success(icao)
  }

  /**
   * `us_n_to_icao_u32` with a leading '0' after 'N' rejected: where the
   * Rust code computes `(0 - 1) * BUCKET1_SIZE` (see EncodeWrapping), this
   * model returns LeadingZero.
   */
  function Encode(nnumber: string): (r: Result<u32, Error>)
    ensures r.Success? ==> US_BASE + 1 <= r.value <= US_MAX
    ensures r != Failure(OutOfUSRange)
  {
    var s := Normalize(nnumber);
    match CheckFormat(s)
    case Some(e) => Failure(e)
    case None =>
      if |s| == 1 then Success(US_BASE + 1)
      else if s[1] == '0' then Failure(LeadingZero)
      else match TailFrom(s[1..], 0)
        case Failure(e) => Failure(e)
        case Success(t) => InUSRange(US_BASE + 1 + t)
  }

  /**
   * `us_n_to_icao_u32` as written, in a release build where `u32`
   * arithmetic wraps: a leading '0' makes the count wrap below zero and
   * the address land below the US block.
   */
  function EncodeWrapping(nnumber: string): (r: Result<u32, Error>)
    ensures r.Success? ==> r.value <= US_MAX
    ensures Encode(nnumber).Success? ==> r == Encode(nnumber)
  {
    var s := Normalize(nnumber);
    match CheckFormat(s)
    case Some(e) => Failure(e)
    case None =>
      if |s| == 1 then Success(US_BASE + 1)
      else match TailFrom(s[1..], 0)
        case Failure(e) => Failure(e)
        case Success(t) => InUSRange((US_BASE + 1 + t) % 0x1_0000_0000)
  }

  /** `us_n_to_icao_u32`: the format checks, then the counting loop and the range check. */
  method UsNToIcaoU32(nnumber: string) returns (r: Result<u32, Error>)
    ensures r == Encode(nnumber)
  {
    var s := Normalize(nnumber);
    var bad := CheckNNumberFormat(s);
    if bad.Some? {
      return Failure(bad.value);
    }
    var count: int := 1;
    if |s| == 1 {
      return Success(US_BASE + count);
    }
    var tail := CountTail(s[1..]);
    match tail {
      case Failure(e) =>
        return Failure(e);
      case Success(t) =>
        count := count + t;
    }
    var icao := US_BASE + count;
    if icao > US_MAX {
      return Failure(OutOfUSRange);
    }
    return Success(icao);
  }

  /** The checks at the head of `us_n_to_icao_u32`, in its order. */
  method CheckNNumberFormat(s: string) returns (r: Option<Error>)
    ensures r == CheckFormat(s)
  {
    if !StartsWith(s, "N") {
      return Some(MustStartWithN);
    }
    if Utf8Len(s) > 6 {
      return Some(TooLong);
    }
    FirstInvalidSpec(s);
    for j := 0 to |s|
      invariant forall k :: 0 <= k < j ==> IsRegistrationChar(s[k])
    {
      if !IsRegistrationChar(s[j]) {
        assert FirstInvalid(s) == Some(j);
        return Some(InvalidCharacter(s[j]));
      }
    }
    if |s| > 3 {
      for j := 1 to |s| - 2
        invariant forall k :: 1 <= k < j ==> !IsSuffixLetter(s[k])
      {
        if IsSuffixLetter(s[j]) {
          return Some(LettersOnlyAsSuffix);
        }
      }
    }
    return None;
  }

  /**
   * The counting loop of `us_n_to_icao_u32` over the characters after
   * 'N'; the count it returns leaves out the initial 1.
   */
  method CountTail(rest: string) returns (r: Result<int, Error>)
    requires 1 <= |rest|
    ensures rest[0] == '0' ==> r == Failure(LeadingZero)
    ensures rest[0] != '0' ==> r == TailFrom(rest, 0)
  {
    var count: int := 0;
    var i := 0;
    while i < |rest|
      invariant 0 <= i <= 4 && i <= |rest|
      invariant i == 0 ==> count == 0
      invariant i > 0 ==> rest[0] != '0'
      invariant TailFrom(rest, 0) == Shift(count, TailFrom(rest, i))
    {
      var c := rest[i];
      if i == 4 {
        TailFromFifth(rest);
        match CharIndex(c) {
          case None =>
            return Failure(InvalidTailCharacter);
          case Some(idx) =>
            count := count + idx + 1;
        }
        break;
      } else if IsSuffixLetter(c) {
        TailFromLetter(rest, i);
        match SuffixOffset(rest[i..]) {
          case None =>
            return Failure(InvalidSuffix);
          case Some(n) =>
            count := count + n;
        }
        break;
      } else {
        if !IsDigit(c) {
          return Failure(InvalidDigit);
        }
        var digit := DigitValue(c);
        ghost var before := count;
        match i {
          case 0 =>
            if digit == 0 {
              return Failure(LeadingZero);
            }
            count := count + (digit - 1) * BUCKET1_SIZE;
          case 1 =>
            count := count + digit * BUCKET2_SIZE + SUFFIX_SIZE;
          case 2 =>
            count := count + digit * BUCKET3_SIZE + SUFFIX_SIZE;
          case 3 =>
            count := count + digit * BUCKET4_SIZE + SUFFIX_SIZE;
        }
        assert count == before + DigitTerm(i, digit);
        TailFromDigit(rest, i);
        ShiftShift(before, DigitTerm(i, digit), TailFrom(rest, i + 1));
      }
      i := i + 1;
    }
    return Success(count);
  }

  /** Adds `a` to a successful count. */
  function Shift(a: int, r: Result<int, Error>): Result<int, Error> {
    match r
    case Success(t) => Success(a + t)
    case Failure(e) => Failure(e)
  }

  lemma ShiftShift(a: int, b: int, r: Result<int, Error>)
    ensures Shift(a, Shift(b, r)) == Shift(a + b, r)
  {
  }

  // ---------------------------------------------------------------------
  // Address to N-Number
  // ---------------------------------------------------------------------

  /** The character after four digits: none for 0, else the ALLCHARS entry before `rem`. */
  function LastChar(rem: nat): (r: string)
    requires rem < BUCKET4_SIZE
    ensures |r| <= 1
  {
    BlockLayout();
    if rem == 0 then "" else [AlphabetChar(rem - 1)]
  }

  /**
   * The characters from position `level` of the registration on, for the
   * offset `rem` inside the bucket chosen by the characters before: a
   * suffix when `rem` falls in the suffix part, else the digit choosing a
   * sub-bucket followed by the rest.
   */
  function DecodeFrom(rem: nat, level: nat): (r: string)
    requires 2 <= level <= 4 && rem < BucketSize(level - 1)
    decreases 4 - level
  {
    BlockLayout();
    if rem < SUFFIX_SIZE then SuffixAt(rem)
    else
      var rest := rem - SUFFIX_SIZE;
      var b := BucketSize(level);
      assert rest < 10 * b;
      [DigitChar(rest / b)] + (if level == 4 then LastChar(rest % b) else DecodeFrom(rest % b, level + 1))
  }

  /** `icao_u32_to_us`: the N-Number of an address of the US block. */
  function Decode(icao: u32): (r: Result<string, Error>)
    ensures r.Success? <==> US_BASE + 1 <= icao <= US_MAX
    ensures r.Failure? ==> r.error == NotInUSAllocation
  {
    if !(US_BASE + 1 <= icao <= US_MAX) then Failure(NotInUSAllocation)
    else
      BlockLayout();
      var i := icao - US_BASE - 1;
      Success("N" + [DigitChar(i / BUCKET1_SIZE + 1)] + DecodeFrom(i % BUCKET1_SIZE, 2))
  }

  /** Decoding past the suffix part of a bucket: one digit, then the rest of the sub-bucket. */
  lemma DecodeFromDigitStep(before: nat, level: nat, dig: nat, after: nat)
    requires 2 <= level <= 4 && SUFFIX_SIZE <= before < BucketSize(level - 1)
    requires dig == (before - SUFFIX_SIZE) / BucketSize(level)
    requires after == (before - SUFFIX_SIZE) % BucketSize(level)
    ensures dig <= 9 && after < BucketSize(level)
    ensures before == dig * BucketSize(level) + SUFFIX_SIZE + after
    ensures level < 4 ==> DecodeFrom(before, level) == [DigitChar(dig)] + DecodeFrom(after, level + 1)
    ensures level == 4 ==> DecodeFrom(before, level) == [DigitChar(dig)] + LastChar(after)
  {
    BlockLayout();
  }

  /**
   * One "Digit k" block of `icao_u32_to_us` (k = `level`): take off the
   * suffix count, push the digit of `rem`'s bucket, keep the offset inside
   * the bucket.
   */
  method PushDigit(output: string, rem: nat, level: nat) returns (out: string, next: nat)
    requires 2 <= level <= 4 && SUFFIX_SIZE <= rem < BucketSize(level - 1)
    ensures next < BucketSize(level)
    ensures level < 4 ==> output + DecodeFrom(rem, level) == out + DecodeFrom(next, level + 1)
    ensures level == 4 ==> output + DecodeFrom(rem, level) == out + LastChar(next)
  {
    var r := rem - SUFFIX_SIZE;
    var dig := r / BucketSize(level);
    next := r % BucketSize(level);
    DecodeFromDigitStep(rem, level, dig, next);
    out := output + [DigitChar(dig)];
    if level < 4 {
      ConcatAssoc(output, [DigitChar(dig)], DecodeFrom(next, level + 1));
    } else {
      ConcatAssoc(output, [DigitChar(dig)], LastChar(next));
    }
  }

  /** `icao_u32_to_us`: peels off the digits bucket by bucket, returning at the first suffix. */
  method IcaoU32ToUs(icao: u32) returns (r: Result<string, Error>)
    ensures r == Decode(icao)
  {
    if !(US_BASE + 1 <= icao <= US_MAX) {
      return Failure(NotInUSAllocation);
    }
    var i := icao - US_BASE - 1;
    var output := "N";

    var dig1 := i / BUCKET1_SIZE + 1;
    var rem := i % BUCKET1_SIZE;
    output := output + [DigitChar(dig1)];
    DecodeSplit(icao);
    ghost var expected := output + DecodeFrom(rem, 2);
    assert Decode(icao) == Success(expected);
    if rem < SUFFIX_SIZE {
      DecodeFromSuffix(rem, 2);
      return Success(output + SuffixAt(rem));
    }

    output, rem := PushDigit(output, rem, 2);
    if rem < SUFFIX_SIZE {
      DecodeFromSuffix(rem, 3);
      return Success(output + SuffixAt(rem));
    }

    output, rem := PushDigit(output, rem, 3);
    if rem < SUFFIX_SIZE {
      DecodeFromSuffix(rem, 4);
      return Success(output + SuffixAt(rem));
    }

    output, rem := PushDigit(output, rem, 4);
    if rem == 0 {
      assert output + LastChar(rem) == output;
      return Success(output);
    }
    output := output + [AlphabetChar(rem - 1)];
    return Success(output);
  }

  /** Below the suffix count, the decoding at any level is just the suffix. */
  lemma DecodeFromSuffix(rem: nat, level: nat)
    requires 2 <= level <= 4 && rem < SUFFIX_SIZE
    ensures rem < BucketSize(level - 1) && DecodeFrom(rem, level) == SuffixAt(rem)
  {
    BlockLayout();
  }

  // ---------------------------------------------------------------------
  // Round trips
  // ---------------------------------------------------------------------

  /** Digits followed by at most two suffix letters (the shape after the first digit of a registration). */
  predicate TailShape(t: string)
    decreases |t|
  {
    (|t| <= 2 && forall k :: 0 <= k < |t| ==> IsSuffixLetter(t[k]))
    || (|t| > 0 && IsDigit(t[0]) && TailShape(t[1..]))
  }

  /**
   * The registrations `icao_u32_to_us` produces: 'N', a non-zero digit,
   * further digits and at most two suffix letters, six characters at most.
   */
  predicate Canonical(s: string) {
    2 <= |s| <= 6 && s[0] == 'N' && '1' <= s[1] <= '9' && TailShape(s[2..])
  }

  /** In a tail shape every character before the last two is a digit. */
  lemma {:induction false} TailShapeDigits(t: string)
    requires TailShape(t)
    ensures forall k :: 0 <= k < |t| - 2 ==> IsDigit(t[k])
    ensures forall k :: 0 <= k < |t| ==> IsRegistrationChar(t[k])
    decreases |t|
  {
    if !(|t| <= 2 && forall k :: 0 <= k < |t| ==> IsSuffixLetter(t[k])) {
      TailShapeDigits(t[1..]);
      assert forall k :: 1 <= k < |t| ==> t[k] == t[1..][k - 1];
    }
  }

  /** A string of registration characters is left alone by trimming and upper-casing. */
  lemma NormalizeRegistrationChars(s: string)
    requires forall k :: 0 <= k < |s| ==> IsRegistrationChar(s[k])
    ensures Normalize(s) == s
  {
    assert forall k :: 0 <= k < |s| ==> !IsSpace(s[k]) && !('a' <= s[k] <= 'z');
    TrimSpec(s);
    assert Trim(s) == s;
    UpperOfUpper(s);
  }

  /** A canonical registration passes every format check of `us_n_to_icao_u32`. */
  lemma CanonicalFormat(s: string)
    requires Canonical(s)
    ensures Normalize(s) == s && CheckFormat(s) == None
  {
    TailShapeDigits(s[2..]);
    assert forall k :: 2 <= k < |s| ==> s[k] == s[2..][k - 2];
    NormalizeRegistrationChars(s);
    Utf8LenAscii(s);
    FirstInvalidSpec(s);
    assert !LetterInMiddle(s);
  }

  /** The output of DecodeFrom has the tail shape and fits the remaining positions. */
  lemma {:induction false} DecodeFromShape(rem: nat, level: nat)
    requires 2 <= level <= 4 && rem < BucketSize(level - 1)
    ensures |DecodeFrom(rem, level)| <= 6 - level
    ensures TailShape(DecodeFrom(rem, level))
    decreases 4 - level
  {
    var r := DecodeFrom(rem, level);
    if rem >= SUFFIX_SIZE {
      var dig, after := (rem - SUFFIX_SIZE) / BucketSize(level), (rem - SUFFIX_SIZE) % BucketSize(level);
      DecodeFromDigitStep(rem, level, dig, after);
      if level < 4 {
        DecodeFromShape(after, level + 1);
        assert r[1..] == DecodeFrom(after, level + 1);
      } else {
        assert r[1..] == LastChar(after);
        if after > 0 {
          var c := AlphabetChar(after - 1);
          assert IsDigit(c) ==> TailShape([c][1..]);
        }
      }
    }
  }

  /** One step of TailFrom over a digit. */
  lemma TailFromDigit(rest: string, i: nat)
    requires i < 4 && i < |rest|
    requires IsDigit(rest[i])
    ensures TailFrom(rest, i) == Shift(DigitTerm(i, DigitValue(rest[i])), TailFrom(rest, i + 1))
  {
  }

  /** One step of TailFrom over a suffix letter. */
  lemma TailFromLetter(rest: string, i: nat)
    requires i < 4 && i < |rest|
    requires IsSuffixLetter(rest[i])
    ensures SuffixOffset(rest[i..]).Some? ==> TailFrom(rest, i) == Success(SuffixOffset(rest[i..]).value)
    ensures SuffixOffset(rest[i..]).None? ==> TailFrom(rest, i) == Failure(InvalidSuffix)
  {
  }

  /** The step of TailFrom at the fifth character after 'N'. */
  lemma TailFromFifth(rest: string)
    requires 4 < |rest|
    ensures CharIndex(rest[4]).Some? ==> TailFrom(rest, 4) == Success(CharIndex(rest[4]).value + 1)
    ensures CharIndex(rest[4]).None? ==> TailFrom(rest, 4) == Failure(InvalidTailCharacter)
  {
  }

  /**
   * Counting the characters DecodeFrom writes from position `level - 1`
   * after 'N' gives back the offset they were decoded from.
   */
  lemma {:induction false} TailFromDecodeFrom(rest: string, rem: nat, level: nat)
    requires 2 <= level <= 4 && rem < BucketSize(level - 1)
    requires level - 1 <= |rest| <= 5
    requires forall k :: 0 <= k < |rest| ==> IsRegistrationChar(rest[k])
    requires rest[level - 1..] == DecodeFrom(rem, level)
    ensures TailFrom(rest, level - 1) == Success(rem)
    decreases 4 - level
  {
    var i := level - 1;
    if rem < SUFFIX_SIZE {
      TailFromDecodeSuffix(rest, rem, level);
    } else {
      var dig, after := (rem - SUFFIX_SIZE) / BucketSize(level), (rem - SUFFIX_SIZE) % BucketSize(level);
      DecodeFromDigitStep(rem, level, dig, after);
      assert rest[i] == rest[i..][0] == DigitChar(dig);
      TailFromDigit(rest, i);
      assert rem == DigitTerm(i, dig) + after;
      if level < 4 {
        assert rest[level..] == rest[i..][1..];
        TailFromDecodeFrom(rest, after, level + 1);
      } else {
        TailFromLastChar(rest, after);
      }
    }
  }

  /** The suffix case of TailFromDecodeFrom. */
  lemma TailFromDecodeSuffix(rest: string, rem: nat, level: nat)
    requires 2 <= level <= 4 && rem < SUFFIX_SIZE
    requires level - 1 <= |rest| <= 5
    requires forall k :: 0 <= k < |rest| ==> IsRegistrationChar(rest[k])
    requires rest[level - 1..] == SuffixAt(rem)
    ensures TailFrom(rest, level - 1) == Success(rem)
  {
    if rem > 0 {
      SuffixRoundTrip(rem);
      assert IsSuffixLetter(rest[level - 1..][0]);
      TailFromLetter(rest, level - 1);
    }
  }

  /** The character after four digits counts back to the offset LastChar decoded it from. */
  lemma TailFromLastChar(rest: string, rem: nat)
    requires rem < BUCKET4_SIZE && 4 <= |rest| <= 5
    requires forall k :: 0 <= k < |rest| ==> IsRegistrationChar(rest[k])
    requires rest[4..] == LastChar(rem)
    ensures TailFrom(rest, 4) == Success(rem)
  {
    if rem > 0 {
      assert rest[4] == AlphabetChar(rem - 1);
      IndexOfAlphabetChar(rem - 1);
    }
  }

  /** DecodeFrom inverts the count TailFrom computes over a tail shape. */
  lemma {:induction false} DecodeFromTailFrom(rest: string, i: nat)
    requires 1 <= i <= 4 && i <= |rest| <= 5
    requires forall k :: 0 <= k < |rest| ==> IsRegistrationChar(rest[k])
    requires TailShape(rest[i..])
    ensures TailFrom(rest, i).Success?
    ensures i < 4 ==> DecodeFrom(TailFrom(rest, i).value, i + 1) == rest[i..]
    ensures i == 4 ==> LastChar(TailFrom(rest, i).value) == rest[i..]
    decreases |rest| - i
  {
    if i == |rest| {
      assert rest[i..] == [];
    } else if i == 4 {
      assert rest[i..] == [rest[4]];
    } else if IsSuffixLetter(rest[i]) {
      SuffixOffsetInverse(rest[i..]);
      TailFromLetter(rest, i);
    } else {
      DecodeFromTailFromDigit(rest, i);
    }
  }

  /** The digit case of DecodeFromTailFrom. */
  lemma {:induction false} DecodeFromTailFromDigit(rest: string, i: nat)
    requires 1 <= i < 4 && i < |rest| <= 5
    requires forall k :: 0 <= k < |rest| ==> IsRegistrationChar(rest[k])
    requires TailShape(rest[i..]) && !IsSuffixLetter(rest[i])
    ensures TailFrom(rest, i).Success?
    ensures DecodeFrom(TailFrom(rest, i).value, i + 1) == rest[i..]
    decreases |rest| - i, 0
  {
    var t := rest[i..];
    assert IsDigit(t[0]) && t[1..] == rest[i + 1..];
    DecodeFromTailFrom(rest, i + 1);
    TailFromDigit(rest, i);
    var d, after := DigitValue(rest[i]), TailFrom(rest, i + 1).value;
    var n := DigitTerm(i, d) + after;
    DigitStepArith(i, d, after, n);
    DecodeFromDigitStep(n, i + 1, d, after);
    DigitCharOfValue(rest[i]);
    assert rest[i..] == [rest[i]] + rest[i + 1..];
  }

  /** The count of a digit at position `i` followed by `after` lies in that digit's bucket, at offset `after`. */
  lemma DigitStepArith(i: nat, d: nat, after: int, n: int)
    requires 1 <= i < 4 && d <= 9 && 0 <= after < BucketSize(i + 1)
    requires n == DigitTerm(i, d) + after
    ensures SUFFIX_SIZE <= n < BucketSize(i)
    ensures d == (n - SUFFIX_SIZE) / BucketSize(i + 1) && after == (n - SUFFIX_SIZE) % BucketSize(i + 1)
  {
    DivModOfDigit(d, BucketSize(i + 1), after);
  }

  /** Division of `d * b + after` by `b` when `after < b`. */
  lemma DivModOfDigit(d: nat, b: nat, after: nat)
    requires after < b
    ensures (d * b + after) / b == d && (d * b + after) % b == after
  {
    var x := d * b + after;
    var q, r := x / b, x % b;
    assert x == q * b + r;
    if q > d {
      MulMono(b, d + 1, q);
      assert false;
    } else if q < d {
      MulMono(b, q + 1, d);
      assert false;
    }
  }

  lemma MulMono(a: nat, x: int, y: int)
    requires x <= y
    ensures a * x <= a * y
  {
    assert a * y - a * x == a * (y - x);
  }

  /** Decode writes 'N', the first digit and the characters DecodeFrom gives for the offset in its bucket. */
  lemma DecodeSplit(icao: u32)
    requires US_BASE + 1 <= icao <= US_MAX
    ensures (icao - US_BASE - 1) / BUCKET1_SIZE <= 8
    ensures icao - US_BASE - 1 == (icao - US_BASE - 1) / BUCKET1_SIZE * BUCKET1_SIZE + (icao - US_BASE - 1) % BUCKET1_SIZE
    ensures Decode(icao).Success?
    ensures Decode(icao).value
            == "N" + [DigitChar((icao - US_BASE - 1) / BUCKET1_SIZE + 1)] + DecodeFrom((icao - US_BASE - 1) % BUCKET1_SIZE, 2)
  {
    BlockLayout();
  }

  /** The first two steps of Encode on a canonical registration. */
  lemma EncodeCanonicalSteps(s: string)
    requires Canonical(s)
    ensures s[1..][1..] == s[2..]
    ensures forall k :: 0 <= k < |s[1..]| ==> IsRegistrationChar(s[1..][k])
    ensures TailFrom(s[1..], 0) == Shift(DigitTerm(0, DigitValue(s[1])), TailFrom(s[1..], 1))
    ensures TailFrom(s[1..], 0).Success? ==> Encode(s) == InUSRange(US_BASE + 1 + TailFrom(s[1..], 0).value)
  {
    CanonicalFormat(s);
    TailShapeDigits(s[2..]);
    var rest := s[1..];
    assert forall k :: 1 <= k < |rest| ==> rest[k] == s[2..][k - 1];
    TailFromDigit(rest, 0);
  }

  /** Every address of the US block decodes to a canonical registration. */
  lemma DecodeCanonical(icao: u32)
    requires US_BASE + 1 <= icao <= US_MAX
    ensures Canonical(Decode(icao).value)
  {
    DecodeSplit(icao);
    var i := icao - US_BASE - 1;
    var tail := DecodeFrom(i % BUCKET1_SIZE, 2);
    DecodeFromShape(i % BUCKET1_SIZE, 2);
    var s := Decode(icao).value;
    assert s[2..] == tail;
  }

  /** `icao_to_registration` then `registration_to_icao` gives back the address. */
  lemma EncodeOfDecode(icao: u32)
    requires US_BASE + 1 <= icao <= US_MAX
    ensures Encode(Decode(icao).value) == Success(icao)
  {
    DecodeSplit(icao);
    DecodeCanonical(icao);
    var i := icao - US_BASE - 1;
    EncodeOfDigitAndTail(Decode(icao).value, i / BUCKET1_SIZE + 1, i % BUCKET1_SIZE);
    Recombine(icao, i / BUCKET1_SIZE, i % BUCKET1_SIZE);
  }

  /** A canonical registration built from first digit `d` and offset `t` encodes to that bucket and offset. */
  lemma EncodeOfDigitAndTail(s: string, d: nat, t: nat)
    requires 1 <= d <= 9 && t < BUCKET1_SIZE
    requires s == "N" + [DigitChar(d)] + DecodeFrom(t, 2) && Canonical(s)
    ensures Encode(s) == Success(US_BASE + 1 + (d - 1) * BUCKET1_SIZE + t)
  {
    EncodeCanonicalSteps(s);
    var rest := s[1..];
    assert rest[1..] == DecodeFrom(t, 2);
    TailFromDecodeFrom(rest, t, 2);
    EncodeFromParts(s, d, t);
  }

  /** An address is the base plus its first-digit bucket plus its offset in the bucket. */
  lemma Recombine(icao: int, q: int, t: int)
    requires icao - US_BASE - 1 == q * BUCKET1_SIZE + t
    ensures US_BASE + 1 + ((q + 1) - 1) * BUCKET1_SIZE + t == icao
  {
  }

  /** A canonical registration with first digit `d` and tail count `t` encodes to that bucket and offset. */
  lemma EncodeFromParts(s: string, d: nat, t: nat)
    requires Canonical(s) && 1 <= d <= 9 && t < BUCKET1_SIZE
    requires s[1] == DigitChar(d) && TailFrom(s[1..], 1) == Success(t)
    ensures Encode(s) == Success(US_BASE + 1 + (d - 1) * BUCKET1_SIZE + t)
  {
    EncodeCanonicalSteps(s);
    BucketSum(d, t);
  }

  /** The address of first digit `d` and offset `t` in its bucket, as the encoder adds it up and checks it. */
  lemma BucketSum(d: nat, t: nat)
    requires 1 <= d <= 9 && t < BUCKET1_SIZE
    ensures US_BASE + 1 + (d - 1) * BUCKET1_SIZE + t <= US_MAX
    ensures InUSRange(US_BASE + 1 + (DigitTerm(0, d) + t)) == Success(US_BASE + 1 + (d - 1) * BUCKET1_SIZE + t)
  {
    BlockLayout();
    MulMono(BUCKET1_SIZE, d - 1, 8);
  }

  /** Encode of a canonical registration: the bucket of its first digit plus the count of the rest. */
  lemma EncodeCanonical(s: string)
    requires Canonical(s)
    ensures TailFrom(s[1..], 1).Success? && TailFrom(s[1..], 1).value < BUCKET1_SIZE
    ensures DecodeFrom(TailFrom(s[1..], 1).value, 2) == s[2..]
    ensures Encode(s) == Success(US_BASE + 1 + (DigitValue(s[1]) - 1) * BUCKET1_SIZE + TailFrom(s[1..], 1).value)
  {
    EncodeCanonicalSteps(s);
    DecodeFromTailFrom(s[1..], 1);
    EncodeCanonicalBucket(s);
  }

  /** The last step of EncodeCanonical: the first digit's bucket plus the tail count. */
  lemma EncodeCanonicalBucket(s: string)
    requires Canonical(s) && TailFrom(s[1..], 1).Success? && TailFrom(s[1..], 1).value < BUCKET1_SIZE
    ensures Encode(s) == Success(US_BASE + 1 + (DigitValue(s[1]) - 1) * BUCKET1_SIZE + TailFrom(s[1..], 1).value)
  {
    DigitCharOfValue(s[1]);
    EncodeFromParts(s, DigitValue(s[1]), TailFrom(s[1..], 1).value);
  }

  /** Decode of the address with first digit `d` and offset `after` in that digit's bucket. */
  lemma DecodeOfBucket(d: nat, after: nat)
    requires 1 <= d <= 9 && after < BUCKET1_SIZE
    ensures US_BASE + 1 + (d - 1) * BUCKET1_SIZE + after <= US_MAX
    ensures Decode(US_BASE + 1 + (d - 1) * BUCKET1_SIZE + after) == Success("N" + [DigitChar(d)] + DecodeFrom(after, 2))
  {
    BlockLayout();
    DivModOfDigit(d - 1, BUCKET1_SIZE, after);
  }

  lemma DigitCharOfValue(c: char)
    requires IsDigit(c)
    ensures DigitChar(DigitValue(c)) == c
  {
  }

  /** A canonical registration is decoded from its first digit's bucket at the offset its tail decodes from. */
  lemma DecodeOfCanonicalParts(s: string, after: nat)
    requires Canonical(s) && after < BUCKET1_SIZE && DecodeFrom(after, 2) == s[2..]
    ensures US_BASE + 1 + (DigitValue(s[1]) - 1) * BUCKET1_SIZE + after <= US_MAX
    ensures Decode(US_BASE + 1 + (DigitValue(s[1]) - 1) * BUCKET1_SIZE + after) == Success(s)
  {
    DecodeOfBucket(DigitValue(s[1]), after);
    DigitCharOfValue(s[1]);
    assert s == "N" + [s[1]] + s[2..];
  }

  /** For a canonical registration, `registration_to_icao` then `icao_to_registration` gives it back. */
  lemma DecodeOfEncode(s: string)
    requires Canonical(s)
    ensures Encode(s).Success?
    ensures Decode(Encode(s).value) == Success(s)
  {
    EncodeCanonical(s);
    DecodeOfCanonicalParts(s, TailFrom(s[1..], 1).value);
  }

  // ---------------------------------------------------------------------
  // The inputs the encoder accepts
  // ---------------------------------------------------------------------

  /**
   * The normalized N-Numbers `us_n_to_icao_u32` converts: "N" alone, or
   * 'N' followed by one to five characters that do not start with '0',
   * made of digits and then at most two suffix letters.
   */
  predicate Accepted(s: string) {
    s == "N" || (2 <= |s| <= 6 && s[0] == 'N' && s[1] != '0' && TailShape(s[1..]))
  }

  /** Over registration characters, the counting loop succeeds exactly on a tail shape. */
  lemma {:induction false} TailFromShape(rest: string, i: nat)
    requires i <= 4 && i <= |rest| <= 5
    requires forall k :: 0 <= k < |rest| ==> IsRegistrationChar(rest[k])
    ensures TailFrom(rest, i).Success? <==> TailShape(rest[i..])
    decreases |rest| - i
  {
    var t := rest[i..];
    if i == |rest| {
      assert t == [];
    } else if i == 4 {
      assert t == [rest[4]];
      assert IsDigit(rest[4]) ==> TailShape(t[1..]);
    } else if IsSuffixLetter(rest[i]) {
      SuffixOffsetInverse(t);
      assert forall k :: 0 <= k < |t| ==> t[k] == rest[i + k];
    } else {
      TailFromDigit(rest, i);
      TailFromShape(rest, i + 1);
      assert t[1..] == rest[i + 1..];
    }
  }

  /** Every accepted N-Number passes the format checks and is converted. */
  lemma EncodeAcceptedSucceeds(nnumber: string)
    requires Accepted(Normalize(nnumber))
    ensures Encode(nnumber).Success?
  {
    var s := Normalize(nnumber);
    if s == "N" {
      assert !LetterInMiddle(s);
    } else {
      var rest := s[1..];
      TailShapeDigits(rest);
      assert forall k :: 1 <= k < |s| ==> s[k] == rest[k - 1];
      Utf8LenAscii(s);
      FirstInvalidSpec(s);
      assert !LetterInMiddle(s);
      TailFromShape(rest, 0);
      assert rest[0..] == rest;
    }
  }

  /** Every N-Number the encoder converts is accepted. */
  lemma EncodeSucceedsAccepted(nnumber: string)
    requires Encode(nnumber).Success?
    ensures Accepted(Normalize(nnumber))
  {
    var s := Normalize(nnumber);
    CheckFormatPassed(s);
    if |s| == 1 {
      assert s == "N";
    } else {
      var rest := s[1..];
      assert forall k :: 0 <= k < |rest| ==> rest[k] == s[k + 1];
      TailFromShape(rest, 0);
      assert rest[0..] == rest;
    }
  }

  /**
   * The encoder's rules, all at once: no leading 'N', more than six
   * characters, a character outside ALLCHARS, a letter before the last two
   * places, a suffix that is not letters only (as in "N1A2") or a leading
   * '0' each make it fail, and nothing else does.
   */
  lemma EncodeAccepts(nnumber: string)
    ensures Encode(nnumber).Success? <==> Accepted(Normalize(nnumber))
  {
    if Accepted(Normalize(nnumber)) {
      EncodeAcceptedSucceeds(nnumber);
    } else if Encode(nnumber).Success? {
      EncodeSucceedsAccepted(nnumber);
    }
  }

  /** Every canonical registration is accepted. */
  lemma CanonicalAccepted(s: string)
    requires Canonical(s)
    ensures Accepted(s)
  {
    assert s[1..][1..] == s[2..];
  }

  /** A digit after a suffix letter is refused as an invalid suffix. */
  lemma SuffixWithDigit()
    ensures Encode("N1A2") == Failure(InvalidSuffix)
  {
    NormalizeRegistrationChars("N1A2");
    assert !LetterInMiddle("N1A2");
    var rest := "N1A2"[1..];
    assert rest == "1A2" && rest[1..] == "A2";
    TailFromDigit(rest, 0);
    TailFromLetter(rest, 1);
  }

  // ---------------------------------------------------------------------
  // The registrations at the ends of the block and in the tests
  // ---------------------------------------------------------------------

  /** The first address of the block is N1. */
  lemma DecodeFirst()
    ensures Decode(0xA00001) == Success("N1")
  {
    DecodeOfBucket(1, 0);
    assert DecodeFrom(0, 2) == "";
    assert DigitChar(1) == '1';
    assert 0xA00001 == US_BASE + 1 + (1 - 1) * BUCKET1_SIZE + 0;
    assert "N" + ['1'] + "" == "N1";
  }

  /** The last address of the block is N99999. */
  lemma DecodeLast()
    ensures Decode(0xADF7C7) == Success("N99999")
  {
    DecodeOfBucket(9, 101710);
    Decoded99999();
    assert 0xADF7C7 == US_BASE + 1 + 8 * BUCKET1_SIZE + 101710 by { BlockLayout(); }
  }

  lemma Decoded99999()
    ensures "N" + [DigitChar(9)] + DecodeFrom(101710, 2) == "N99999"
  {
    BlockLayout();
    assert DigitChar(9) == '9';
    DecodeFromDigitStep(950, 4, 9, 34);
    assert LastChar(34) == "9";
    assert DecodeFrom(950, 4) == "99";
    DecodeFromDigitStep(10110, 3, 9, 950);
    assert DecodeFrom(10110, 3) == "999";
    DecodeFromDigitStep(101710, 2, 9, 10110);
    assert DecodeFrom(101710, 2) == "9999";
  }

  /** 0xAB8E4F is N8437D. */
  lemma Decode8437D()
    ensures Decode(0xAB8E4F) == Success("N8437D")
  {
    DecodeOfBucket(8, 45349);
    Decoded8437D();
    assert 0xAB8E4F == US_BASE + 1 + 7 * BUCKET1_SIZE + 45349 by { BlockLayout(); }
  }

  lemma Decoded8437D()
    ensures "N" + [DigitChar(8)] + DecodeFrom(45349, 2) == "N8437D"
  {
    BlockLayout();
    assert DigitChar(8) == '8' && DigitChar(4) == '4' && DigitChar(3) == '3' && DigitChar(7) == '7';
    DecodeFromDigitStep(850, 4, 7, 4);
    assert LastChar(4) == "D";
    assert DecodeFrom(850, 4) == "7D";
    DecodeFromDigitStep(4304, 3, 3, 850);
    assert DecodeFrom(4304, 3) == "37D";
    DecodeFromDigitStep(45349, 2, 4, 4304);
    assert DecodeFrom(45349, 2) == "437D";
  }

  /** 0xA58A20 is N456TS. */
  lemma Decode456TS()
    ensures Decode(0xA58A20) == Success("N456TS")
  {
    DecodeOfBucket(4, 57906);
    Decoded456TS();
    assert 0xA58A20 == US_BASE + 1 + 3 * BUCKET1_SIZE + 57906 by { BlockLayout(); }
  }

  lemma Decoded456TS()
    ensures "N" + [DigitChar(4)] + DecodeFrom(57906, 2) == "N456TS"
  {
    BlockLayout();
    assert DigitChar(4) == '4' && DigitChar(5) == '5' && DigitChar(6) == '6';
    assert SuffixAt(443) == "TS";
    DecodeFromDigitStep(6750, 3, 6, 443);
    assert DecodeFrom(6750, 3) == "6TS";
    DecodeFromDigitStep(57906, 2, 5, 6750);
    assert DecodeFrom(57906, 2) == "56TS";
  }

  /** The same pairs read the other way, through the decode-then-encode round trip. */
  lemma EncodeTested()
    ensures Encode("N1") == Success(0xA00001)
    ensures Encode("N99999") == Success(0xADF7C7)
    ensures Encode("N8437D") == Success(0xAB8E4F)
    ensures Encode("N456TS") == Success(0xA58A20)
  {
    DecodeFirst();
    EncodeOfDecode(0xA00001);
    DecodeLast();
    EncodeOfDecode(0xADF7C7);
    Encode8437D();
    Decode456TS();
    EncodeOfDecode(0xA58A20);
  }

  lemma Encode8437D()
    ensures Encode("N8437D") == Success(0xAB8E4F)
  {
    Decode8437D();
    EncodeOfDecode(0xAB8E4F);
  }

  /** Normalizing an already normalized registration changes nothing. */
  lemma NormalizeIdempotent(s: string)
    ensures Normalize(Normalize(s)) == Normalize(s)
  {
    var t := Trim(s);
    TrimSpec(s);
    UpperTrimmed(t);
    TrimOfTrimmed(Upper(t));
    UpperIdempotent(t);
  }

  /** `us_n_to_icao_u32` ignores surrounding whitespace and the case of letters. */
  lemma EncodeNormalizes(s: string)
    ensures Encode(s) == Encode(Normalize(s))
  {
    NormalizeIdempotent(s);
  }

  /**
   * A lower-case registration with spaces around it encodes like its
   * canonical form, but `registration_to_icao` checks the 'N' before
   * normalizing and so turns the bare lower-case form away.
   */
  lemma EncodeLowercase8437D()
    ensures Encode(" n8437d ") == Success(0xAB8E4F)
    ensures RegistrationToIcao("n8437d") == Failure(UnsupportedPrefix)
  {
    NormalizeLowercase8437D();
    EncodeNormalizes(" n8437d ");
    Encode8437D();
    assert !StartsWith("n8437d", "N");
  }

  /** Trimming and upper-casing " n8437d " gives its canonical form. */
  lemma NormalizeLowercase8437D()
    ensures Normalize(" n8437d ") == "N8437D"
  {
    var padded, inner := " n8437d ", "n8437d ";
    assert padded[1..] == inner && !IsSpace(inner[0]);
    assert LeadingSpaces(padded) == 1;
    assert inner[..6] == "n8437d" && !IsSpace(inner[5]);
    assert TrailingSpaces(inner) == 1;
    assert Trim(padded) == "n8437d";
    assert Upper("n8437d") == "N8437D";
  }

  /** The suffix numbering at its ends, as documented on `get_suffix`. */
  lemma SuffixExamples()
    ensures SuffixAt(0) == "" && SuffixAt(1) == "A" && SuffixAt(2) == "AA"
    ensures SuffixAt(3) == "AB" && SuffixAt(600) == "ZZ"
  {
  }

  // ---------------------------------------------------------------------
  // A leading zero
  // ---------------------------------------------------------------------

  /** "N" alone is accepted and shares its address with "N1", so Encode is not one-to-one. */
  lemma EncodeBareN()
    ensures Encode("N") == Encode("N1") == Success(0xA00001)
  {
    NormalizeRegistrationChars("N");
    assert !LetterInMiddle("N");
    EncodeTested();
  }

  /**
   * In a release build "N0" passes every check and the wrapped count puts
   * it at 0x9E72B2, below the US block, where no registration decodes;
   * the corrected Encode rejects it.
   */
  lemma LeadingZeroWraps()
    ensures EncodeWrapping("N0") == Success(0x9E72B2)
    ensures 0x9E72B2 < US_BASE + 1 && Decode(0x9E72B2).Failure?
    ensures Encode("N0") == Failure(LeadingZero)
  {
    NormalizeRegistrationChars("N0");
    assert !LetterInMiddle("N0");
    assert "N0"[1..] == "0";
    BlockLayout();
  }

  /** A leading '0' makes the count negative: a whole first-digit bucket is subtracted. */
  lemma LeadingZeroCount(rest: string)
    requires 1 <= |rest| && rest[0] == '0'
    ensures TailFrom(rest, 0).Success? ==> TailFrom(rest, 0).value < 0
  {
    TailFromDigit(rest, 0);
  }

  /**
   * The wrapping encoder agrees with Encode except on a leading '0', and
   * there every address it produces lies below the US block.
   */
  lemma EncodeWrappingAgrees(nnumber: string)
    ensures Encode(nnumber) != Failure(LeadingZero) ==> EncodeWrapping(nnumber) == Encode(nnumber)
    ensures Encode(nnumber) == Failure(LeadingZero) && EncodeWrapping(nnumber).Success?
            ==> EncodeWrapping(nnumber).value < US_BASE + 1
  {
    var s := Normalize(nnumber);
    if CheckFormat(s) == None && |s| > 1 {
      if s[1] == '0' {
        LeadingZeroCount(s[1..]);
      }
    }
  }

  // ---------------------------------------------------------------------
  // Public API
  // ---------------------------------------------------------------------

  /** `u32_to_arr3`: the low three bytes, most significant first (higher bits are dropped). */
  function ToArr3(x: u32): (a: Address)
  {
    [(x / 0x1_0000) % 0x100, (x / 0x100) % 0x100, x % 0x100]
  }

  /** `arr3_to_u32`: the three bytes read big-endian. */
  function FromArr3(a: Address): (x: u32)
    ensures x <= 0xFF_FFFF
  {
    a[0] as int * 0x1_0000 + a[1] as int * 0x100 + a[2] as int
  }

  /** The 24-bit values and the byte triples are in one-to-one correspondence. */
  lemma Arr3RoundTrip(x: u32, a: Address)
    ensures x <= 0xFF_FFFF ==> FromArr3(ToArr3(x)) == x
    ensures ToArr3(FromArr3(a)) == a
  {
    if x <= 0xFF_FFFF {
      BytesOfValue(x);
    }
    ValueOfBytes(a);
  }

  /** Splitting a 24-bit value into bytes and reading them back. */
  lemma BytesOfValue(x: u32)
    requires x <= 0xFF_FFFF
    ensures FromArr3(ToArr3(x)) == x
  {
    var q, r := x / 0x100, x % 0x100;
    var hi, mid := q / 0x100, q % 0x100;
    assert x == q * 0x100 + r;
    assert q == hi * 0x100 + mid;
    assert x == hi * 0x1_0000 + (mid * 0x100 + r);
    DivModOfDigit(hi, 0x1_0000, mid * 0x100 + r);
    assert x / 0x1_0000 == hi && hi < 0x100;
    assert ToArr3(x) == [hi, mid, r];
  }

  /** Reading three bytes and splitting the value again. */
  lemma ValueOfBytes(a: Address)
    ensures ToArr3(FromArr3(a)) == a
  {
    var a0, a1, a2 := a[0] as nat, a[1] as nat, a[2] as nat;
    var x := FromArr3(a);
    assert x == (a0 * 0x100 + a1) * 0x100 + a2;
    DivModOfDigit(a0 * 0x100 + a1, 0x100, a2);
    DivModOfDigit(a0, 0x100, a1);
    assert x == a0 * 0x1_0000 + (a1 * 0x100 + a2);
    DivModOfDigit(a0, 0x1_0000, a1 * 0x100 + a2);
    assert ToArr3(x) == [a0, a1, a2];
  }

  /** `registration_to_icao`: only registrations that start with 'N' as given (before trimming) are converted. */
  function RegistrationToIcao(reg: string): (r: Result<Address, Error>)
    ensures !StartsWith(reg, "N") ==> r == Failure(UnsupportedPrefix)
    ensures StartsWith(reg, "N") && Encode(reg).Success? ==> r == Success(ToArr3(Encode(reg).value))
    ensures StartsWith(reg, "N") && Encode(reg).Failure? ==> r == Failure(Encode(reg).error)
  {
    if StartsWith(reg, "N") then
      match Encode(reg)
      case Success(x) => Success(ToArr3(x))
      case Failure(e) => Failure(e)
    else Failure(UnsupportedPrefix)
  }

  /** `icao_to_registration`: addresses outside the US block are refused before decoding. */
  function IcaoToRegistration(icao: Address): (r: Result<string, Error>)
    ensures r.Success? <==> US_BASE + 1 <= FromArr3(icao) <= US_MAX
    ensures r.Failure? ==> r.error == IcaoNotInUSRange
    ensures r.Success? ==> Canonical(r.value) && r.value == Decode(FromArr3(icao)).value
  {
    var x := FromArr3(icao);
    if US_BASE + 1 <= x <= US_MAX then
      DecodeCanonical(x);
      Decode(x)
    else Failure(IcaoNotInUSRange)
  }

  /** Every address of the US block survives `icao_to_registration` then `registration_to_icao`. */
  lemma IcaoRoundTrip(icao: Address)
    requires US_BASE + 1 <= FromArr3(icao) <= US_MAX
    ensures RegistrationToIcao(IcaoToRegistration(icao).value) == Success(icao)
  {
    var x := FromArr3(icao);
    EncodeOfDecode(x);
    Arr3RoundTrip(x, icao);
  }

  /** A canonical registration survives `registration_to_icao` then `icao_to_registration`. */
  lemma RegistrationRoundTrip(reg: string)
    requires Canonical(reg)
    ensures RegistrationToIcao(reg).Success?
    ensures IcaoToRegistration(RegistrationToIcao(reg).value) == Success(reg)
  {
    DecodeOfEncode(reg);
    var x := Encode(reg).value;
    Arr3RoundTrip(x, [0, 0, 0]);
  }

  /** The tested conversions of N8437D through the public API, one direction per lemma. */
  lemma IcaoToRegistration8437D()
    ensures IcaoToRegistration([0xAB, 0x8E, 0x4F]) == Success("N8437D")
  {
    Decode8437D();
  }

  lemma RegistrationToIcao8437D()
    ensures RegistrationToIcao("N8437D") == Success(ToArr3(0xAB8E4F))
  {
    Encode8437D();
    assert StartsWith("N8437D", "N");
  }

  /** The bytes of 0xAB8E4F. */
  lemma Arr3Example()
    ensures ToArr3(0xAB8E4F) == [0xAB, 0x8E, 0x4F]
  {
  }

  /** The two tested refusals: a foreign prefix, and an address outside the US block. */
  lemma ApiRefusals()
    ensures RegistrationToIcao("G-ABCD") == Failure(UnsupportedPrefix)
    ensures IcaoToRegistration([0x00, 0x12, 0x34]) == Failure(IcaoNotInUSRange)
  {
  }
}
