# flydent, modelled in Dafny

flydent identifies the country or organization an aircraft belongs to.
It does this from a radio callsign or registration (such as `T6ABC`), or
from a 24-bit ICAO aircraft address written in hexadecimal (such as
`700123`). It also converts between US civil registrations ("N-Numbers")
and the addresses of the US block. And it names the state that a raw
24-bit address is allocated to.

This project models the three parts of the library and proves what each promises:

- `registration.dfy` (module `Registration`) models the N-Number codec.
  The US block `0xA00001..0xADF7C7` is laid out as nested buckets:
  - a first digit 1-9;
  - up to four more digits;
  - at any point, a suffix of at most two letters from a 24-letter
    alphabet without I and O.

  The encoder counts the offset of a registration within the block. The
  decoder peels the digits back off. The public entry points
  `registration_to_icao` and `icao_to_registration` are modelled too.
- `icao.dfy` (module `Icao`) models the allocation table.
  - The table holds 187 rows, each a binary prefix and an ISO 3166-1
    alpha-2 code.
  - An address is rendered as 24 binary digits.
  - The lookup returns the code of the first row, in table order, whose
    prefix starts that rendering.
  - The table is written in blocks of at most twelve rows that follow the
    source's sections by prefix length.
- `icao_lookups.dfy` (module `IcaoLookups`) proves the lookups of the
  addresses that the table's documentation and tests name. It works block
  by block: for each row before the matching one it names a bit where the
  row's prefix and the address differ.
- The parser is split over four modules:
  - `lists.dfy` (module `Lists`): the Python list-literal reader and the
    quoted CSV line splitter.
  - `dataset.dfy` (module `Dataset`): one record per table row, loading
    both tables, the callsign index, the address index and the
    shortest/longest callsign lengths.
  - `classifier.dfy` (module `Classifier`): the callsign path, the address
    path and `parse`/`parse_simple`.
  - `text.dfy` (module `Text`): the string operations of the Rust
    standard library that these use. These are `trim`,
    `to_ascii_uppercase`, `len` in UTF-8 bytes, `split`, `replace`,
    `starts_with` and `ends_with`.

Some things are parameters of the model:
- The regular-expression library is a parameter (`Classifier.RegexEngine`).
  It says whether a pattern compiles and whether a compiled pattern
  matches an input.
- The two CSV data files compiled into the library are parameters too:
  the countries' text and the organizations' text.

Everything the parser decides is proved for every engine and every pair
of files.

Imperative code becomes methods, each proved equal to a specification
function:
- the counting loop of the encoder;
- the digit-peeling decoder;
- the CSV scanner;
- the table loaders;
- the index builders;
- the two loops of `parse_registration`;
- the prefix loop of `parse_icao24bit`.

The properties are then proved about those functions.

## Model

| member | source | states |
|---|---|---|
| Registration.BlockLayout | src/registration.rs:11-23 | The bucket sizes are 601, 35, 951, 10111 and 101711. Each bucket is its suffix part followed by ten sub-buckets. The nine first-digit buckets fill `US_MAX - US_BASE` exactly, so a decoded first digit is always 1-9. |
| Registration.AlphabetLayout | src/registration.rs:14-16 | CHARSET has 24 letters and ALLCHARS 34 characters. ALLCHARS is CHARSET followed by the ten digits, and each position holds the character of that rank. |
| Registration.CharClasses | src/registration.rs:14-16 | Membership in CHARSET is being a suffix letter (a capital other than I and O). Membership in ALLCHARS is being a suffix letter or a digit. |
| Registration.Find | src/registration.rs:65-69 | `str::find`: None exactly when the character is absent, otherwise its first position. |
| Registration.DigitChar | src/registration.rs:162 | The decimal rendering of a digit 0-9 is one digit character of that value. |
| Registration.AlphabetChar | src/registration.rs:199 | The `k`-th character of ALLCHARS has rank `k` and is a letter exactly when `k < 24`. |
| Registration.LetterIndex | src/registration.rs:65 | The position in CHARSET is defined exactly for suffix letters, and looking that position up gives the letter back. |
| Registration.CharIndex | src/registration.rs:121 | The position in ALLCHARS is defined exactly for registration characters, and looking that position up gives the character back. |
| Registration.IndexIsFind | src/registration.rs:65-69 | The rank-based positions agree with searching CHARSET and ALLCHARS left to right. |
| Registration.FindByRank | src/registration.rs:65-69 | Searching an alphabet laid out by rank finds a character exactly when it belongs and its rank is inside the alphabet, and finds it at that rank. |
| Registration.IndexOfAlphabetChar | src/registration.rs:121-122 | Looking up the `k`-th character of an alphabet gives `k`. |
| Registration.SuffixAt | src/registration.rs:33-52 | `get_suffix(k)` for `k <= 600` has at most two characters, all from CHARSET. It is empty exactly for offset 0. |
| Registration.SuffixOffset | src/registration.rs:54-74 | `suffix_offset` returns an offset only for strings of at most two characters, and the offset lies in a bucket's suffix part (below 601). SuffixOffsetInverse gives its exact domain and shows `get_suffix` inverts it. |
| Registration.SuffixOffsetInverse | src/registration.rs:54-74 | `suffix_offset` succeeds exactly on strings of at most two CHARSET letters. It then returns an offset below 601 that `get_suffix` maps back to the string. |
| Registration.SuffixRoundTrip | src/registration.rs:33-74 | `suffix_offset(get_suffix(k)) == Some(k)` for every offset 0..600. |
| Registration.SuffixAtLetters | src/registration.rs:33-52 | The offset `25*i0 + 1` names the one-letter suffix of letter `i0`, and `25*i0 + 1 + i1 + 1` the two letters `i0`, `i1`. |
| Registration.LetterSuffixRoundTrip | src/registration.rs:33-74 | `suffix_offset` reads each such one- or two-letter suffix back to its offset. |
| Registration.SuffixRoundTripTwo | src/registration.rs:33-74 | The round trip for every offset that `get_suffix` renders with two letters. |
| Registration.SuffixExamples | src/registration.rs:33-39 | The documented offsets: 0 is "", 1 is "A", 2 is "AA", 3 is "AB", 600 is "ZZ". |
| Registration.FirstInvalidSpec | src/registration.rs:89-94 | The character check reports the first character outside ALLCHARS, and reports none exactly when every character is in ALLCHARS. |
| Registration.FirstInvalid | src/registration.rs:89-94 | The character loop of the format check: a position it reports lies inside the string. FirstInvalidSpec states that the position is that of the first character outside ALLCHARS, and that there is none exactly when every character is in ALLCHARS. |
| Registration.LetterInMiddle | src/registration.rs:96-104 | A definition without a contract of its own: a registration longer than three characters with a CHARSET letter at one of positions 1 to len-3. CheckFormat reports it as LettersOnlyAsSuffix, and CheckFormatPassed states that a passing string has only digits there. |
| Registration.CheckFormat | src/registration.rs:80-104 | A string that passes the leading checks has 1 to 6 characters and starts with 'N'. |
| Registration.CheckFormatPassed | src/registration.rs:89-104 | A string that passes the checks is made of ALLCHARS characters. Every character from position 1 to the third-last is a digit. |
| Registration.CheckNNumberFormat | src/registration.rs:80-104 | The checks run in the order of `us_n_to_icao_u32`, and the first that fails gives the error (CheckFormat). |
| Registration.TailFrom | src/registration.rs:113-140 | The counting loop fails only with an invalid suffix, invalid last character or invalid digit. Its count from position `i` stays inside the bucket that position selects, and it is non-negative unless the first digit is '0'. |
| Registration.TailFromErrors | src/registration.rs:113-140 | Over ALLCHARS characters the only error the loop can raise is the invalid suffix. |
| Registration.DigitTerm | src/registration.rs:132-136 | A digit adds at least the suffix part of its bucket. What it adds, plus the sub-bucket it selects, stays within the enclosing bucket. |
| Registration.InUSRange | src/registration.rs:142-147 | The final range check succeeds exactly up to `US_MAX` and passes the address through. |
| Registration.Normalize | src/registration.rs:78 | The input as the encoder examines it is trimmed, holds no lower-case ASCII letter, and is no longer than the raw input. |
| Registration.Encode | src/registration.rs:77-148 | Every address produced lies in `[0xA00001, 0xADF7C7]`. The range error is therefore never raised, and a leading '0' is refused (see Findings). |
| Registration.UsNToIcaoU32 | src/registration.rs:77-148 | The method (format checks, counting loop with its early exits, range check) computes Encode. |
| Registration.CountTail | src/registration.rs:106-140 | The counting loop refuses a leading '0' and otherwise returns the count TailFrom specifies. |
| Registration.Decode | src/registration.rs:151-154 | `icao_u32_to_us` succeeds exactly on the US block and otherwise fails with "Not in US allocation". |
| Registration.IcaoU32ToUs | src/registration.rs:151-204 | The method peels digits off the remainder bucket by bucket, returning at the first suffix, and computes Decode. |
| Registration.PushDigit | src/registration.rs:168-192 | One "Digit k" block: the remainder stays inside the sub-bucket, and the pushed digit followed by the decoding of the new remainder equals the decoding of the old one. |
| Registration.DecodeFromSuffix | src/registration.rs:164-186 | A remainder below 601 decodes to `get_suffix` of it at every level, as each early return does. |
| Registration.LastChar | src/registration.rs:194-201 | The last step writes at most one character: nothing for 0, otherwise ALLCHARS at `rem - 1`. |
| Registration.DecodeFromDigitStep | src/registration.rs:168-192 | One decoding step splits the remainder into a digit 0-9 and an offset inside that digit's sub-bucket, and writes the digit. |
| Registration.TailShapeDigits | src/registration.rs:96-104 | In the tail of a decoded registration every character before the last two is a digit. |
| Registration.NormalizeRegistrationChars | src/registration.rs:78 | Trimming and upper-casing leave a string of ALLCHARS characters unchanged. |
| Registration.NormalizeIdempotent | src/registration.rs:78 | Trimming and upper-casing an already trimmed, upper-cased input changes nothing. |
| Registration.EncodeNormalizes | src/registration.rs:77-78 | `us_n_to_icao_u32` gives the same result for an input and for its trimmed, upper-cased form, so surrounding whitespace and letter case do not matter. |
| Registration.NormalizeLowercase8437D | src/registration.rs:78 | " n8437d " trims and upper-cases to "N8437D". |
| Registration.EncodeLowercase8437D | src/registration.rs:208-214 | `us_n_to_icao_u32` converts " n8437d " to 0xAB8E4F, as it does "N8437D". `registration_to_icao` tests for 'N' before any normalization, so it refuses "n8437d" as an unsupported prefix. |
| Registration.CanonicalFormat | src/registration.rs:78-104 | A canonical registration ('N', a digit 1-9, digits, at most two trailing letters, at most 6 characters) passes every format check. |
| Registration.DecodeFrom | src/registration.rs:156-203 | A definition without a contract of its own: the digit peeling of `icao_u32_to_us` from the second character on, a suffix when the remainder is below 601, else a digit and the rest of the sub-bucket. DecodeFromShape, DecodeFromSuffix and DecodeFromDigitStep state what it writes, and TailFromDecodeFrom and DecodeFromTailFrom that the encoder's count inverts it. |
| Registration.DecodeFromShape | src/registration.rs:156-203 | What the decoder writes after the first digit has the tail shape and fits the positions left. |
| Registration.Canonical | src/registration.rs:151-204 | A definition without a contract of its own: the registrations the decoder writes. DecodeCanonical shows every address of the block decodes to one, and CanonicalAccepted that each is accepted. |
| Registration.TailFromDigit | src/registration.rs:129-138 | One loop step over a digit adds that digit's term to the count of the rest. |
| Registration.TailFromLetter | src/registration.rs:124-128 | At the first letter the loop stops with the suffix's offset, or fails with "Invalid suffix". |
| Registration.TailFromFifth | src/registration.rs:119-123 | At the fifth character after 'N' the loop adds its ALLCHARS position plus one and stops. |
| Registration.TailFromDecodeFrom | src/registration.rs:106-203 | The count the encoder computes from a decoded tail is the remainder it was decoded from. |
| Registration.DecodeFromTailFrom | src/registration.rs:106-203 | Decoding the count of a tail-shaped string gives the string back. |
| Registration.DecodeFromTailFromDigit | src/registration.rs:129-138 | The digit case: a digit followed by a decodable rest counts to a value that decodes back to both. |
| Registration.DigitStepArith | src/registration.rs:132-136 | A digit's term plus an offset inside its sub-bucket lies in the digit's bucket; dividing gives the digit and the remainder gives the offset. |
| Registration.TailFromDecodeSuffix | src/registration.rs:124-128 | A decoded suffix counts back to the offset it was decoded from. |
| Registration.TailFromLastChar | src/registration.rs:119-123 | The character after four digits counts back to the offset it was decoded from. |
| Registration.DecodeSplit | src/registration.rs:156-162 | An address of the block decodes to 'N', its first digit, and the decoding of its offset inside that digit's bucket. |
| Registration.DecodeCanonical | src/registration.rs:151-204 | Every address of the US block decodes to a canonical registration: 'N', a digit 1-9, at most 6 characters. |
| Registration.EncodeOfDecode | src/registration.rs:77-204 | Decode then encode is the identity on the whole block `0xA00001..0xADF7C7`. |
| Registration.EncodeCanonical | src/registration.rs:106-147 | A canonical registration's address is its first digit's bucket plus the count of its tail. |
| Registration.EncodeCanonicalSteps | src/registration.rs:106-147 | For a canonical registration, the count from the first digit is that digit's term plus the tail's count, and the encoder returns the range check of that count. |
| Registration.EncodeCanonicalBucket | src/registration.rs:132-147 | When the tail count lies in a bucket, the encoder returns the first digit's bucket plus that count. |
| Registration.EncodeFromParts | src/registration.rs:132-147 | A canonical registration with first digit `d` and tail count `t` encodes to base + 1 + (d - 1) buckets + t. |
| Registration.BucketSum | src/registration.rs:133-147 | That sum never exceeds `US_MAX`, so the range check passes it through. |
| Registration.EncodeOfDigitAndTail | src/registration.rs:106-204 | A canonical registration built as 'N', digit `d` and the decoding of `t` encodes to the address of bucket `d` at offset `t`. |
| Registration.DecodeOfBucket | src/registration.rs:156-162 | The address at a given first digit and bucket offset decodes to that digit followed by the offset's tail. |
| Registration.DecodeOfCanonicalParts | src/registration.rs:151-204 | A canonical registration is what the address of its first digit's bucket, at its tail's offset, decodes to. |
| Registration.DecodeOfEncode | src/registration.rs:77-204 | Encode then decode gives back every canonical registration. |
| Registration.TailFromShape | src/registration.rs:113-140 | Over ALLCHARS characters the counting loop succeeds exactly on digits followed by at most two letters. |
| Registration.Accepted | src/registration.rs:77-148 | A definition without a contract of its own: the normalized N-Numbers the encoder converts. EncodeAccepts shows the encoder succeeds exactly on them. |
| Registration.EncodeAcceptedSucceeds | src/registration.rs:77-148 | Every accepted N-Number is converted. |
| Registration.EncodeSucceedsAccepted | src/registration.rs:77-148 | Every N-Number that is converted is accepted. |
| Registration.EncodeAccepts | src/registration.rs:77-148 | The encoder succeeds exactly when the trimmed, upper-cased input is accepted. Accepted means: 'N', then nothing, or a digit 1-9 or a letter; letters only as a final suffix of at most two; ALLCHARS only; at most 6 characters. |
| Registration.CanonicalAccepted | src/registration.rs:77-148 | Every canonical registration is accepted. |
| Registration.SuffixWithDigit | src/registration.rs:124-128 | "N1A2" is refused as an invalid suffix. |
| Registration.EncodeBareN | src/registration.rs:106-111 | "N" alone is accepted and shares 0xA00001 with "N1". |
| Registration.DecodeFirst | src/registration.rs:258-264 | 0xA00001 decodes to "N1". |
| Registration.DecodeLast | src/registration.rs:266-273 | 0xADF7C7 decodes to "N99999". |
| Registration.Decode8437D | src/registration.rs:236-242 | 0xAB8E4F decodes to "N8437D". |
| Registration.Decode456TS | src/registration.rs:229-234 | 0xA58A20 decodes to "N456TS". |
| Registration.Decoded99999 | src/registration.rs:266-273 | The offset 101710 of the ninth bucket decodes to "9999". |
| Registration.Decoded8437D | src/registration.rs:236-242 | The offset 45349 of the eighth bucket decodes to "437D". |
| Registration.Decoded456TS | src/registration.rs:229-234 | The offset 57906 of the fourth bucket decodes to "56TS". |
| Registration.EncodeTested | src/registration.rs:229-273 | "N1", "N99999", "N8437D" and "N456TS" encode to 0xA00001, 0xADF7C7, 0xAB8E4F and 0xA58A20. |
| Registration.Encode8437D | src/registration.rs:244-250 | "N8437D" encodes to 0xAB8E4F. |
| Registration.LeadingZeroCount | src/registration.rs:133 | After a leading '0' the count is negative: a whole first-digit bucket is subtracted. |
| Registration.EncodeWrapping | src/registration.rs:77-148 | `us_n_to_icao_u32` as written, with wrapping `u32` arithmetic (the as-written member of the Findings row). A success is at most `US_MAX`, and wherever the corrected encoder succeeds the code as written returns the same address. |
| Registration.LeadingZeroWraps | src/registration.rs:133 | As written, in a wrapping build, "N0" gives 0x9E72B2. That lies below the US block and decodes to nothing; the corrected encoder refuses it. |
| Registration.EncodeWrappingAgrees | src/registration.rs:106-147 | The code as written agrees with the corrected encoder except on a leading '0'. There every address it produces lies below the US block. |
| Registration.ToArr3 | src/registration.rs:25-27 | A definition without a contract of its own: `u32_to_arr3`, the low three bytes, most significant first. BytesOfValue and Arr3RoundTrip state that reading the bytes back gives `x` for every `x <= 0xFFFFFF`. |
| Registration.FromArr3 | src/registration.rs:29-31 | Three bytes read big-endian give at most 0xFFFFFF. |
| Registration.Arr3RoundTrip | src/registration.rs:25-31 | `arr3_to_u32(u32_to_arr3(x)) == x` for `x <= 0xFFFFFF`, and `u32_to_arr3(arr3_to_u32(a)) == a` for every triple. |
| Registration.BytesOfValue | src/registration.rs:25-31 | Splitting a value up to 0xFFFFFF into bytes and reading them back gives the value. |
| Registration.ValueOfBytes | src/registration.rs:25-31 | Reading three bytes and splitting the value gives the bytes. |
| Registration.RegistrationToIcao | src/registration.rs:208-214 | A registration not starting with 'N' is refused as an unsupported prefix. Otherwise it is the encoder's result as three bytes, or the encoder's error. |
| Registration.IcaoToRegistration | src/registration.rs:216-223 | It succeeds exactly on the US block, with a canonical registration, the decoder's result. Otherwise it fails with "ICAO not in US range". |
| Registration.IcaoRoundTrip | src/registration.rs:208-223 | Every address of the US block survives `icao_to_registration` then `registration_to_icao`. |
| Registration.RegistrationRoundTrip | src/registration.rs:208-223 | Every canonical registration survives `registration_to_icao` then `icao_to_registration`. |
| Registration.IcaoToRegistration8437D | src/registration.rs:236-242 | `[0xAB, 0x8E, 0x4F]` converts to "N8437D". |
| Registration.RegistrationToIcao8437D | src/registration.rs:244-250 | "N8437D" converts to `[0xAB, 0x8E, 0x4F]`. |
| Registration.Arr3Example | src/registration.rs:25-27 | The bytes of 0xAB8E4F are `[0xAB, 0x8E, 0x4F]`. |
| Registration.ApiRefusals | src/registration.rs:252-256 | "G-ABCD" is refused as an unsupported prefix, and `[0x00, 0x12, 0x34]` as outside the US range. |
| Icao.FirstMatchIndex | src/icao.rs:276-282 | The position found is a row of the table. |
| Icao.FirstMatch | src/icao.rs:276-282 | The loop of `icao_to_country` returns nothing exactly when no row's prefix starts the key. Otherwise it returns the code of a row whose prefix starts the key, with no such row before it. |
| Icao.FirstMatchIndexSpec | src/icao.rs:276-282 | The lookup finds the first row whose prefix starts the key. It finds none exactly when no row's prefix does. |
| Icao.FirstMatchChar | src/icao.rs:276-282 | The lookup stops at row `i` exactly when row `i` matches and no earlier row does. |
| Icao.FirstMatchFromTable | src/icao.rs:276-282 | Every code returned is the code of some row. |
| Icao.PrefixFreeUnique | src/icao.rs:6-8 | In a table where no prefix starts another, the matching row is unique, so the order of the rows does not matter. |
| Icao.FirstMatchAppend | src/icao.rs:276-282 | A lookup over two tables in sequence is the first table's answer, else the second's. |
| Icao.Bits | src/icao.rs:273 | The `{:08b}` rendering has exactly the requested number of '0'/'1' characters. |
| Icao.BitsValueOfBits | src/icao.rs:273 | The rendering of a number below `2^n` in `n` binary digits stands for that number. |
| Icao.BitsValueAppend | src/icao.rs:273 | The value of two binary strings one after the other is the first shifted left past the second, plus the second. |
| Icao.Binary | src/icao.rs:273 | The `{:08b}{:08b}{:08b}` rendering is 24 characters long. BinaryValue states that they are binary digits, most significant first, standing for the address read big-endian. |
| Icao.BinaryValue | src/icao.rs:271-273 | The address renders as exactly 24 binary digits, most significant first, standing for the address read big-endian. |
| Icao.IcaoToCountry | src/icao.rs:271-283 | A definition without a contract of its own: FirstMatch over `ICAO_ALLOCATIONS` and the address's 24-digit binary rendering. FirstMatch, BinaryValue and CountryFromTable state what it returns, and the IcaoLookups lemmas state its answer for the addresses its documentation and tests name. |
| Icao.IcaoU32ToCountry | src/icao.rs:234-248 | Values above 0xFFFFFF have no country. Others are looked up as their three big-endian bytes. |
| Icao.CountryFromTable | src/icao.rs:8-207 | Every code returned is one that `ICAO_ALLOCATIONS` allocates. |
| IcaoLookups.UsaAllocationN1 | src/icao.rs:290-294 | 0xA00001, as bytes and as a 24-bit number, is in the United States block: the lookup gives `US`. |
| IcaoLookups.UsaAllocationN8437D | src/icao.rs:262-265 | 0xAB8E4F (N8437D), as bytes and as a 24-bit number, gives `US`. |
| IcaoLookups.YugoslaviaAllocation | src/icao.rs:300-304 | 0x4C0000, as bytes and as a 24-bit number, gives Yugoslavia's code `RS`. |
| IcaoLookups.CanadaAllocation | src/icao.rs:307-311 | 0xC00001, as bytes and as a 24-bit number, gives `CA`. |
| IcaoLookups.UkAllocation | src/icao.rs:314-318 | 0x400000, as bytes and as a 24-bit number, gives `GB`. |
| IcaoLookups.RussiaAllocation | src/icao.rs:321-325 | 0x100000, as bytes and as a 24-bit number, gives `RU`. |
| IcaoLookups.SpecialAllocation | src/icao.rs:328-332 | 0xF00000 is in an ICAO special block: the lookup gives `ZZ`. |
| IcaoLookups.LongPrefixAllocation | src/icao.rs:349-355 | 0x0CA000 matches the 14-bit prefix of Antigua and Barbuda: the lookup gives `AG`, not `RU`. |
| IcaoLookups.NoAllocation | src/icao.rs:342-346 | No row starts 0xFFFFFF: as bytes and as a 24-bit number it has no country. |
| IcaoLookups.ZeroAddress | src/icao.rs:396-400 | No row starts 0x000000: as bytes and as a 24-bit number it has no country. |
| Text.LeadingSpacesSpec | src/lib.rs:108 | The leading whitespace count covers the whole whitespace run at the start. |
| Text.TrailingSpacesSpec | src/lib.rs:108 | The trailing whitespace count covers the whole whitespace run at the end. |
| Text.Trim | src/lib.rs:76 | `trim` never lengthens a string. TrimSpec states exactly what it removes, and TrimPadded that whitespace around a trimmed string is all it removes. |
| Text.TrimSpec | src/lib.rs:108 | `trim` leaves no whitespace at either end and removes only whitespace at the ends. A string without whitespace is unchanged. |
| Text.TrimIdempotent | src/lib.rs:76 | Trimming twice is trimming once. |
| Text.LeadingSpacesPadded | src/lib.rs:76 | Whitespace in front of a string that does not start with whitespace is exactly the leading run. |
| Text.TrailingSpacesPadded | src/lib.rs:76 | Whitespace behind a string that does not end with whitespace is exactly the trailing run. |
| Text.TrimPadded | src/lib.rs:76 | Trimming a trimmed string with any whitespace on either side gives that string back. |
| Text.UpperChar | src/registration.rs:78 | `to_ascii_uppercase` maps each of a-z to the capital 32 code points below it, which is the same letter in A-Z, and leaves every other character alone. |
| Text.Upper | src/registration.rs:78 | `to_ascii_uppercase` keeps the length. UpperSpec states that it converts each character with UpperChar. |
| Text.UpperSpec | src/registration.rs:78 | Upper-casing works character by character and keeps the length. |
| Text.UpperOfUpper | src/registration.rs:78 | A string without lower-case ASCII letters is unchanged. |
| Text.UpperIdempotent | src/registration.rs:78 | Upper-casing twice is upper-casing once. |
| Text.UpperTrimmed | src/registration.rs:78 | Upper-casing keeps a trimmed string trimmed, since no whitespace character is a letter. |
| Text.Utf8Width | src/registration.rs:85 | A character takes 1-4 bytes in UTF-8, and 1 exactly when it is ASCII. |
| Text.Utf8Len | src/registration.rs:85 | `len` counts at least one byte per character. Utf8LenAscii states that it equals the character count exactly for ASCII strings. |
| Text.Utf8LenAscii | src/registration.rs:85 | The byte length equals the character count exactly when every character is ASCII. |
| Text.Split | src/lib.rs:74 | `split` always yields at least one piece. |
| Text.JoinSplit | src/lib.rs:74 | Joining the pieces of a split with the separator gives the input back. |
| Text.SplitJoin | src/lib.rs:74 | Splitting pieces joined with a separator gives them back, when no piece contains the separator's first character. |
| Text.ReplaceAll | src/lib.rs:145 | A definition without a contract of its own: `replace`, rewriting left-to-right, non-overlapping occurrences. ReplaceIsSplitJoin and ReplaceAbsent state its result. |
| Text.ReplaceIsSplitJoin | src/lib.rs:145 | `replace` is splitting on the pattern and joining with the replacement. |
| Text.ReplaceAbsent | src/lib.rs:145 | A string that does not contain the pattern is unchanged by `replace`. |
| Text.StartsWith | src/lib.rs:69 | A definition without a contract of its own: `starts_with`, the pattern is a prefix of the string. PythonListEmpty states how `parse_python_list` uses it, and CheckFormat how `us_n_to_icao_u32` does (src/registration.rs:81). |
| Text.EndsWith | src/lib.rs:69 | A definition without a contract of its own: `ends_with`, the pattern ends the string. PythonListEmpty states how `parse_python_list` uses it. |
| Lists.ListItem | src/lib.rs:75-82 | An item never grows. ListItemQuotedPadded and ListItemPlainPadded state its result: the text between one pair of matching `'` or `"` quotes, or else the trimmed item unchanged. |
| Lists.ListItemQuotedPadded | src/lib.rs:76-78 | An item in a matching pair of `'` or `"` quotes, with any whitespace around it, gives exactly the quoted text. |
| Lists.ListItemPlainPadded | src/lib.rs:76-81 | An item whose trimmed text is not in a matching pair of quotes gives that trimmed text unchanged, whatever whitespace surrounds it. |
| Lists.ParsePythonList | src/lib.rs:68-88 | A definition without a contract of its own: `parse_python_list`. PythonListEmpty says when it is empty, and PythonListRoundTrip that it reads back what Python writes. |
| Lists.PythonListEmpty | src/lib.rs:68-72 | The list is empty exactly when the input is not bracketed or is `[]`. |
| Lists.ListItemOfQuoted | src/lib.rs:76-78 | An item in single quotes is unwrapped to exactly the quoted text. |
| Lists.UnquoteItems | src/lib.rs:75-83 | Unwrapping each quoted item gives the items back. |
| Lists.PythonListRoundTrip | src/lib.rs:68-88 | Reading back the list literal Python writes for any list of comma-free strings gives the list. |
| Lists.PythonListExamples | src/lib.rs:346-348 | `"['T6', 'YA']"` reads as `["T6", "YA"]`. |
| Lists.PythonListExampleOne | src/lib.rs:350-351 | `"['700']"` reads as `["700"]`. |
| Lists.CsvScan | src/lib.rs:96-115 | Scanning the rest of a line always ends with at least one field. |
| Lists.CsvFields | src/lib.rs:90-116 | A line always has at least one field. |
| Lists.ParseCsvLine | src/lib.rs:90-116 | The character loop with its quote flag and escaped quotes computes CsvFields. |
| Lists.CsvFieldCount | src/lib.rs:96-114 | A line has exactly one field more than it has commas outside quotes. |
| Lists.CsvFieldsTrimmed | src/lib.rs:108-114 | Every field is trimmed. |
| Lists.CsvScanEscaped | src/lib.rs:98-105 | Inside quotes a doubled `""` yields one literal `"`, and the closing quote ends the quoted text. |
| Lists.CsvScanQuoted | src/lib.rs:96-113 | A quoted field contributes exactly its text, commas and doubled quotes included. |
| Lists.CsvScanBare | src/lib.rs:96-115 | Outside quotes, a run of characters other than comma and quote is added to the current field as it is. |
| Lists.CsvScanCell | src/lib.rs:96-115 | A cell written bare or between quotes and followed by a comma or the end of the line yields exactly its text as one field. |
| Lists.EscapeQuoteFree | src/lib.rs:98-105 | Writing a text without quotes between quotes doubles nothing. |
| Lists.CsvScanQuoteFree | src/lib.rs:96-113 | A quote-free text between quotes, followed by a comma, yields that text as one field. |
| Lists.CsvFieldsFive | src/lib.rs:90-116 | A line starting with three bare fields and two quoted quote-free fields yields those five fields first, and at least one more after the fifth comma. |
| Lists.CsvFieldsAfghanistan | src/lib.rs:336-343 | The tested Afghanistan line, whatever follows its fifth field, splits with field 0 "Afghanistan", field 3 "['AF', 'AFG']" and field 4 "['T6', 'YA']". Field 4 reads as the list `["T6", "YA"]`. Regroup, AfghanistanFields, AfghanistanRegrouped, AfghanistanBareWritable and AfghanistanEnclosedWritable are helpers for this one line: they regroup the literal into its five cells followed by the rest, and show that each of its cells can be written bare or between quotes. |
| Lists.CsvRoundTrip | src/lib.rs:90-116 | A line of comma-separated trimmed cells reads back as the cells' texts. Each cell is written bare (no comma or quote in it) or between quotes (any commas and doubled quotes in it), in any mix. |
| Dataset.ParseI32 | src/lib.rs:136 | `str::parse::<i32>`: an optional sign and at least one digit, within the 32-bit range. |
| Dataset.Decimal | src/lib.rs:136 | A decimal rendering is a non-empty string of digits. |
| Dataset.DigitsValueOfDecimal | src/lib.rs:136 | Reading a decimal rendering gives back the number. |
| Dataset.ParseI32OfDecimal | src/lib.rs:136 | Every 32-bit value written in decimal parses back to itself and becomes the record's priority. |
| Dataset.Priority | src/lib.rs:136 | The priority column always gives a 32-bit value. ParseI32OfDecimal and PriorityFallback say which. |
| Dataset.PriorityFallback | src/lib.rs:136 | Empty cells, lone signs, cells with other characters and values beyond 32 bits all give priority 0. |
| Dataset.LinesOfFile | src/lib.rs:124-127 | A file of lines, each ended by a line feed, reads back as those lines (`str::lines`). |
| Dataset.Lines | src/lib.rs:124-127 | A definition without a contract of its own: `str::lines`. LinesOfFile shows it reads back a file written line by line. |
| Dataset.StrictPatternUnchanged | src/lib.rs:145 | A pattern containing neither `-{0,1}` nor `{0,1}$` is its own strict form. |
| Dataset.StrictPattern | src/lib.rs:145 | A definition without a contract of its own: the two `replace` calls that make a pattern strict. StrictPatternUnchanged and ReplaceIsSplitJoin state what they do. |
| Dataset.LineRecords | src/lib.rs:128-159 | One line gives at most one record, and a blank line gives none. RowRecord states when a row gives a record, and RecordsStep and BlankLineSkipped how the lines add up. |
| Dataset.RowRecord | src/lib.rs:132-159 | A row makes a record exactly when it has at least 10 fields (countries) or 9 (organizations). The record is a country exactly for the country table. |
| Dataset.CountryRowRoundTrip | src/lib.rs:132-159 | A country row written as a CSV line of bare or quoted cells gives the record of its columns. That record has nation, description, the ISO codes from the list column, the priority, the callsigns, the pattern and its strict form, and the address prefixes. |
| Dataset.OrganizationRowRoundTrip | src/lib.rs:173-194 | An organization row written as a CSV line of bare or quoted cells gives the record of its columns (name, description, priority, callsigns, pattern and strict form, prefixes). |
| Dataset.BuildTable | src/lib.rs:123-161 | One table's loop skips the header line, blank lines and short rows, and keeps the other rows' records in order. |
| Dataset.RecordsStep | src/lib.rs:127-161 | One more line adds that line's records at the end. |
| Dataset.Records | src/lib.rs:127-161 | A definition without a contract of its own: one table's records, line by line. RecordsStep, RecordsKind and BlankLineSkipped state its properties, and BuildTable computes it. |
| Dataset.BuildData | src/lib.rs:118-200 | `build_data!` gives the country records followed by the organization records. |
| Dataset.AllRecords | src/lib.rs:118-200 | A definition without a contract of its own: `DATA`, the country records and then the organization records. BuildData computes it, and CountriesFirst orders it. |
| Dataset.RecordsKind | src/lib.rs:147-194 | The country table yields only countries and the organization table only organizations. |
| Dataset.CountriesFirst | src/lib.rs:198 | In `DATA` every country precedes every organization, and the countries are exactly the first records. |
| Dataset.KindsInOrder | src/lib.rs:198 | Countries followed by organizations: the countries form exactly the prefix. |
| Dataset.BlankLineSkipped | src/lib.rs:128-130 | A blank line adds no record. |
| Dataset.BuildCallsignIndex | src/lib.rs:204-212 | The nested loops build exactly CallsignIndex. |
| Dataset.Repeat | src/lib.rs:208 | The repetition has the requested length and only the repeated value. |
| Dataset.PushAll | src/lib.rs:207-209 | A definition without a contract of its own: `entry(k).or_insert_with(Vec::new).push(i)` for each callsign of record `i` in turn. PushAllSpec, PushAllDomain and PushAllValue state the resulting map. |
| Dataset.PushAllSpec | src/lib.rs:207-209 | Pushing a record under some keys appends it to exactly those keys' lists, once per occurrence, and starts a list for new keys. Other keys are unchanged. |
| Dataset.PushAllDomain | src/lib.rs:207-209 | After the pushes the keys are the old keys and the keys pushed under. |
| Dataset.PushAllValue | src/lib.rs:207-209 | Under each key the list gains the record once for each time the key is pushed. |
| Dataset.CallsignIndexSpec | src/lib.rs:204-212 | The index holds exactly the keys some record lists, each with that key's listing. |
| Dataset.CallsignIndex | src/lib.rs:204-212 | A definition without a contract of its own: `CALLSIGNS_MAP`, record by record. CallsignIndexSpec, ListingSpec and CallsignIndexMembers state its contents, and BuildCallsignIndex computes it. |
| Dataset.ListingSpec | src/lib.rs:204-212 | A key's list holds record numbers that list the key, each as often as the record lists it, in non-decreasing order. |
| Dataset.ListingMembers | src/lib.rs:204-212 | Every entry of a key's list is a record that lists the key. |
| Dataset.ListingCount | src/lib.rs:204-212 | A record appears in a key's list as often as it lists the key. |
| Dataset.ListingSorted | src/lib.rs:204-212 | A key's list is in record order. |
| Dataset.RepeatCount | src/lib.rs:208 | A value occurs in a repetition exactly as often as it is repeated. |
| Dataset.CallsignIndexMembers | src/lib.rs:204-212 | A key is in `CALLSIGNS_MAP` exactly when some record lists it. Record `i` is under key `k` exactly when `k` is among its callsigns. |
| Dataset.BuildIcaoIndex | src/lib.rs:214-222 | The nested loops build exactly IcaoIndex. |
| Dataset.InsertAll | src/lib.rs:217-219 | A definition without a contract of its own: `map.insert(prefix, i)` for each prefix of record `i` in turn. InsertAllSpec states the resulting map. |
| Dataset.InsertAllSpec | src/lib.rs:217-219 | Inserting keys maps exactly those keys to the record and leaves the others alone. |
| Dataset.IcaoIndexSpec | src/lib.rs:214-222 | A prefix is in `ICAO_MAP` exactly when some record lists it. It maps to a record that lists it, and no later record does. |
| Dataset.IcaoIndex | src/lib.rs:214-222 | A definition without a contract of its own: `ICAO_MAP`, record by record. IcaoIndexSpec states its contents, and BuildIcaoIndex computes it. |
| Dataset.MinLength | src/lib.rs:224-226 | The result is 0 for no keys, else the length of some key and no longer than any. |
| Dataset.MaxLength | src/lib.rs:228-230 | The result is 0 for no keys, else the length of some key and no shorter than any. |
| Dataset.MinCallsignLen | src/lib.rs:224-226 | A definition without a contract of its own: `MIN_CALLSIGN_LEN`. CallsignLengthBounds states its value. |
| Dataset.MaxCallsignLen | src/lib.rs:228-230 | A definition without a contract of its own: `MAX_CALLSIGN_LEN`. CallsignLengthBounds states its value. |
| Dataset.AllCallsignsSpec | src/lib.rs:224-230 | The lengths range over exactly the callsigns some record lists. |
| Dataset.CallsignLengthBounds | src/lib.rs:224-230 | Both lengths are 0 when there are no keys. Otherwise every key's length lies between them, and both are attained by some key. |
| Classifier.ValidIndexed | src/lib.rs:202-230 | In the statics as built, every record number in either index names a record, and the shortest length is at most the longest. |
| Classifier.Load | src/lib.rs:202-230 | Loading builds the records and then the indexes and lengths over them. |
| Classifier.Recs | src/lib.rs:246-247 | Record numbers become those records, in order. |
| Classifier.CandidatesAt | src/lib.rs:243-249 | The candidates of one prefix length are record numbers. |
| Classifier.CandidatesBelow | src/lib.rs:242-251 | The candidates of a range of prefix lengths are record numbers. |
| Classifier.Candidates | src/lib.rs:242-251 | All candidates, prefix lengths MIN..=MAX ascending, are record numbers. |
| Classifier.MaxPriority | src/lib.rs:269 | The highest priority among the matches is one of theirs and bounds all of them. |
| Classifier.ParseRegistration | src/lib.rs:239-274 | Gathering, grouping by priority and taking the largest key computes Selection. |
| Classifier.GatherCandidates | src/lib.rs:240-251 | The first loop collects the records under each prefix the input has, lengths MIN..=MAX ascending. |
| Classifier.GroupMatches | src/lib.rs:257-267 | The second loop groups exactly the records whose pattern compiles and matches, by priority, each group in order. |
| Classifier.MatchingStep | src/lib.rs:259-267 | The matches among one more record are the earlier matches, then the record if its pattern compiles and matches. |
| Classifier.ByPrioritySnoc | src/lib.rs:264 | One more match joins the end of its priority's group and changes no other group. |
| Classifier.LargestKey | src/lib.rs:269 | `keys().max()` of a non-empty grouping is a key no smaller than any other. |
| Classifier.ByPrioritySpec | src/lib.rs:257-267 | There is a group exactly for each priority that occurs. Each group holds the records of its priority, and there are no groups exactly when there are no matches. |
| Classifier.ByPriority | src/lib.rs:257-267 | A definition without a contract of its own: `matches_by_priority`. ByPrioritySpec and ByPrioritySnoc state its groups. |
| Classifier.WithPriorityEmpty | src/lib.rs:264 | A priority has no records exactly when no record has it. |
| Classifier.MaxKey | src/lib.rs:269-270 | The largest key of the grouping is the highest priority among the matches. |
| Classifier.MatchingMembers | src/lib.rs:259-266 | The matching records are records that match, and every record that matches is among them. |
| Classifier.Matching | src/lib.rs:259-267 | A definition without a contract of its own: the records whose pattern compiles and matches, in order. MatchingMembers and MatchingStep state its contents. |
| Classifier.WithPriorityMembers | src/lib.rs:264 | The records of a group come from the matches and have its priority. |
| Classifier.WithPrioritySnoc | src/lib.rs:264 | One more record adds itself to its own priority's records only. |
| Classifier.FirstQualifying | src/lib.rs:259-266 | The position returned is the earliest record that matches with the given priority, or the end when none does. |
| Classifier.FirstWithPriority | src/lib.rs:264-270 | A priority's group is empty exactly when no record matches with it. Otherwise it starts with the earliest record that does. |
| Classifier.TopGroupSpec | src/lib.rs:257-273 | The top group is non-empty, and all its members match with the same priority. No matching record has a higher one, and its first member is the earliest matching record with that priority. |
| Classifier.SelectionSpec | src/lib.rs:239-274 | `parse_registration` finds something exactly when some candidate's pattern compiles and matches. Its answer is then the group of the highest priority among the matches. |
| Classifier.Selection | src/lib.rs:239-274 | A definition without a contract of its own: what `parse_registration` returns. SelectionSpec states it, and ParseRegistration computes it. |
| Classifier.IcaoHits | src/lib.rs:284-289 | Every hit names a record. |
| Classifier.StrictIcao | src/lib.rs:277 | A definition without a contract of its own: the strict address check `^[0-9A-F]{6}$`, six upper-case hexadecimal digits. |
| Classifier.ParseIcao24bit | src/lib.rs:276-296 | The method refuses a malformed address in strict mode and then looks up every prefix, shortest first. It computes IcaoSelection. |
| Classifier.IcaoHitsStep | src/lib.rs:284-289 | One more prefix looked up adds its record, if the prefix is indexed, after the records found so far. |
| Classifier.IcaoHitsFirst | src/lib.rs:284-289 | There are hits exactly when some prefix is indexed, and the first hit is that of the shortest indexed prefix. |
| Classifier.IcaoSelectionSpec | src/lib.rs:276-296 | `parse_icao24bit` finds something exactly when the strict check (if asked for) passes and some prefix is indexed. It then starts with the record of the shortest such prefix. |
| Classifier.IcaoSelection | src/lib.rs:276-296 | A definition without a contract of its own: what `parse_icao24bit` returns. IcaoSelectionSpec states it, and ParseIcao24bit computes it. |
| Classifier.ParseCallsign | src/lib.rs:298-310 | A callsign is classified exactly when one of its candidates matches. The result is the entity of the earliest matching candidate among those of the highest matching priority. |
| Classifier.ParseAddress | src/lib.rs:298-304 | An address is classified exactly when the strict check (if asked for) passes and some record lists one of its prefixes. |
| Classifier.ParseAddressRecord | src/lib.rs:276-304 | An address is classified as the last record listing its shortest prefix that any record lists. |
| Classifier.Parse | src/lib.rs:298-310 | A definition without a contract of its own: `parse`, the entity of the first record of the chosen path. ParseCallsign, ParseAddress and ParseAddressRecord state its results. |
| Classifier.ParseSimple | src/lib.rs:312-314 | `parse_simple` classifies exactly when one of the candidates' loose patterns compiles and matches. |

## Left out

- Regular expressions: whether a pattern compiles and whether it matches an input are the parameter `Classifier.RegexEngine`. The model fixes only that a pattern that does not compile matches nothing. The strict address check `^[0-9A-F]{6}$` is stated directly (`Classifier.StrictIcao`).
- The two CSV files compiled in with `include_str!` are parameters (`countriesCsv`, `orgsCsv`). Anything that depends on their contents is not modelled. That covers the classification tests of `T6ABC`, `4Y123`, `700123` and `N123ABC`, and the checks that `DATA`, the callsign index and `MIN_CALLSIGN_LEN` are non-empty or positive.
- `once_cell::Lazy` statics: computing the statics once, on first use, across threads is not modelled. `Classifier.Load` builds them as one value, `Classifier.Tables`, and the parser functions take it as an argument.
- The `eprintln!` warning for a malformed address in strict mode is output only and is left out. `Parser::new` and `Default` hold no state and are left out.
- `Dataset.BuildTable`: a file with no line at all makes the header's `unwrap()` panic; the model requires at least one line instead.
- `Lists.ListItem`: an item that is a lone `'` or `"` makes the Rust slice `item[1..0]` panic. The model keeps such an item unchanged.
- `Classifier.CandidatesAt`: `parse_registration` compares and slices the input by UTF-8 byte length. The model uses character positions, which agree on ASCII input; on other input the Rust code may panic at a non-character boundary.
- `Classifier.IcaoHits`: `parse_icao24bit` runs its prefix loop over the input's UTF-8 bytes and slices `&input[0..=i]`. The model takes prefixes by character. The two agree on ASCII input. With strict mode off, an input holding a non-ASCII character makes the Rust slice panic, where the model returns a result.
- `Dataset.MinCallsignLen`, `Dataset.MaxCallsignLen`: `MIN_CALLSIGN_LEN` and `MAX_CALLSIGN_LEN` take `k.len()`, the byte length of each key. `Dataset.MinLength` and `Dataset.MaxLength` count characters. The two agree when every callsign is ASCII.
- `Text.IsSpace`: whitespace is the Unicode `White_Space` set. Upper-casing is ASCII only, as in `to_ascii_uppercase`.
- `Icao.PrefixFreeUnique`: the lemma is proved for any prefix-free table but not applied to `ICAO_ALLOCATIONS`. That no prefix in the 187-row table starts another would take a fact about each of its 34,782 ordered pairs of rows and is not proved, so the model does not claim that first match and longest match agree on the real table. The lookups of the named addresses are proved row by row instead.
- `Lists.CsvFields`: the tested Afghanistan line is not evaluated as one literal, since the verifier cannot unfold the scan over a line that long. `Lists.CsvFieldsAfghanistan` proves the tested fields 0, 3 and 4 for that line's first five fields followed by anything, which covers the tested line. `Lists.CsvRoundTrip` and `Dataset.CountryRowRoundTrip` prove how lines mixing bare and quoted cells read.
- The error branches the format checks make unreachable are not given error variants of their own: "Invalid digit" and "Invalid character" inside the loop, "N-Number format error" and "Invalid last character".
- `u32` arithmetic elsewhere in the codec cannot overflow on accepted inputs, and the model computes it on unbounded integers. The leading-'0' case, the one place it does wrap, is modelled explicitly (see Findings).

## Findings

| source | as written | input that shows it | evidently intended | confidence | as-written member | corrected member |
|---|---|---|---|---|---|---|
| src/registration.rs:133 | A leading '0' after 'N' passes every check. `(digit - 1) * BUCKET1_SIZE` then underflows `u32`: a debug build panics, a release build wraps. | "N0" gives 0x9E72B2 in a release build. That is below the US block, and no registration decodes to it. | N-Numbers never start with 0, so the input should be refused with an error. | high (derived from the code, not executed) | Registration.EncodeWrapping | Registration.Encode |
