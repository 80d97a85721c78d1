/**
 * Country of registration of a 24-bit ICAO aircraft address, after the
 * allocation of address blocks to states in ICAO Annex 10, Volume III,
 * Part I, Chapter 9.  Each allocation is a binary prefix of the address;
 * an address belongs to the first allocation, in table order, whose
 * prefix starts its 24-digit binary rendering.
 */
module Icao {
  import opened Wrappers
  import opened Text
  import Registration

  // ---------------------------------------------------------------------
  // First-match lookup over any table of (prefix, code) rows
  // ---------------------------------------------------------------------

  /** A table row: a binary prefix and the ISO 3166-1 alpha-2 code of its state ("ZZ" for ICAO's own blocks). */
  type Row = (string, string)

  /** Position of the first row whose prefix starts `key`. */
  function FirstMatchIndex(table: seq<Row>, key: string): (r: Option<nat>)
    ensures r.Some? ==> r.value < |table|
  {
    if table == [] then None
    else if StartsWith(key, table[0].0) then Some(0)
    else
      match FirstMatchIndex(table[1..], key)
      case None => None
      case Some(i) => Some(i + 1)
  }

  /** The code of the first row whose prefix starts `key` (the loop of `icao_to_country`). */
  function FirstMatch(table: seq<Row>, key: string): (r: Option<string>)
    ensures r.None? <==> forall i :: 0 <= i < |table| ==> !StartsWith(key, table[i].0)
    ensures r.Some? ==> exists i :: 0 <= i < |table| && StartsWith(key, table[i].0) && table[i].1 == r.value &&
                                    forall j :: 0 <= j < i ==> !StartsWith(key, table[j].0)
  {
    FirstMatchIndexSpec(table, key);
    match FirstMatchIndex(table, key)
    case None => None
    case Some(i) => Some(table[i].1)
  }

  /** FirstMatchIndex finds the first matching row, and finds none only when no row matches. */
  lemma {:induction false} FirstMatchIndexSpec(table: seq<Row>, key: string)
    ensures FirstMatchIndex(table, key).None? <==> forall i :: 0 <= i < |table| ==> !StartsWith(key, table[i].0)
    ensures FirstMatchIndex(table, key).Some? ==> StartsWith(key, table[FirstMatchIndex(table, key).value].0)
    ensures FirstMatchIndex(table, key).Some? ==>
      forall j :: 0 <= j < FirstMatchIndex(table, key).value ==> !StartsWith(key, table[j].0)
  {
    if table != [] && !StartsWith(key, table[0].0) {
      FirstMatchIndexSpec(table[1..], key);
      assert forall i :: 1 <= i < |table| ==> table[i] == table[1..][i - 1];
    }
  }

  /**
   * The lookup stops at row `i` exactly when row `i` matches and no row
   * before it does, and returns nothing exactly when no row matches.
   */
  lemma FirstMatchChar(table: seq<Row>, key: string, i: nat)
    requires i < |table|
    ensures FirstMatchIndex(table, key) == Some(i)
            <==> StartsWith(key, table[i].0) && forall j :: 0 <= j < i ==> !StartsWith(key, table[j].0)
    ensures FirstMatch(table, key).None? <==> forall j :: 0 <= j < |table| ==> !StartsWith(key, table[j].0)
  {
    FirstMatchIndexSpec(table, key);
  }

  /** Every code returned is the code of some row of the table. */
  lemma FirstMatchFromTable(table: seq<Row>, key: string)
    ensures FirstMatch(table, key).Some? ==> exists i :: 0 <= i < |table| && table[i].1 == FirstMatch(table, key).value
  {
  }

  /** No prefix in the table starts another row's prefix. */
  predicate PrefixFree(table: seq<Row>) {
    forall i, j :: 0 <= i < |table| && 0 <= j < |table| && i != j ==> !StartsWith(table[j].0, table[i].0)
  }

  /** In a prefix-free table at most one row matches, so the order of the rows does not change the result. */
  lemma PrefixFreeUnique(table: seq<Row>, key: string, i: nat)
    requires PrefixFree(table)
    requires i < |table| && StartsWith(key, table[i].0)
    ensures FirstMatch(table, key) == Some(table[i].1)
  {
    FirstMatchIndexSpec(table, key);
  }

  /** The lookup over two tables one after the other. */
  lemma {:induction false} FirstMatchAppend(t1: seq<Row>, t2: seq<Row>, key: string)
    ensures FirstMatch(t1 + t2, key) == if FirstMatch(t1, key).Some? then FirstMatch(t1, key) else FirstMatch(t2, key)
  {
    if t1 != [] {
      assert (t1 + t2)[1..] == t1[1..] + t2;
      FirstMatchAppend(t1[1..], t2, key);
    } else {
      assert t1 + t2 == t2;
    }
  }

  // ---------------------------------------------------------------------
  // Binary rendering
  // ---------------------------------------------------------------------

  predicate IsBit(c: char) {
    c == '0' || c == '1'
  }

  /** `n` binary digits of `x`, most significant first (`{:0nb}` formatting when `x < 2^n`). */
  function Bits(x: nat, n: nat): (r: string)
    ensures |r| == n
    ensures forall k :: 0 <= k < n ==> IsBit(r[k])
  {
    if n == 0 then "" else Bits(x / 2, n - 1) + [if x % 2 == 1 then '1' else '0']
  }

  /** The number a string of binary digits stands for, most significant first. */
  function BitsValue(s: string): nat
  {
    if s == [] then 0 else 2 * BitsValue(s[..|s| - 1]) + (if s[|s| - 1] == '1' then 1 else 0)
  }

  function Pow2(n: nat): (r: nat)
    ensures r >= 1
  {
    if n == 0 then 1 else 2 * Pow2(n - 1)
  }

  /** Bits writes out `x` exactly when it fits in `n` binary digits. */
  lemma {:induction false} BitsValueOfBits(x: nat, n: nat)
    requires x < Pow2(n)
    ensures BitsValue(Bits(x, n)) == x
  {
    if n > 0 {
      BitsValueOfBits(x / 2, n - 1);
      var r := Bits(x, n);
      assert r[..|r| - 1] == Bits(x / 2, n - 1);
    }
  }

  /** The value of two binary strings one after the other. */
  lemma {:induction false} BitsValueAppend(s: string, t: string)
    ensures BitsValue(s + t) == BitsValue(s) * Pow2(|t|) + BitsValue(t)
    decreases |t|
  {
    if t == [] {
      assert s + t == s;
    } else {
      var u := t[..|t| - 1];
      var bit := if t[|t| - 1] == '1' then 1 else 0;
      assert (s + t)[..|s + t| - 1] == s + u;
      assert (s + t)[|s + t| - 1] == t[|t| - 1];
      BitsValueAppend(s, u);
      ShiftIn(BitsValue(s), Pow2(|u|), BitsValue(u), bit);
    }
  }

  /** Shifting one more digit into the low part shifts the high part one place further. */
  lemma ShiftIn(a: int, p: int, b: int, bit: int)
    ensures 2 * (a * p + b) + bit == a * (2 * p) + (2 * b + bit)
  {
    assert a * (2 * p) == 2 * (a * p);
  }

  /** The address as 24 binary digits, eight per byte. */
  function Binary(icao: Registration.Address): (r: string)
    ensures |r| == 24
  {
    Bits(icao[0], 8) + Bits(icao[1], 8) + Bits(icao[2], 8)
  }

  /** The rendering is 24 binary digits that stand for the address read big-endian. */
  lemma BinaryValue(icao: Registration.Address)
    ensures |Binary(icao)| == 24
    ensures forall k :: 0 <= k < 24 ==> IsBit(Binary(icao)[k])
    ensures BitsValue(Binary(icao)) == Registration.FromArr3(icao)
  {
    var b0, b1, b2 := Bits(icao[0], 8), Bits(icao[1], 8), Bits(icao[2], 8);
    assert forall k :: 0 <= k < 24 ==> Binary(icao)[k] == if k < 8 then b0[k] else if k < 16 then b1[k - 8] else b2[k - 16];
    assert Pow2(8) == 256;
    BitsValueOfBits(icao[0], 8);
    BitsValueOfBits(icao[1], 8);
    BitsValueOfBits(icao[2], 8);
    BitsValueAppend(b0, b1);
    BitsValueAppend(b0 + b1, b2);
    var a0, a1, a2 := icao[0] as int, icao[1] as int, icao[2] as int;
    assert (a0 * 256 + a1) * 256 + a2 == a0 * 0x1_0000 + a1 * 0x100 + a2;
  }

  // ---------------------------------------------------------------------
  // The allocation table
  // ---------------------------------------------------------------------

  /**
   * `ICAO_ALLOCATIONS`, written as blocks of at most twelve rows that
   * follow the source's sections by prefix length.  Although documented as
   * sorted longest prefix first, the table is not (its seventh row has a
   * 12-bit prefix, its eighth a 14-bit one, and 9-bit rows follow the
   * 4-bit ones); the lookup is first match in this order.
   */
  // 14-bit prefixes.
  const PREFIX14_A: seq<Row> := [
    ("00001100101000", "AG"), ("01010000000100", "AL"), ("00001010101000", "BB"), ("00001010101100", "BZ"),
    ("00001001010000", "BJ"), ("01101000000000", "BT"), ("111010010100", "BO"), ("01010001001100", "BA"),
    ("00000011000000", "BW"), ("10001001010100", "BN"), ("000010011100", "BF"), ("000000110010", "BI")
  ]

  const PREFIX14_B: seq<Row> := [
    ("011100001110", "KH"), ("000000110100", "CM"), ("00001001011000", "CV"), ("000001101100", "CF"),
    ("000010000100", "TD"), ("111010000000", "CL"), ("000010101100", "CO"), ("00000011010100", "KM"),
    ("000000110110", "CG"), ("10010000000100", "CK"), ("000010101110", "CR"), ("000000111000", "CI")
  ]

  const PREFIX14_C: seq<Row> := [
    ("01010000000111", "HR"), ("000010110000", "CU"), ("01001100100000", "CY"), ("011100100", "KP"),
    ("000010001100", "CD"), ("00001001100000", "DJ"), ("000011000100", "DO"), ("111010000100", "EC"),
    ("000010110010", "SV"), ("000001000010", "GQ"), ("00100000001000", "ER"), ("01010001000100", "EE")
  ]

  const PREFIX14_D: seq<Row> := [
    ("000001000000", "ET"), ("110010001000", "FJ"), ("000000111110", "GA"), ("000010011010", "GM"),
    ("01010001010000", "GE"), ("000001000100", "GH"), ("00001100110000", "GD"), ("000010110100", "GT"),
    ("000001000110", "GN"), ("00000100100000", "GW"), ("000010110110", "GY")
  ]

  const PREFIX14_E: seq<Row> := [
    ("000010111000", "HT"), ("000010111010", "HN"), ("010011001100", "IS"), ("011100110", "IR"),
    ("011100101", "IQ"), ("010011001010", "IE"), ("011100111", "IL"), ("000010111110", "JM"),
    ("011101000", "JO"), ("01101000001100", "KZ"), ("000001001100", "KE")
  ]

  const PREFIX14_F: seq<Row> := [
    ("11001000111000", "KI"), ("011100000110", "KW"), ("01100000000100", "KG"), ("011100001000", "LA"),
    ("01010000001011", "LV"), ("011101001", "LB"), ("00000100101000", "LS"), ("000001010000", "LR"),
    ("01010000001111", "LT"), ("01001101000000", "LU"), ("000001010100", "MG")
  ]

  const PREFIX14_G: seq<Row> := [
    ("000001011000", "MW"), ("011101010", "MY"), ("00000101101000", "MV"), ("000001011100", "ML"),
    ("01001101001000", "MT"), ("10010000000000", "MH"), ("00000101111000", "MR"), ("00000110000000", "MU"),
    ("01101000000100", "FM"), ("01001101010000", "MC"), ("01101000001000", "MN")
  ]

  const PREFIX14_H: seq<Row> := [
    ("000000000110", "MZ"), ("011100000100", "MM"), ("00100000000100", "NA"), ("11001000101000", "NR"),
    ("011100001010", "NP"), ("000011000000", "NI"), ("000001100010", "NE"), ("000001100100", "NG"),
    ("01110000110000", "OM"), ("011101100", "PK"), ("01101000010000", "PW")
  ]

  const PREFIX14_I: seq<Row> := [
    ("000011000010", "PA"), ("100010011000", "PG"), ("111010001000", "PY"), ("111010001100", "PE"),
    ("011101011", "PH"), ("00000110101000", "QA"), ("011100011", "KR"), ("01010000010011", "MD"),
    ("000001101110", "RW"), ("11001000110000", "LC"), ("00001011110000", "VC")
  ]

  const PREFIX14_J: seq<Row> := [
    ("10010000001000", "WS"), ("01010000000000", "SM"), ("00001001111000", "ST"), ("011100010", "SA"),
    ("000001110000", "SN"), ("00000111010000", "SC"), ("00000111011000", "SL"), ("011101101", "SG"),
    ("01010000010111", "SK"), ("01010000011011", "SI"), ("10001001011100", "SB")
  ]

  const PREFIX14_K: seq<Row> := [
    ("000001111000", "SO"), ("011101110", "LK"), ("000001111100", "SD"), ("000011001000", "SR"),
    ("00000111101000", "SZ"), ("01010001010100", "TJ"), ("01010001001000", "MK"), ("000010001000", "TG"),
    ("11001000110100", "TO"), ("000011000110", "TT"), ("01100000000110", "TM")
  ]

  const PREFIX14_L: seq<Row> := [
    ("000001101000", "UG"), ("100010010110", "AE"), ("000010000000", "TZ"), ("111010010000", "UY"),
    ("01010000011111", "UZ"), ("11001001000000", "VU"), ("100010010000", "YE"), ("000010001010", "ZM"),
    ("00000000010000", "ZW"), ("10001001100100", "ZZ"), ("11110000100100", "ZZ")
  ]

  // 12-bit prefixes.
  const PREFIX12: seq<Row> := [
    ("011100000000", "AF"), ("01100000000000", "AM"), ("01100000000010", "AZ"), ("000010101000", "BS"),
    ("100010010100", "BH"), ("011100000010", "BD"), ("01010001000000", "BY")
  ]

  // 9-bit prefixes.
  const PREFIX9_A: seq<Row> := [
    ("000010100", "DZ"), ("010001000", "AT"), ("010001001", "BE"), ("010001010", "BG"),
    ("010001011", "DK"), ("010001100", "FI"), ("010001101", "GR"), ("010001110", "HU"),
    ("010001111", "NO")
  ]

  const PREFIX9_B: seq<Row> := [
    ("100010100", "ID"), ("010010000", "NL"), ("010010001", "PL"), ("010010010", "PT"),
    ("010010011", "CZ"), ("010010100", "RO"), ("010010101", "SE"), ("010010110", "CH"),
    ("010010111", "TR")
  ]

  const PREFIX9_C: seq<Row> := [
    ("110010000", "NZ"), ("010100001", "UA"), ("000011010", "MX"), ("000011011", "VE"),
    ("100010000", "TH"), ("100010001", "VN"), ("010011000", "RS"), ("111100000", "ZZ")
  ]

  // 6-bit prefixes.
  const PREFIX6: seq<Row> := [
    ("111000", "AR"), ("011111", "AU"), ("110000", "CA"), ("111001", "BR"),
    ("001110", "FR"), ("001111", "DE"), ("100000", "IN"), ("001100", "IT"),
    ("100001", "JP"), ("001101", "ES"), ("010000", "GB")
  ]

  // 4-bit prefixes.
  const PREFIX4: seq<Row> := [
    ("1010", "US"), ("0001", "RU")
  ]

  // 9-bit prefixes (continued, ordered by value).
  const PREFIX9_MORE: seq<Row> := [
    ("000000001", "ZA"), ("000000010", "EG"), ("000000011", "LY"), ("000000100", "MA"),
    ("000000101", "TN"), ("000010010000", "AO")
  ]

  /** The allocation table: 187 rows, the blocks above in the source's order. */
  const ICAO_ALLOCATIONS: seq<Row> :=
    PREFIX14_A + PREFIX14_B + PREFIX14_C + PREFIX14_D + PREFIX14_E + PREFIX14_F +
    PREFIX14_G + PREFIX14_H + PREFIX14_I + PREFIX14_J + PREFIX14_K + PREFIX14_L +
    PREFIX12 + PREFIX9_A + PREFIX9_B + PREFIX9_C + PREFIX6 + PREFIX4 + PREFIX9_MORE

  /** `icao_to_country`: the code of the first allocation whose prefix starts the address in binary. */
  function IcaoToCountry(icao: Registration.Address): (r: Option<string>)
  {
    FirstMatch(ICAO_ALLOCATIONS, Binary(icao))
  }

  /** `icao_u32_to_country`: values wider than 24 bits have no country. */
  function IcaoU32ToCountry(x: Registration.u32): (r: Option<string>)
    ensures x > 0xFF_FFFF ==> r == None
    ensures x <= 0xFF_FFFF ==> r == IcaoToCountry(Registration.ToArr3(x))
  {
    if x > 0xFF_FFFF then None else IcaoToCountry(Registration.ToArr3(x))
  }

  /** Every country the lookup returns is one the table allocates. */
  lemma CountryFromTable(icao: Registration.Address)
    ensures IcaoToCountry(icao).Some? ==>
      exists i :: 0 <= i < |ICAO_ALLOCATIONS| && ICAO_ALLOCATIONS[i].1 == IcaoToCountry(icao).value
  {
    FirstMatchFromTable(ICAO_ALLOCATIONS, Binary(icao));
  }
}
