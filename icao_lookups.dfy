/**
 * Lookups of particular addresses in the allocation table, proved over
 * the table itself: these are the addresses the table's documentation
 * and tests name.  Each proof shows, block by block, that no row before
 * the matching one starts the address (naming a bit where the row's
 * prefix and the address differ), and which row then matches.
 */
module IcaoLookups {
  import opened Wrappers
  import opened Text
  import opened Icao
  import Registration

  // ---------------------------------------------------------------------
  // The addresses, in binary
  // ---------------------------------------------------------------------

  const ADDRESS_A00001: string := "101000000000000000000001"
  const ADDRESS_AB8E4F: string := "101010111000111001001111"
  const ADDRESS_4C0000: string := "010011000000000000000000"
  const ADDRESS_C00001: string := "110000000000000000000001"
  const ADDRESS_400000: string := "010000000000000000000000"
  const ADDRESS_100000: string := "000100000000000000000000"
  const ADDRESS_F00000: string := "111100000000000000000000"
  const ADDRESS_0CA000: string := "000011001010000000000000"
  const ADDRESS_FFFFFF: string := "111111111111111111111111"
  const ADDRESS_000000: string := "000000000000000000000000"

  lemma BinaryA00001()
    ensures Binary([0xA0, 0x00, 0x01]) == ADDRESS_A00001
  {
  }

  lemma BinaryAB8E4F()
    ensures Binary([0xAB, 0x8E, 0x4F]) == ADDRESS_AB8E4F
  {
  }

  lemma Binary4C0000()
    ensures Binary([0x4C, 0x00, 0x00]) == ADDRESS_4C0000
  {
  }

  lemma BinaryC00001()
    ensures Binary([0xC0, 0x00, 0x01]) == ADDRESS_C00001
  {
  }

  lemma Binary400000()
    ensures Binary([0x40, 0x00, 0x00]) == ADDRESS_400000
  {
  }

  lemma Binary100000()
    ensures Binary([0x10, 0x00, 0x00]) == ADDRESS_100000
  {
  }

  lemma BinaryF00000()
    ensures Binary([0xF0, 0x00, 0x00]) == ADDRESS_F00000
  {
  }

  lemma Binary0CA000()
    ensures Binary([0x0C, 0xA0, 0x00]) == ADDRESS_0CA000
  {
  }

  lemma BinaryFFFFFF()
    ensures Binary([0xFF, 0xFF, 0xFF]) == ADDRESS_FFFFFF
  {
  }

  lemma Binary000000()
    ensures Binary([0x00, 0x00, 0x00]) == ADDRESS_000000
  {
  }

  /** No row of `table` has a prefix that starts `key`. */
  predicate NoRowMatches(table: seq<Row>, key: string) {
    forall i :: 0 <= i < |table| ==> !StartsWith(key, table[i].0)
  }

  /** A prefix that differs from `key` at some position does not start it. */
  lemma DiffersAt(key: string, prefix: string, d: nat)
    requires d < |prefix| && d < |key| && key[d] != prefix[d]
    ensures !StartsWith(key, prefix)
  {
  }

  /** A table none of whose rows matches finds nothing. */
  lemma NoRowMatchesMiss(table: seq<Row>, key: string)
    requires NoRowMatches(table, key)
    ensures FirstMatch(table, key) == None
  {
    FirstMatchIndexSpec(table, key);
  }

  // ---------------------------------------------------------------------
  // Blocks without a matching row
  // ---------------------------------------------------------------------

  lemma MissA00001_PREFIX14_A()
    ensures NoRowMatches(PREFIX14_A, ADDRESS_A00001)
  {
    forall i | 0 <= i < |PREFIX14_A|
      ensures !StartsWith(ADDRESS_A00001, PREFIX14_A[i].0)
    {
      if i == 0 { assert PREFIX14_A[0].0 == "00001100101000"; DiffersAt(ADDRESS_A00001, "00001100101000", 0); }
      else if i == 1 { assert PREFIX14_A[1].0 == "01010000000100"; DiffersAt(ADDRESS_A00001, "01010000000100", 0); }
      else if i == 2 { assert PREFIX14_A[2].0 == "00001010101000"; DiffersAt(ADDRESS_A00001, "00001010101000", 0); }
      else if i == 3 { assert PREFIX14_A[3].0 == "00001010101100"; DiffersAt(ADDRESS_A00001, "00001010101100", 0); }
      else if i == 4 { assert PREFIX14_A[4].0 == "00001001010000"; DiffersAt(ADDRESS_A00001, "00001001010000", 0); }
      else if i == 5 { assert PREFIX14_A[5].0 == "01101000000000"; DiffersAt(ADDRESS_A00001, "01101000000000", 0); }
      else if i == 6 { assert PREFIX14_A[6].0 == "111010010100"; DiffersAt(ADDRESS_A00001, "111010010100", 1); }
      else if i == 7 { assert PREFIX14_A[7].0 == "01010001001100"; DiffersAt(ADDRESS_A00001, "01010001001100", 0); }
      else if i == 8 { assert PREFIX14_A[8].0 == "00000011000000"; DiffersAt(ADDRESS_A00001, "00000011000000", 0); }
      else if i == 9 { assert PREFIX14_A[9].0 == "10001001010100"; DiffersAt(ADDRESS_A00001, "10001001010100", 2); }
      else if i == 10 { assert PREFIX14_A[10].0 == "000010011100"; DiffersAt(ADDRESS_A00001, "000010011100", 0); }
      else { assert PREFIX14_A[11].0 == "000000110010"; DiffersAt(ADDRESS_A00001, "000000110010", 0); }
    }
  }

  lemma MissA00001_PREFIX14_B()
    ensures NoRowMatches(PREFIX14_B, ADDRESS_A00001)
  {
    forall i | 0 <= i < |PREFIX14_B|
      ensures !StartsWith(ADDRESS_A00001, PREFIX14_B[i].0)
    {
      if i == 0 { assert PREFIX14_B[0].0 == "011100001110"; DiffersAt(ADDRESS_A00001, "011100001110", 0); }
      else if i == 1 { assert PREFIX14_B[1].0 == "000000110100"; DiffersAt(ADDRESS_A00001, "000000110100", 0); }
      else if i == 2 { assert PREFIX14_B[2].0 == "00001001011000"; DiffersAt(ADDRESS_A00001, "00001001011000", 0); }
      else if i == 3 { assert PREFIX14_B[3].0 == "000001101100"; DiffersAt(ADDRESS_A00001, "000001101100", 0); }
      else if i == 4 { assert PREFIX14_B[4].0 == "000010000100"; DiffersAt(ADDRESS_A00001, "000010000100", 0); }
      else if i == 5 { assert PREFIX14_B[5].0 == "111010000000"; DiffersAt(ADDRESS_A00001, "111010000000", 1); }
      else if i == 6 { assert PREFIX14_B[6].0 == "000010101100"; DiffersAt(ADDRESS_A00001, "000010101100", 0); }
      else if i == 7 { assert PREFIX14_B[7].0 == "00000011010100"; DiffersAt(ADDRESS_A00001, "00000011010100", 0); }
      else if i == 8 { assert PREFIX14_B[8].0 == "000000110110"; DiffersAt(ADDRESS_A00001, "000000110110", 0); }
      else if i == 9 { assert PREFIX14_B[9].0 == "10010000000100"; DiffersAt(ADDRESS_A00001, "10010000000100", 2); }
      else if i == 10 { assert PREFIX14_B[10].0 == "000010101110"; DiffersAt(ADDRESS_A00001, "000010101110", 0); }
      else { assert PREFIX14_B[11].0 == "000000111000"; DiffersAt(ADDRESS_A00001, "000000111000", 0); }
    }
  }

  lemma MissA00001_PREFIX14_C()
    ensures NoRowMatches(PREFIX14_C, ADDRESS_A00001)
  {
    forall i | 0 <= i < |PREFIX14_C|
      ensures !StartsWith(ADDRESS_A00001, PREFIX14_C[i].0)
    {
      if i == 0 { assert PREFIX14_C[0].0 == "01010000000111"; DiffersAt(ADDRESS_A00001, "01010000000111", 0); }
      else if i == 1 { assert PREFIX14_C[1].0 == "000010110000"; DiffersAt(ADDRESS_A00001, "000010110000", 0); }
      else if i == 2 { assert PREFIX14_C[2].0 == "01001100100000"; DiffersAt(ADDRESS_A00001, "01001100100000", 0); }
      else if i == 3 { assert PREFIX14_C[3].0 == "011100100"; DiffersAt(ADDRESS_A00001, "011100100", 0); }
      else if i == 4 { assert PREFIX14_C[4].0 == "000010001100"; DiffersAt(ADDRESS_A00001, "000010001100", 0); }
      else if i == 5 { assert PREFIX14_C[5].0 == "00001001100000"; DiffersAt(ADDRESS_A00001, "00001001100000", 0); }
      else if i == 6 { assert PREFIX14_C[6].0 == "000011000100"; DiffersAt(ADDRESS_A00001, "000011000100", 0); }
      else if i == 7 { assert PREFIX14_C[7].0 == "111010000100"; DiffersAt(ADDRESS_A00001, "111010000100", 1); }
      else if i == 8 { assert PREFIX14_C[8].0 == "000010110010"; DiffersAt(ADDRESS_A00001, "000010110010", 0); }
      else if i == 9 { assert PREFIX14_C[9].0 == "000001000010"; DiffersAt(ADDRESS_A00001, "000001000010", 0); }
      else if i == 10 { assert PREFIX14_C[10].0 == "00100000001000"; DiffersAt(ADDRESS_A00001, "00100000001000", 0); }
      else { assert PREFIX14_C[11].0 == "01010001000100"; DiffersAt(ADDRESS_A00001, "01010001000100", 0); }
    }
  }

  lemma MissA00001_PREFIX14_D()
    ensures NoRowMatches(PREFIX14_D, ADDRESS_A00001)
  {
    forall i | 0 <= i < |PREFIX14_D|
      ensures !StartsWith(ADDRESS_A00001, PREFIX14_D[i].0)
    {
      if i == 0 { assert PREFIX14_D[0].0 == "000001000000"; DiffersAt(ADDRESS_A00001, "000001000000", 0); }
      else if i == 1 { assert PREFIX14_D[1].0 == "110010001000"; DiffersAt(ADDRESS_A00001, "110010001000", 1); }
      else if i == 2 { assert PREFIX14_D[2].0 == "000000111110"; DiffersAt(ADDRESS_A00001, "000000111110", 0); }
      else if i == 3 { assert PREFIX14_D[3].0 == "000010011010"; DiffersAt(ADDRESS_A00001, "000010011010", 0); }
      else if i == 4 { assert PREFIX14_D[4].0 == "01010001010000"; DiffersAt(ADDRESS_A00001, "01010001010000", 0); }
      else if i == 5 { assert PREFIX14_D[5].0 == "000001000100"; DiffersAt(ADDRESS_A00001, "000001000100", 0); }
      else if i == 6 { assert PREFIX14_D[6].0 == "00001100110000"; DiffersAt(ADDRESS_A00001, "00001100110000", 0); }
      else if i == 7 { assert PREFIX14_D[7].0 == "000010110100"; DiffersAt(ADDRESS_A00001, "000010110100", 0); }
      else if i == 8 { assert PREFIX14_D[8].0 == "000001000110"; DiffersAt(ADDRESS_A00001, "000001000110", 0); }
      else if i == 9 { assert PREFIX14_D[9].0 == "00000100100000"; DiffersAt(ADDRESS_A00001, "00000100100000", 0); }
      else { assert PREFIX14_D[10].0 == "000010110110"; DiffersAt(ADDRESS_A00001, "000010110110", 0); }
    }
  }

  lemma MissA00001_PREFIX14_E()
    ensures NoRowMatches(PREFIX14_E, ADDRESS_A00001)
  {
    forall i | 0 <= i < |PREFIX14_E|
      ensures !StartsWith(ADDRESS_A00001, PREFIX14_E[i].0)
    {
      if i == 0 { assert PREFIX14_E[0].0 == "000010111000"; DiffersAt(ADDRESS_A00001, "000010111000", 0); }
      else if i == 1 { assert PREFIX14_E[1].0 == "000010111010"; DiffersAt(ADDRESS_A00001, "000010111010", 0); }
      else if i == 2 { assert PREFIX14_E[2].0 == "010011001100"; DiffersAt(ADDRESS_A00001, "010011001100", 0); }
      else if i == 3 { assert PREFIX14_E[3].0 == "011100110"; DiffersAt(ADDRESS_A00001, "011100110", 0); }
      else if i == 4 { assert PREFIX14_E[4].0 == "011100101"; DiffersAt(ADDRESS_A00001, "011100101", 0); }
      else if i == 5 { assert PREFIX14_E[5].0 == "010011001010"; DiffersAt(ADDRESS_A00001, "010011001010", 0); }
      else if i == 6 { assert PREFIX14_E[6].0 == "011100111"; DiffersAt(ADDRESS_A00001, "011100111", 0); }
      else if i == 7 { assert PREFIX14_E[7].0 == "000010111110"; DiffersAt(ADDRESS_A00001, "000010111110", 0); }
      else if i == 8 { assert PREFIX14_E[8].0 == "011101000"; DiffersAt(ADDRESS_A00001, "011101000", 0); }
      else if i == 9 { assert PREFIX14_E[9].0 == "01101000001100"; DiffersAt(ADDRESS_A00001, "01101000001100", 0); }
      else { assert PREFIX14_E[10].0 == "000001001100"; DiffersAt(ADDRESS_A00001, "000001001100", 0); }
    }
  }

  lemma MissA00001_PREFIX14_F()
    ensures NoRowMatches(PREFIX14_F, ADDRESS_A00001)
  {
    forall i | 0 <= i < |PREFIX14_F|
      ensures !StartsWith(ADDRESS_A00001, PREFIX14_F[i].0)
    {
      if i == 0 { assert PREFIX14_F[0].0 == "11001000111000"; DiffersAt(ADDRESS_A00001, "11001000111000", 1); }
      else if i == 1 { assert PREFIX14_F[1].0 == "011100000110"; DiffersAt(ADDRESS_A00001, "011100000110", 0); }
      else if i == 2 { assert PREFIX14_F[2].0 == "01100000000100"; DiffersAt(ADDRESS_A00001, "01100000000100", 0); }
      else if i == 3 { assert PREFIX14_F[3].0 == "011100001000"; DiffersAt(ADDRESS_A00001, "011100001000", 0); }
      else if i == 4 { assert PREFIX14_F[4].0 == "01010000001011"; DiffersAt(ADDRESS_A00001, "01010000001011", 0); }
      else if i == 5 { assert PREFIX14_F[5].0 == "011101001"; DiffersAt(ADDRESS_A00001, "011101001", 0); }
      else if i == 6 { assert PREFIX14_F[6].0 == "00000100101000"; DiffersAt(ADDRESS_A00001, "00000100101000", 0); }
      else if i == 7 { assert PREFIX14_F[7].0 == "000001010000"; DiffersAt(ADDRESS_A00001, "000001010000", 0); }
      else if i == 8 { assert PREFIX14_F[8].0 == "01010000001111"; DiffersAt(ADDRESS_A00001, "01010000001111", 0); }
      else if i == 9 { assert PREFIX14_F[9].0 == "01001101000000"; DiffersAt(ADDRESS_A00001, "01001101000000", 0); }
      else { assert PREFIX14_F[10].0 == "000001010100"; DiffersAt(ADDRESS_A00001, "000001010100", 0); }
    }
  }

  lemma MissA00001_PREFIX14_G()
    ensures NoRowMatches(PREFIX14_G, ADDRESS_A00001)
  {
    forall i | 0 <= i < |PREFIX14_G|
      ensures !StartsWith(ADDRESS_A00001, PREFIX14_G[i].0)
    {
      if i == 0 { assert PREFIX14_G[0].0 == "000001011000"; DiffersAt(ADDRESS_A00001, "000001011000", 0); }
      else if i == 1 { assert PREFIX14_G[1].0 == "011101010"; DiffersAt(ADDRESS_A00001, "011101010", 0); }
      else if i == 2 { assert PREFIX14_G[2].0 == "00000101101000"; DiffersAt(ADDRESS_A00001, "00000101101000", 0); }
      else if i == 3 { assert PREFIX14_G[3].0 == "000001011100"; DiffersAt(ADDRESS_A00001, "000001011100", 0); }
      else if i == 4 { assert PREFIX14_G[4].0 == "01001101001000"; DiffersAt(ADDRESS_A00001, "01001101001000", 0); }
      else if i == 5 { assert PREFIX14_G[5].0 == "10010000000000"; DiffersAt(ADDRESS_A00001, "10010000000000", 2); }
      else if i == 6 { assert PREFIX14_G[6].0 == "00000101111000"; DiffersAt(ADDRESS_A00001, "00000101111000", 0); }
      else if i == 7 { assert PREFIX14_G[7].0 == "00000110000000"; DiffersAt(ADDRESS_A00001, "00000110000000", 0); }
      else if i == 8 { assert PREFIX14_G[8].0 == "01101000000100"; DiffersAt(ADDRESS_A00001, "01101000000100", 0); }
      else if i == 9 { assert PREFIX14_G[9].0 == "01001101010000"; DiffersAt(ADDRESS_A00001, "01001101010000", 0); }
      else { assert PREFIX14_G[10].0 == "01101000001000"; DiffersAt(ADDRESS_A00001, "01101000001000", 0); }
    }
  }

  lemma MissA00001_PREFIX14_H()
    ensures NoRowMatches(PREFIX14_H, ADDRESS_A00001)
  {
    forall i | 0 <= i < |PREFIX14_H|
      ensures !StartsWith(ADDRESS_A00001, PREFIX14_H[i].0)
    {
      if i == 0 { assert PREFIX14_H[0].0 == "000000000110"; DiffersAt(ADDRESS_A00001, "000000000110", 0); }
      else if i == 1 { assert PREFIX14_H[1].0 == "011100000100"; DiffersAt(ADDRESS_A00001, "011100000100", 0); }
      else if i == 2 { assert PREFIX14_H[2].0 == "00100000000100"; DiffersAt(ADDRESS_A00001, "00100000000100", 0); }
      else if i == 3 { assert PREFIX14_H[3].0 == "11001000101000"; DiffersAt(ADDRESS_A00001, "11001000101000", 1); }
      else if i == 4 { assert PREFIX14_H[4].0 == "011100001010"; DiffersAt(ADDRESS_A00001, "011100001010", 0); }
      else if i == 5 { assert PREFIX14_H[5].0 == "000011000000"; DiffersAt(ADDRESS_A00001, "000011000000", 0); }
      else if i == 6 { assert PREFIX14_H[6].0 == "000001100010"; DiffersAt(ADDRESS_A00001, "000001100010", 0); }
      else if i == 7 { assert PREFIX14_H[7].0 == "000001100100"; DiffersAt(ADDRESS_A00001, "000001100100", 0); }
      else if i == 8 { assert PREFIX14_H[8].0 == "01110000110000"; DiffersAt(ADDRESS_A00001, "01110000110000", 0); }
      else if i == 9 { assert PREFIX14_H[9].0 == "011101100"; DiffersAt(ADDRESS_A00001, "011101100", 0); }
      else { assert PREFIX14_H[10].0 == "01101000010000"; DiffersAt(ADDRESS_A00001, "01101000010000", 0); }
    }
  }

  lemma MissA00001_PREFIX14_I()
    ensures NoRowMatches(PREFIX14_I, ADDRESS_A00001)
  {
    forall i | 0 <= i < |PREFIX14_I|
      ensures !StartsWith(ADDRESS_A00001, PREFIX14_I[i].0)
    {
      if i == 0 { assert PREFIX14_I[0].0 == "000011000010"; DiffersAt(ADDRESS_A00001, "000011000010", 0); }
      else if i == 1 { assert PREFIX14_I[1].0 == "100010011000"; DiffersAt(ADDRESS_A00001, "100010011000", 2); }
      else if i == 2 { assert PREFIX14_I[2].0 == "111010001000"; DiffersAt(ADDRESS_A00001, "111010001000", 1); }
      else if i == 3 { assert PREFIX14_I[3].0 == "111010001100"; DiffersAt(ADDRESS_A00001, "111010001100", 1); }
      else if i == 4 { assert PREFIX14_I[4].0 == "011101011"; DiffersAt(ADDRESS_A00001, "011101011", 0); }
      else if i == 5 { assert PREFIX14_I[5].0 == "00000110101000"; DiffersAt(ADDRESS_A00001, "00000110101000", 0); }
      else if i == 6 { assert PREFIX14_I[6].0 == "011100011"; DiffersAt(ADDRESS_A00001, "011100011", 0); }
      else if i == 7 { assert PREFIX14_I[7].0 == "01010000010011"; DiffersAt(ADDRESS_A00001, "01010000010011", 0); }
      else if i == 8 { assert PREFIX14_I[8].0 == "000001101110"; DiffersAt(ADDRESS_A00001, "000001101110", 0); }
      else if i == 9 { assert PREFIX14_I[9].0 == "11001000110000"; DiffersAt(ADDRESS_A00001, "11001000110000", 1); }
      else { assert PREFIX14_I[10].0 == "00001011110000"; DiffersAt(ADDRESS_A00001, "00001011110000", 0); }
    }
  }

  lemma MissA00001_PREFIX14_J()
    ensures NoRowMatches(PREFIX14_J, ADDRESS_A00001)
  {
    forall i | 0 <= i < |PREFIX14_J|
      ensures !StartsWith(ADDRESS_A00001, PREFIX14_J[i].0)
    {
      if i == 0 { assert PREFIX14_J[0].0 == "10010000001000"; DiffersAt(ADDRESS_A00001, "10010000001000", 2); }
      else if i == 1 { assert PREFIX14_J[1].0 == "01010000000000"; DiffersAt(ADDRESS_A00001, "01010000000000", 0); }
      else if i == 2 { assert PREFIX14_J[2].0 == "00001001111000"; DiffersAt(ADDRESS_A00001, "00001001111000", 0); }
      else if i == 3 { assert PREFIX14_J[3].0 == "011100010"; DiffersAt(ADDRESS_A00001, "011100010", 0); }
      else if i == 4 { assert PREFIX14_J[4].0 == "000001110000"; DiffersAt(ADDRESS_A00001, "000001110000", 0); }
      else if i == 5 { assert PREFIX14_J[5].0 == "00000111010000"; DiffersAt(ADDRESS_A00001, "00000111010000", 0); }
      else if i == 6 { assert PREFIX14_J[6].0 == "00000111011000"; DiffersAt(ADDRESS_A00001, "00000111011000", 0); }
      else if i == 7 { assert PREFIX14_J[7].0 == "011101101"; DiffersAt(ADDRESS_A00001, "011101101", 0); }
      else if i == 8 { assert PREFIX14_J[8].0 == "01010000010111"; DiffersAt(ADDRESS_A00001, "01010000010111", 0); }
      else if i == 9 { assert PREFIX14_J[9].0 == "01010000011011"; DiffersAt(ADDRESS_A00001, "01010000011011", 0); }
      else { assert PREFIX14_J[10].0 == "10001001011100"; DiffersAt(ADDRESS_A00001, "10001001011100", 2); }
    }
  }

  lemma MissA00001_PREFIX14_K()
    ensures NoRowMatches(PREFIX14_K, ADDRESS_A00001)
  {
    forall i | 0 <= i < |PREFIX14_K|
      ensures !StartsWith(ADDRESS_A00001, PREFIX14_K[i].0)
    {
      if i == 0 { assert PREFIX14_K[0].0 == "000001111000"; DiffersAt(ADDRESS_A00001, "000001111000", 0); }
      else if i == 1 { assert PREFIX14_K[1].0 == "011101110"; DiffersAt(ADDRESS_A00001, "011101110", 0); }
      else if i == 2 { assert PREFIX14_K[2].0 == "000001111100"; DiffersAt(ADDRESS_A00001, "000001111100", 0); }
      else if i == 3 { assert PREFIX14_K[3].0 == "000011001000"; DiffersAt(ADDRESS_A00001, "000011001000", 0); }
      else if i == 4 { assert PREFIX14_K[4].0 == "00000111101000"; DiffersAt(ADDRESS_A00001, "00000111101000", 0); }
      else if i == 5 { assert PREFIX14_K[5].0 == "01010001010100"; DiffersAt(ADDRESS_A00001, "01010001010100", 0); }
      else if i == 6 { assert PREFIX14_K[6].0 == "01010001001000"; DiffersAt(ADDRESS_A00001, "01010001001000", 0); }
      else if i == 7 { assert PREFIX14_K[7].0 == "000010001000"; DiffersAt(ADDRESS_A00001, "000010001000", 0); }
      else if i == 8 { assert PREFIX14_K[8].0 == "11001000110100"; DiffersAt(ADDRESS_A00001, "11001000110100", 1); }
      else if i == 9 { assert PREFIX14_K[9].0 == "000011000110"; DiffersAt(ADDRESS_A00001, "000011000110", 0); }
      else { assert PREFIX14_K[10].0 == "01100000000110"; DiffersAt(ADDRESS_A00001, "01100000000110", 0); }
    }
  }

  lemma MissA00001_PREFIX14_L()
    ensures NoRowMatches(PREFIX14_L, ADDRESS_A00001)
  {
    forall i | 0 <= i < |PREFIX14_L|
      ensures !StartsWith(ADDRESS_A00001, PREFIX14_L[i].0)
    {
      if i == 0 { assert PREFIX14_L[0].0 == "000001101000"; DiffersAt(ADDRESS_A00001, "000001101000", 0); }
      else if i == 1 { assert PREFIX14_L[1].0 == "100010010110"; DiffersAt(ADDRESS_A00001, "100010010110", 2); }
      else if i == 2 { assert PREFIX14_L[2].0 == "000010000000"; DiffersAt(ADDRESS_A00001, "000010000000", 0); }
      else if i == 3 { assert PREFIX14_L[3].0 == "111010010000"; DiffersAt(ADDRESS_A00001, "111010010000", 1); }
      else if i == 4 { assert PREFIX14_L[4].0 == "01010000011111"; DiffersAt(ADDRESS_A00001, "01010000011111", 0); }
      else if i == 5 { assert PREFIX14_L[5].0 == "11001001000000"; DiffersAt(ADDRESS_A00001, "11001001000000", 1); }
      else if i == 6 { assert PREFIX14_L[6].0 == "100010010000"; DiffersAt(ADDRESS_A00001, "100010010000", 2); }
      else if i == 7 { assert PREFIX14_L[7].0 == "000010001010"; DiffersAt(ADDRESS_A00001, "000010001010", 0); }
      else if i == 8 { assert PREFIX14_L[8].0 == "00000000010000"; DiffersAt(ADDRESS_A00001, "00000000010000", 0); }
      else if i == 9 { assert PREFIX14_L[9].0 == "10001001100100"; DiffersAt(ADDRESS_A00001, "10001001100100", 2); }
      else { assert PREFIX14_L[10].0 == "11110000100100"; DiffersAt(ADDRESS_A00001, "11110000100100", 1); }
    }
  }

  lemma MissA00001_PREFIX12()
    ensures NoRowMatches(PREFIX12, ADDRESS_A00001)
  {
    forall i | 0 <= i < |PREFIX12|
      ensures !StartsWith(ADDRESS_A00001, PREFIX12[i].0)
    {
      if i == 0 { assert PREFIX12[0].0 == "011100000000"; DiffersAt(ADDRESS_A00001, "011100000000", 0); }
      else if i == 1 { assert PREFIX12[1].0 == "01100000000000"; DiffersAt(ADDRESS_A00001, "01100000000000", 0); }
      else if i == 2 { assert PREFIX12[2].0 == "01100000000010"; DiffersAt(ADDRESS_A00001, "01100000000010", 0); }
      else if i == 3 { assert PREFIX12[3].0 == "000010101000"; DiffersAt(ADDRESS_A00001, "000010101000", 0); }
      else if i == 4 { assert PREFIX12[4].0 == "100010010100"; DiffersAt(ADDRESS_A00001, "100010010100", 2); }
      else if i == 5 { assert PREFIX12[5].0 == "011100000010"; DiffersAt(ADDRESS_A00001, "011100000010", 0); }
      else { assert PREFIX12[6].0 == "01010001000000"; DiffersAt(ADDRESS_A00001, "01010001000000", 0); }
    }
  }

  lemma MissA00001_PREFIX9_A()
    ensures NoRowMatches(PREFIX9_A, ADDRESS_A00001)
  {
    forall i | 0 <= i < |PREFIX9_A|
      ensures !StartsWith(ADDRESS_A00001, PREFIX9_A[i].0)
    {
      if i == 0 { assert PREFIX9_A[0].0 == "000010100"; DiffersAt(ADDRESS_A00001, "000010100", 0); }
      else if i == 1 { assert PREFIX9_A[1].0 == "010001000"; DiffersAt(ADDRESS_A00001, "010001000", 0); }
      else if i == 2 { assert PREFIX9_A[2].0 == "010001001"; DiffersAt(ADDRESS_A00001, "010001001", 0); }
      else if i == 3 { assert PREFIX9_A[3].0 == "010001010"; DiffersAt(ADDRESS_A00001, "010001010", 0); }
      else if i == 4 { assert PREFIX9_A[4].0 == "010001011"; DiffersAt(ADDRESS_A00001, "010001011", 0); }
      else if i == 5 { assert PREFIX9_A[5].0 == "010001100"; DiffersAt(ADDRESS_A00001, "010001100", 0); }
      else if i == 6 { assert PREFIX9_A[6].0 == "010001101"; DiffersAt(ADDRESS_A00001, "010001101", 0); }
      else if i == 7 { assert PREFIX9_A[7].0 == "010001110"; DiffersAt(ADDRESS_A00001, "010001110", 0); }
      else { assert PREFIX9_A[8].0 == "010001111"; DiffersAt(ADDRESS_A00001, "010001111", 0); }
    }
  }

  lemma MissA00001_PREFIX9_B()
    ensures NoRowMatches(PREFIX9_B, ADDRESS_A00001)
  {
    forall i | 0 <= i < |PREFIX9_B|
      ensures !StartsWith(ADDRESS_A00001, PREFIX9_B[i].0)
    {
      if i == 0 { assert PREFIX9_B[0].0 == "100010100"; DiffersAt(ADDRESS_A00001, "100010100", 2); }
      else if i == 1 { assert PREFIX9_B[1].0 == "010010000"; DiffersAt(ADDRESS_A00001, "010010000", 0); }
      else if i == 2 { assert PREFIX9_B[2].0 == "010010001"; DiffersAt(ADDRESS_A00001, "010010001", 0); }
      else if i == 3 { assert PREFIX9_B[3].0 == "010010010"; DiffersAt(ADDRESS_A00001, "010010010", 0); }
      else if i == 4 { assert PREFIX9_B[4].0 == "010010011"; DiffersAt(ADDRESS_A00001, "010010011", 0); }
      else if i == 5 { assert PREFIX9_B[5].0 == "010010100"; DiffersAt(ADDRESS_A00001, "010010100", 0); }
      else if i == 6 { assert PREFIX9_B[6].0 == "010010101"; DiffersAt(ADDRESS_A00001, "010010101", 0); }
      else if i == 7 { assert PREFIX9_B[7].0 == "010010110"; DiffersAt(ADDRESS_A00001, "010010110", 0); }
      else { assert PREFIX9_B[8].0 == "010010111"; DiffersAt(ADDRESS_A00001, "010010111", 0); }
    }
  }

  lemma MissA00001_PREFIX9_C()
    ensures NoRowMatches(PREFIX9_C, ADDRESS_A00001)
  {
    forall i | 0 <= i < |PREFIX9_C|
      ensures !StartsWith(ADDRESS_A00001, PREFIX9_C[i].0)
    {
      if i == 0 { assert PREFIX9_C[0].0 == "110010000"; DiffersAt(ADDRESS_A00001, "110010000", 1); }
      else if i == 1 { assert PREFIX9_C[1].0 == "010100001"; DiffersAt(ADDRESS_A00001, "010100001", 0); }
      else if i == 2 { assert PREFIX9_C[2].0 == "000011010"; DiffersAt(ADDRESS_A00001, "000011010", 0); }
      else if i == 3 { assert PREFIX9_C[3].0 == "000011011"; DiffersAt(ADDRESS_A00001, "000011011", 0); }
      else if i == 4 { assert PREFIX9_C[4].0 == "100010000"; DiffersAt(ADDRESS_A00001, "100010000", 2); }
      else if i == 5 { assert PREFIX9_C[5].0 == "100010001"; DiffersAt(ADDRESS_A00001, "100010001", 2); }
      else if i == 6 { assert PREFIX9_C[6].0 == "010011000"; DiffersAt(ADDRESS_A00001, "010011000", 0); }
      else { assert PREFIX9_C[7].0 == "111100000"; DiffersAt(ADDRESS_A00001, "111100000", 1); }
    }
  }

  lemma MissA00001_PREFIX6()
    ensures NoRowMatches(PREFIX6, ADDRESS_A00001)
  {
    forall i | 0 <= i < |PREFIX6|
      ensures !StartsWith(ADDRESS_A00001, PREFIX6[i].0)
    {
      if i == 0 { assert PREFIX6[0].0 == "111000"; DiffersAt(ADDRESS_A00001, "111000", 1); }
      else if i == 1 { assert PREFIX6[1].0 == "011111"; DiffersAt(ADDRESS_A00001, "011111", 0); }
      else if i == 2 { assert PREFIX6[2].0 == "110000"; DiffersAt(ADDRESS_A00001, "110000", 1); }
      else if i == 3 { assert PREFIX6[3].0 == "111001"; DiffersAt(ADDRESS_A00001, "111001", 1); }
      else if i == 4 { assert PREFIX6[4].0 == "001110"; DiffersAt(ADDRESS_A00001, "001110", 0); }
      else if i == 5 { assert PREFIX6[5].0 == "001111"; DiffersAt(ADDRESS_A00001, "001111", 0); }
      else if i == 6 { assert PREFIX6[6].0 == "100000"; DiffersAt(ADDRESS_A00001, "100000", 2); }
      else if i == 7 { assert PREFIX6[7].0 == "001100"; DiffersAt(ADDRESS_A00001, "001100", 0); }
      else if i == 8 { assert PREFIX6[8].0 == "100001"; DiffersAt(ADDRESS_A00001, "100001", 2); }
      else if i == 9 { assert PREFIX6[9].0 == "001101"; DiffersAt(ADDRESS_A00001, "001101", 0); }
      else { assert PREFIX6[10].0 == "010000"; DiffersAt(ADDRESS_A00001, "010000", 0); }
    }
  }

  lemma MissAB8E4F_PREFIX14_A()
    ensures NoRowMatches(PREFIX14_A, ADDRESS_AB8E4F)
  {
    forall i | 0 <= i < |PREFIX14_A|
      ensures !StartsWith(ADDRESS_AB8E4F, PREFIX14_A[i].0)
    {
      if i == 0 { assert PREFIX14_A[0].0 == "00001100101000"; DiffersAt(ADDRESS_AB8E4F, "00001100101000", 0); }
      else if i == 1 { assert PREFIX14_A[1].0 == "01010000000100"; DiffersAt(ADDRESS_AB8E4F, "01010000000100", 0); }
      else if i == 2 { assert PREFIX14_A[2].0 == "00001010101000"; DiffersAt(ADDRESS_AB8E4F, "00001010101000", 0); }
      else if i == 3 { assert PREFIX14_A[3].0 == "00001010101100"; DiffersAt(ADDRESS_AB8E4F, "00001010101100", 0); }
      else if i == 4 { assert PREFIX14_A[4].0 == "00001001010000"; DiffersAt(ADDRESS_AB8E4F, "00001001010000", 0); }
      else if i == 5 { assert PREFIX14_A[5].0 == "01101000000000"; DiffersAt(ADDRESS_AB8E4F, "01101000000000", 0); }
      else if i == 6 { assert PREFIX14_A[6].0 == "111010010100"; DiffersAt(ADDRESS_AB8E4F, "111010010100", 1); }
      else if i == 7 { assert PREFIX14_A[7].0 == "01010001001100"; DiffersAt(ADDRESS_AB8E4F, "01010001001100", 0); }
      else if i == 8 { assert PREFIX14_A[8].0 == "00000011000000"; DiffersAt(ADDRESS_AB8E4F, "00000011000000", 0); }
      else if i == 9 { assert PREFIX14_A[9].0 == "10001001010100"; DiffersAt(ADDRESS_AB8E4F, "10001001010100", 2); }
      else if i == 10 { assert PREFIX14_A[10].0 == "000010011100"; DiffersAt(ADDRESS_AB8E4F, "000010011100", 0); }
      else { assert PREFIX14_A[11].0 == "000000110010"; DiffersAt(ADDRESS_AB8E4F, "000000110010", 0); }
    }
  }

  lemma MissAB8E4F_PREFIX14_B()
    ensures NoRowMatches(PREFIX14_B, ADDRESS_AB8E4F)
  {
    forall i | 0 <= i < |PREFIX14_B|
      ensures !StartsWith(ADDRESS_AB8E4F, PREFIX14_B[i].0)
    {
      if i == 0 { assert PREFIX14_B[0].0 == "011100001110"; DiffersAt(ADDRESS_AB8E4F, "011100001110", 0); }
      else if i == 1 { assert PREFIX14_B[1].0 == "000000110100"; DiffersAt(ADDRESS_AB8E4F, "000000110100", 0); }
      else if i == 2 { assert PREFIX14_B[2].0 == "00001001011000"; DiffersAt(ADDRESS_AB8E4F, "00001001011000", 0); }
      else if i == 3 { assert PREFIX14_B[3].0 == "000001101100"; DiffersAt(ADDRESS_AB8E4F, "000001101100", 0); }
      else if i == 4 { assert PREFIX14_B[4].0 == "000010000100"; DiffersAt(ADDRESS_AB8E4F, "000010000100", 0); }
      else if i == 5 { assert PREFIX14_B[5].0 == "111010000000"; DiffersAt(ADDRESS_AB8E4F, "111010000000", 1); }
      else if i == 6 { assert PREFIX14_B[6].0 == "000010101100"; DiffersAt(ADDRESS_AB8E4F, "000010101100", 0); }
      else if i == 7 { assert PREFIX14_B[7].0 == "00000011010100"; DiffersAt(ADDRESS_AB8E4F, "00000011010100", 0); }
      else if i == 8 { assert PREFIX14_B[8].0 == "000000110110"; DiffersAt(ADDRESS_AB8E4F, "000000110110", 0); }
      else if i == 9 { assert PREFIX14_B[9].0 == "10010000000100"; DiffersAt(ADDRESS_AB8E4F, "10010000000100", 2); }
      else if i == 10 { assert PREFIX14_B[10].0 == "000010101110"; DiffersAt(ADDRESS_AB8E4F, "000010101110", 0); }
      else { assert PREFIX14_B[11].0 == "000000111000"; DiffersAt(ADDRESS_AB8E4F, "000000111000", 0); }
    }
  }

  lemma MissAB8E4F_PREFIX14_C()
    ensures NoRowMatches(PREFIX14_C, ADDRESS_AB8E4F)
  {
    forall i | 0 <= i < |PREFIX14_C|
      ensures !StartsWith(ADDRESS_AB8E4F, PREFIX14_C[i].0)
    {
      if i == 0 { assert PREFIX14_C[0].0 == "01010000000111"; DiffersAt(ADDRESS_AB8E4F, "01010000000111", 0); }
      else if i == 1 { assert PREFIX14_C[1].0 == "000010110000"; DiffersAt(ADDRESS_AB8E4F, "000010110000", 0); }
      else if i == 2 { assert PREFIX14_C[2].0 == "01001100100000"; DiffersAt(ADDRESS_AB8E4F, "01001100100000", 0); }
      else if i == 3 { assert PREFIX14_C[3].0 == "011100100"; DiffersAt(ADDRESS_AB8E4F, "011100100", 0); }
      else if i == 4 { assert PREFIX14_C[4].0 == "000010001100"; DiffersAt(ADDRESS_AB8E4F, "000010001100", 0); }
      else if i == 5 { assert PREFIX14_C[5].0 == "00001001100000"; DiffersAt(ADDRESS_AB8E4F, "00001001100000", 0); }
      else if i == 6 { assert PREFIX14_C[6].0 == "000011000100"; DiffersAt(ADDRESS_AB8E4F, "000011000100", 0); }
      else if i == 7 { assert PREFIX14_C[7].0 == "111010000100"; DiffersAt(ADDRESS_AB8E4F, "111010000100", 1); }
      else if i == 8 { assert PREFIX14_C[8].0 == "000010110010"; DiffersAt(ADDRESS_AB8E4F, "000010110010", 0); }
      else if i == 9 { assert PREFIX14_C[9].0 == "000001000010"; DiffersAt(ADDRESS_AB8E4F, "000001000010", 0); }
      else if i == 10 { assert PREFIX14_C[10].0 == "00100000001000"; DiffersAt(ADDRESS_AB8E4F, "00100000001000", 0); }
      else { assert PREFIX14_C[11].0 == "01010001000100"; DiffersAt(ADDRESS_AB8E4F, "01010001000100", 0); }
    }
  }

  lemma MissAB8E4F_PREFIX14_D()
    ensures NoRowMatches(PREFIX14_D, ADDRESS_AB8E4F)
  {
    forall i | 0 <= i < |PREFIX14_D|
      ensures !StartsWith(ADDRESS_AB8E4F, PREFIX14_D[i].0)
    {
      if i == 0 { assert PREFIX14_D[0].0 == "000001000000"; DiffersAt(ADDRESS_AB8E4F, "000001000000", 0); }
      else if i == 1 { assert PREFIX14_D[1].0 == "110010001000"; DiffersAt(ADDRESS_AB8E4F, "110010001000", 1); }
      else if i == 2 { assert PREFIX14_D[2].0 == "000000111110"; DiffersAt(ADDRESS_AB8E4F, "000000111110", 0); }
      else if i == 3 { assert PREFIX14_D[3].0 == "000010011010"; DiffersAt(ADDRESS_AB8E4F, "000010011010", 0); }
      else if i == 4 { assert PREFIX14_D[4].0 == "01010001010000"; DiffersAt(ADDRESS_AB8E4F, "01010001010000", 0); }
      else if i == 5 { assert PREFIX14_D[5].0 == "000001000100"; DiffersAt(ADDRESS_AB8E4F, "000001000100", 0); }
      else if i == 6 { assert PREFIX14_D[6].0 == "00001100110000"; DiffersAt(ADDRESS_AB8E4F, "00001100110000", 0); }
      else if i == 7 { assert PREFIX14_D[7].0 == "000010110100"; DiffersAt(ADDRESS_AB8E4F, "000010110100", 0); }
      else if i == 8 { assert PREFIX14_D[8].0 == "000001000110"; DiffersAt(ADDRESS_AB8E4F, "000001000110", 0); }
      else if i == 9 { assert PREFIX14_D[9].0 == "00000100100000"; DiffersAt(ADDRESS_AB8E4F, "00000100100000", 0); }
      else { assert PREFIX14_D[10].0 == "000010110110"; DiffersAt(ADDRESS_AB8E4F, "000010110110", 0); }
    }
  }

  lemma MissAB8E4F_PREFIX14_E()
    ensures NoRowMatches(PREFIX14_E, ADDRESS_AB8E4F)
  {
    forall i | 0 <= i < |PREFIX14_E|
      ensures !StartsWith(ADDRESS_AB8E4F, PREFIX14_E[i].0)
    {
      if i == 0 { assert PREFIX14_E[0].0 == "000010111000"; DiffersAt(ADDRESS_AB8E4F, "000010111000", 0); }
      else if i == 1 { assert PREFIX14_E[1].0 == "000010111010"; DiffersAt(ADDRESS_AB8E4F, "000010111010", 0); }
      else if i == 2 { assert PREFIX14_E[2].0 == "010011001100"; DiffersAt(ADDRESS_AB8E4F, "010011001100", 0); }
      else if i == 3 { assert PREFIX14_E[3].0 == "011100110"; DiffersAt(ADDRESS_AB8E4F, "011100110", 0); }
      else if i == 4 { assert PREFIX14_E[4].0 == "011100101"; DiffersAt(ADDRESS_AB8E4F, "011100101", 0); }
      else if i == 5 { assert PREFIX14_E[5].0 == "010011001010"; DiffersAt(ADDRESS_AB8E4F, "010011001010", 0); }
      else if i == 6 { assert PREFIX14_E[6].0 == "011100111"; DiffersAt(ADDRESS_AB8E4F, "011100111", 0); }
      else if i == 7 { assert PREFIX14_E[7].0 == "000010111110"; DiffersAt(ADDRESS_AB8E4F, "000010111110", 0); }
      else if i == 8 { assert PREFIX14_E[8].0 == "011101000"; DiffersAt(ADDRESS_AB8E4F, "011101000", 0); }
      else if i == 9 { assert PREFIX14_E[9].0 == "01101000001100"; DiffersAt(ADDRESS_AB8E4F, "01101000001100", 0); }
      else { assert PREFIX14_E[10].0 == "000001001100"; DiffersAt(ADDRESS_AB8E4F, "000001001100", 0); }
    }
  }

  lemma MissAB8E4F_PREFIX14_F()
    ensures NoRowMatches(PREFIX14_F, ADDRESS_AB8E4F)
  {
    forall i | 0 <= i < |PREFIX14_F|
      ensures !StartsWith(ADDRESS_AB8E4F, PREFIX14_F[i].0)
    {
      if i == 0 { assert PREFIX14_F[0].0 == "11001000111000"; DiffersAt(ADDRESS_AB8E4F, "11001000111000", 1); }
      else if i == 1 { assert PREFIX14_F[1].0 == "011100000110"; DiffersAt(ADDRESS_AB8E4F, "011100000110", 0); }
      else if i == 2 { assert PREFIX14_F[2].0 == "01100000000100"; DiffersAt(ADDRESS_AB8E4F, "01100000000100", 0); }
      else if i == 3 { assert PREFIX14_F[3].0 == "011100001000"; DiffersAt(ADDRESS_AB8E4F, "011100001000", 0); }
      else if i == 4 { assert PREFIX14_F[4].0 == "01010000001011"; DiffersAt(ADDRESS_AB8E4F, "01010000001011", 0); }
      else if i == 5 { assert PREFIX14_F[5].0 == "011101001"; DiffersAt(ADDRESS_AB8E4F, "011101001", 0); }
      else if i == 6 { assert PREFIX14_F[6].0 == "00000100101000"; DiffersAt(ADDRESS_AB8E4F, "00000100101000", 0); }
      else if i == 7 { assert PREFIX14_F[7].0 == "000001010000"; DiffersAt(ADDRESS_AB8E4F, "000001010000", 0); }
      else if i == 8 { assert PREFIX14_F[8].0 == "01010000001111"; DiffersAt(ADDRESS_AB8E4F, "01010000001111", 0); }
      else if i == 9 { assert PREFIX14_F[9].0 == "01001101000000"; DiffersAt(ADDRESS_AB8E4F, "01001101000000", 0); }
      else { assert PREFIX14_F[10].0 == "000001010100"; DiffersAt(ADDRESS_AB8E4F, "000001010100", 0); }
    }
  }

  lemma MissAB8E4F_PREFIX14_G()
    ensures NoRowMatches(PREFIX14_G, ADDRESS_AB8E4F)
  {
    forall i | 0 <= i < |PREFIX14_G|
      ensures !StartsWith(ADDRESS_AB8E4F, PREFIX14_G[i].0)
    {
      if i == 0 { assert PREFIX14_G[0].0 == "000001011000"; DiffersAt(ADDRESS_AB8E4F, "000001011000", 0); }
      else if i == 1 { assert PREFIX14_G[1].0 == "011101010"; DiffersAt(ADDRESS_AB8E4F, "011101010", 0); }
      else if i == 2 { assert PREFIX14_G[2].0 == "00000101101000"; DiffersAt(ADDRESS_AB8E4F, "00000101101000", 0); }
      else if i == 3 { assert PREFIX14_G[3].0 == "000001011100"; DiffersAt(ADDRESS_AB8E4F, "000001011100", 0); }
      else if i == 4 { assert PREFIX14_G[4].0 == "01001101001000"; DiffersAt(ADDRESS_AB8E4F, "01001101001000", 0); }
      else if i == 5 { assert PREFIX14_G[5].0 == "10010000000000"; DiffersAt(ADDRESS_AB8E4F, "10010000000000", 2); }
      else if i == 6 { assert PREFIX14_G[6].0 == "00000101111000"; DiffersAt(ADDRESS_AB8E4F, "00000101111000", 0); }
      else if i == 7 { assert PREFIX14_G[7].0 == "00000110000000"; DiffersAt(ADDRESS_AB8E4F, "00000110000000", 0); }
      else if i == 8 { assert PREFIX14_G[8].0 == "01101000000100"; DiffersAt(ADDRESS_AB8E4F, "01101000000100", 0); }
      else if i == 9 { assert PREFIX14_G[9].0 == "01001101010000"; DiffersAt(ADDRESS_AB8E4F, "01001101010000", 0); }
      else { assert PREFIX14_G[10].0 == "01101000001000"; DiffersAt(ADDRESS_AB8E4F, "01101000001000", 0); }
    }
  }

  lemma MissAB8E4F_PREFIX14_H()
    ensures NoRowMatches(PREFIX14_H, ADDRESS_AB8E4F)
  {
    forall i | 0 <= i < |PREFIX14_H|
      ensures !StartsWith(ADDRESS_AB8E4F, PREFIX14_H[i].0)
    {
      if i == 0 { assert PREFIX14_H[0].0 == "000000000110"; DiffersAt(ADDRESS_AB8E4F, "000000000110", 0); }
      else if i == 1 { assert PREFIX14_H[1].0 == "011100000100"; DiffersAt(ADDRESS_AB8E4F, "011100000100", 0); }
      else if i == 2 { assert PREFIX14_H[2].0 == "00100000000100"; DiffersAt(ADDRESS_AB8E4F, "00100000000100", 0); }
      else if i == 3 { assert PREFIX14_H[3].0 == "11001000101000"; DiffersAt(ADDRESS_AB8E4F, "11001000101000", 1); }
      else if i == 4 { assert PREFIX14_H[4].0 == "011100001010"; DiffersAt(ADDRESS_AB8E4F, "011100001010", 0); }
      else if i == 5 { assert PREFIX14_H[5].0 == "000011000000"; DiffersAt(ADDRESS_AB8E4F, "000011000000", 0); }
      else if i == 6 { assert PREFIX14_H[6].0 == "000001100010"; DiffersAt(ADDRESS_AB8E4F, "000001100010", 0); }
      else if i == 7 { assert PREFIX14_H[7].0 == "000001100100"; DiffersAt(ADDRESS_AB8E4F, "000001100100", 0); }
      else if i == 8 { assert PREFIX14_H[8].0 == "01110000110000"; DiffersAt(ADDRESS_AB8E4F, "01110000110000", 0); }
      else if i == 9 { assert PREFIX14_H[9].0 == "011101100"; DiffersAt(ADDRESS_AB8E4F, "011101100", 0); }
      else { assert PREFIX14_H[10].0 == "01101000010000"; DiffersAt(ADDRESS_AB8E4F, "01101000010000", 0); }
    }
  }

  lemma MissAB8E4F_PREFIX14_I()
    ensures NoRowMatches(PREFIX14_I, ADDRESS_AB8E4F)
  {
    forall i | 0 <= i < |PREFIX14_I|
      ensures !StartsWith(ADDRESS_AB8E4F, PREFIX14_I[i].0)
    {
      if i == 0 { assert PREFIX14_I[0].0 == "000011000010"; DiffersAt(ADDRESS_AB8E4F, "000011000010", 0); }
      else if i == 1 { assert PREFIX14_I[1].0 == "100010011000"; DiffersAt(ADDRESS_AB8E4F, "100010011000", 2); }
      else if i == 2 { assert PREFIX14_I[2].0 == "111010001000"; DiffersAt(ADDRESS_AB8E4F, "111010001000", 1); }
      else if i == 3 { assert PREFIX14_I[3].0 == "111010001100"; DiffersAt(ADDRESS_AB8E4F, "111010001100", 1); }
      else if i == 4 { assert PREFIX14_I[4].0 == "011101011"; DiffersAt(ADDRESS_AB8E4F, "011101011", 0); }
      else if i == 5 { assert PREFIX14_I[5].0 == "00000110101000"; DiffersAt(ADDRESS_AB8E4F, "00000110101000", 0); }
      else if i == 6 { assert PREFIX14_I[6].0 == "011100011"; DiffersAt(ADDRESS_AB8E4F, "011100011", 0); }
      else if i == 7 { assert PREFIX14_I[7].0 == "01010000010011"; DiffersAt(ADDRESS_AB8E4F, "01010000010011", 0); }
      else if i == 8 { assert PREFIX14_I[8].0 == "000001101110"; DiffersAt(ADDRESS_AB8E4F, "000001101110", 0); }
      else if i == 9 { assert PREFIX14_I[9].0 == "11001000110000"; DiffersAt(ADDRESS_AB8E4F, "11001000110000", 1); }
      else { assert PREFIX14_I[10].0 == "00001011110000"; DiffersAt(ADDRESS_AB8E4F, "00001011110000", 0); }
    }
  }

  lemma MissAB8E4F_PREFIX14_J()
    ensures NoRowMatches(PREFIX14_J, ADDRESS_AB8E4F)
  {
    forall i | 0 <= i < |PREFIX14_J|
      ensures !StartsWith(ADDRESS_AB8E4F, PREFIX14_J[i].0)
    {
      if i == 0 { assert PREFIX14_J[0].0 == "10010000001000"; DiffersAt(ADDRESS_AB8E4F, "10010000001000", 2); }
      else if i == 1 { assert PREFIX14_J[1].0 == "01010000000000"; DiffersAt(ADDRESS_AB8E4F, "01010000000000", 0); }
      else if i == 2 { assert PREFIX14_J[2].0 == "00001001111000"; DiffersAt(ADDRESS_AB8E4F, "00001001111000", 0); }
      else if i == 3 { assert PREFIX14_J[3].0 == "011100010"; DiffersAt(ADDRESS_AB8E4F, "011100010", 0); }
      else if i == 4 { assert PREFIX14_J[4].0 == "000001110000"; DiffersAt(ADDRESS_AB8E4F, "000001110000", 0); }
      else if i == 5 { assert PREFIX14_J[5].0 == "00000111010000"; DiffersAt(ADDRESS_AB8E4F, "00000111010000", 0); }
      else if i == 6 { assert PREFIX14_J[6].0 == "00000111011000"; DiffersAt(ADDRESS_AB8E4F, "00000111011000", 0); }
      else if i == 7 { assert PREFIX14_J[7].0 == "011101101"; DiffersAt(ADDRESS_AB8E4F, "011101101", 0); }
      else if i == 8 { assert PREFIX14_J[8].0 == "01010000010111"; DiffersAt(ADDRESS_AB8E4F, "01010000010111", 0); }
      else if i == 9 { assert PREFIX14_J[9].0 == "01010000011011"; DiffersAt(ADDRESS_AB8E4F, "01010000011011", 0); }
      else { assert PREFIX14_J[10].0 == "10001001011100"; DiffersAt(ADDRESS_AB8E4F, "10001001011100", 2); }
    }
  }

  lemma MissAB8E4F_PREFIX14_K()
    ensures NoRowMatches(PREFIX14_K, ADDRESS_AB8E4F)
  {
    forall i | 0 <= i < |PREFIX14_K|
      ensures !StartsWith(ADDRESS_AB8E4F, PREFIX14_K[i].0)
    {
      if i == 0 { assert PREFIX14_K[0].0 == "000001111000"; DiffersAt(ADDRESS_AB8E4F, "000001111000", 0); }
      else if i == 1 { assert PREFIX14_K[1].0 == "011101110"; DiffersAt(ADDRESS_AB8E4F, "011101110", 0); }
      else if i == 2 { assert PREFIX14_K[2].0 == "000001111100"; DiffersAt(ADDRESS_AB8E4F, "000001111100", 0); }
      else if i == 3 { assert PREFIX14_K[3].0 == "000011001000"; DiffersAt(ADDRESS_AB8E4F, "000011001000", 0); }
      else if i == 4 { assert PREFIX14_K[4].0 == "00000111101000"; DiffersAt(ADDRESS_AB8E4F, "00000111101000", 0); }
      else if i == 5 { assert PREFIX14_K[5].0 == "01010001010100"; DiffersAt(ADDRESS_AB8E4F, "01010001010100", 0); }
      else if i == 6 { assert PREFIX14_K[6].0 == "01010001001000"; DiffersAt(ADDRESS_AB8E4F, "01010001001000", 0); }
      else if i == 7 { assert PREFIX14_K[7].0 == "000010001000"; DiffersAt(ADDRESS_AB8E4F, "000010001000", 0); }
      else if i == 8 { assert PREFIX14_K[8].0 == "11001000110100"; DiffersAt(ADDRESS_AB8E4F, "11001000110100", 1); }
      else if i == 9 { assert PREFIX14_K[9].0 == "000011000110"; DiffersAt(ADDRESS_AB8E4F, "000011000110", 0); }
      else { assert PREFIX14_K[10].0 == "01100000000110"; DiffersAt(ADDRESS_AB8E4F, "01100000000110", 0); }
    }
  }

  lemma MissAB8E4F_PREFIX14_L()
    ensures NoRowMatches(PREFIX14_L, ADDRESS_AB8E4F)
  {
    forall i | 0 <= i < |PREFIX14_L|
      ensures !StartsWith(ADDRESS_AB8E4F, PREFIX14_L[i].0)
    {
      if i == 0 { assert PREFIX14_L[0].0 == "000001101000"; DiffersAt(ADDRESS_AB8E4F, "000001101000", 0); }
      else if i == 1 { assert PREFIX14_L[1].0 == "100010010110"; DiffersAt(ADDRESS_AB8E4F, "100010010110", 2); }
      else if i == 2 { assert PREFIX14_L[2].0 == "000010000000"; DiffersAt(ADDRESS_AB8E4F, "000010000000", 0); }
      else if i == 3 { assert PREFIX14_L[3].0 == "111010010000"; DiffersAt(ADDRESS_AB8E4F, "111010010000", 1); }
      else if i == 4 { assert PREFIX14_L[4].0 == "01010000011111"; DiffersAt(ADDRESS_AB8E4F, "01010000011111", 0); }
      else if i == 5 { assert PREFIX14_L[5].0 == "11001001000000"; DiffersAt(ADDRESS_AB8E4F, "11001001000000", 1); }
      else if i == 6 { assert PREFIX14_L[6].0 == "100010010000"; DiffersAt(ADDRESS_AB8E4F, "100010010000", 2); }
      else if i == 7 { assert PREFIX14_L[7].0 == "000010001010"; DiffersAt(ADDRESS_AB8E4F, "000010001010", 0); }
      else if i == 8 { assert PREFIX14_L[8].0 == "00000000010000"; DiffersAt(ADDRESS_AB8E4F, "00000000010000", 0); }
      else if i == 9 { assert PREFIX14_L[9].0 == "10001001100100"; DiffersAt(ADDRESS_AB8E4F, "10001001100100", 2); }
      else { assert PREFIX14_L[10].0 == "11110000100100"; DiffersAt(ADDRESS_AB8E4F, "11110000100100", 1); }
    }
  }

  lemma MissAB8E4F_PREFIX12()
    ensures NoRowMatches(PREFIX12, ADDRESS_AB8E4F)
  {
    forall i | 0 <= i < |PREFIX12|
      ensures !StartsWith(ADDRESS_AB8E4F, PREFIX12[i].0)
    {
      if i == 0 { assert PREFIX12[0].0 == "011100000000"; DiffersAt(ADDRESS_AB8E4F, "011100000000", 0); }
      else if i == 1 { assert PREFIX12[1].0 == "01100000000000"; DiffersAt(ADDRESS_AB8E4F, "01100000000000", 0); }
      else if i == 2 { assert PREFIX12[2].0 == "01100000000010"; DiffersAt(ADDRESS_AB8E4F, "01100000000010", 0); }
      else if i == 3 { assert PREFIX12[3].0 == "000010101000"; DiffersAt(ADDRESS_AB8E4F, "000010101000", 0); }
      else if i == 4 { assert PREFIX12[4].0 == "100010010100"; DiffersAt(ADDRESS_AB8E4F, "100010010100", 2); }
      else if i == 5 { assert PREFIX12[5].0 == "011100000010"; DiffersAt(ADDRESS_AB8E4F, "011100000010", 0); }
      else { assert PREFIX12[6].0 == "01010001000000"; DiffersAt(ADDRESS_AB8E4F, "01010001000000", 0); }
    }
  }

  lemma MissAB8E4F_PREFIX9_A()
    ensures NoRowMatches(PREFIX9_A, ADDRESS_AB8E4F)
  {
    forall i | 0 <= i < |PREFIX9_A|
      ensures !StartsWith(ADDRESS_AB8E4F, PREFIX9_A[i].0)
    {
      if i == 0 { assert PREFIX9_A[0].0 == "000010100"; DiffersAt(ADDRESS_AB8E4F, "000010100", 0); }
      else if i == 1 { assert PREFIX9_A[1].0 == "010001000"; DiffersAt(ADDRESS_AB8E4F, "010001000", 0); }
      else if i == 2 { assert PREFIX9_A[2].0 == "010001001"; DiffersAt(ADDRESS_AB8E4F, "010001001", 0); }
      else if i == 3 { assert PREFIX9_A[3].0 == "010001010"; DiffersAt(ADDRESS_AB8E4F, "010001010", 0); }
      else if i == 4 { assert PREFIX9_A[4].0 == "010001011"; DiffersAt(ADDRESS_AB8E4F, "010001011", 0); }
      else if i == 5 { assert PREFIX9_A[5].0 == "010001100"; DiffersAt(ADDRESS_AB8E4F, "010001100", 0); }
      else if i == 6 { assert PREFIX9_A[6].0 == "010001101"; DiffersAt(ADDRESS_AB8E4F, "010001101", 0); }
      else if i == 7 { assert PREFIX9_A[7].0 == "010001110"; DiffersAt(ADDRESS_AB8E4F, "010001110", 0); }
      else { assert PREFIX9_A[8].0 == "010001111"; DiffersAt(ADDRESS_AB8E4F, "010001111", 0); }
    }
  }

  lemma MissAB8E4F_PREFIX9_B()
    ensures NoRowMatches(PREFIX9_B, ADDRESS_AB8E4F)
  {
    forall i | 0 <= i < |PREFIX9_B|
      ensures !StartsWith(ADDRESS_AB8E4F, PREFIX9_B[i].0)
    {
      if i == 0 { assert PREFIX9_B[0].0 == "100010100"; DiffersAt(ADDRESS_AB8E4F, "100010100", 2); }
      else if i == 1 { assert PREFIX9_B[1].0 == "010010000"; DiffersAt(ADDRESS_AB8E4F, "010010000", 0); }
      else if i == 2 { assert PREFIX9_B[2].0 == "010010001"; DiffersAt(ADDRESS_AB8E4F, "010010001", 0); }
      else if i == 3 { assert PREFIX9_B[3].0 == "010010010"; DiffersAt(ADDRESS_AB8E4F, "010010010", 0); }
      else if i == 4 { assert PREFIX9_B[4].0 == "010010011"; DiffersAt(ADDRESS_AB8E4F, "010010011", 0); }
      else if i == 5 { assert PREFIX9_B[5].0 == "010010100"; DiffersAt(ADDRESS_AB8E4F, "010010100", 0); }
      else if i == 6 { assert PREFIX9_B[6].0 == "010010101"; DiffersAt(ADDRESS_AB8E4F, "010010101", 0); }
      else if i == 7 { assert PREFIX9_B[7].0 == "010010110"; DiffersAt(ADDRESS_AB8E4F, "010010110", 0); }
      else { assert PREFIX9_B[8].0 == "010010111"; DiffersAt(ADDRESS_AB8E4F, "010010111", 0); }
    }
  }

  lemma MissAB8E4F_PREFIX9_C()
    ensures NoRowMatches(PREFIX9_C, ADDRESS_AB8E4F)
  {
    forall i | 0 <= i < |PREFIX9_C|
      ensures !StartsWith(ADDRESS_AB8E4F, PREFIX9_C[i].0)
    {
      if i == 0 { assert PREFIX9_C[0].0 == "110010000"; DiffersAt(ADDRESS_AB8E4F, "110010000", 1); }
      else if i == 1 { assert PREFIX9_C[1].0 == "010100001"; DiffersAt(ADDRESS_AB8E4F, "010100001", 0); }
      else if i == 2 { assert PREFIX9_C[2].0 == "000011010"; DiffersAt(ADDRESS_AB8E4F, "000011010", 0); }
      else if i == 3 { assert PREFIX9_C[3].0 == "000011011"; DiffersAt(ADDRESS_AB8E4F, "000011011", 0); }
      else if i == 4 { assert PREFIX9_C[4].0 == "100010000"; DiffersAt(ADDRESS_AB8E4F, "100010000", 2); }
      else if i == 5 { assert PREFIX9_C[5].0 == "100010001"; DiffersAt(ADDRESS_AB8E4F, "100010001", 2); }
      else if i == 6 { assert PREFIX9_C[6].0 == "010011000"; DiffersAt(ADDRESS_AB8E4F, "010011000", 0); }
      else { assert PREFIX9_C[7].0 == "111100000"; DiffersAt(ADDRESS_AB8E4F, "111100000", 1); }
    }
  }

  lemma MissAB8E4F_PREFIX6()
    ensures NoRowMatches(PREFIX6, ADDRESS_AB8E4F)
  {
    forall i | 0 <= i < |PREFIX6|
      ensures !StartsWith(ADDRESS_AB8E4F, PREFIX6[i].0)
    {
      if i == 0 { assert PREFIX6[0].0 == "111000"; DiffersAt(ADDRESS_AB8E4F, "111000", 1); }
      else if i == 1 { assert PREFIX6[1].0 == "011111"; DiffersAt(ADDRESS_AB8E4F, "011111", 0); }
      else if i == 2 { assert PREFIX6[2].0 == "110000"; DiffersAt(ADDRESS_AB8E4F, "110000", 1); }
      else if i == 3 { assert PREFIX6[3].0 == "111001"; DiffersAt(ADDRESS_AB8E4F, "111001", 1); }
      else if i == 4 { assert PREFIX6[4].0 == "001110"; DiffersAt(ADDRESS_AB8E4F, "001110", 0); }
      else if i == 5 { assert PREFIX6[5].0 == "001111"; DiffersAt(ADDRESS_AB8E4F, "001111", 0); }
      else if i == 6 { assert PREFIX6[6].0 == "100000"; DiffersAt(ADDRESS_AB8E4F, "100000", 2); }
      else if i == 7 { assert PREFIX6[7].0 == "001100"; DiffersAt(ADDRESS_AB8E4F, "001100", 0); }
      else if i == 8 { assert PREFIX6[8].0 == "100001"; DiffersAt(ADDRESS_AB8E4F, "100001", 2); }
      else if i == 9 { assert PREFIX6[9].0 == "001101"; DiffersAt(ADDRESS_AB8E4F, "001101", 0); }
      else { assert PREFIX6[10].0 == "010000"; DiffersAt(ADDRESS_AB8E4F, "010000", 0); }
    }
  }

  lemma Miss100000_PREFIX14_A()
    ensures NoRowMatches(PREFIX14_A, ADDRESS_100000)
  {
    forall i | 0 <= i < |PREFIX14_A|
      ensures !StartsWith(ADDRESS_100000, PREFIX14_A[i].0)
    {
      if i == 0 { assert PREFIX14_A[0].0 == "00001100101000"; DiffersAt(ADDRESS_100000, "00001100101000", 3); }
      else if i == 1 { assert PREFIX14_A[1].0 == "01010000000100"; DiffersAt(ADDRESS_100000, "01010000000100", 1); }
      else if i == 2 { assert PREFIX14_A[2].0 == "00001010101000"; DiffersAt(ADDRESS_100000, "00001010101000", 3); }
      else if i == 3 { assert PREFIX14_A[3].0 == "00001010101100"; DiffersAt(ADDRESS_100000, "00001010101100", 3); }
      else if i == 4 { assert PREFIX14_A[4].0 == "00001001010000"; DiffersAt(ADDRESS_100000, "00001001010000", 3); }
      else if i == 5 { assert PREFIX14_A[5].0 == "01101000000000"; DiffersAt(ADDRESS_100000, "01101000000000", 1); }
      else if i == 6 { assert PREFIX14_A[6].0 == "111010010100"; DiffersAt(ADDRESS_100000, "111010010100", 0); }
      else if i == 7 { assert PREFIX14_A[7].0 == "01010001001100"; DiffersAt(ADDRESS_100000, "01010001001100", 1); }
      else if i == 8 { assert PREFIX14_A[8].0 == "00000011000000"; DiffersAt(ADDRESS_100000, "00000011000000", 3); }
      else if i == 9 { assert PREFIX14_A[9].0 == "10001001010100"; DiffersAt(ADDRESS_100000, "10001001010100", 0); }
      else if i == 10 { assert PREFIX14_A[10].0 == "000010011100"; DiffersAt(ADDRESS_100000, "000010011100", 3); }
      else { assert PREFIX14_A[11].0 == "000000110010"; DiffersAt(ADDRESS_100000, "000000110010", 3); }
    }
  }

  lemma Miss100000_PREFIX14_B()
    ensures NoRowMatches(PREFIX14_B, ADDRESS_100000)
  {
    forall i | 0 <= i < |PREFIX14_B|
      ensures !StartsWith(ADDRESS_100000, PREFIX14_B[i].0)
    {
      if i == 0 { assert PREFIX14_B[0].0 == "011100001110"; DiffersAt(ADDRESS_100000, "011100001110", 1); }
      else if i == 1 { assert PREFIX14_B[1].0 == "000000110100"; DiffersAt(ADDRESS_100000, "000000110100", 3); }
      else if i == 2 { assert PREFIX14_B[2].0 == "00001001011000"; DiffersAt(ADDRESS_100000, "00001001011000", 3); }
      else if i == 3 { assert PREFIX14_B[3].0 == "000001101100"; DiffersAt(ADDRESS_100000, "000001101100", 3); }
      else if i == 4 { assert PREFIX14_B[4].0 == "000010000100"; DiffersAt(ADDRESS_100000, "000010000100", 3); }
      else if i == 5 { assert PREFIX14_B[5].0 == "111010000000"; DiffersAt(ADDRESS_100000, "111010000000", 0); }
      else if i == 6 { assert PREFIX14_B[6].0 == "000010101100"; DiffersAt(ADDRESS_100000, "000010101100", 3); }
      else if i == 7 { assert PREFIX14_B[7].0 == "00000011010100"; DiffersAt(ADDRESS_100000, "00000011010100", 3); }
      else if i == 8 { assert PREFIX14_B[8].0 == "000000110110"; DiffersAt(ADDRESS_100000, "000000110110", 3); }
      else if i == 9 { assert PREFIX14_B[9].0 == "10010000000100"; DiffersAt(ADDRESS_100000, "10010000000100", 0); }
      else if i == 10 { assert PREFIX14_B[10].0 == "000010101110"; DiffersAt(ADDRESS_100000, "000010101110", 3); }
      else { assert PREFIX14_B[11].0 == "000000111000"; DiffersAt(ADDRESS_100000, "000000111000", 3); }
    }
  }

  lemma Miss100000_PREFIX14_C()
    ensures NoRowMatches(PREFIX14_C, ADDRESS_100000)
  {
    forall i | 0 <= i < |PREFIX14_C|
      ensures !StartsWith(ADDRESS_100000, PREFIX14_C[i].0)
    {
      if i == 0 { assert PREFIX14_C[0].0 == "01010000000111"; DiffersAt(ADDRESS_100000, "01010000000111", 1); }
      else if i == 1 { assert PREFIX14_C[1].0 == "000010110000"; DiffersAt(ADDRESS_100000, "000010110000", 3); }
      else if i == 2 { assert PREFIX14_C[2].0 == "01001100100000"; DiffersAt(ADDRESS_100000, "01001100100000", 1); }
      else if i == 3 { assert PREFIX14_C[3].0 == "011100100"; DiffersAt(ADDRESS_100000, "011100100", 1); }
      else if i == 4 { assert PREFIX14_C[4].0 == "000010001100"; DiffersAt(ADDRESS_100000, "000010001100", 3); }
      else if i == 5 { assert PREFIX14_C[5].0 == "00001001100000"; DiffersAt(ADDRESS_100000, "00001001100000", 3); }
      else if i == 6 { assert PREFIX14_C[6].0 == "000011000100"; DiffersAt(ADDRESS_100000, "000011000100", 3); }
      else if i == 7 { assert PREFIX14_C[7].0 == "111010000100"; DiffersAt(ADDRESS_100000, "111010000100", 0); }
      else if i == 8 { assert PREFIX14_C[8].0 == "000010110010"; DiffersAt(ADDRESS_100000, "000010110010", 3); }
      else if i == 9 { assert PREFIX14_C[9].0 == "000001000010"; DiffersAt(ADDRESS_100000, "000001000010", 3); }
      else if i == 10 { assert PREFIX14_C[10].0 == "00100000001000"; DiffersAt(ADDRESS_100000, "00100000001000", 2); }
      else { assert PREFIX14_C[11].0 == "01010001000100"; DiffersAt(ADDRESS_100000, "01010001000100", 1); }
    }
  }

  lemma Miss100000_PREFIX14_D()
    ensures NoRowMatches(PREFIX14_D, ADDRESS_100000)
  {
    forall i | 0 <= i < |PREFIX14_D|
      ensures !StartsWith(ADDRESS_100000, PREFIX14_D[i].0)
    {
      if i == 0 { assert PREFIX14_D[0].0 == "000001000000"; DiffersAt(ADDRESS_100000, "000001000000", 3); }
      else if i == 1 { assert PREFIX14_D[1].0 == "110010001000"; DiffersAt(ADDRESS_100000, "110010001000", 0); }
      else if i == 2 { assert PREFIX14_D[2].0 == "000000111110"; DiffersAt(ADDRESS_100000, "000000111110", 3); }
      else if i == 3 { assert PREFIX14_D[3].0 == "000010011010"; DiffersAt(ADDRESS_100000, "000010011010", 3); }
      else if i == 4 { assert PREFIX14_D[4].0 == "01010001010000"; DiffersAt(ADDRESS_100000, "01010001010000", 1); }
      else if i == 5 { assert PREFIX14_D[5].0 == "000001000100"; DiffersAt(ADDRESS_100000, "000001000100", 3); }
      else if i == 6 { assert PREFIX14_D[6].0 == "00001100110000"; DiffersAt(ADDRESS_100000, "00001100110000", 3); }
      else if i == 7 { assert PREFIX14_D[7].0 == "000010110100"; DiffersAt(ADDRESS_100000, "000010110100", 3); }
      else if i == 8 { assert PREFIX14_D[8].0 == "000001000110"; DiffersAt(ADDRESS_100000, "000001000110", 3); }
      else if i == 9 { assert PREFIX14_D[9].0 == "00000100100000"; DiffersAt(ADDRESS_100000, "00000100100000", 3); }
      else { assert PREFIX14_D[10].0 == "000010110110"; DiffersAt(ADDRESS_100000, "000010110110", 3); }
    }
  }

  lemma Miss100000_PREFIX14_E()
    ensures NoRowMatches(PREFIX14_E, ADDRESS_100000)
  {
    forall i | 0 <= i < |PREFIX14_E|
      ensures !StartsWith(ADDRESS_100000, PREFIX14_E[i].0)
    {
      if i == 0 { assert PREFIX14_E[0].0 == "000010111000"; DiffersAt(ADDRESS_100000, "000010111000", 3); }
      else if i == 1 { assert PREFIX14_E[1].0 == "000010111010"; DiffersAt(ADDRESS_100000, "000010111010", 3); }
      else if i == 2 { assert PREFIX14_E[2].0 == "010011001100"; DiffersAt(ADDRESS_100000, "010011001100", 1); }
      else if i == 3 { assert PREFIX14_E[3].0 == "011100110"; DiffersAt(ADDRESS_100000, "011100110", 1); }
      else if i == 4 { assert PREFIX14_E[4].0 == "011100101"; DiffersAt(ADDRESS_100000, "011100101", 1); }
      else if i == 5 { assert PREFIX14_E[5].0 == "010011001010"; DiffersAt(ADDRESS_100000, "010011001010", 1); }
      else if i == 6 { assert PREFIX14_E[6].0 == "011100111"; DiffersAt(ADDRESS_100000, "011100111", 1); }
      else if i == 7 { assert PREFIX14_E[7].0 == "000010111110"; DiffersAt(ADDRESS_100000, "000010111110", 3); }
      else if i == 8 { assert PREFIX14_E[8].0 == "011101000"; DiffersAt(ADDRESS_100000, "011101000", 1); }
      else if i == 9 { assert PREFIX14_E[9].0 == "01101000001100"; DiffersAt(ADDRESS_100000, "01101000001100", 1); }
      else { assert PREFIX14_E[10].0 == "000001001100"; DiffersAt(ADDRESS_100000, "000001001100", 3); }
    }
  }

  lemma Miss100000_PREFIX14_F()
    ensures NoRowMatches(PREFIX14_F, ADDRESS_100000)
  {
    forall i | 0 <= i < |PREFIX14_F|
      ensures !StartsWith(ADDRESS_100000, PREFIX14_F[i].0)
    {
      if i == 0 { assert PREFIX14_F[0].0 == "11001000111000"; DiffersAt(ADDRESS_100000, "11001000111000", 0); }
      else if i == 1 { assert PREFIX14_F[1].0 == "011100000110"; DiffersAt(ADDRESS_100000, "011100000110", 1); }
      else if i == 2 { assert PREFIX14_F[2].0 == "01100000000100"; DiffersAt(ADDRESS_100000, "01100000000100", 1); }
      else if i == 3 { assert PREFIX14_F[3].0 == "011100001000"; DiffersAt(ADDRESS_100000, "011100001000", 1); }
      else if i == 4 { assert PREFIX14_F[4].0 == "01010000001011"; DiffersAt(ADDRESS_100000, "01010000001011", 1); }
      else if i == 5 { assert PREFIX14_F[5].0 == "011101001"; DiffersAt(ADDRESS_100000, "011101001", 1); }
      else if i == 6 { assert PREFIX14_F[6].0 == "00000100101000"; DiffersAt(ADDRESS_100000, "00000100101000", 3); }
      else if i == 7 { assert PREFIX14_F[7].0 == "000001010000"; DiffersAt(ADDRESS_100000, "000001010000", 3); }
      else if i == 8 { assert PREFIX14_F[8].0 == "01010000001111"; DiffersAt(ADDRESS_100000, "01010000001111", 1); }
      else if i == 9 { assert PREFIX14_F[9].0 == "01001101000000"; DiffersAt(ADDRESS_100000, "01001101000000", 1); }
      else { assert PREFIX14_F[10].0 == "000001010100"; DiffersAt(ADDRESS_100000, "000001010100", 3); }
    }
  }

  lemma Miss100000_PREFIX14_G()
    ensures NoRowMatches(PREFIX14_G, ADDRESS_100000)
  {
    forall i | 0 <= i < |PREFIX14_G|
      ensures !StartsWith(ADDRESS_100000, PREFIX14_G[i].0)
    {
      if i == 0 { assert PREFIX14_G[0].0 == "000001011000"; DiffersAt(ADDRESS_100000, "000001011000", 3); }
      else if i == 1 { assert PREFIX14_G[1].0 == "011101010"; DiffersAt(ADDRESS_100000, "011101010", 1); }
      else if i == 2 { assert PREFIX14_G[2].0 == "00000101101000"; DiffersAt(ADDRESS_100000, "00000101101000", 3); }
      else if i == 3 { assert PREFIX14_G[3].0 == "000001011100"; DiffersAt(ADDRESS_100000, "000001011100", 3); }
      else if i == 4 { assert PREFIX14_G[4].0 == "01001101001000"; DiffersAt(ADDRESS_100000, "01001101001000", 1); }
      else if i == 5 { assert PREFIX14_G[5].0 == "10010000000000"; DiffersAt(ADDRESS_100000, "10010000000000", 0); }
      else if i == 6 { assert PREFIX14_G[6].0 == "00000101111000"; DiffersAt(ADDRESS_100000, "00000101111000", 3); }
      else if i == 7 { assert PREFIX14_G[7].0 == "00000110000000"; DiffersAt(ADDRESS_100000, "00000110000000", 3); }
      else if i == 8 { assert PREFIX14_G[8].0 == "01101000000100"; DiffersAt(ADDRESS_100000, "01101000000100", 1); }
      else if i == 9 { assert PREFIX14_G[9].0 == "01001101010000"; DiffersAt(ADDRESS_100000, "01001101010000", 1); }
      else { assert PREFIX14_G[10].0 == "01101000001000"; DiffersAt(ADDRESS_100000, "01101000001000", 1); }
    }
  }

  lemma Miss100000_PREFIX14_H()
    ensures NoRowMatches(PREFIX14_H, ADDRESS_100000)
  {
    forall i | 0 <= i < |PREFIX14_H|
      ensures !StartsWith(ADDRESS_100000, PREFIX14_H[i].0)
    {
      if i == 0 { assert PREFIX14_H[0].0 == "000000000110"; DiffersAt(ADDRESS_100000, "000000000110", 3); }
      else if i == 1 { assert PREFIX14_H[1].0 == "011100000100"; DiffersAt(ADDRESS_100000, "011100000100", 1); }
      else if i == 2 { assert PREFIX14_H[2].0 == "00100000000100"; DiffersAt(ADDRESS_100000, "00100000000100", 2); }
      else if i == 3 { assert PREFIX14_H[3].0 == "11001000101000"; DiffersAt(ADDRESS_100000, "11001000101000", 0); }
      else if i == 4 { assert PREFIX14_H[4].0 == "011100001010"; DiffersAt(ADDRESS_100000, "011100001010", 1); }
      else if i == 5 { assert PREFIX14_H[5].0 == "000011000000"; DiffersAt(ADDRESS_100000, "000011000000", 3); }
      else if i == 6 { assert PREFIX14_H[6].0 == "000001100010"; DiffersAt(ADDRESS_100000, "000001100010", 3); }
      else if i == 7 { assert PREFIX14_H[7].0 == "000001100100"; DiffersAt(ADDRESS_100000, "000001100100", 3); }
      else if i == 8 { assert PREFIX14_H[8].0 == "01110000110000"; DiffersAt(ADDRESS_100000, "01110000110000", 1); }
      else if i == 9 { assert PREFIX14_H[9].0 == "011101100"; DiffersAt(ADDRESS_100000, "011101100", 1); }
      else { assert PREFIX14_H[10].0 == "01101000010000"; DiffersAt(ADDRESS_100000, "01101000010000", 1); }
    }
  }

  lemma Miss100000_PREFIX14_I()
    ensures NoRowMatches(PREFIX14_I, ADDRESS_100000)
  {
    forall i | 0 <= i < |PREFIX14_I|
      ensures !StartsWith(ADDRESS_100000, PREFIX14_I[i].0)
    {
      if i == 0 { assert PREFIX14_I[0].0 == "000011000010"; DiffersAt(ADDRESS_100000, "000011000010", 3); }
      else if i == 1 { assert PREFIX14_I[1].0 == "100010011000"; DiffersAt(ADDRESS_100000, "100010011000", 0); }
      else if i == 2 { assert PREFIX14_I[2].0 == "111010001000"; DiffersAt(ADDRESS_100000, "111010001000", 0); }
      else if i == 3 { assert PREFIX14_I[3].0 == "111010001100"; DiffersAt(ADDRESS_100000, "111010001100", 0); }
      else if i == 4 { assert PREFIX14_I[4].0 == "011101011"; DiffersAt(ADDRESS_100000, "011101011", 1); }
      else if i == 5 { assert PREFIX14_I[5].0 == "00000110101000"; DiffersAt(ADDRESS_100000, "00000110101000", 3); }
      else if i == 6 { assert PREFIX14_I[6].0 == "011100011"; DiffersAt(ADDRESS_100000, "011100011", 1); }
      else if i == 7 { assert PREFIX14_I[7].0 == "01010000010011"; DiffersAt(ADDRESS_100000, "01010000010011", 1); }
      else if i == 8 { assert PREFIX14_I[8].0 == "000001101110"; DiffersAt(ADDRESS_100000, "000001101110", 3); }
      else if i == 9 { assert PREFIX14_I[9].0 == "11001000110000"; DiffersAt(ADDRESS_100000, "11001000110000", 0); }
      else { assert PREFIX14_I[10].0 == "00001011110000"; DiffersAt(ADDRESS_100000, "00001011110000", 3); }
    }
  }

  lemma Miss100000_PREFIX14_J()
    ensures NoRowMatches(PREFIX14_J, ADDRESS_100000)
  {
    forall i | 0 <= i < |PREFIX14_J|
      ensures !StartsWith(ADDRESS_100000, PREFIX14_J[i].0)
    {
      if i == 0 { assert PREFIX14_J[0].0 == "10010000001000"; DiffersAt(ADDRESS_100000, "10010000001000", 0); }
      else if i == 1 { assert PREFIX14_J[1].0 == "01010000000000"; DiffersAt(ADDRESS_100000, "01010000000000", 1); }
      else if i == 2 { assert PREFIX14_J[2].0 == "00001001111000"; DiffersAt(ADDRESS_100000, "00001001111000", 3); }
      else if i == 3 { assert PREFIX14_J[3].0 == "011100010"; DiffersAt(ADDRESS_100000, "011100010", 1); }
      else if i == 4 { assert PREFIX14_J[4].0 == "000001110000"; DiffersAt(ADDRESS_100000, "000001110000", 3); }
      else if i == 5 { assert PREFIX14_J[5].0 == "00000111010000"; DiffersAt(ADDRESS_100000, "00000111010000", 3); }
      else if i == 6 { assert PREFIX14_J[6].0 == "00000111011000"; DiffersAt(ADDRESS_100000, "00000111011000", 3); }
      else if i == 7 { assert PREFIX14_J[7].0 == "011101101"; DiffersAt(ADDRESS_100000, "011101101", 1); }
      else if i == 8 { assert PREFIX14_J[8].0 == "01010000010111"; DiffersAt(ADDRESS_100000, "01010000010111", 1); }
      else if i == 9 { assert PREFIX14_J[9].0 == "01010000011011"; DiffersAt(ADDRESS_100000, "01010000011011", 1); }
      else { assert PREFIX14_J[10].0 == "10001001011100"; DiffersAt(ADDRESS_100000, "10001001011100", 0); }
    }
  }

  lemma Miss100000_PREFIX14_K()
    ensures NoRowMatches(PREFIX14_K, ADDRESS_100000)
  {
    forall i | 0 <= i < |PREFIX14_K|
      ensures !StartsWith(ADDRESS_100000, PREFIX14_K[i].0)
    {
      if i == 0 { assert PREFIX14_K[0].0 == "000001111000"; DiffersAt(ADDRESS_100000, "000001111000", 3); }
      else if i == 1 { assert PREFIX14_K[1].0 == "011101110"; DiffersAt(ADDRESS_100000, "011101110", 1); }
      else if i == 2 { assert PREFIX14_K[2].0 == "000001111100"; DiffersAt(ADDRESS_100000, "000001111100", 3); }
      else if i == 3 { assert PREFIX14_K[3].0 == "000011001000"; DiffersAt(ADDRESS_100000, "000011001000", 3); }
      else if i == 4 { assert PREFIX14_K[4].0 == "00000111101000"; DiffersAt(ADDRESS_100000, "00000111101000", 3); }
      else if i == 5 { assert PREFIX14_K[5].0 == "01010001010100"; DiffersAt(ADDRESS_100000, "01010001010100", 1); }
      else if i == 6 { assert PREFIX14_K[6].0 == "01010001001000"; DiffersAt(ADDRESS_100000, "01010001001000", 1); }
      else if i == 7 { assert PREFIX14_K[7].0 == "000010001000"; DiffersAt(ADDRESS_100000, "000010001000", 3); }
      else if i == 8 { assert PREFIX14_K[8].0 == "11001000110100"; DiffersAt(ADDRESS_100000, "11001000110100", 0); }
      else if i == 9 { assert PREFIX14_K[9].0 == "000011000110"; DiffersAt(ADDRESS_100000, "000011000110", 3); }
      else { assert PREFIX14_K[10].0 == "01100000000110"; DiffersAt(ADDRESS_100000, "01100000000110", 1); }
    }
  }

  lemma Miss100000_PREFIX14_L()
    ensures NoRowMatches(PREFIX14_L, ADDRESS_100000)
  {
    forall i | 0 <= i < |PREFIX14_L|
      ensures !StartsWith(ADDRESS_100000, PREFIX14_L[i].0)
    {
      if i == 0 { assert PREFIX14_L[0].0 == "000001101000"; DiffersAt(ADDRESS_100000, "000001101000", 3); }
      else if i == 1 { assert PREFIX14_L[1].0 == "100010010110"; DiffersAt(ADDRESS_100000, "100010010110", 0); }
      else if i == 2 { assert PREFIX14_L[2].0 == "000010000000"; DiffersAt(ADDRESS_100000, "000010000000", 3); }
      else if i == 3 { assert PREFIX14_L[3].0 == "111010010000"; DiffersAt(ADDRESS_100000, "111010010000", 0); }
      else if i == 4 { assert PREFIX14_L[4].0 == "01010000011111"; DiffersAt(ADDRESS_100000, "01010000011111", 1); }
      else if i == 5 { assert PREFIX14_L[5].0 == "11001001000000"; DiffersAt(ADDRESS_100000, "11001001000000", 0); }
      else if i == 6 { assert PREFIX14_L[6].0 == "100010010000"; DiffersAt(ADDRESS_100000, "100010010000", 0); }
      else if i == 7 { assert PREFIX14_L[7].0 == "000010001010"; DiffersAt(ADDRESS_100000, "000010001010", 3); }
      else if i == 8 { assert PREFIX14_L[8].0 == "00000000010000"; DiffersAt(ADDRESS_100000, "00000000010000", 3); }
      else if i == 9 { assert PREFIX14_L[9].0 == "10001001100100"; DiffersAt(ADDRESS_100000, "10001001100100", 0); }
      else { assert PREFIX14_L[10].0 == "11110000100100"; DiffersAt(ADDRESS_100000, "11110000100100", 0); }
    }
  }

  lemma Miss100000_PREFIX12()
    ensures NoRowMatches(PREFIX12, ADDRESS_100000)
  {
    forall i | 0 <= i < |PREFIX12|
      ensures !StartsWith(ADDRESS_100000, PREFIX12[i].0)
    {
      if i == 0 { assert PREFIX12[0].0 == "011100000000"; DiffersAt(ADDRESS_100000, "011100000000", 1); }
      else if i == 1 { assert PREFIX12[1].0 == "01100000000000"; DiffersAt(ADDRESS_100000, "01100000000000", 1); }
      else if i == 2 { assert PREFIX12[2].0 == "01100000000010"; DiffersAt(ADDRESS_100000, "01100000000010", 1); }
      else if i == 3 { assert PREFIX12[3].0 == "000010101000"; DiffersAt(ADDRESS_100000, "000010101000", 3); }
      else if i == 4 { assert PREFIX12[4].0 == "100010010100"; DiffersAt(ADDRESS_100000, "100010010100", 0); }
      else if i == 5 { assert PREFIX12[5].0 == "011100000010"; DiffersAt(ADDRESS_100000, "011100000010", 1); }
      else { assert PREFIX12[6].0 == "01010001000000"; DiffersAt(ADDRESS_100000, "01010001000000", 1); }
    }
  }

  lemma Miss100000_PREFIX9_A()
    ensures NoRowMatches(PREFIX9_A, ADDRESS_100000)
  {
    forall i | 0 <= i < |PREFIX9_A|
      ensures !StartsWith(ADDRESS_100000, PREFIX9_A[i].0)
    {
      if i == 0 { assert PREFIX9_A[0].0 == "000010100"; DiffersAt(ADDRESS_100000, "000010100", 3); }
      else if i == 1 { assert PREFIX9_A[1].0 == "010001000"; DiffersAt(ADDRESS_100000, "010001000", 1); }
      else if i == 2 { assert PREFIX9_A[2].0 == "010001001"; DiffersAt(ADDRESS_100000, "010001001", 1); }
      else if i == 3 { assert PREFIX9_A[3].0 == "010001010"; DiffersAt(ADDRESS_100000, "010001010", 1); }
      else if i == 4 { assert PREFIX9_A[4].0 == "010001011"; DiffersAt(ADDRESS_100000, "010001011", 1); }
      else if i == 5 { assert PREFIX9_A[5].0 == "010001100"; DiffersAt(ADDRESS_100000, "010001100", 1); }
      else if i == 6 { assert PREFIX9_A[6].0 == "010001101"; DiffersAt(ADDRESS_100000, "010001101", 1); }
      else if i == 7 { assert PREFIX9_A[7].0 == "010001110"; DiffersAt(ADDRESS_100000, "010001110", 1); }
      else { assert PREFIX9_A[8].0 == "010001111"; DiffersAt(ADDRESS_100000, "010001111", 1); }
    }
  }

  lemma Miss100000_PREFIX9_B()
    ensures NoRowMatches(PREFIX9_B, ADDRESS_100000)
  {
    forall i | 0 <= i < |PREFIX9_B|
      ensures !StartsWith(ADDRESS_100000, PREFIX9_B[i].0)
    {
      if i == 0 { assert PREFIX9_B[0].0 == "100010100"; DiffersAt(ADDRESS_100000, "100010100", 0); }
      else if i == 1 { assert PREFIX9_B[1].0 == "010010000"; DiffersAt(ADDRESS_100000, "010010000", 1); }
      else if i == 2 { assert PREFIX9_B[2].0 == "010010001"; DiffersAt(ADDRESS_100000, "010010001", 1); }
      else if i == 3 { assert PREFIX9_B[3].0 == "010010010"; DiffersAt(ADDRESS_100000, "010010010", 1); }
      else if i == 4 { assert PREFIX9_B[4].0 == "010010011"; DiffersAt(ADDRESS_100000, "010010011", 1); }
      else if i == 5 { assert PREFIX9_B[5].0 == "010010100"; DiffersAt(ADDRESS_100000, "010010100", 1); }
      else if i == 6 { assert PREFIX9_B[6].0 == "010010101"; DiffersAt(ADDRESS_100000, "010010101", 1); }
      else if i == 7 { assert PREFIX9_B[7].0 == "010010110"; DiffersAt(ADDRESS_100000, "010010110", 1); }
      else { assert PREFIX9_B[8].0 == "010010111"; DiffersAt(ADDRESS_100000, "010010111", 1); }
    }
  }

  lemma Miss100000_PREFIX9_C()
    ensures NoRowMatches(PREFIX9_C, ADDRESS_100000)
  {
    forall i | 0 <= i < |PREFIX9_C|
      ensures !StartsWith(ADDRESS_100000, PREFIX9_C[i].0)
    {
      if i == 0 { assert PREFIX9_C[0].0 == "110010000"; DiffersAt(ADDRESS_100000, "110010000", 0); }
      else if i == 1 { assert PREFIX9_C[1].0 == "010100001"; DiffersAt(ADDRESS_100000, "010100001", 1); }
      else if i == 2 { assert PREFIX9_C[2].0 == "000011010"; DiffersAt(ADDRESS_100000, "000011010", 3); }
      else if i == 3 { assert PREFIX9_C[3].0 == "000011011"; DiffersAt(ADDRESS_100000, "000011011", 3); }
      else if i == 4 { assert PREFIX9_C[4].0 == "100010000"; DiffersAt(ADDRESS_100000, "100010000", 0); }
      else if i == 5 { assert PREFIX9_C[5].0 == "100010001"; DiffersAt(ADDRESS_100000, "100010001", 0); }
      else if i == 6 { assert PREFIX9_C[6].0 == "010011000"; DiffersAt(ADDRESS_100000, "010011000", 1); }
      else { assert PREFIX9_C[7].0 == "111100000"; DiffersAt(ADDRESS_100000, "111100000", 0); }
    }
  }

  lemma Miss100000_PREFIX6()
    ensures NoRowMatches(PREFIX6, ADDRESS_100000)
  {
    forall i | 0 <= i < |PREFIX6|
      ensures !StartsWith(ADDRESS_100000, PREFIX6[i].0)
    {
      if i == 0 { assert PREFIX6[0].0 == "111000"; DiffersAt(ADDRESS_100000, "111000", 0); }
      else if i == 1 { assert PREFIX6[1].0 == "011111"; DiffersAt(ADDRESS_100000, "011111", 1); }
      else if i == 2 { assert PREFIX6[2].0 == "110000"; DiffersAt(ADDRESS_100000, "110000", 0); }
      else if i == 3 { assert PREFIX6[3].0 == "111001"; DiffersAt(ADDRESS_100000, "111001", 0); }
      else if i == 4 { assert PREFIX6[4].0 == "001110"; DiffersAt(ADDRESS_100000, "001110", 2); }
      else if i == 5 { assert PREFIX6[5].0 == "001111"; DiffersAt(ADDRESS_100000, "001111", 2); }
      else if i == 6 { assert PREFIX6[6].0 == "100000"; DiffersAt(ADDRESS_100000, "100000", 0); }
      else if i == 7 { assert PREFIX6[7].0 == "001100"; DiffersAt(ADDRESS_100000, "001100", 2); }
      else if i == 8 { assert PREFIX6[8].0 == "100001"; DiffersAt(ADDRESS_100000, "100001", 0); }
      else if i == 9 { assert PREFIX6[9].0 == "001101"; DiffersAt(ADDRESS_100000, "001101", 2); }
      else { assert PREFIX6[10].0 == "010000"; DiffersAt(ADDRESS_100000, "010000", 1); }
    }
  }

  lemma Miss4C0000_PREFIX14_A()
    ensures NoRowMatches(PREFIX14_A, ADDRESS_4C0000)
  {
    forall i | 0 <= i < |PREFIX14_A|
      ensures !StartsWith(ADDRESS_4C0000, PREFIX14_A[i].0)
    {
      if i == 0 { assert PREFIX14_A[0].0 == "00001100101000"; DiffersAt(ADDRESS_4C0000, "00001100101000", 1); }
      else if i == 1 { assert PREFIX14_A[1].0 == "01010000000100"; DiffersAt(ADDRESS_4C0000, "01010000000100", 3); }
      else if i == 2 { assert PREFIX14_A[2].0 == "00001010101000"; DiffersAt(ADDRESS_4C0000, "00001010101000", 1); }
      else if i == 3 { assert PREFIX14_A[3].0 == "00001010101100"; DiffersAt(ADDRESS_4C0000, "00001010101100", 1); }
      else if i == 4 { assert PREFIX14_A[4].0 == "00001001010000"; DiffersAt(ADDRESS_4C0000, "00001001010000", 1); }
      else if i == 5 { assert PREFIX14_A[5].0 == "01101000000000"; DiffersAt(ADDRESS_4C0000, "01101000000000", 2); }
      else if i == 6 { assert PREFIX14_A[6].0 == "111010010100"; DiffersAt(ADDRESS_4C0000, "111010010100", 0); }
      else if i == 7 { assert PREFIX14_A[7].0 == "01010001001100"; DiffersAt(ADDRESS_4C0000, "01010001001100", 3); }
      else if i == 8 { assert PREFIX14_A[8].0 == "00000011000000"; DiffersAt(ADDRESS_4C0000, "00000011000000", 1); }
      else if i == 9 { assert PREFIX14_A[9].0 == "10001001010100"; DiffersAt(ADDRESS_4C0000, "10001001010100", 0); }
      else if i == 10 { assert PREFIX14_A[10].0 == "000010011100"; DiffersAt(ADDRESS_4C0000, "000010011100", 1); }
      else { assert PREFIX14_A[11].0 == "000000110010"; DiffersAt(ADDRESS_4C0000, "000000110010", 1); }
    }
  }

  lemma Miss4C0000_PREFIX14_B()
    ensures NoRowMatches(PREFIX14_B, ADDRESS_4C0000)
  {
    forall i | 0 <= i < |PREFIX14_B|
      ensures !StartsWith(ADDRESS_4C0000, PREFIX14_B[i].0)
    {
      if i == 0 { assert PREFIX14_B[0].0 == "011100001110"; DiffersAt(ADDRESS_4C0000, "011100001110", 2); }
      else if i == 1 { assert PREFIX14_B[1].0 == "000000110100"; DiffersAt(ADDRESS_4C0000, "000000110100", 1); }
      else if i == 2 { assert PREFIX14_B[2].0 == "00001001011000"; DiffersAt(ADDRESS_4C0000, "00001001011000", 1); }
      else if i == 3 { assert PREFIX14_B[3].0 == "000001101100"; DiffersAt(ADDRESS_4C0000, "000001101100", 1); }
      else if i == 4 { assert PREFIX14_B[4].0 == "000010000100"; DiffersAt(ADDRESS_4C0000, "000010000100", 1); }
      else if i == 5 { assert PREFIX14_B[5].0 == "111010000000"; DiffersAt(ADDRESS_4C0000, "111010000000", 0); }
      else if i == 6 { assert PREFIX14_B[6].0 == "000010101100"; DiffersAt(ADDRESS_4C0000, "000010101100", 1); }
      else if i == 7 { assert PREFIX14_B[7].0 == "00000011010100"; DiffersAt(ADDRESS_4C0000, "00000011010100", 1); }
      else if i == 8 { assert PREFIX14_B[8].0 == "000000110110"; DiffersAt(ADDRESS_4C0000, "000000110110", 1); }
      else if i == 9 { assert PREFIX14_B[9].0 == "10010000000100"; DiffersAt(ADDRESS_4C0000, "10010000000100", 0); }
      else if i == 10 { assert PREFIX14_B[10].0 == "000010101110"; DiffersAt(ADDRESS_4C0000, "000010101110", 1); }
      else { assert PREFIX14_B[11].0 == "000000111000"; DiffersAt(ADDRESS_4C0000, "000000111000", 1); }
    }
  }

  lemma Miss4C0000_PREFIX14_C()
    ensures NoRowMatches(PREFIX14_C, ADDRESS_4C0000)
  {
    forall i | 0 <= i < |PREFIX14_C|
      ensures !StartsWith(ADDRESS_4C0000, PREFIX14_C[i].0)
    {
      if i == 0 { assert PREFIX14_C[0].0 == "01010000000111"; DiffersAt(ADDRESS_4C0000, "01010000000111", 3); }
      else if i == 1 { assert PREFIX14_C[1].0 == "000010110000"; DiffersAt(ADDRESS_4C0000, "000010110000", 1); }
      else if i == 2 { assert PREFIX14_C[2].0 == "01001100100000"; DiffersAt(ADDRESS_4C0000, "01001100100000", 8); }
      else if i == 3 { assert PREFIX14_C[3].0 == "011100100"; DiffersAt(ADDRESS_4C0000, "011100100", 2); }
      else if i == 4 { assert PREFIX14_C[4].0 == "000010001100"; DiffersAt(ADDRESS_4C0000, "000010001100", 1); }
      else if i == 5 { assert PREFIX14_C[5].0 == "00001001100000"; DiffersAt(ADDRESS_4C0000, "00001001100000", 1); }
      else if i == 6 { assert PREFIX14_C[6].0 == "000011000100"; DiffersAt(ADDRESS_4C0000, "000011000100", 1); }
      else if i == 7 { assert PREFIX14_C[7].0 == "111010000100"; DiffersAt(ADDRESS_4C0000, "111010000100", 0); }
      else if i == 8 { assert PREFIX14_C[8].0 == "000010110010"; DiffersAt(ADDRESS_4C0000, "000010110010", 1); }
      else if i == 9 { assert PREFIX14_C[9].0 == "000001000010"; DiffersAt(ADDRESS_4C0000, "000001000010", 1); }
      else if i == 10 { assert PREFIX14_C[10].0 == "00100000001000"; DiffersAt(ADDRESS_4C0000, "00100000001000", 1); }
      else { assert PREFIX14_C[11].0 == "01010001000100"; DiffersAt(ADDRESS_4C0000, "01010001000100", 3); }
    }
  }

  lemma Miss4C0000_PREFIX14_D()
    ensures NoRowMatches(PREFIX14_D, ADDRESS_4C0000)
  {
    forall i | 0 <= i < |PREFIX14_D|
      ensures !StartsWith(ADDRESS_4C0000, PREFIX14_D[i].0)
    {
      if i == 0 { assert PREFIX14_D[0].0 == "000001000000"; DiffersAt(ADDRESS_4C0000, "000001000000", 1); }
      else if i == 1 { assert PREFIX14_D[1].0 == "110010001000"; DiffersAt(ADDRESS_4C0000, "110010001000", 0); }
      else if i == 2 { assert PREFIX14_D[2].0 == "000000111110"; DiffersAt(ADDRESS_4C0000, "000000111110", 1); }
      else if i == 3 { assert PREFIX14_D[3].0 == "000010011010"; DiffersAt(ADDRESS_4C0000, "000010011010", 1); }
      else if i == 4 { assert PREFIX14_D[4].0 == "01010001010000"; DiffersAt(ADDRESS_4C0000, "01010001010000", 3); }
      else if i == 5 { assert PREFIX14_D[5].0 == "000001000100"; DiffersAt(ADDRESS_4C0000, "000001000100", 1); }
      else if i == 6 { assert PREFIX14_D[6].0 == "00001100110000"; DiffersAt(ADDRESS_4C0000, "00001100110000", 1); }
      else if i == 7 { assert PREFIX14_D[7].0 == "000010110100"; DiffersAt(ADDRESS_4C0000, "000010110100", 1); }
      else if i == 8 { assert PREFIX14_D[8].0 == "000001000110"; DiffersAt(ADDRESS_4C0000, "000001000110", 1); }
      else if i == 9 { assert PREFIX14_D[9].0 == "00000100100000"; DiffersAt(ADDRESS_4C0000, "00000100100000", 1); }
      else { assert PREFIX14_D[10].0 == "000010110110"; DiffersAt(ADDRESS_4C0000, "000010110110", 1); }
    }
  }

  lemma Miss4C0000_PREFIX14_E()
    ensures NoRowMatches(PREFIX14_E, ADDRESS_4C0000)
  {
    forall i | 0 <= i < |PREFIX14_E|
      ensures !StartsWith(ADDRESS_4C0000, PREFIX14_E[i].0)
    {
      if i == 0 { assert PREFIX14_E[0].0 == "000010111000"; DiffersAt(ADDRESS_4C0000, "000010111000", 1); }
      else if i == 1 { assert PREFIX14_E[1].0 == "000010111010"; DiffersAt(ADDRESS_4C0000, "000010111010", 1); }
      else if i == 2 { assert PREFIX14_E[2].0 == "010011001100"; DiffersAt(ADDRESS_4C0000, "010011001100", 8); }
      else if i == 3 { assert PREFIX14_E[3].0 == "011100110"; DiffersAt(ADDRESS_4C0000, "011100110", 2); }
      else if i == 4 { assert PREFIX14_E[4].0 == "011100101"; DiffersAt(ADDRESS_4C0000, "011100101", 2); }
      else if i == 5 { assert PREFIX14_E[5].0 == "010011001010"; DiffersAt(ADDRESS_4C0000, "010011001010", 8); }
      else if i == 6 { assert PREFIX14_E[6].0 == "011100111"; DiffersAt(ADDRESS_4C0000, "011100111", 2); }
      else if i == 7 { assert PREFIX14_E[7].0 == "000010111110"; DiffersAt(ADDRESS_4C0000, "000010111110", 1); }
      else if i == 8 { assert PREFIX14_E[8].0 == "011101000"; DiffersAt(ADDRESS_4C0000, "011101000", 2); }
      else if i == 9 { assert PREFIX14_E[9].0 == "01101000001100"; DiffersAt(ADDRESS_4C0000, "01101000001100", 2); }
      else { assert PREFIX14_E[10].0 == "000001001100"; DiffersAt(ADDRESS_4C0000, "000001001100", 1); }
    }
  }

  lemma Miss4C0000_PREFIX14_F()
    ensures NoRowMatches(PREFIX14_F, ADDRESS_4C0000)
  {
    forall i | 0 <= i < |PREFIX14_F|
      ensures !StartsWith(ADDRESS_4C0000, PREFIX14_F[i].0)
    {
      if i == 0 { assert PREFIX14_F[0].0 == "11001000111000"; DiffersAt(ADDRESS_4C0000, "11001000111000", 0); }
      else if i == 1 { assert PREFIX14_F[1].0 == "011100000110"; DiffersAt(ADDRESS_4C0000, "011100000110", 2); }
      else if i == 2 { assert PREFIX14_F[2].0 == "01100000000100"; DiffersAt(ADDRESS_4C0000, "01100000000100", 2); }
      else if i == 3 { assert PREFIX14_F[3].0 == "011100001000"; DiffersAt(ADDRESS_4C0000, "011100001000", 2); }
      else if i == 4 { assert PREFIX14_F[4].0 == "01010000001011"; DiffersAt(ADDRESS_4C0000, "01010000001011", 3); }
      else if i == 5 { assert PREFIX14_F[5].0 == "011101001"; DiffersAt(ADDRESS_4C0000, "011101001", 2); }
      else if i == 6 { assert PREFIX14_F[6].0 == "00000100101000"; DiffersAt(ADDRESS_4C0000, "00000100101000", 1); }
      else if i == 7 { assert PREFIX14_F[7].0 == "000001010000"; DiffersAt(ADDRESS_4C0000, "000001010000", 1); }
      else if i == 8 { assert PREFIX14_F[8].0 == "01010000001111"; DiffersAt(ADDRESS_4C0000, "01010000001111", 3); }
      else if i == 9 { assert PREFIX14_F[9].0 == "01001101000000"; DiffersAt(ADDRESS_4C0000, "01001101000000", 7); }
      else { assert PREFIX14_F[10].0 == "000001010100"; DiffersAt(ADDRESS_4C0000, "000001010100", 1); }
    }
  }

  lemma Miss4C0000_PREFIX14_G()
    ensures NoRowMatches(PREFIX14_G, ADDRESS_4C0000)
  {
    forall i | 0 <= i < |PREFIX14_G|
      ensures !StartsWith(ADDRESS_4C0000, PREFIX14_G[i].0)
    {
      if i == 0 { assert PREFIX14_G[0].0 == "000001011000"; DiffersAt(ADDRESS_4C0000, "000001011000", 1); }
      else if i == 1 { assert PREFIX14_G[1].0 == "011101010"; DiffersAt(ADDRESS_4C0000, "011101010", 2); }
      else if i == 2 { assert PREFIX14_G[2].0 == "00000101101000"; DiffersAt(ADDRESS_4C0000, "00000101101000", 1); }
      else if i == 3 { assert PREFIX14_G[3].0 == "000001011100"; DiffersAt(ADDRESS_4C0000, "000001011100", 1); }
      else if i == 4 { assert PREFIX14_G[4].0 == "01001101001000"; DiffersAt(ADDRESS_4C0000, "01001101001000", 7); }
      else if i == 5 { assert PREFIX14_G[5].0 == "10010000000000"; DiffersAt(ADDRESS_4C0000, "10010000000000", 0); }
      else if i == 6 { assert PREFIX14_G[6].0 == "00000101111000"; DiffersAt(ADDRESS_4C0000, "00000101111000", 1); }
      else if i == 7 { assert PREFIX14_G[7].0 == "00000110000000"; DiffersAt(ADDRESS_4C0000, "00000110000000", 1); }
      else if i == 8 { assert PREFIX14_G[8].0 == "01101000000100"; DiffersAt(ADDRESS_4C0000, "01101000000100", 2); }
      else if i == 9 { assert PREFIX14_G[9].0 == "01001101010000"; DiffersAt(ADDRESS_4C0000, "01001101010000", 7); }
      else { assert PREFIX14_G[10].0 == "01101000001000"; DiffersAt(ADDRESS_4C0000, "01101000001000", 2); }
    }
  }

  lemma Miss4C0000_PREFIX14_H()
    ensures NoRowMatches(PREFIX14_H, ADDRESS_4C0000)
  {
    forall i | 0 <= i < |PREFIX14_H|
      ensures !StartsWith(ADDRESS_4C0000, PREFIX14_H[i].0)
    {
      if i == 0 { assert PREFIX14_H[0].0 == "000000000110"; DiffersAt(ADDRESS_4C0000, "000000000110", 1); }
      else if i == 1 { assert PREFIX14_H[1].0 == "011100000100"; DiffersAt(ADDRESS_4C0000, "011100000100", 2); }
      else if i == 2 { assert PREFIX14_H[2].0 == "00100000000100"; DiffersAt(ADDRESS_4C0000, "00100000000100", 1); }
      else if i == 3 { assert PREFIX14_H[3].0 == "11001000101000"; DiffersAt(ADDRESS_4C0000, "11001000101000", 0); }
      else if i == 4 { assert PREFIX14_H[4].0 == "011100001010"; DiffersAt(ADDRESS_4C0000, "011100001010", 2); }
      else if i == 5 { assert PREFIX14_H[5].0 == "000011000000"; DiffersAt(ADDRESS_4C0000, "000011000000", 1); }
      else if i == 6 { assert PREFIX14_H[6].0 == "000001100010"; DiffersAt(ADDRESS_4C0000, "000001100010", 1); }
      else if i == 7 { assert PREFIX14_H[7].0 == "000001100100"; DiffersAt(ADDRESS_4C0000, "000001100100", 1); }
      else if i == 8 { assert PREFIX14_H[8].0 == "01110000110000"; DiffersAt(ADDRESS_4C0000, "01110000110000", 2); }
      else if i == 9 { assert PREFIX14_H[9].0 == "011101100"; DiffersAt(ADDRESS_4C0000, "011101100", 2); }
      else { assert PREFIX14_H[10].0 == "01101000010000"; DiffersAt(ADDRESS_4C0000, "01101000010000", 2); }
    }
  }

  lemma Miss4C0000_PREFIX14_I()
    ensures NoRowMatches(PREFIX14_I, ADDRESS_4C0000)
  {
    forall i | 0 <= i < |PREFIX14_I|
      ensures !StartsWith(ADDRESS_4C0000, PREFIX14_I[i].0)
    {
      if i == 0 { assert PREFIX14_I[0].0 == "000011000010"; DiffersAt(ADDRESS_4C0000, "000011000010", 1); }
      else if i == 1 { assert PREFIX14_I[1].0 == "100010011000"; DiffersAt(ADDRESS_4C0000, "100010011000", 0); }
      else if i == 2 { assert PREFIX14_I[2].0 == "111010001000"; DiffersAt(ADDRESS_4C0000, "111010001000", 0); }
      else if i == 3 { assert PREFIX14_I[3].0 == "111010001100"; DiffersAt(ADDRESS_4C0000, "111010001100", 0); }
      else if i == 4 { assert PREFIX14_I[4].0 == "011101011"; DiffersAt(ADDRESS_4C0000, "011101011", 2); }
      else if i == 5 { assert PREFIX14_I[5].0 == "00000110101000"; DiffersAt(ADDRESS_4C0000, "00000110101000", 1); }
      else if i == 6 { assert PREFIX14_I[6].0 == "011100011"; DiffersAt(ADDRESS_4C0000, "011100011", 2); }
      else if i == 7 { assert PREFIX14_I[7].0 == "01010000010011"; DiffersAt(ADDRESS_4C0000, "01010000010011", 3); }
      else if i == 8 { assert PREFIX14_I[8].0 == "000001101110"; DiffersAt(ADDRESS_4C0000, "000001101110", 1); }
      else if i == 9 { assert PREFIX14_I[9].0 == "11001000110000"; DiffersAt(ADDRESS_4C0000, "11001000110000", 0); }
      else { assert PREFIX14_I[10].0 == "00001011110000"; DiffersAt(ADDRESS_4C0000, "00001011110000", 1); }
    }
  }

  lemma Miss4C0000_PREFIX14_J()
    ensures NoRowMatches(PREFIX14_J, ADDRESS_4C0000)
  {
    forall i | 0 <= i < |PREFIX14_J|
      ensures !StartsWith(ADDRESS_4C0000, PREFIX14_J[i].0)
    {
      if i == 0 { assert PREFIX14_J[0].0 == "10010000001000"; DiffersAt(ADDRESS_4C0000, "10010000001000", 0); }
      else if i == 1 { assert PREFIX14_J[1].0 == "01010000000000"; DiffersAt(ADDRESS_4C0000, "01010000000000", 3); }
      else if i == 2 { assert PREFIX14_J[2].0 == "00001001111000"; DiffersAt(ADDRESS_4C0000, "00001001111000", 1); }
      else if i == 3 { assert PREFIX14_J[3].0 == "011100010"; DiffersAt(ADDRESS_4C0000, "011100010", 2); }
      else if i == 4 { assert PREFIX14_J[4].0 == "000001110000"; DiffersAt(ADDRESS_4C0000, "000001110000", 1); }
      else if i == 5 { assert PREFIX14_J[5].0 == "00000111010000"; DiffersAt(ADDRESS_4C0000, "00000111010000", 1); }
      else if i == 6 { assert PREFIX14_J[6].0 == "00000111011000"; DiffersAt(ADDRESS_4C0000, "00000111011000", 1); }
      else if i == 7 { assert PREFIX14_J[7].0 == "011101101"; DiffersAt(ADDRESS_4C0000, "011101101", 2); }
      else if i == 8 { assert PREFIX14_J[8].0 == "01010000010111"; DiffersAt(ADDRESS_4C0000, "01010000010111", 3); }
      else if i == 9 { assert PREFIX14_J[9].0 == "01010000011011"; DiffersAt(ADDRESS_4C0000, "01010000011011", 3); }
      else { assert PREFIX14_J[10].0 == "10001001011100"; DiffersAt(ADDRESS_4C0000, "10001001011100", 0); }
    }
  }

  lemma Miss4C0000_PREFIX14_K()
    ensures NoRowMatches(PREFIX14_K, ADDRESS_4C0000)
  {
    forall i | 0 <= i < |PREFIX14_K|
      ensures !StartsWith(ADDRESS_4C0000, PREFIX14_K[i].0)
    {
      if i == 0 { assert PREFIX14_K[0].0 == "000001111000"; DiffersAt(ADDRESS_4C0000, "000001111000", 1); }
      else if i == 1 { assert PREFIX14_K[1].0 == "011101110"; DiffersAt(ADDRESS_4C0000, "011101110", 2); }
      else if i == 2 { assert PREFIX14_K[2].0 == "000001111100"; DiffersAt(ADDRESS_4C0000, "000001111100", 1); }
      else if i == 3 { assert PREFIX14_K[3].0 == "000011001000"; DiffersAt(ADDRESS_4C0000, "000011001000", 1); }
      else if i == 4 { assert PREFIX14_K[4].0 == "00000111101000"; DiffersAt(ADDRESS_4C0000, "00000111101000", 1); }
      else if i == 5 { assert PREFIX14_K[5].0 == "01010001010100"; DiffersAt(ADDRESS_4C0000, "01010001010100", 3); }
      else if i == 6 { assert PREFIX14_K[6].0 == "01010001001000"; DiffersAt(ADDRESS_4C0000, "01010001001000", 3); }
      else if i == 7 { assert PREFIX14_K[7].0 == "000010001000"; DiffersAt(ADDRESS_4C0000, "000010001000", 1); }
      else if i == 8 { assert PREFIX14_K[8].0 == "11001000110100"; DiffersAt(ADDRESS_4C0000, "11001000110100", 0); }
      else if i == 9 { assert PREFIX14_K[9].0 == "000011000110"; DiffersAt(ADDRESS_4C0000, "000011000110", 1); }
      else { assert PREFIX14_K[10].0 == "01100000000110"; DiffersAt(ADDRESS_4C0000, "01100000000110", 2); }
    }
  }

  lemma Miss4C0000_PREFIX14_L()
    ensures NoRowMatches(PREFIX14_L, ADDRESS_4C0000)
  {
    forall i | 0 <= i < |PREFIX14_L|
      ensures !StartsWith(ADDRESS_4C0000, PREFIX14_L[i].0)
    {
      if i == 0 { assert PREFIX14_L[0].0 == "000001101000"; DiffersAt(ADDRESS_4C0000, "000001101000", 1); }
      else if i == 1 { assert PREFIX14_L[1].0 == "100010010110"; DiffersAt(ADDRESS_4C0000, "100010010110", 0); }
      else if i == 2 { assert PREFIX14_L[2].0 == "000010000000"; DiffersAt(ADDRESS_4C0000, "000010000000", 1); }
      else if i == 3 { assert PREFIX14_L[3].0 == "111010010000"; DiffersAt(ADDRESS_4C0000, "111010010000", 0); }
      else if i == 4 { assert PREFIX14_L[4].0 == "01010000011111"; DiffersAt(ADDRESS_4C0000, "01010000011111", 3); }
      else if i == 5 { assert PREFIX14_L[5].0 == "11001001000000"; DiffersAt(ADDRESS_4C0000, "11001001000000", 0); }
      else if i == 6 { assert PREFIX14_L[6].0 == "100010010000"; DiffersAt(ADDRESS_4C0000, "100010010000", 0); }
      else if i == 7 { assert PREFIX14_L[7].0 == "000010001010"; DiffersAt(ADDRESS_4C0000, "000010001010", 1); }
      else if i == 8 { assert PREFIX14_L[8].0 == "00000000010000"; DiffersAt(ADDRESS_4C0000, "00000000010000", 1); }
      else if i == 9 { assert PREFIX14_L[9].0 == "10001001100100"; DiffersAt(ADDRESS_4C0000, "10001001100100", 0); }
      else { assert PREFIX14_L[10].0 == "11110000100100"; DiffersAt(ADDRESS_4C0000, "11110000100100", 0); }
    }
  }

  lemma Miss4C0000_PREFIX12()
    ensures NoRowMatches(PREFIX12, ADDRESS_4C0000)
  {
    forall i | 0 <= i < |PREFIX12|
      ensures !StartsWith(ADDRESS_4C0000, PREFIX12[i].0)
    {
      if i == 0 { assert PREFIX12[0].0 == "011100000000"; DiffersAt(ADDRESS_4C0000, "011100000000", 2); }
      else if i == 1 { assert PREFIX12[1].0 == "01100000000000"; DiffersAt(ADDRESS_4C0000, "01100000000000", 2); }
      else if i == 2 { assert PREFIX12[2].0 == "01100000000010"; DiffersAt(ADDRESS_4C0000, "01100000000010", 2); }
      else if i == 3 { assert PREFIX12[3].0 == "000010101000"; DiffersAt(ADDRESS_4C0000, "000010101000", 1); }
      else if i == 4 { assert PREFIX12[4].0 == "100010010100"; DiffersAt(ADDRESS_4C0000, "100010010100", 0); }
      else if i == 5 { assert PREFIX12[5].0 == "011100000010"; DiffersAt(ADDRESS_4C0000, "011100000010", 2); }
      else { assert PREFIX12[6].0 == "01010001000000"; DiffersAt(ADDRESS_4C0000, "01010001000000", 3); }
    }
  }

  lemma Miss4C0000_PREFIX9_A()
    ensures NoRowMatches(PREFIX9_A, ADDRESS_4C0000)
  {
    forall i | 0 <= i < |PREFIX9_A|
      ensures !StartsWith(ADDRESS_4C0000, PREFIX9_A[i].0)
    {
      if i == 0 { assert PREFIX9_A[0].0 == "000010100"; DiffersAt(ADDRESS_4C0000, "000010100", 1); }
      else if i == 1 { assert PREFIX9_A[1].0 == "010001000"; DiffersAt(ADDRESS_4C0000, "010001000", 4); }
      else if i == 2 { assert PREFIX9_A[2].0 == "010001001"; DiffersAt(ADDRESS_4C0000, "010001001", 4); }
      else if i == 3 { assert PREFIX9_A[3].0 == "010001010"; DiffersAt(ADDRESS_4C0000, "010001010", 4); }
      else if i == 4 { assert PREFIX9_A[4].0 == "010001011"; DiffersAt(ADDRESS_4C0000, "010001011", 4); }
      else if i == 5 { assert PREFIX9_A[5].0 == "010001100"; DiffersAt(ADDRESS_4C0000, "010001100", 4); }
      else if i == 6 { assert PREFIX9_A[6].0 == "010001101"; DiffersAt(ADDRESS_4C0000, "010001101", 4); }
      else if i == 7 { assert PREFIX9_A[7].0 == "010001110"; DiffersAt(ADDRESS_4C0000, "010001110", 4); }
      else { assert PREFIX9_A[8].0 == "010001111"; DiffersAt(ADDRESS_4C0000, "010001111", 4); }
    }
  }

  lemma Miss4C0000_PREFIX9_B()
    ensures NoRowMatches(PREFIX9_B, ADDRESS_4C0000)
  {
    forall i | 0 <= i < |PREFIX9_B|
      ensures !StartsWith(ADDRESS_4C0000, PREFIX9_B[i].0)
    {
      if i == 0 { assert PREFIX9_B[0].0 == "100010100"; DiffersAt(ADDRESS_4C0000, "100010100", 0); }
      else if i == 1 { assert PREFIX9_B[1].0 == "010010000"; DiffersAt(ADDRESS_4C0000, "010010000", 5); }
      else if i == 2 { assert PREFIX9_B[2].0 == "010010001"; DiffersAt(ADDRESS_4C0000, "010010001", 5); }
      else if i == 3 { assert PREFIX9_B[3].0 == "010010010"; DiffersAt(ADDRESS_4C0000, "010010010", 5); }
      else if i == 4 { assert PREFIX9_B[4].0 == "010010011"; DiffersAt(ADDRESS_4C0000, "010010011", 5); }
      else if i == 5 { assert PREFIX9_B[5].0 == "010010100"; DiffersAt(ADDRESS_4C0000, "010010100", 5); }
      else if i == 6 { assert PREFIX9_B[6].0 == "010010101"; DiffersAt(ADDRESS_4C0000, "010010101", 5); }
      else if i == 7 { assert PREFIX9_B[7].0 == "010010110"; DiffersAt(ADDRESS_4C0000, "010010110", 5); }
      else { assert PREFIX9_B[8].0 == "010010111"; DiffersAt(ADDRESS_4C0000, "010010111", 5); }
    }
  }

  lemma MissF00000_PREFIX14_A()
    ensures NoRowMatches(PREFIX14_A, ADDRESS_F00000)
  {
    forall i | 0 <= i < |PREFIX14_A|
      ensures !StartsWith(ADDRESS_F00000, PREFIX14_A[i].0)
    {
      if i == 0 { assert PREFIX14_A[0].0 == "00001100101000"; DiffersAt(ADDRESS_F00000, "00001100101000", 0); }
      else if i == 1 { assert PREFIX14_A[1].0 == "01010000000100"; DiffersAt(ADDRESS_F00000, "01010000000100", 0); }
      else if i == 2 { assert PREFIX14_A[2].0 == "00001010101000"; DiffersAt(ADDRESS_F00000, "00001010101000", 0); }
      else if i == 3 { assert PREFIX14_A[3].0 == "00001010101100"; DiffersAt(ADDRESS_F00000, "00001010101100", 0); }
      else if i == 4 { assert PREFIX14_A[4].0 == "00001001010000"; DiffersAt(ADDRESS_F00000, "00001001010000", 0); }
      else if i == 5 { assert PREFIX14_A[5].0 == "01101000000000"; DiffersAt(ADDRESS_F00000, "01101000000000", 0); }
      else if i == 6 { assert PREFIX14_A[6].0 == "111010010100"; DiffersAt(ADDRESS_F00000, "111010010100", 3); }
      else if i == 7 { assert PREFIX14_A[7].0 == "01010001001100"; DiffersAt(ADDRESS_F00000, "01010001001100", 0); }
      else if i == 8 { assert PREFIX14_A[8].0 == "00000011000000"; DiffersAt(ADDRESS_F00000, "00000011000000", 0); }
      else if i == 9 { assert PREFIX14_A[9].0 == "10001001010100"; DiffersAt(ADDRESS_F00000, "10001001010100", 1); }
      else if i == 10 { assert PREFIX14_A[10].0 == "000010011100"; DiffersAt(ADDRESS_F00000, "000010011100", 0); }
      else { assert PREFIX14_A[11].0 == "000000110010"; DiffersAt(ADDRESS_F00000, "000000110010", 0); }
    }
  }

  lemma MissF00000_PREFIX14_B()
    ensures NoRowMatches(PREFIX14_B, ADDRESS_F00000)
  {
    forall i | 0 <= i < |PREFIX14_B|
      ensures !StartsWith(ADDRESS_F00000, PREFIX14_B[i].0)
    {
      if i == 0 { assert PREFIX14_B[0].0 == "011100001110"; DiffersAt(ADDRESS_F00000, "011100001110", 0); }
      else if i == 1 { assert PREFIX14_B[1].0 == "000000110100"; DiffersAt(ADDRESS_F00000, "000000110100", 0); }
      else if i == 2 { assert PREFIX14_B[2].0 == "00001001011000"; DiffersAt(ADDRESS_F00000, "00001001011000", 0); }
      else if i == 3 { assert PREFIX14_B[3].0 == "000001101100"; DiffersAt(ADDRESS_F00000, "000001101100", 0); }
      else if i == 4 { assert PREFIX14_B[4].0 == "000010000100"; DiffersAt(ADDRESS_F00000, "000010000100", 0); }
      else if i == 5 { assert PREFIX14_B[5].0 == "111010000000"; DiffersAt(ADDRESS_F00000, "111010000000", 3); }
      else if i == 6 { assert PREFIX14_B[6].0 == "000010101100"; DiffersAt(ADDRESS_F00000, "000010101100", 0); }
      else if i == 7 { assert PREFIX14_B[7].0 == "00000011010100"; DiffersAt(ADDRESS_F00000, "00000011010100", 0); }
      else if i == 8 { assert PREFIX14_B[8].0 == "000000110110"; DiffersAt(ADDRESS_F00000, "000000110110", 0); }
      else if i == 9 { assert PREFIX14_B[9].0 == "10010000000100"; DiffersAt(ADDRESS_F00000, "10010000000100", 1); }
      else if i == 10 { assert PREFIX14_B[10].0 == "000010101110"; DiffersAt(ADDRESS_F00000, "000010101110", 0); }
      else { assert PREFIX14_B[11].0 == "000000111000"; DiffersAt(ADDRESS_F00000, "000000111000", 0); }
    }
  }

  lemma MissF00000_PREFIX14_C()
    ensures NoRowMatches(PREFIX14_C, ADDRESS_F00000)
  {
    forall i | 0 <= i < |PREFIX14_C|
      ensures !StartsWith(ADDRESS_F00000, PREFIX14_C[i].0)
    {
      if i == 0 { assert PREFIX14_C[0].0 == "01010000000111"; DiffersAt(ADDRESS_F00000, "01010000000111", 0); }
      else if i == 1 { assert PREFIX14_C[1].0 == "000010110000"; DiffersAt(ADDRESS_F00000, "000010110000", 0); }
      else if i == 2 { assert PREFIX14_C[2].0 == "01001100100000"; DiffersAt(ADDRESS_F00000, "01001100100000", 0); }
      else if i == 3 { assert PREFIX14_C[3].0 == "011100100"; DiffersAt(ADDRESS_F00000, "011100100", 0); }
      else if i == 4 { assert PREFIX14_C[4].0 == "000010001100"; DiffersAt(ADDRESS_F00000, "000010001100", 0); }
      else if i == 5 { assert PREFIX14_C[5].0 == "00001001100000"; DiffersAt(ADDRESS_F00000, "00001001100000", 0); }
      else if i == 6 { assert PREFIX14_C[6].0 == "000011000100"; DiffersAt(ADDRESS_F00000, "000011000100", 0); }
      else if i == 7 { assert PREFIX14_C[7].0 == "111010000100"; DiffersAt(ADDRESS_F00000, "111010000100", 3); }
      else if i == 8 { assert PREFIX14_C[8].0 == "000010110010"; DiffersAt(ADDRESS_F00000, "000010110010", 0); }
      else if i == 9 { assert PREFIX14_C[9].0 == "000001000010"; DiffersAt(ADDRESS_F00000, "000001000010", 0); }
      else if i == 10 { assert PREFIX14_C[10].0 == "00100000001000"; DiffersAt(ADDRESS_F00000, "00100000001000", 0); }
      else { assert PREFIX14_C[11].0 == "01010001000100"; DiffersAt(ADDRESS_F00000, "01010001000100", 0); }
    }
  }

  lemma MissF00000_PREFIX14_D()
    ensures NoRowMatches(PREFIX14_D, ADDRESS_F00000)
  {
    forall i | 0 <= i < |PREFIX14_D|
      ensures !StartsWith(ADDRESS_F00000, PREFIX14_D[i].0)
    {
      if i == 0 { assert PREFIX14_D[0].0 == "000001000000"; DiffersAt(ADDRESS_F00000, "000001000000", 0); }
      else if i == 1 { assert PREFIX14_D[1].0 == "110010001000"; DiffersAt(ADDRESS_F00000, "110010001000", 2); }
      else if i == 2 { assert PREFIX14_D[2].0 == "000000111110"; DiffersAt(ADDRESS_F00000, "000000111110", 0); }
      else if i == 3 { assert PREFIX14_D[3].0 == "000010011010"; DiffersAt(ADDRESS_F00000, "000010011010", 0); }
      else if i == 4 { assert PREFIX14_D[4].0 == "01010001010000"; DiffersAt(ADDRESS_F00000, "01010001010000", 0); }
      else if i == 5 { assert PREFIX14_D[5].0 == "000001000100"; DiffersAt(ADDRESS_F00000, "000001000100", 0); }
      else if i == 6 { assert PREFIX14_D[6].0 == "00001100110000"; DiffersAt(ADDRESS_F00000, "00001100110000", 0); }
      else if i == 7 { assert PREFIX14_D[7].0 == "000010110100"; DiffersAt(ADDRESS_F00000, "000010110100", 0); }
      else if i == 8 { assert PREFIX14_D[8].0 == "000001000110"; DiffersAt(ADDRESS_F00000, "000001000110", 0); }
      else if i == 9 { assert PREFIX14_D[9].0 == "00000100100000"; DiffersAt(ADDRESS_F00000, "00000100100000", 0); }
      else { assert PREFIX14_D[10].0 == "000010110110"; DiffersAt(ADDRESS_F00000, "000010110110", 0); }
    }
  }

  lemma MissF00000_PREFIX14_E()
    ensures NoRowMatches(PREFIX14_E, ADDRESS_F00000)
  {
    forall i | 0 <= i < |PREFIX14_E|
      ensures !StartsWith(ADDRESS_F00000, PREFIX14_E[i].0)
    {
      if i == 0 { assert PREFIX14_E[0].0 == "000010111000"; DiffersAt(ADDRESS_F00000, "000010111000", 0); }
      else if i == 1 { assert PREFIX14_E[1].0 == "000010111010"; DiffersAt(ADDRESS_F00000, "000010111010", 0); }
      else if i == 2 { assert PREFIX14_E[2].0 == "010011001100"; DiffersAt(ADDRESS_F00000, "010011001100", 0); }
      else if i == 3 { assert PREFIX14_E[3].0 == "011100110"; DiffersAt(ADDRESS_F00000, "011100110", 0); }
      else if i == 4 { assert PREFIX14_E[4].0 == "011100101"; DiffersAt(ADDRESS_F00000, "011100101", 0); }
      else if i == 5 { assert PREFIX14_E[5].0 == "010011001010"; DiffersAt(ADDRESS_F00000, "010011001010", 0); }
      else if i == 6 { assert PREFIX14_E[6].0 == "011100111"; DiffersAt(ADDRESS_F00000, "011100111", 0); }
      else if i == 7 { assert PREFIX14_E[7].0 == "000010111110"; DiffersAt(ADDRESS_F00000, "000010111110", 0); }
      else if i == 8 { assert PREFIX14_E[8].0 == "011101000"; DiffersAt(ADDRESS_F00000, "011101000", 0); }
      else if i == 9 { assert PREFIX14_E[9].0 == "01101000001100"; DiffersAt(ADDRESS_F00000, "01101000001100", 0); }
      else { assert PREFIX14_E[10].0 == "000001001100"; DiffersAt(ADDRESS_F00000, "000001001100", 0); }
    }
  }

  lemma MissF00000_PREFIX14_F()
    ensures NoRowMatches(PREFIX14_F, ADDRESS_F00000)
  {
    forall i | 0 <= i < |PREFIX14_F|
      ensures !StartsWith(ADDRESS_F00000, PREFIX14_F[i].0)
    {
      if i == 0 { assert PREFIX14_F[0].0 == "11001000111000"; DiffersAt(ADDRESS_F00000, "11001000111000", 2); }
      else if i == 1 { assert PREFIX14_F[1].0 == "011100000110"; DiffersAt(ADDRESS_F00000, "011100000110", 0); }
      else if i == 2 { assert PREFIX14_F[2].0 == "01100000000100"; DiffersAt(ADDRESS_F00000, "01100000000100", 0); }
      else if i == 3 { assert PREFIX14_F[3].0 == "011100001000"; DiffersAt(ADDRESS_F00000, "011100001000", 0); }
      else if i == 4 { assert PREFIX14_F[4].0 == "01010000001011"; DiffersAt(ADDRESS_F00000, "01010000001011", 0); }
      else if i == 5 { assert PREFIX14_F[5].0 == "011101001"; DiffersAt(ADDRESS_F00000, "011101001", 0); }
      else if i == 6 { assert PREFIX14_F[6].0 == "00000100101000"; DiffersAt(ADDRESS_F00000, "00000100101000", 0); }
      else if i == 7 { assert PREFIX14_F[7].0 == "000001010000"; DiffersAt(ADDRESS_F00000, "000001010000", 0); }
      else if i == 8 { assert PREFIX14_F[8].0 == "01010000001111"; DiffersAt(ADDRESS_F00000, "01010000001111", 0); }
      else if i == 9 { assert PREFIX14_F[9].0 == "01001101000000"; DiffersAt(ADDRESS_F00000, "01001101000000", 0); }
      else { assert PREFIX14_F[10].0 == "000001010100"; DiffersAt(ADDRESS_F00000, "000001010100", 0); }
    }
  }

  lemma MissF00000_PREFIX14_G()
    ensures NoRowMatches(PREFIX14_G, ADDRESS_F00000)
  {
    forall i | 0 <= i < |PREFIX14_G|
      ensures !StartsWith(ADDRESS_F00000, PREFIX14_G[i].0)
    {
      if i == 0 { assert PREFIX14_G[0].0 == "000001011000"; DiffersAt(ADDRESS_F00000, "000001011000", 0); }
      else if i == 1 { assert PREFIX14_G[1].0 == "011101010"; DiffersAt(ADDRESS_F00000, "011101010", 0); }
      else if i == 2 { assert PREFIX14_G[2].0 == "00000101101000"; DiffersAt(ADDRESS_F00000, "00000101101000", 0); }
      else if i == 3 { assert PREFIX14_G[3].0 == "000001011100"; DiffersAt(ADDRESS_F00000, "000001011100", 0); }
      else if i == 4 { assert PREFIX14_G[4].0 == "01001101001000"; DiffersAt(ADDRESS_F00000, "01001101001000", 0); }
      else if i == 5 { assert PREFIX14_G[5].0 == "10010000000000"; DiffersAt(ADDRESS_F00000, "10010000000000", 1); }
      else if i == 6 { assert PREFIX14_G[6].0 == "00000101111000"; DiffersAt(ADDRESS_F00000, "00000101111000", 0); }
      else if i == 7 { assert PREFIX14_G[7].0 == "00000110000000"; DiffersAt(ADDRESS_F00000, "00000110000000", 0); }
      else if i == 8 { assert PREFIX14_G[8].0 == "01101000000100"; DiffersAt(ADDRESS_F00000, "01101000000100", 0); }
      else if i == 9 { assert PREFIX14_G[9].0 == "01001101010000"; DiffersAt(ADDRESS_F00000, "01001101010000", 0); }
      else { assert PREFIX14_G[10].0 == "01101000001000"; DiffersAt(ADDRESS_F00000, "01101000001000", 0); }
    }
  }

  lemma MissF00000_PREFIX14_H()
    ensures NoRowMatches(PREFIX14_H, ADDRESS_F00000)
  {
    forall i | 0 <= i < |PREFIX14_H|
      ensures !StartsWith(ADDRESS_F00000, PREFIX14_H[i].0)
    {
      if i == 0 { assert PREFIX14_H[0].0 == "000000000110"; DiffersAt(ADDRESS_F00000, "000000000110", 0); }
      else if i == 1 { assert PREFIX14_H[1].0 == "011100000100"; DiffersAt(ADDRESS_F00000, "011100000100", 0); }
      else if i == 2 { assert PREFIX14_H[2].0 == "00100000000100"; DiffersAt(ADDRESS_F00000, "00100000000100", 0); }
      else if i == 3 { assert PREFIX14_H[3].0 == "11001000101000"; DiffersAt(ADDRESS_F00000, "11001000101000", 2); }
      else if i == 4 { assert PREFIX14_H[4].0 == "011100001010"; DiffersAt(ADDRESS_F00000, "011100001010", 0); }
      else if i == 5 { assert PREFIX14_H[5].0 == "000011000000"; DiffersAt(ADDRESS_F00000, "000011000000", 0); }
      else if i == 6 { assert PREFIX14_H[6].0 == "000001100010"; DiffersAt(ADDRESS_F00000, "000001100010", 0); }
      else if i == 7 { assert PREFIX14_H[7].0 == "000001100100"; DiffersAt(ADDRESS_F00000, "000001100100", 0); }
      else if i == 8 { assert PREFIX14_H[8].0 == "01110000110000"; DiffersAt(ADDRESS_F00000, "01110000110000", 0); }
      else if i == 9 { assert PREFIX14_H[9].0 == "011101100"; DiffersAt(ADDRESS_F00000, "011101100", 0); }
      else { assert PREFIX14_H[10].0 == "01101000010000"; DiffersAt(ADDRESS_F00000, "01101000010000", 0); }
    }
  }

  lemma MissF00000_PREFIX14_I()
    ensures NoRowMatches(PREFIX14_I, ADDRESS_F00000)
  {
    forall i | 0 <= i < |PREFIX14_I|
      ensures !StartsWith(ADDRESS_F00000, PREFIX14_I[i].0)
    {
      if i == 0 { assert PREFIX14_I[0].0 == "000011000010"; DiffersAt(ADDRESS_F00000, "000011000010", 0); }
      else if i == 1 { assert PREFIX14_I[1].0 == "100010011000"; DiffersAt(ADDRESS_F00000, "100010011000", 1); }
      else if i == 2 { assert PREFIX14_I[2].0 == "111010001000"; DiffersAt(ADDRESS_F00000, "111010001000", 3); }
      else if i == 3 { assert PREFIX14_I[3].0 == "111010001100"; DiffersAt(ADDRESS_F00000, "111010001100", 3); }
      else if i == 4 { assert PREFIX14_I[4].0 == "011101011"; DiffersAt(ADDRESS_F00000, "011101011", 0); }
      else if i == 5 { assert PREFIX14_I[5].0 == "00000110101000"; DiffersAt(ADDRESS_F00000, "00000110101000", 0); }
      else if i == 6 { assert PREFIX14_I[6].0 == "011100011"; DiffersAt(ADDRESS_F00000, "011100011", 0); }
      else if i == 7 { assert PREFIX14_I[7].0 == "01010000010011"; DiffersAt(ADDRESS_F00000, "01010000010011", 0); }
      else if i == 8 { assert PREFIX14_I[8].0 == "000001101110"; DiffersAt(ADDRESS_F00000, "000001101110", 0); }
      else if i == 9 { assert PREFIX14_I[9].0 == "11001000110000"; DiffersAt(ADDRESS_F00000, "11001000110000", 2); }
      else { assert PREFIX14_I[10].0 == "00001011110000"; DiffersAt(ADDRESS_F00000, "00001011110000", 0); }
    }
  }

  lemma MissF00000_PREFIX14_J()
    ensures NoRowMatches(PREFIX14_J, ADDRESS_F00000)
  {
    forall i | 0 <= i < |PREFIX14_J|
      ensures !StartsWith(ADDRESS_F00000, PREFIX14_J[i].0)
    {
      if i == 0 { assert PREFIX14_J[0].0 == "10010000001000"; DiffersAt(ADDRESS_F00000, "10010000001000", 1); }
      else if i == 1 { assert PREFIX14_J[1].0 == "01010000000000"; DiffersAt(ADDRESS_F00000, "01010000000000", 0); }
      else if i == 2 { assert PREFIX14_J[2].0 == "00001001111000"; DiffersAt(ADDRESS_F00000, "00001001111000", 0); }
      else if i == 3 { assert PREFIX14_J[3].0 == "011100010"; DiffersAt(ADDRESS_F00000, "011100010", 0); }
      else if i == 4 { assert PREFIX14_J[4].0 == "000001110000"; DiffersAt(ADDRESS_F00000, "000001110000", 0); }
      else if i == 5 { assert PREFIX14_J[5].0 == "00000111010000"; DiffersAt(ADDRESS_F00000, "00000111010000", 0); }
      else if i == 6 { assert PREFIX14_J[6].0 == "00000111011000"; DiffersAt(ADDRESS_F00000, "00000111011000", 0); }
      else if i == 7 { assert PREFIX14_J[7].0 == "011101101"; DiffersAt(ADDRESS_F00000, "011101101", 0); }
      else if i == 8 { assert PREFIX14_J[8].0 == "01010000010111"; DiffersAt(ADDRESS_F00000, "01010000010111", 0); }
      else if i == 9 { assert PREFIX14_J[9].0 == "01010000011011"; DiffersAt(ADDRESS_F00000, "01010000011011", 0); }
      else { assert PREFIX14_J[10].0 == "10001001011100"; DiffersAt(ADDRESS_F00000, "10001001011100", 1); }
    }
  }

  lemma MissF00000_PREFIX14_K()
    ensures NoRowMatches(PREFIX14_K, ADDRESS_F00000)
  {
    forall i | 0 <= i < |PREFIX14_K|
      ensures !StartsWith(ADDRESS_F00000, PREFIX14_K[i].0)
    {
      if i == 0 { assert PREFIX14_K[0].0 == "000001111000"; DiffersAt(ADDRESS_F00000, "000001111000", 0); }
      else if i == 1 { assert PREFIX14_K[1].0 == "011101110"; DiffersAt(ADDRESS_F00000, "011101110", 0); }
      else if i == 2 { assert PREFIX14_K[2].0 == "000001111100"; DiffersAt(ADDRESS_F00000, "000001111100", 0); }
      else if i == 3 { assert PREFIX14_K[3].0 == "000011001000"; DiffersAt(ADDRESS_F00000, "000011001000", 0); }
      else if i == 4 { assert PREFIX14_K[4].0 == "00000111101000"; DiffersAt(ADDRESS_F00000, "00000111101000", 0); }
      else if i == 5 { assert PREFIX14_K[5].0 == "01010001010100"; DiffersAt(ADDRESS_F00000, "01010001010100", 0); }
      else if i == 6 { assert PREFIX14_K[6].0 == "01010001001000"; DiffersAt(ADDRESS_F00000, "01010001001000", 0); }
      else if i == 7 { assert PREFIX14_K[7].0 == "000010001000"; DiffersAt(ADDRESS_F00000, "000010001000", 0); }
      else if i == 8 { assert PREFIX14_K[8].0 == "11001000110100"; DiffersAt(ADDRESS_F00000, "11001000110100", 2); }
      else if i == 9 { assert PREFIX14_K[9].0 == "000011000110"; DiffersAt(ADDRESS_F00000, "000011000110", 0); }
      else { assert PREFIX14_K[10].0 == "01100000000110"; DiffersAt(ADDRESS_F00000, "01100000000110", 0); }
    }
  }

  lemma MissF00000_PREFIX14_L()
    ensures NoRowMatches(PREFIX14_L, ADDRESS_F00000)
  {
    forall i | 0 <= i < |PREFIX14_L|
      ensures !StartsWith(ADDRESS_F00000, PREFIX14_L[i].0)
    {
      if i == 0 { assert PREFIX14_L[0].0 == "000001101000"; DiffersAt(ADDRESS_F00000, "000001101000", 0); }
      else if i == 1 { assert PREFIX14_L[1].0 == "100010010110"; DiffersAt(ADDRESS_F00000, "100010010110", 1); }
      else if i == 2 { assert PREFIX14_L[2].0 == "000010000000"; DiffersAt(ADDRESS_F00000, "000010000000", 0); }
      else if i == 3 { assert PREFIX14_L[3].0 == "111010010000"; DiffersAt(ADDRESS_F00000, "111010010000", 3); }
      else if i == 4 { assert PREFIX14_L[4].0 == "01010000011111"; DiffersAt(ADDRESS_F00000, "01010000011111", 0); }
      else if i == 5 { assert PREFIX14_L[5].0 == "11001001000000"; DiffersAt(ADDRESS_F00000, "11001001000000", 2); }
      else if i == 6 { assert PREFIX14_L[6].0 == "100010010000"; DiffersAt(ADDRESS_F00000, "100010010000", 1); }
      else if i == 7 { assert PREFIX14_L[7].0 == "000010001010"; DiffersAt(ADDRESS_F00000, "000010001010", 0); }
      else if i == 8 { assert PREFIX14_L[8].0 == "00000000010000"; DiffersAt(ADDRESS_F00000, "00000000010000", 0); }
      else if i == 9 { assert PREFIX14_L[9].0 == "10001001100100"; DiffersAt(ADDRESS_F00000, "10001001100100", 1); }
      else { assert PREFIX14_L[10].0 == "11110000100100"; DiffersAt(ADDRESS_F00000, "11110000100100", 8); }
    }
  }

  lemma MissF00000_PREFIX12()
    ensures NoRowMatches(PREFIX12, ADDRESS_F00000)
  {
    forall i | 0 <= i < |PREFIX12|
      ensures !StartsWith(ADDRESS_F00000, PREFIX12[i].0)
    {
      if i == 0 { assert PREFIX12[0].0 == "011100000000"; DiffersAt(ADDRESS_F00000, "011100000000", 0); }
      else if i == 1 { assert PREFIX12[1].0 == "01100000000000"; DiffersAt(ADDRESS_F00000, "01100000000000", 0); }
      else if i == 2 { assert PREFIX12[2].0 == "01100000000010"; DiffersAt(ADDRESS_F00000, "01100000000010", 0); }
      else if i == 3 { assert PREFIX12[3].0 == "000010101000"; DiffersAt(ADDRESS_F00000, "000010101000", 0); }
      else if i == 4 { assert PREFIX12[4].0 == "100010010100"; DiffersAt(ADDRESS_F00000, "100010010100", 1); }
      else if i == 5 { assert PREFIX12[5].0 == "011100000010"; DiffersAt(ADDRESS_F00000, "011100000010", 0); }
      else { assert PREFIX12[6].0 == "01010001000000"; DiffersAt(ADDRESS_F00000, "01010001000000", 0); }
    }
  }

  lemma MissF00000_PREFIX9_A()
    ensures NoRowMatches(PREFIX9_A, ADDRESS_F00000)
  {
    forall i | 0 <= i < |PREFIX9_A|
      ensures !StartsWith(ADDRESS_F00000, PREFIX9_A[i].0)
    {
      if i == 0 { assert PREFIX9_A[0].0 == "000010100"; DiffersAt(ADDRESS_F00000, "000010100", 0); }
      else if i == 1 { assert PREFIX9_A[1].0 == "010001000"; DiffersAt(ADDRESS_F00000, "010001000", 0); }
      else if i == 2 { assert PREFIX9_A[2].0 == "010001001"; DiffersAt(ADDRESS_F00000, "010001001", 0); }
      else if i == 3 { assert PREFIX9_A[3].0 == "010001010"; DiffersAt(ADDRESS_F00000, "010001010", 0); }
      else if i == 4 { assert PREFIX9_A[4].0 == "010001011"; DiffersAt(ADDRESS_F00000, "010001011", 0); }
      else if i == 5 { assert PREFIX9_A[5].0 == "010001100"; DiffersAt(ADDRESS_F00000, "010001100", 0); }
      else if i == 6 { assert PREFIX9_A[6].0 == "010001101"; DiffersAt(ADDRESS_F00000, "010001101", 0); }
      else if i == 7 { assert PREFIX9_A[7].0 == "010001110"; DiffersAt(ADDRESS_F00000, "010001110", 0); }
      else { assert PREFIX9_A[8].0 == "010001111"; DiffersAt(ADDRESS_F00000, "010001111", 0); }
    }
  }

  lemma MissF00000_PREFIX9_B()
    ensures NoRowMatches(PREFIX9_B, ADDRESS_F00000)
  {
    forall i | 0 <= i < |PREFIX9_B|
      ensures !StartsWith(ADDRESS_F00000, PREFIX9_B[i].0)
    {
      if i == 0 { assert PREFIX9_B[0].0 == "100010100"; DiffersAt(ADDRESS_F00000, "100010100", 1); }
      else if i == 1 { assert PREFIX9_B[1].0 == "010010000"; DiffersAt(ADDRESS_F00000, "010010000", 0); }
      else if i == 2 { assert PREFIX9_B[2].0 == "010010001"; DiffersAt(ADDRESS_F00000, "010010001", 0); }
      else if i == 3 { assert PREFIX9_B[3].0 == "010010010"; DiffersAt(ADDRESS_F00000, "010010010", 0); }
      else if i == 4 { assert PREFIX9_B[4].0 == "010010011"; DiffersAt(ADDRESS_F00000, "010010011", 0); }
      else if i == 5 { assert PREFIX9_B[5].0 == "010010100"; DiffersAt(ADDRESS_F00000, "010010100", 0); }
      else if i == 6 { assert PREFIX9_B[6].0 == "010010101"; DiffersAt(ADDRESS_F00000, "010010101", 0); }
      else if i == 7 { assert PREFIX9_B[7].0 == "010010110"; DiffersAt(ADDRESS_F00000, "010010110", 0); }
      else { assert PREFIX9_B[8].0 == "010010111"; DiffersAt(ADDRESS_F00000, "010010111", 0); }
    }
  }

  lemma MissC00001_PREFIX14_A()
    ensures NoRowMatches(PREFIX14_A, ADDRESS_C00001)
  {
    forall i | 0 <= i < |PREFIX14_A|
      ensures !StartsWith(ADDRESS_C00001, PREFIX14_A[i].0)
    {
      if i == 0 { assert PREFIX14_A[0].0 == "00001100101000"; DiffersAt(ADDRESS_C00001, "00001100101000", 0); }
      else if i == 1 { assert PREFIX14_A[1].0 == "01010000000100"; DiffersAt(ADDRESS_C00001, "01010000000100", 0); }
      else if i == 2 { assert PREFIX14_A[2].0 == "00001010101000"; DiffersAt(ADDRESS_C00001, "00001010101000", 0); }
      else if i == 3 { assert PREFIX14_A[3].0 == "00001010101100"; DiffersAt(ADDRESS_C00001, "00001010101100", 0); }
      else if i == 4 { assert PREFIX14_A[4].0 == "00001001010000"; DiffersAt(ADDRESS_C00001, "00001001010000", 0); }
      else if i == 5 { assert PREFIX14_A[5].0 == "01101000000000"; DiffersAt(ADDRESS_C00001, "01101000000000", 0); }
      else if i == 6 { assert PREFIX14_A[6].0 == "111010010100"; DiffersAt(ADDRESS_C00001, "111010010100", 2); }
      else if i == 7 { assert PREFIX14_A[7].0 == "01010001001100"; DiffersAt(ADDRESS_C00001, "01010001001100", 0); }
      else if i == 8 { assert PREFIX14_A[8].0 == "00000011000000"; DiffersAt(ADDRESS_C00001, "00000011000000", 0); }
      else if i == 9 { assert PREFIX14_A[9].0 == "10001001010100"; DiffersAt(ADDRESS_C00001, "10001001010100", 1); }
      else if i == 10 { assert PREFIX14_A[10].0 == "000010011100"; DiffersAt(ADDRESS_C00001, "000010011100", 0); }
      else { assert PREFIX14_A[11].0 == "000000110010"; DiffersAt(ADDRESS_C00001, "000000110010", 0); }
    }
  }

  lemma MissC00001_PREFIX14_B()
    ensures NoRowMatches(PREFIX14_B, ADDRESS_C00001)
  {
    forall i | 0 <= i < |PREFIX14_B|
      ensures !StartsWith(ADDRESS_C00001, PREFIX14_B[i].0)
    {
      if i == 0 { assert PREFIX14_B[0].0 == "011100001110"; DiffersAt(ADDRESS_C00001, "011100001110", 0); }
      else if i == 1 { assert PREFIX14_B[1].0 == "000000110100"; DiffersAt(ADDRESS_C00001, "000000110100", 0); }
      else if i == 2 { assert PREFIX14_B[2].0 == "00001001011000"; DiffersAt(ADDRESS_C00001, "00001001011000", 0); }
      else if i == 3 { assert PREFIX14_B[3].0 == "000001101100"; DiffersAt(ADDRESS_C00001, "000001101100", 0); }
      else if i == 4 { assert PREFIX14_B[4].0 == "000010000100"; DiffersAt(ADDRESS_C00001, "000010000100", 0); }
      else if i == 5 { assert PREFIX14_B[5].0 == "111010000000"; DiffersAt(ADDRESS_C00001, "111010000000", 2); }
      else if i == 6 { assert PREFIX14_B[6].0 == "000010101100"; DiffersAt(ADDRESS_C00001, "000010101100", 0); }
      else if i == 7 { assert PREFIX14_B[7].0 == "00000011010100"; DiffersAt(ADDRESS_C00001, "00000011010100", 0); }
      else if i == 8 { assert PREFIX14_B[8].0 == "000000110110"; DiffersAt(ADDRESS_C00001, "000000110110", 0); }
      else if i == 9 { assert PREFIX14_B[9].0 == "10010000000100"; DiffersAt(ADDRESS_C00001, "10010000000100", 1); }
      else if i == 10 { assert PREFIX14_B[10].0 == "000010101110"; DiffersAt(ADDRESS_C00001, "000010101110", 0); }
      else { assert PREFIX14_B[11].0 == "000000111000"; DiffersAt(ADDRESS_C00001, "000000111000", 0); }
    }
  }

  lemma MissC00001_PREFIX14_C()
    ensures NoRowMatches(PREFIX14_C, ADDRESS_C00001)
  {
    forall i | 0 <= i < |PREFIX14_C|
      ensures !StartsWith(ADDRESS_C00001, PREFIX14_C[i].0)
    {
      if i == 0 { assert PREFIX14_C[0].0 == "01010000000111"; DiffersAt(ADDRESS_C00001, "01010000000111", 0); }
      else if i == 1 { assert PREFIX14_C[1].0 == "000010110000"; DiffersAt(ADDRESS_C00001, "000010110000", 0); }
      else if i == 2 { assert PREFIX14_C[2].0 == "01001100100000"; DiffersAt(ADDRESS_C00001, "01001100100000", 0); }
      else if i == 3 { assert PREFIX14_C[3].0 == "011100100"; DiffersAt(ADDRESS_C00001, "011100100", 0); }
      else if i == 4 { assert PREFIX14_C[4].0 == "000010001100"; DiffersAt(ADDRESS_C00001, "000010001100", 0); }
      else if i == 5 { assert PREFIX14_C[5].0 == "00001001100000"; DiffersAt(ADDRESS_C00001, "00001001100000", 0); }
      else if i == 6 { assert PREFIX14_C[6].0 == "000011000100"; DiffersAt(ADDRESS_C00001, "000011000100", 0); }
      else if i == 7 { assert PREFIX14_C[7].0 == "111010000100"; DiffersAt(ADDRESS_C00001, "111010000100", 2); }
      else if i == 8 { assert PREFIX14_C[8].0 == "000010110010"; DiffersAt(ADDRESS_C00001, "000010110010", 0); }
      else if i == 9 { assert PREFIX14_C[9].0 == "000001000010"; DiffersAt(ADDRESS_C00001, "000001000010", 0); }
      else if i == 10 { assert PREFIX14_C[10].0 == "00100000001000"; DiffersAt(ADDRESS_C00001, "00100000001000", 0); }
      else { assert PREFIX14_C[11].0 == "01010001000100"; DiffersAt(ADDRESS_C00001, "01010001000100", 0); }
    }
  }

  lemma MissC00001_PREFIX14_D()
    ensures NoRowMatches(PREFIX14_D, ADDRESS_C00001)
  {
    forall i | 0 <= i < |PREFIX14_D|
      ensures !StartsWith(ADDRESS_C00001, PREFIX14_D[i].0)
    {
      if i == 0 { assert PREFIX14_D[0].0 == "000001000000"; DiffersAt(ADDRESS_C00001, "000001000000", 0); }
      else if i == 1 { assert PREFIX14_D[1].0 == "110010001000"; DiffersAt(ADDRESS_C00001, "110010001000", 4); }
      else if i == 2 { assert PREFIX14_D[2].0 == "000000111110"; DiffersAt(ADDRESS_C00001, "000000111110", 0); }
      else if i == 3 { assert PREFIX14_D[3].0 == "000010011010"; DiffersAt(ADDRESS_C00001, "000010011010", 0); }
      else if i == 4 { assert PREFIX14_D[4].0 == "01010001010000"; DiffersAt(ADDRESS_C00001, "01010001010000", 0); }
      else if i == 5 { assert PREFIX14_D[5].0 == "000001000100"; DiffersAt(ADDRESS_C00001, "000001000100", 0); }
      else if i == 6 { assert PREFIX14_D[6].0 == "00001100110000"; DiffersAt(ADDRESS_C00001, "00001100110000", 0); }
      else if i == 7 { assert PREFIX14_D[7].0 == "000010110100"; DiffersAt(ADDRESS_C00001, "000010110100", 0); }
      else if i == 8 { assert PREFIX14_D[8].0 == "000001000110"; DiffersAt(ADDRESS_C00001, "000001000110", 0); }
      else if i == 9 { assert PREFIX14_D[9].0 == "00000100100000"; DiffersAt(ADDRESS_C00001, "00000100100000", 0); }
      else { assert PREFIX14_D[10].0 == "000010110110"; DiffersAt(ADDRESS_C00001, "000010110110", 0); }
    }
  }

  lemma MissC00001_PREFIX14_E()
    ensures NoRowMatches(PREFIX14_E, ADDRESS_C00001)
  {
    forall i | 0 <= i < |PREFIX14_E|
      ensures !StartsWith(ADDRESS_C00001, PREFIX14_E[i].0)
    {
      if i == 0 { assert PREFIX14_E[0].0 == "000010111000"; DiffersAt(ADDRESS_C00001, "000010111000", 0); }
      else if i == 1 { assert PREFIX14_E[1].0 == "000010111010"; DiffersAt(ADDRESS_C00001, "000010111010", 0); }
      else if i == 2 { assert PREFIX14_E[2].0 == "010011001100"; DiffersAt(ADDRESS_C00001, "010011001100", 0); }
      else if i == 3 { assert PREFIX14_E[3].0 == "011100110"; DiffersAt(ADDRESS_C00001, "011100110", 0); }
      else if i == 4 { assert PREFIX14_E[4].0 == "011100101"; DiffersAt(ADDRESS_C00001, "011100101", 0); }
      else if i == 5 { assert PREFIX14_E[5].0 == "010011001010"; DiffersAt(ADDRESS_C00001, "010011001010", 0); }
      else if i == 6 { assert PREFIX14_E[6].0 == "011100111"; DiffersAt(ADDRESS_C00001, "011100111", 0); }
      else if i == 7 { assert PREFIX14_E[7].0 == "000010111110"; DiffersAt(ADDRESS_C00001, "000010111110", 0); }
      else if i == 8 { assert PREFIX14_E[8].0 == "011101000"; DiffersAt(ADDRESS_C00001, "011101000", 0); }
      else if i == 9 { assert PREFIX14_E[9].0 == "01101000001100"; DiffersAt(ADDRESS_C00001, "01101000001100", 0); }
      else { assert PREFIX14_E[10].0 == "000001001100"; DiffersAt(ADDRESS_C00001, "000001001100", 0); }
    }
  }

  lemma MissC00001_PREFIX14_F()
    ensures NoRowMatches(PREFIX14_F, ADDRESS_C00001)
  {
    forall i | 0 <= i < |PREFIX14_F|
      ensures !StartsWith(ADDRESS_C00001, PREFIX14_F[i].0)
    {
      if i == 0 { assert PREFIX14_F[0].0 == "11001000111000"; DiffersAt(ADDRESS_C00001, "11001000111000", 4); }
      else if i == 1 { assert PREFIX14_F[1].0 == "011100000110"; DiffersAt(ADDRESS_C00001, "011100000110", 0); }
      else if i == 2 { assert PREFIX14_F[2].0 == "01100000000100"; DiffersAt(ADDRESS_C00001, "01100000000100", 0); }
      else if i == 3 { assert PREFIX14_F[3].0 == "011100001000"; DiffersAt(ADDRESS_C00001, "011100001000", 0); }
      else if i == 4 { assert PREFIX14_F[4].0 == "01010000001011"; DiffersAt(ADDRESS_C00001, "01010000001011", 0); }
      else if i == 5 { assert PREFIX14_F[5].0 == "011101001"; DiffersAt(ADDRESS_C00001, "011101001", 0); }
      else if i == 6 { assert PREFIX14_F[6].0 == "00000100101000"; DiffersAt(ADDRESS_C00001, "00000100101000", 0); }
      else if i == 7 { assert PREFIX14_F[7].0 == "000001010000"; DiffersAt(ADDRESS_C00001, "000001010000", 0); }
      else if i == 8 { assert PREFIX14_F[8].0 == "01010000001111"; DiffersAt(ADDRESS_C00001, "01010000001111", 0); }
      else if i == 9 { assert PREFIX14_F[9].0 == "01001101000000"; DiffersAt(ADDRESS_C00001, "01001101000000", 0); }
      else { assert PREFIX14_F[10].0 == "000001010100"; DiffersAt(ADDRESS_C00001, "000001010100", 0); }
    }
  }

  lemma MissC00001_PREFIX14_G()
    ensures NoRowMatches(PREFIX14_G, ADDRESS_C00001)
  {
    forall i | 0 <= i < |PREFIX14_G|
      ensures !StartsWith(ADDRESS_C00001, PREFIX14_G[i].0)
    {
      if i == 0 { assert PREFIX14_G[0].0 == "000001011000"; DiffersAt(ADDRESS_C00001, "000001011000", 0); }
      else if i == 1 { assert PREFIX14_G[1].0 == "011101010"; DiffersAt(ADDRESS_C00001, "011101010", 0); }
      else if i == 2 { assert PREFIX14_G[2].0 == "00000101101000"; DiffersAt(ADDRESS_C00001, "00000101101000", 0); }
      else if i == 3 { assert PREFIX14_G[3].0 == "000001011100"; DiffersAt(ADDRESS_C00001, "000001011100", 0); }
      else if i == 4 { assert PREFIX14_G[4].0 == "01001101001000"; DiffersAt(ADDRESS_C00001, "01001101001000", 0); }
      else if i == 5 { assert PREFIX14_G[5].0 == "10010000000000"; DiffersAt(ADDRESS_C00001, "10010000000000", 1); }
      else if i == 6 { assert PREFIX14_G[6].0 == "00000101111000"; DiffersAt(ADDRESS_C00001, "00000101111000", 0); }
      else if i == 7 { assert PREFIX14_G[7].0 == "00000110000000"; DiffersAt(ADDRESS_C00001, "00000110000000", 0); }
      else if i == 8 { assert PREFIX14_G[8].0 == "01101000000100"; DiffersAt(ADDRESS_C00001, "01101000000100", 0); }
      else if i == 9 { assert PREFIX14_G[9].0 == "01001101010000"; DiffersAt(ADDRESS_C00001, "01001101010000", 0); }
      else { assert PREFIX14_G[10].0 == "01101000001000"; DiffersAt(ADDRESS_C00001, "01101000001000", 0); }
    }
  }

  lemma MissC00001_PREFIX14_H()
    ensures NoRowMatches(PREFIX14_H, ADDRESS_C00001)
  {
    forall i | 0 <= i < |PREFIX14_H|
      ensures !StartsWith(ADDRESS_C00001, PREFIX14_H[i].0)
    {
      if i == 0 { assert PREFIX14_H[0].0 == "000000000110"; DiffersAt(ADDRESS_C00001, "000000000110", 0); }
      else if i == 1 { assert PREFIX14_H[1].0 == "011100000100"; DiffersAt(ADDRESS_C00001, "011100000100", 0); }
      else if i == 2 { assert PREFIX14_H[2].0 == "00100000000100"; DiffersAt(ADDRESS_C00001, "00100000000100", 0); }
      else if i == 3 { assert PREFIX14_H[3].0 == "11001000101000"; DiffersAt(ADDRESS_C00001, "11001000101000", 4); }
      else if i == 4 { assert PREFIX14_H[4].0 == "011100001010"; DiffersAt(ADDRESS_C00001, "011100001010", 0); }
      else if i == 5 { assert PREFIX14_H[5].0 == "000011000000"; DiffersAt(ADDRESS_C00001, "000011000000", 0); }
      else if i == 6 { assert PREFIX14_H[6].0 == "000001100010"; DiffersAt(ADDRESS_C00001, "000001100010", 0); }
      else if i == 7 { assert PREFIX14_H[7].0 == "000001100100"; DiffersAt(ADDRESS_C00001, "000001100100", 0); }
      else if i == 8 { assert PREFIX14_H[8].0 == "01110000110000"; DiffersAt(ADDRESS_C00001, "01110000110000", 0); }
      else if i == 9 { assert PREFIX14_H[9].0 == "011101100"; DiffersAt(ADDRESS_C00001, "011101100", 0); }
      else { assert PREFIX14_H[10].0 == "01101000010000"; DiffersAt(ADDRESS_C00001, "01101000010000", 0); }
    }
  }

  lemma MissC00001_PREFIX14_I()
    ensures NoRowMatches(PREFIX14_I, ADDRESS_C00001)
  {
    forall i | 0 <= i < |PREFIX14_I|
      ensures !StartsWith(ADDRESS_C00001, PREFIX14_I[i].0)
    {
      if i == 0 { assert PREFIX14_I[0].0 == "000011000010"; DiffersAt(ADDRESS_C00001, "000011000010", 0); }
      else if i == 1 { assert PREFIX14_I[1].0 == "100010011000"; DiffersAt(ADDRESS_C00001, "100010011000", 1); }
      else if i == 2 { assert PREFIX14_I[2].0 == "111010001000"; DiffersAt(ADDRESS_C00001, "111010001000", 2); }
      else if i == 3 { assert PREFIX14_I[3].0 == "111010001100"; DiffersAt(ADDRESS_C00001, "111010001100", 2); }
      else if i == 4 { assert PREFIX14_I[4].0 == "011101011"; DiffersAt(ADDRESS_C00001, "011101011", 0); }
      else if i == 5 { assert PREFIX14_I[5].0 == "00000110101000"; DiffersAt(ADDRESS_C00001, "00000110101000", 0); }
      else if i == 6 { assert PREFIX14_I[6].0 == "011100011"; DiffersAt(ADDRESS_C00001, "011100011", 0); }
      else if i == 7 { assert PREFIX14_I[7].0 == "01010000010011"; DiffersAt(ADDRESS_C00001, "01010000010011", 0); }
      else if i == 8 { assert PREFIX14_I[8].0 == "000001101110"; DiffersAt(ADDRESS_C00001, "000001101110", 0); }
      else if i == 9 { assert PREFIX14_I[9].0 == "11001000110000"; DiffersAt(ADDRESS_C00001, "11001000110000", 4); }
      else { assert PREFIX14_I[10].0 == "00001011110000"; DiffersAt(ADDRESS_C00001, "00001011110000", 0); }
    }
  }

  lemma MissC00001_PREFIX14_J()
    ensures NoRowMatches(PREFIX14_J, ADDRESS_C00001)
  {
    forall i | 0 <= i < |PREFIX14_J|
      ensures !StartsWith(ADDRESS_C00001, PREFIX14_J[i].0)
    {
      if i == 0 { assert PREFIX14_J[0].0 == "10010000001000"; DiffersAt(ADDRESS_C00001, "10010000001000", 1); }
      else if i == 1 { assert PREFIX14_J[1].0 == "01010000000000"; DiffersAt(ADDRESS_C00001, "01010000000000", 0); }
      else if i == 2 { assert PREFIX14_J[2].0 == "00001001111000"; DiffersAt(ADDRESS_C00001, "00001001111000", 0); }
      else if i == 3 { assert PREFIX14_J[3].0 == "011100010"; DiffersAt(ADDRESS_C00001, "011100010", 0); }
      else if i == 4 { assert PREFIX14_J[4].0 == "000001110000"; DiffersAt(ADDRESS_C00001, "000001110000", 0); }
      else if i == 5 { assert PREFIX14_J[5].0 == "00000111010000"; DiffersAt(ADDRESS_C00001, "00000111010000", 0); }
      else if i == 6 { assert PREFIX14_J[6].0 == "00000111011000"; DiffersAt(ADDRESS_C00001, "00000111011000", 0); }
      else if i == 7 { assert PREFIX14_J[7].0 == "011101101"; DiffersAt(ADDRESS_C00001, "011101101", 0); }
      else if i == 8 { assert PREFIX14_J[8].0 == "01010000010111"; DiffersAt(ADDRESS_C00001, "01010000010111", 0); }
      else if i == 9 { assert PREFIX14_J[9].0 == "01010000011011"; DiffersAt(ADDRESS_C00001, "01010000011011", 0); }
      else { assert PREFIX14_J[10].0 == "10001001011100"; DiffersAt(ADDRESS_C00001, "10001001011100", 1); }
    }
  }

  lemma MissC00001_PREFIX14_K()
    ensures NoRowMatches(PREFIX14_K, ADDRESS_C00001)
  {
    forall i | 0 <= i < |PREFIX14_K|
      ensures !StartsWith(ADDRESS_C00001, PREFIX14_K[i].0)
    {
      if i == 0 { assert PREFIX14_K[0].0 == "000001111000"; DiffersAt(ADDRESS_C00001, "000001111000", 0); }
      else if i == 1 { assert PREFIX14_K[1].0 == "011101110"; DiffersAt(ADDRESS_C00001, "011101110", 0); }
      else if i == 2 { assert PREFIX14_K[2].0 == "000001111100"; DiffersAt(ADDRESS_C00001, "000001111100", 0); }
      else if i == 3 { assert PREFIX14_K[3].0 == "000011001000"; DiffersAt(ADDRESS_C00001, "000011001000", 0); }
      else if i == 4 { assert PREFIX14_K[4].0 == "00000111101000"; DiffersAt(ADDRESS_C00001, "00000111101000", 0); }
      else if i == 5 { assert PREFIX14_K[5].0 == "01010001010100"; DiffersAt(ADDRESS_C00001, "01010001010100", 0); }
      else if i == 6 { assert PREFIX14_K[6].0 == "01010001001000"; DiffersAt(ADDRESS_C00001, "01010001001000", 0); }
      else if i == 7 { assert PREFIX14_K[7].0 == "000010001000"; DiffersAt(ADDRESS_C00001, "000010001000", 0); }
      else if i == 8 { assert PREFIX14_K[8].0 == "11001000110100"; DiffersAt(ADDRESS_C00001, "11001000110100", 4); }
      else if i == 9 { assert PREFIX14_K[9].0 == "000011000110"; DiffersAt(ADDRESS_C00001, "000011000110", 0); }
      else { assert PREFIX14_K[10].0 == "01100000000110"; DiffersAt(ADDRESS_C00001, "01100000000110", 0); }
    }
  }

  lemma MissC00001_PREFIX14_L()
    ensures NoRowMatches(PREFIX14_L, ADDRESS_C00001)
  {
    forall i | 0 <= i < |PREFIX14_L|
      ensures !StartsWith(ADDRESS_C00001, PREFIX14_L[i].0)
    {
      if i == 0 { assert PREFIX14_L[0].0 == "000001101000"; DiffersAt(ADDRESS_C00001, "000001101000", 0); }
      else if i == 1 { assert PREFIX14_L[1].0 == "100010010110"; DiffersAt(ADDRESS_C00001, "100010010110", 1); }
      else if i == 2 { assert PREFIX14_L[2].0 == "000010000000"; DiffersAt(ADDRESS_C00001, "000010000000", 0); }
      else if i == 3 { assert PREFIX14_L[3].0 == "111010010000"; DiffersAt(ADDRESS_C00001, "111010010000", 2); }
      else if i == 4 { assert PREFIX14_L[4].0 == "01010000011111"; DiffersAt(ADDRESS_C00001, "01010000011111", 0); }
      else if i == 5 { assert PREFIX14_L[5].0 == "11001001000000"; DiffersAt(ADDRESS_C00001, "11001001000000", 4); }
      else if i == 6 { assert PREFIX14_L[6].0 == "100010010000"; DiffersAt(ADDRESS_C00001, "100010010000", 1); }
      else if i == 7 { assert PREFIX14_L[7].0 == "000010001010"; DiffersAt(ADDRESS_C00001, "000010001010", 0); }
      else if i == 8 { assert PREFIX14_L[8].0 == "00000000010000"; DiffersAt(ADDRESS_C00001, "00000000010000", 0); }
      else if i == 9 { assert PREFIX14_L[9].0 == "10001001100100"; DiffersAt(ADDRESS_C00001, "10001001100100", 1); }
      else { assert PREFIX14_L[10].0 == "11110000100100"; DiffersAt(ADDRESS_C00001, "11110000100100", 2); }
    }
  }

  lemma MissC00001_PREFIX12()
    ensures NoRowMatches(PREFIX12, ADDRESS_C00001)
  {
    forall i | 0 <= i < |PREFIX12|
      ensures !StartsWith(ADDRESS_C00001, PREFIX12[i].0)
    {
      if i == 0 { assert PREFIX12[0].0 == "011100000000"; DiffersAt(ADDRESS_C00001, "011100000000", 0); }
      else if i == 1 { assert PREFIX12[1].0 == "01100000000000"; DiffersAt(ADDRESS_C00001, "01100000000000", 0); }
      else if i == 2 { assert PREFIX12[2].0 == "01100000000010"; DiffersAt(ADDRESS_C00001, "01100000000010", 0); }
      else if i == 3 { assert PREFIX12[3].0 == "000010101000"; DiffersAt(ADDRESS_C00001, "000010101000", 0); }
      else if i == 4 { assert PREFIX12[4].0 == "100010010100"; DiffersAt(ADDRESS_C00001, "100010010100", 1); }
      else if i == 5 { assert PREFIX12[5].0 == "011100000010"; DiffersAt(ADDRESS_C00001, "011100000010", 0); }
      else { assert PREFIX12[6].0 == "01010001000000"; DiffersAt(ADDRESS_C00001, "01010001000000", 0); }
    }
  }

  lemma MissC00001_PREFIX9_A()
    ensures NoRowMatches(PREFIX9_A, ADDRESS_C00001)
  {
    forall i | 0 <= i < |PREFIX9_A|
      ensures !StartsWith(ADDRESS_C00001, PREFIX9_A[i].0)
    {
      if i == 0 { assert PREFIX9_A[0].0 == "000010100"; DiffersAt(ADDRESS_C00001, "000010100", 0); }
      else if i == 1 { assert PREFIX9_A[1].0 == "010001000"; DiffersAt(ADDRESS_C00001, "010001000", 0); }
      else if i == 2 { assert PREFIX9_A[2].0 == "010001001"; DiffersAt(ADDRESS_C00001, "010001001", 0); }
      else if i == 3 { assert PREFIX9_A[3].0 == "010001010"; DiffersAt(ADDRESS_C00001, "010001010", 0); }
      else if i == 4 { assert PREFIX9_A[4].0 == "010001011"; DiffersAt(ADDRESS_C00001, "010001011", 0); }
      else if i == 5 { assert PREFIX9_A[5].0 == "010001100"; DiffersAt(ADDRESS_C00001, "010001100", 0); }
      else if i == 6 { assert PREFIX9_A[6].0 == "010001101"; DiffersAt(ADDRESS_C00001, "010001101", 0); }
      else if i == 7 { assert PREFIX9_A[7].0 == "010001110"; DiffersAt(ADDRESS_C00001, "010001110", 0); }
      else { assert PREFIX9_A[8].0 == "010001111"; DiffersAt(ADDRESS_C00001, "010001111", 0); }
    }
  }

  lemma MissC00001_PREFIX9_B()
    ensures NoRowMatches(PREFIX9_B, ADDRESS_C00001)
  {
    forall i | 0 <= i < |PREFIX9_B|
      ensures !StartsWith(ADDRESS_C00001, PREFIX9_B[i].0)
    {
      if i == 0 { assert PREFIX9_B[0].0 == "100010100"; DiffersAt(ADDRESS_C00001, "100010100", 1); }
      else if i == 1 { assert PREFIX9_B[1].0 == "010010000"; DiffersAt(ADDRESS_C00001, "010010000", 0); }
      else if i == 2 { assert PREFIX9_B[2].0 == "010010001"; DiffersAt(ADDRESS_C00001, "010010001", 0); }
      else if i == 3 { assert PREFIX9_B[3].0 == "010010010"; DiffersAt(ADDRESS_C00001, "010010010", 0); }
      else if i == 4 { assert PREFIX9_B[4].0 == "010010011"; DiffersAt(ADDRESS_C00001, "010010011", 0); }
      else if i == 5 { assert PREFIX9_B[5].0 == "010010100"; DiffersAt(ADDRESS_C00001, "010010100", 0); }
      else if i == 6 { assert PREFIX9_B[6].0 == "010010101"; DiffersAt(ADDRESS_C00001, "010010101", 0); }
      else if i == 7 { assert PREFIX9_B[7].0 == "010010110"; DiffersAt(ADDRESS_C00001, "010010110", 0); }
      else { assert PREFIX9_B[8].0 == "010010111"; DiffersAt(ADDRESS_C00001, "010010111", 0); }
    }
  }

  lemma MissC00001_PREFIX9_C()
    ensures NoRowMatches(PREFIX9_C, ADDRESS_C00001)
  {
    forall i | 0 <= i < |PREFIX9_C|
      ensures !StartsWith(ADDRESS_C00001, PREFIX9_C[i].0)
    {
      if i == 0 { assert PREFIX9_C[0].0 == "110010000"; DiffersAt(ADDRESS_C00001, "110010000", 4); }
      else if i == 1 { assert PREFIX9_C[1].0 == "010100001"; DiffersAt(ADDRESS_C00001, "010100001", 0); }
      else if i == 2 { assert PREFIX9_C[2].0 == "000011010"; DiffersAt(ADDRESS_C00001, "000011010", 0); }
      else if i == 3 { assert PREFIX9_C[3].0 == "000011011"; DiffersAt(ADDRESS_C00001, "000011011", 0); }
      else if i == 4 { assert PREFIX9_C[4].0 == "100010000"; DiffersAt(ADDRESS_C00001, "100010000", 1); }
      else if i == 5 { assert PREFIX9_C[5].0 == "100010001"; DiffersAt(ADDRESS_C00001, "100010001", 1); }
      else if i == 6 { assert PREFIX9_C[6].0 == "010011000"; DiffersAt(ADDRESS_C00001, "010011000", 0); }
      else { assert PREFIX9_C[7].0 == "111100000"; DiffersAt(ADDRESS_C00001, "111100000", 2); }
    }
  }

  lemma Miss400000_PREFIX14_A()
    ensures NoRowMatches(PREFIX14_A, ADDRESS_400000)
  {
    forall i | 0 <= i < |PREFIX14_A|
      ensures !StartsWith(ADDRESS_400000, PREFIX14_A[i].0)
    {
      if i == 0 { assert PREFIX14_A[0].0 == "00001100101000"; DiffersAt(ADDRESS_400000, "00001100101000", 1); }
      else if i == 1 { assert PREFIX14_A[1].0 == "01010000000100"; DiffersAt(ADDRESS_400000, "01010000000100", 3); }
      else if i == 2 { assert PREFIX14_A[2].0 == "00001010101000"; DiffersAt(ADDRESS_400000, "00001010101000", 1); }
      else if i == 3 { assert PREFIX14_A[3].0 == "00001010101100"; DiffersAt(ADDRESS_400000, "00001010101100", 1); }
      else if i == 4 { assert PREFIX14_A[4].0 == "00001001010000"; DiffersAt(ADDRESS_400000, "00001001010000", 1); }
      else if i == 5 { assert PREFIX14_A[5].0 == "01101000000000"; DiffersAt(ADDRESS_400000, "01101000000000", 2); }
      else if i == 6 { assert PREFIX14_A[6].0 == "111010010100"; DiffersAt(ADDRESS_400000, "111010010100", 0); }
      else if i == 7 { assert PREFIX14_A[7].0 == "01010001001100"; DiffersAt(ADDRESS_400000, "01010001001100", 3); }
      else if i == 8 { assert PREFIX14_A[8].0 == "00000011000000"; DiffersAt(ADDRESS_400000, "00000011000000", 1); }
      else if i == 9 { assert PREFIX14_A[9].0 == "10001001010100"; DiffersAt(ADDRESS_400000, "10001001010100", 0); }
      else if i == 10 { assert PREFIX14_A[10].0 == "000010011100"; DiffersAt(ADDRESS_400000, "000010011100", 1); }
      else { assert PREFIX14_A[11].0 == "000000110010"; DiffersAt(ADDRESS_400000, "000000110010", 1); }
    }
  }

  lemma Miss400000_PREFIX14_B()
    ensures NoRowMatches(PREFIX14_B, ADDRESS_400000)
  {
    forall i | 0 <= i < |PREFIX14_B|
      ensures !StartsWith(ADDRESS_400000, PREFIX14_B[i].0)
    {
      if i == 0 { assert PREFIX14_B[0].0 == "011100001110"; DiffersAt(ADDRESS_400000, "011100001110", 2); }
      else if i == 1 { assert PREFIX14_B[1].0 == "000000110100"; DiffersAt(ADDRESS_400000, "000000110100", 1); }
      else if i == 2 { assert PREFIX14_B[2].0 == "00001001011000"; DiffersAt(ADDRESS_400000, "00001001011000", 1); }
      else if i == 3 { assert PREFIX14_B[3].0 == "000001101100"; DiffersAt(ADDRESS_400000, "000001101100", 1); }
      else if i == 4 { assert PREFIX14_B[4].0 == "000010000100"; DiffersAt(ADDRESS_400000, "000010000100", 1); }
      else if i == 5 { assert PREFIX14_B[5].0 == "111010000000"; DiffersAt(ADDRESS_400000, "111010000000", 0); }
      else if i == 6 { assert PREFIX14_B[6].0 == "000010101100"; DiffersAt(ADDRESS_400000, "000010101100", 1); }
      else if i == 7 { assert PREFIX14_B[7].0 == "00000011010100"; DiffersAt(ADDRESS_400000, "00000011010100", 1); }
      else if i == 8 { assert PREFIX14_B[8].0 == "000000110110"; DiffersAt(ADDRESS_400000, "000000110110", 1); }
      else if i == 9 { assert PREFIX14_B[9].0 == "10010000000100"; DiffersAt(ADDRESS_400000, "10010000000100", 0); }
      else if i == 10 { assert PREFIX14_B[10].0 == "000010101110"; DiffersAt(ADDRESS_400000, "000010101110", 1); }
      else { assert PREFIX14_B[11].0 == "000000111000"; DiffersAt(ADDRESS_400000, "000000111000", 1); }
    }
  }

  lemma Miss400000_PREFIX14_C()
    ensures NoRowMatches(PREFIX14_C, ADDRESS_400000)
  {
    forall i | 0 <= i < |PREFIX14_C|
      ensures !StartsWith(ADDRESS_400000, PREFIX14_C[i].0)
    {
      if i == 0 { assert PREFIX14_C[0].0 == "01010000000111"; DiffersAt(ADDRESS_400000, "01010000000111", 3); }
      else if i == 1 { assert PREFIX14_C[1].0 == "000010110000"; DiffersAt(ADDRESS_400000, "000010110000", 1); }
      else if i == 2 { assert PREFIX14_C[2].0 == "01001100100000"; DiffersAt(ADDRESS_400000, "01001100100000", 4); }
      else if i == 3 { assert PREFIX14_C[3].0 == "011100100"; DiffersAt(ADDRESS_400000, "011100100", 2); }
      else if i == 4 { assert PREFIX14_C[4].0 == "000010001100"; DiffersAt(ADDRESS_400000, "000010001100", 1); }
      else if i == 5 { assert PREFIX14_C[5].0 == "00001001100000"; DiffersAt(ADDRESS_400000, "00001001100000", 1); }
      else if i == 6 { assert PREFIX14_C[6].0 == "000011000100"; DiffersAt(ADDRESS_400000, "000011000100", 1); }
      else if i == 7 { assert PREFIX14_C[7].0 == "111010000100"; DiffersAt(ADDRESS_400000, "111010000100", 0); }
      else if i == 8 { assert PREFIX14_C[8].0 == "000010110010"; DiffersAt(ADDRESS_400000, "000010110010", 1); }
      else if i == 9 { assert PREFIX14_C[9].0 == "000001000010"; DiffersAt(ADDRESS_400000, "000001000010", 1); }
      else if i == 10 { assert PREFIX14_C[10].0 == "00100000001000"; DiffersAt(ADDRESS_400000, "00100000001000", 1); }
      else { assert PREFIX14_C[11].0 == "01010001000100"; DiffersAt(ADDRESS_400000, "01010001000100", 3); }
    }
  }

  lemma Miss400000_PREFIX14_D()
    ensures NoRowMatches(PREFIX14_D, ADDRESS_400000)
  {
    forall i | 0 <= i < |PREFIX14_D|
      ensures !StartsWith(ADDRESS_400000, PREFIX14_D[i].0)
    {
      if i == 0 { assert PREFIX14_D[0].0 == "000001000000"; DiffersAt(ADDRESS_400000, "000001000000", 1); }
      else if i == 1 { assert PREFIX14_D[1].0 == "110010001000"; DiffersAt(ADDRESS_400000, "110010001000", 0); }
      else if i == 2 { assert PREFIX14_D[2].0 == "000000111110"; DiffersAt(ADDRESS_400000, "000000111110", 1); }
      else if i == 3 { assert PREFIX14_D[3].0 == "000010011010"; DiffersAt(ADDRESS_400000, "000010011010", 1); }
      else if i == 4 { assert PREFIX14_D[4].0 == "01010001010000"; DiffersAt(ADDRESS_400000, "01010001010000", 3); }
      else if i == 5 { assert PREFIX14_D[5].0 == "000001000100"; DiffersAt(ADDRESS_400000, "000001000100", 1); }
      else if i == 6 { assert PREFIX14_D[6].0 == "00001100110000"; DiffersAt(ADDRESS_400000, "00001100110000", 1); }
      else if i == 7 { assert PREFIX14_D[7].0 == "000010110100"; DiffersAt(ADDRESS_400000, "000010110100", 1); }
      else if i == 8 { assert PREFIX14_D[8].0 == "000001000110"; DiffersAt(ADDRESS_400000, "000001000110", 1); }
      else if i == 9 { assert PREFIX14_D[9].0 == "00000100100000"; DiffersAt(ADDRESS_400000, "00000100100000", 1); }
      else { assert PREFIX14_D[10].0 == "000010110110"; DiffersAt(ADDRESS_400000, "000010110110", 1); }
    }
  }

  lemma Miss400000_PREFIX14_E()
    ensures NoRowMatches(PREFIX14_E, ADDRESS_400000)
  {
    forall i | 0 <= i < |PREFIX14_E|
      ensures !StartsWith(ADDRESS_400000, PREFIX14_E[i].0)
    {
      if i == 0 { assert PREFIX14_E[0].0 == "000010111000"; DiffersAt(ADDRESS_400000, "000010111000", 1); }
      else if i == 1 { assert PREFIX14_E[1].0 == "000010111010"; DiffersAt(ADDRESS_400000, "000010111010", 1); }
      else if i == 2 { assert PREFIX14_E[2].0 == "010011001100"; DiffersAt(ADDRESS_400000, "010011001100", 4); }
      else if i == 3 { assert PREFIX14_E[3].0 == "011100110"; DiffersAt(ADDRESS_400000, "011100110", 2); }
      else if i == 4 { assert PREFIX14_E[4].0 == "011100101"; DiffersAt(ADDRESS_400000, "011100101", 2); }
      else if i == 5 { assert PREFIX14_E[5].0 == "010011001010"; DiffersAt(ADDRESS_400000, "010011001010", 4); }
      else if i == 6 { assert PREFIX14_E[6].0 == "011100111"; DiffersAt(ADDRESS_400000, "011100111", 2); }
      else if i == 7 { assert PREFIX14_E[7].0 == "000010111110"; DiffersAt(ADDRESS_400000, "000010111110", 1); }
      else if i == 8 { assert PREFIX14_E[8].0 == "011101000"; DiffersAt(ADDRESS_400000, "011101000", 2); }
      else if i == 9 { assert PREFIX14_E[9].0 == "01101000001100"; DiffersAt(ADDRESS_400000, "01101000001100", 2); }
      else { assert PREFIX14_E[10].0 == "000001001100"; DiffersAt(ADDRESS_400000, "000001001100", 1); }
    }
  }

  lemma Miss400000_PREFIX14_F()
    ensures NoRowMatches(PREFIX14_F, ADDRESS_400000)
  {
    forall i | 0 <= i < |PREFIX14_F|
      ensures !StartsWith(ADDRESS_400000, PREFIX14_F[i].0)
    {
      if i == 0 { assert PREFIX14_F[0].0 == "11001000111000"; DiffersAt(ADDRESS_400000, "11001000111000", 0); }
      else if i == 1 { assert PREFIX14_F[1].0 == "011100000110"; DiffersAt(ADDRESS_400000, "011100000110", 2); }
      else if i == 2 { assert PREFIX14_F[2].0 == "01100000000100"; DiffersAt(ADDRESS_400000, "01100000000100", 2); }
      else if i == 3 { assert PREFIX14_F[3].0 == "011100001000"; DiffersAt(ADDRESS_400000, "011100001000", 2); }
      else if i == 4 { assert PREFIX14_F[4].0 == "01010000001011"; DiffersAt(ADDRESS_400000, "01010000001011", 3); }
      else if i == 5 { assert PREFIX14_F[5].0 == "011101001"; DiffersAt(ADDRESS_400000, "011101001", 2); }
      else if i == 6 { assert PREFIX14_F[6].0 == "00000100101000"; DiffersAt(ADDRESS_400000, "00000100101000", 1); }
      else if i == 7 { assert PREFIX14_F[7].0 == "000001010000"; DiffersAt(ADDRESS_400000, "000001010000", 1); }
      else if i == 8 { assert PREFIX14_F[8].0 == "01010000001111"; DiffersAt(ADDRESS_400000, "01010000001111", 3); }
      else if i == 9 { assert PREFIX14_F[9].0 == "01001101000000"; DiffersAt(ADDRESS_400000, "01001101000000", 4); }
      else { assert PREFIX14_F[10].0 == "000001010100"; DiffersAt(ADDRESS_400000, "000001010100", 1); }
    }
  }

  lemma Miss400000_PREFIX14_G()
    ensures NoRowMatches(PREFIX14_G, ADDRESS_400000)
  {
    forall i | 0 <= i < |PREFIX14_G|
      ensures !StartsWith(ADDRESS_400000, PREFIX14_G[i].0)
    {
      if i == 0 { assert PREFIX14_G[0].0 == "000001011000"; DiffersAt(ADDRESS_400000, "000001011000", 1); }
      else if i == 1 { assert PREFIX14_G[1].0 == "011101010"; DiffersAt(ADDRESS_400000, "011101010", 2); }
      else if i == 2 { assert PREFIX14_G[2].0 == "00000101101000"; DiffersAt(ADDRESS_400000, "00000101101000", 1); }
      else if i == 3 { assert PREFIX14_G[3].0 == "000001011100"; DiffersAt(ADDRESS_400000, "000001011100", 1); }
      else if i == 4 { assert PREFIX14_G[4].0 == "01001101001000"; DiffersAt(ADDRESS_400000, "01001101001000", 4); }
      else if i == 5 { assert PREFIX14_G[5].0 == "10010000000000"; DiffersAt(ADDRESS_400000, "10010000000000", 0); }
      else if i == 6 { assert PREFIX14_G[6].0 == "00000101111000"; DiffersAt(ADDRESS_400000, "00000101111000", 1); }
      else if i == 7 { assert PREFIX14_G[7].0 == "00000110000000"; DiffersAt(ADDRESS_400000, "00000110000000", 1); }
      else if i == 8 { assert PREFIX14_G[8].0 == "01101000000100"; DiffersAt(ADDRESS_400000, "01101000000100", 2); }
      else if i == 9 { assert PREFIX14_G[9].0 == "01001101010000"; DiffersAt(ADDRESS_400000, "01001101010000", 4); }
      else { assert PREFIX14_G[10].0 == "01101000001000"; DiffersAt(ADDRESS_400000, "01101000001000", 2); }
    }
  }

  lemma Miss400000_PREFIX14_H()
    ensures NoRowMatches(PREFIX14_H, ADDRESS_400000)
  {
    forall i | 0 <= i < |PREFIX14_H|
      ensures !StartsWith(ADDRESS_400000, PREFIX14_H[i].0)
    {
      if i == 0 { assert PREFIX14_H[0].0 == "000000000110"; DiffersAt(ADDRESS_400000, "000000000110", 1); }
      else if i == 1 { assert PREFIX14_H[1].0 == "011100000100"; DiffersAt(ADDRESS_400000, "011100000100", 2); }
      else if i == 2 { assert PREFIX14_H[2].0 == "00100000000100"; DiffersAt(ADDRESS_400000, "00100000000100", 1); }
      else if i == 3 { assert PREFIX14_H[3].0 == "11001000101000"; DiffersAt(ADDRESS_400000, "11001000101000", 0); }
      else if i == 4 { assert PREFIX14_H[4].0 == "011100001010"; DiffersAt(ADDRESS_400000, "011100001010", 2); }
      else if i == 5 { assert PREFIX14_H[5].0 == "000011000000"; DiffersAt(ADDRESS_400000, "000011000000", 1); }
      else if i == 6 { assert PREFIX14_H[6].0 == "000001100010"; DiffersAt(ADDRESS_400000, "000001100010", 1); }
      else if i == 7 { assert PREFIX14_H[7].0 == "000001100100"; DiffersAt(ADDRESS_400000, "000001100100", 1); }
      else if i == 8 { assert PREFIX14_H[8].0 == "01110000110000"; DiffersAt(ADDRESS_400000, "01110000110000", 2); }
      else if i == 9 { assert PREFIX14_H[9].0 == "011101100"; DiffersAt(ADDRESS_400000, "011101100", 2); }
      else { assert PREFIX14_H[10].0 == "01101000010000"; DiffersAt(ADDRESS_400000, "01101000010000", 2); }
    }
  }

  lemma Miss400000_PREFIX14_I()
    ensures NoRowMatches(PREFIX14_I, ADDRESS_400000)
  {
    forall i | 0 <= i < |PREFIX14_I|
      ensures !StartsWith(ADDRESS_400000, PREFIX14_I[i].0)
    {
      if i == 0 { assert PREFIX14_I[0].0 == "000011000010"; DiffersAt(ADDRESS_400000, "000011000010", 1); }
      else if i == 1 { assert PREFIX14_I[1].0 == "100010011000"; DiffersAt(ADDRESS_400000, "100010011000", 0); }
      else if i == 2 { assert PREFIX14_I[2].0 == "111010001000"; DiffersAt(ADDRESS_400000, "111010001000", 0); }
      else if i == 3 { assert PREFIX14_I[3].0 == "111010001100"; DiffersAt(ADDRESS_400000, "111010001100", 0); }
      else if i == 4 { assert PREFIX14_I[4].0 == "011101011"; DiffersAt(ADDRESS_400000, "011101011", 2); }
      else if i == 5 { assert PREFIX14_I[5].0 == "00000110101000"; DiffersAt(ADDRESS_400000, "00000110101000", 1); }
      else if i == 6 { assert PREFIX14_I[6].0 == "011100011"; DiffersAt(ADDRESS_400000, "011100011", 2); }
      else if i == 7 { assert PREFIX14_I[7].0 == "01010000010011"; DiffersAt(ADDRESS_400000, "01010000010011", 3); }
      else if i == 8 { assert PREFIX14_I[8].0 == "000001101110"; DiffersAt(ADDRESS_400000, "000001101110", 1); }
      else if i == 9 { assert PREFIX14_I[9].0 == "11001000110000"; DiffersAt(ADDRESS_400000, "11001000110000", 0); }
      else { assert PREFIX14_I[10].0 == "00001011110000"; DiffersAt(ADDRESS_400000, "00001011110000", 1); }
    }
  }

  lemma Miss400000_PREFIX14_J()
    ensures NoRowMatches(PREFIX14_J, ADDRESS_400000)
  {
    forall i | 0 <= i < |PREFIX14_J|
      ensures !StartsWith(ADDRESS_400000, PREFIX14_J[i].0)
    {
      if i == 0 { assert PREFIX14_J[0].0 == "10010000001000"; DiffersAt(ADDRESS_400000, "10010000001000", 0); }
      else if i == 1 { assert PREFIX14_J[1].0 == "01010000000000"; DiffersAt(ADDRESS_400000, "01010000000000", 3); }
      else if i == 2 { assert PREFIX14_J[2].0 == "00001001111000"; DiffersAt(ADDRESS_400000, "00001001111000", 1); }
      else if i == 3 { assert PREFIX14_J[3].0 == "011100010"; DiffersAt(ADDRESS_400000, "011100010", 2); }
      else if i == 4 { assert PREFIX14_J[4].0 == "000001110000"; DiffersAt(ADDRESS_400000, "000001110000", 1); }
      else if i == 5 { assert PREFIX14_J[5].0 == "00000111010000"; DiffersAt(ADDRESS_400000, "00000111010000", 1); }
      else if i == 6 { assert PREFIX14_J[6].0 == "00000111011000"; DiffersAt(ADDRESS_400000, "00000111011000", 1); }
      else if i == 7 { assert PREFIX14_J[7].0 == "011101101"; DiffersAt(ADDRESS_400000, "011101101", 2); }
      else if i == 8 { assert PREFIX14_J[8].0 == "01010000010111"; DiffersAt(ADDRESS_400000, "01010000010111", 3); }
      else if i == 9 { assert PREFIX14_J[9].0 == "01010000011011"; DiffersAt(ADDRESS_400000, "01010000011011", 3); }
      else { assert PREFIX14_J[10].0 == "10001001011100"; DiffersAt(ADDRESS_400000, "10001001011100", 0); }
    }
  }

  lemma Miss400000_PREFIX14_K()
    ensures NoRowMatches(PREFIX14_K, ADDRESS_400000)
  {
    forall i | 0 <= i < |PREFIX14_K|
      ensures !StartsWith(ADDRESS_400000, PREFIX14_K[i].0)
    {
      if i == 0 { assert PREFIX14_K[0].0 == "000001111000"; DiffersAt(ADDRESS_400000, "000001111000", 1); }
      else if i == 1 { assert PREFIX14_K[1].0 == "011101110"; DiffersAt(ADDRESS_400000, "011101110", 2); }
      else if i == 2 { assert PREFIX14_K[2].0 == "000001111100"; DiffersAt(ADDRESS_400000, "000001111100", 1); }
      else if i == 3 { assert PREFIX14_K[3].0 == "000011001000"; DiffersAt(ADDRESS_400000, "000011001000", 1); }
      else if i == 4 { assert PREFIX14_K[4].0 == "00000111101000"; DiffersAt(ADDRESS_400000, "00000111101000", 1); }
      else if i == 5 { assert PREFIX14_K[5].0 == "01010001010100"; DiffersAt(ADDRESS_400000, "01010001010100", 3); }
      else if i == 6 { assert PREFIX14_K[6].0 == "01010001001000"; DiffersAt(ADDRESS_400000, "01010001001000", 3); }
      else if i == 7 { assert PREFIX14_K[7].0 == "000010001000"; DiffersAt(ADDRESS_400000, "000010001000", 1); }
      else if i == 8 { assert PREFIX14_K[8].0 == "11001000110100"; DiffersAt(ADDRESS_400000, "11001000110100", 0); }
      else if i == 9 { assert PREFIX14_K[9].0 == "000011000110"; DiffersAt(ADDRESS_400000, "000011000110", 1); }
      else { assert PREFIX14_K[10].0 == "01100000000110"; DiffersAt(ADDRESS_400000, "01100000000110", 2); }
    }
  }

  lemma Miss400000_PREFIX14_L()
    ensures NoRowMatches(PREFIX14_L, ADDRESS_400000)
  {
    forall i | 0 <= i < |PREFIX14_L|
      ensures !StartsWith(ADDRESS_400000, PREFIX14_L[i].0)
    {
      if i == 0 { assert PREFIX14_L[0].0 == "000001101000"; DiffersAt(ADDRESS_400000, "000001101000", 1); }
      else if i == 1 { assert PREFIX14_L[1].0 == "100010010110"; DiffersAt(ADDRESS_400000, "100010010110", 0); }
      else if i == 2 { assert PREFIX14_L[2].0 == "000010000000"; DiffersAt(ADDRESS_400000, "000010000000", 1); }
      else if i == 3 { assert PREFIX14_L[3].0 == "111010010000"; DiffersAt(ADDRESS_400000, "111010010000", 0); }
      else if i == 4 { assert PREFIX14_L[4].0 == "01010000011111"; DiffersAt(ADDRESS_400000, "01010000011111", 3); }
      else if i == 5 { assert PREFIX14_L[5].0 == "11001001000000"; DiffersAt(ADDRESS_400000, "11001001000000", 0); }
      else if i == 6 { assert PREFIX14_L[6].0 == "100010010000"; DiffersAt(ADDRESS_400000, "100010010000", 0); }
      else if i == 7 { assert PREFIX14_L[7].0 == "000010001010"; DiffersAt(ADDRESS_400000, "000010001010", 1); }
      else if i == 8 { assert PREFIX14_L[8].0 == "00000000010000"; DiffersAt(ADDRESS_400000, "00000000010000", 1); }
      else if i == 9 { assert PREFIX14_L[9].0 == "10001001100100"; DiffersAt(ADDRESS_400000, "10001001100100", 0); }
      else { assert PREFIX14_L[10].0 == "11110000100100"; DiffersAt(ADDRESS_400000, "11110000100100", 0); }
    }
  }

  lemma Miss400000_PREFIX12()
    ensures NoRowMatches(PREFIX12, ADDRESS_400000)
  {
    forall i | 0 <= i < |PREFIX12|
      ensures !StartsWith(ADDRESS_400000, PREFIX12[i].0)
    {
      if i == 0 { assert PREFIX12[0].0 == "011100000000"; DiffersAt(ADDRESS_400000, "011100000000", 2); }
      else if i == 1 { assert PREFIX12[1].0 == "01100000000000"; DiffersAt(ADDRESS_400000, "01100000000000", 2); }
      else if i == 2 { assert PREFIX12[2].0 == "01100000000010"; DiffersAt(ADDRESS_400000, "01100000000010", 2); }
      else if i == 3 { assert PREFIX12[3].0 == "000010101000"; DiffersAt(ADDRESS_400000, "000010101000", 1); }
      else if i == 4 { assert PREFIX12[4].0 == "100010010100"; DiffersAt(ADDRESS_400000, "100010010100", 0); }
      else if i == 5 { assert PREFIX12[5].0 == "011100000010"; DiffersAt(ADDRESS_400000, "011100000010", 2); }
      else { assert PREFIX12[6].0 == "01010001000000"; DiffersAt(ADDRESS_400000, "01010001000000", 3); }
    }
  }

  lemma Miss400000_PREFIX9_A()
    ensures NoRowMatches(PREFIX9_A, ADDRESS_400000)
  {
    forall i | 0 <= i < |PREFIX9_A|
      ensures !StartsWith(ADDRESS_400000, PREFIX9_A[i].0)
    {
      if i == 0 { assert PREFIX9_A[0].0 == "000010100"; DiffersAt(ADDRESS_400000, "000010100", 1); }
      else if i == 1 { assert PREFIX9_A[1].0 == "010001000"; DiffersAt(ADDRESS_400000, "010001000", 5); }
      else if i == 2 { assert PREFIX9_A[2].0 == "010001001"; DiffersAt(ADDRESS_400000, "010001001", 5); }
      else if i == 3 { assert PREFIX9_A[3].0 == "010001010"; DiffersAt(ADDRESS_400000, "010001010", 5); }
      else if i == 4 { assert PREFIX9_A[4].0 == "010001011"; DiffersAt(ADDRESS_400000, "010001011", 5); }
      else if i == 5 { assert PREFIX9_A[5].0 == "010001100"; DiffersAt(ADDRESS_400000, "010001100", 5); }
      else if i == 6 { assert PREFIX9_A[6].0 == "010001101"; DiffersAt(ADDRESS_400000, "010001101", 5); }
      else if i == 7 { assert PREFIX9_A[7].0 == "010001110"; DiffersAt(ADDRESS_400000, "010001110", 5); }
      else { assert PREFIX9_A[8].0 == "010001111"; DiffersAt(ADDRESS_400000, "010001111", 5); }
    }
  }

  lemma Miss400000_PREFIX9_B()
    ensures NoRowMatches(PREFIX9_B, ADDRESS_400000)
  {
    forall i | 0 <= i < |PREFIX9_B|
      ensures !StartsWith(ADDRESS_400000, PREFIX9_B[i].0)
    {
      if i == 0 { assert PREFIX9_B[0].0 == "100010100"; DiffersAt(ADDRESS_400000, "100010100", 0); }
      else if i == 1 { assert PREFIX9_B[1].0 == "010010000"; DiffersAt(ADDRESS_400000, "010010000", 4); }
      else if i == 2 { assert PREFIX9_B[2].0 == "010010001"; DiffersAt(ADDRESS_400000, "010010001", 4); }
      else if i == 3 { assert PREFIX9_B[3].0 == "010010010"; DiffersAt(ADDRESS_400000, "010010010", 4); }
      else if i == 4 { assert PREFIX9_B[4].0 == "010010011"; DiffersAt(ADDRESS_400000, "010010011", 4); }
      else if i == 5 { assert PREFIX9_B[5].0 == "010010100"; DiffersAt(ADDRESS_400000, "010010100", 4); }
      else if i == 6 { assert PREFIX9_B[6].0 == "010010101"; DiffersAt(ADDRESS_400000, "010010101", 4); }
      else if i == 7 { assert PREFIX9_B[7].0 == "010010110"; DiffersAt(ADDRESS_400000, "010010110", 4); }
      else { assert PREFIX9_B[8].0 == "010010111"; DiffersAt(ADDRESS_400000, "010010111", 4); }
    }
  }

  lemma Miss400000_PREFIX9_C()
    ensures NoRowMatches(PREFIX9_C, ADDRESS_400000)
  {
    forall i | 0 <= i < |PREFIX9_C|
      ensures !StartsWith(ADDRESS_400000, PREFIX9_C[i].0)
    {
      if i == 0 { assert PREFIX9_C[0].0 == "110010000"; DiffersAt(ADDRESS_400000, "110010000", 0); }
      else if i == 1 { assert PREFIX9_C[1].0 == "010100001"; DiffersAt(ADDRESS_400000, "010100001", 3); }
      else if i == 2 { assert PREFIX9_C[2].0 == "000011010"; DiffersAt(ADDRESS_400000, "000011010", 1); }
      else if i == 3 { assert PREFIX9_C[3].0 == "000011011"; DiffersAt(ADDRESS_400000, "000011011", 1); }
      else if i == 4 { assert PREFIX9_C[4].0 == "100010000"; DiffersAt(ADDRESS_400000, "100010000", 0); }
      else if i == 5 { assert PREFIX9_C[5].0 == "100010001"; DiffersAt(ADDRESS_400000, "100010001", 0); }
      else if i == 6 { assert PREFIX9_C[6].0 == "010011000"; DiffersAt(ADDRESS_400000, "010011000", 4); }
      else { assert PREFIX9_C[7].0 == "111100000"; DiffersAt(ADDRESS_400000, "111100000", 0); }
    }
  }

  lemma MissFFFFFF_PREFIX14_A()
    ensures NoRowMatches(PREFIX14_A, ADDRESS_FFFFFF)
  {
    forall i | 0 <= i < |PREFIX14_A|
      ensures !StartsWith(ADDRESS_FFFFFF, PREFIX14_A[i].0)
    {
      if i == 0 { assert PREFIX14_A[0].0 == "00001100101000"; DiffersAt(ADDRESS_FFFFFF, "00001100101000", 0); }
      else if i == 1 { assert PREFIX14_A[1].0 == "01010000000100"; DiffersAt(ADDRESS_FFFFFF, "01010000000100", 0); }
      else if i == 2 { assert PREFIX14_A[2].0 == "00001010101000"; DiffersAt(ADDRESS_FFFFFF, "00001010101000", 0); }
      else if i == 3 { assert PREFIX14_A[3].0 == "00001010101100"; DiffersAt(ADDRESS_FFFFFF, "00001010101100", 0); }
      else if i == 4 { assert PREFIX14_A[4].0 == "00001001010000"; DiffersAt(ADDRESS_FFFFFF, "00001001010000", 0); }
      else if i == 5 { assert PREFIX14_A[5].0 == "01101000000000"; DiffersAt(ADDRESS_FFFFFF, "01101000000000", 0); }
      else if i == 6 { assert PREFIX14_A[6].0 == "111010010100"; DiffersAt(ADDRESS_FFFFFF, "111010010100", 3); }
      else if i == 7 { assert PREFIX14_A[7].0 == "01010001001100"; DiffersAt(ADDRESS_FFFFFF, "01010001001100", 0); }
      else if i == 8 { assert PREFIX14_A[8].0 == "00000011000000"; DiffersAt(ADDRESS_FFFFFF, "00000011000000", 0); }
      else if i == 9 { assert PREFIX14_A[9].0 == "10001001010100"; DiffersAt(ADDRESS_FFFFFF, "10001001010100", 1); }
      else if i == 10 { assert PREFIX14_A[10].0 == "000010011100"; DiffersAt(ADDRESS_FFFFFF, "000010011100", 0); }
      else { assert PREFIX14_A[11].0 == "000000110010"; DiffersAt(ADDRESS_FFFFFF, "000000110010", 0); }
    }
  }

  lemma MissFFFFFF_PREFIX14_B()
    ensures NoRowMatches(PREFIX14_B, ADDRESS_FFFFFF)
  {
    forall i | 0 <= i < |PREFIX14_B|
      ensures !StartsWith(ADDRESS_FFFFFF, PREFIX14_B[i].0)
    {
      if i == 0 { assert PREFIX14_B[0].0 == "011100001110"; DiffersAt(ADDRESS_FFFFFF, "011100001110", 0); }
      else if i == 1 { assert PREFIX14_B[1].0 == "000000110100"; DiffersAt(ADDRESS_FFFFFF, "000000110100", 0); }
      else if i == 2 { assert PREFIX14_B[2].0 == "00001001011000"; DiffersAt(ADDRESS_FFFFFF, "00001001011000", 0); }
      else if i == 3 { assert PREFIX14_B[3].0 == "000001101100"; DiffersAt(ADDRESS_FFFFFF, "000001101100", 0); }
      else if i == 4 { assert PREFIX14_B[4].0 == "000010000100"; DiffersAt(ADDRESS_FFFFFF, "000010000100", 0); }
      else if i == 5 { assert PREFIX14_B[5].0 == "111010000000"; DiffersAt(ADDRESS_FFFFFF, "111010000000", 3); }
      else if i == 6 { assert PREFIX14_B[6].0 == "000010101100"; DiffersAt(ADDRESS_FFFFFF, "000010101100", 0); }
      else if i == 7 { assert PREFIX14_B[7].0 == "00000011010100"; DiffersAt(ADDRESS_FFFFFF, "00000011010100", 0); }
      else if i == 8 { assert PREFIX14_B[8].0 == "000000110110"; DiffersAt(ADDRESS_FFFFFF, "000000110110", 0); }
      else if i == 9 { assert PREFIX14_B[9].0 == "10010000000100"; DiffersAt(ADDRESS_FFFFFF, "10010000000100", 1); }
      else if i == 10 { assert PREFIX14_B[10].0 == "000010101110"; DiffersAt(ADDRESS_FFFFFF, "000010101110", 0); }
      else { assert PREFIX14_B[11].0 == "000000111000"; DiffersAt(ADDRESS_FFFFFF, "000000111000", 0); }
    }
  }

  lemma MissFFFFFF_PREFIX14_C()
    ensures NoRowMatches(PREFIX14_C, ADDRESS_FFFFFF)
  {
    forall i | 0 <= i < |PREFIX14_C|
      ensures !StartsWith(ADDRESS_FFFFFF, PREFIX14_C[i].0)
    {
      if i == 0 { assert PREFIX14_C[0].0 == "01010000000111"; DiffersAt(ADDRESS_FFFFFF, "01010000000111", 0); }
      else if i == 1 { assert PREFIX14_C[1].0 == "000010110000"; DiffersAt(ADDRESS_FFFFFF, "000010110000", 0); }
      else if i == 2 { assert PREFIX14_C[2].0 == "01001100100000"; DiffersAt(ADDRESS_FFFFFF, "01001100100000", 0); }
      else if i == 3 { assert PREFIX14_C[3].0 == "011100100"; DiffersAt(ADDRESS_FFFFFF, "011100100", 0); }
      else if i == 4 { assert PREFIX14_C[4].0 == "000010001100"; DiffersAt(ADDRESS_FFFFFF, "000010001100", 0); }
      else if i == 5 { assert PREFIX14_C[5].0 == "00001001100000"; DiffersAt(ADDRESS_FFFFFF, "00001001100000", 0); }
      else if i == 6 { assert PREFIX14_C[6].0 == "000011000100"; DiffersAt(ADDRESS_FFFFFF, "000011000100", 0); }
      else if i == 7 { assert PREFIX14_C[7].0 == "111010000100"; DiffersAt(ADDRESS_FFFFFF, "111010000100", 3); }
      else if i == 8 { assert PREFIX14_C[8].0 == "000010110010"; DiffersAt(ADDRESS_FFFFFF, "000010110010", 0); }
      else if i == 9 { assert PREFIX14_C[9].0 == "000001000010"; DiffersAt(ADDRESS_FFFFFF, "000001000010", 0); }
      else if i == 10 { assert PREFIX14_C[10].0 == "00100000001000"; DiffersAt(ADDRESS_FFFFFF, "00100000001000", 0); }
      else { assert PREFIX14_C[11].0 == "01010001000100"; DiffersAt(ADDRESS_FFFFFF, "01010001000100", 0); }
    }
  }

  lemma MissFFFFFF_PREFIX14_D()
    ensures NoRowMatches(PREFIX14_D, ADDRESS_FFFFFF)
  {
    forall i | 0 <= i < |PREFIX14_D|
      ensures !StartsWith(ADDRESS_FFFFFF, PREFIX14_D[i].0)
    {
      if i == 0 { assert PREFIX14_D[0].0 == "000001000000"; DiffersAt(ADDRESS_FFFFFF, "000001000000", 0); }
      else if i == 1 { assert PREFIX14_D[1].0 == "110010001000"; DiffersAt(ADDRESS_FFFFFF, "110010001000", 2); }
      else if i == 2 { assert PREFIX14_D[2].0 == "000000111110"; DiffersAt(ADDRESS_FFFFFF, "000000111110", 0); }
      else if i == 3 { assert PREFIX14_D[3].0 == "000010011010"; DiffersAt(ADDRESS_FFFFFF, "000010011010", 0); }
      else if i == 4 { assert PREFIX14_D[4].0 == "01010001010000"; DiffersAt(ADDRESS_FFFFFF, "01010001010000", 0); }
      else if i == 5 { assert PREFIX14_D[5].0 == "000001000100"; DiffersAt(ADDRESS_FFFFFF, "000001000100", 0); }
      else if i == 6 { assert PREFIX14_D[6].0 == "00001100110000"; DiffersAt(ADDRESS_FFFFFF, "00001100110000", 0); }
      else if i == 7 { assert PREFIX14_D[7].0 == "000010110100"; DiffersAt(ADDRESS_FFFFFF, "000010110100", 0); }
      else if i == 8 { assert PREFIX14_D[8].0 == "000001000110"; DiffersAt(ADDRESS_FFFFFF, "000001000110", 0); }
      else if i == 9 { assert PREFIX14_D[9].0 == "00000100100000"; DiffersAt(ADDRESS_FFFFFF, "00000100100000", 0); }
      else { assert PREFIX14_D[10].0 == "000010110110"; DiffersAt(ADDRESS_FFFFFF, "000010110110", 0); }
    }
  }

  lemma MissFFFFFF_PREFIX14_E()
    ensures NoRowMatches(PREFIX14_E, ADDRESS_FFFFFF)
  {
    forall i | 0 <= i < |PREFIX14_E|
      ensures !StartsWith(ADDRESS_FFFFFF, PREFIX14_E[i].0)
    {
      if i == 0 { assert PREFIX14_E[0].0 == "000010111000"; DiffersAt(ADDRESS_FFFFFF, "000010111000", 0); }
      else if i == 1 { assert PREFIX14_E[1].0 == "000010111010"; DiffersAt(ADDRESS_FFFFFF, "000010111010", 0); }
      else if i == 2 { assert PREFIX14_E[2].0 == "010011001100"; DiffersAt(ADDRESS_FFFFFF, "010011001100", 0); }
      else if i == 3 { assert PREFIX14_E[3].0 == "011100110"; DiffersAt(ADDRESS_FFFFFF, "011100110", 0); }
      else if i == 4 { assert PREFIX14_E[4].0 == "011100101"; DiffersAt(ADDRESS_FFFFFF, "011100101", 0); }
      else if i == 5 { assert PREFIX14_E[5].0 == "010011001010"; DiffersAt(ADDRESS_FFFFFF, "010011001010", 0); }
      else if i == 6 { assert PREFIX14_E[6].0 == "011100111"; DiffersAt(ADDRESS_FFFFFF, "011100111", 0); }
      else if i == 7 { assert PREFIX14_E[7].0 == "000010111110"; DiffersAt(ADDRESS_FFFFFF, "000010111110", 0); }
      else if i == 8 { assert PREFIX14_E[8].0 == "011101000"; DiffersAt(ADDRESS_FFFFFF, "011101000", 0); }
      else if i == 9 { assert PREFIX14_E[9].0 == "01101000001100"; DiffersAt(ADDRESS_FFFFFF, "01101000001100", 0); }
      else { assert PREFIX14_E[10].0 == "000001001100"; DiffersAt(ADDRESS_FFFFFF, "000001001100", 0); }
    }
  }

  lemma MissFFFFFF_PREFIX14_F()
    ensures NoRowMatches(PREFIX14_F, ADDRESS_FFFFFF)
  {
    forall i | 0 <= i < |PREFIX14_F|
      ensures !StartsWith(ADDRESS_FFFFFF, PREFIX14_F[i].0)
    {
      if i == 0 { assert PREFIX14_F[0].0 == "11001000111000"; DiffersAt(ADDRESS_FFFFFF, "11001000111000", 2); }
      else if i == 1 { assert PREFIX14_F[1].0 == "011100000110"; DiffersAt(ADDRESS_FFFFFF, "011100000110", 0); }
      else if i == 2 { assert PREFIX14_F[2].0 == "01100000000100"; DiffersAt(ADDRESS_FFFFFF, "01100000000100", 0); }
      else if i == 3 { assert PREFIX14_F[3].0 == "011100001000"; DiffersAt(ADDRESS_FFFFFF, "011100001000", 0); }
      else if i == 4 { assert PREFIX14_F[4].0 == "01010000001011"; DiffersAt(ADDRESS_FFFFFF, "01010000001011", 0); }
      else if i == 5 { assert PREFIX14_F[5].0 == "011101001"; DiffersAt(ADDRESS_FFFFFF, "011101001", 0); }
      else if i == 6 { assert PREFIX14_F[6].0 == "00000100101000"; DiffersAt(ADDRESS_FFFFFF, "00000100101000", 0); }
      else if i == 7 { assert PREFIX14_F[7].0 == "000001010000"; DiffersAt(ADDRESS_FFFFFF, "000001010000", 0); }
      else if i == 8 { assert PREFIX14_F[8].0 == "01010000001111"; DiffersAt(ADDRESS_FFFFFF, "01010000001111", 0); }
      else if i == 9 { assert PREFIX14_F[9].0 == "01001101000000"; DiffersAt(ADDRESS_FFFFFF, "01001101000000", 0); }
      else { assert PREFIX14_F[10].0 == "000001010100"; DiffersAt(ADDRESS_FFFFFF, "000001010100", 0); }
    }
  }

  lemma MissFFFFFF_PREFIX14_G()
    ensures NoRowMatches(PREFIX14_G, ADDRESS_FFFFFF)
  {
    forall i | 0 <= i < |PREFIX14_G|
      ensures !StartsWith(ADDRESS_FFFFFF, PREFIX14_G[i].0)
    {
      if i == 0 { assert PREFIX14_G[0].0 == "000001011000"; DiffersAt(ADDRESS_FFFFFF, "000001011000", 0); }
      else if i == 1 { assert PREFIX14_G[1].0 == "011101010"; DiffersAt(ADDRESS_FFFFFF, "011101010", 0); }
      else if i == 2 { assert PREFIX14_G[2].0 == "00000101101000"; DiffersAt(ADDRESS_FFFFFF, "00000101101000", 0); }
      else if i == 3 { assert PREFIX14_G[3].0 == "000001011100"; DiffersAt(ADDRESS_FFFFFF, "000001011100", 0); }
      else if i == 4 { assert PREFIX14_G[4].0 == "01001101001000"; DiffersAt(ADDRESS_FFFFFF, "01001101001000", 0); }
      else if i == 5 { assert PREFIX14_G[5].0 == "10010000000000"; DiffersAt(ADDRESS_FFFFFF, "10010000000000", 1); }
      else if i == 6 { assert PREFIX14_G[6].0 == "00000101111000"; DiffersAt(ADDRESS_FFFFFF, "00000101111000", 0); }
      else if i == 7 { assert PREFIX14_G[7].0 == "00000110000000"; DiffersAt(ADDRESS_FFFFFF, "00000110000000", 0); }
      else if i == 8 { assert PREFIX14_G[8].0 == "01101000000100"; DiffersAt(ADDRESS_FFFFFF, "01101000000100", 0); }
      else if i == 9 { assert PREFIX14_G[9].0 == "01001101010000"; DiffersAt(ADDRESS_FFFFFF, "01001101010000", 0); }
      else { assert PREFIX14_G[10].0 == "01101000001000"; DiffersAt(ADDRESS_FFFFFF, "01101000001000", 0); }
    }
  }

  lemma MissFFFFFF_PREFIX14_H()
    ensures NoRowMatches(PREFIX14_H, ADDRESS_FFFFFF)
  {
    forall i | 0 <= i < |PREFIX14_H|
      ensures !StartsWith(ADDRESS_FFFFFF, PREFIX14_H[i].0)
    {
      if i == 0 { assert PREFIX14_H[0].0 == "000000000110"; DiffersAt(ADDRESS_FFFFFF, "000000000110", 0); }
      else if i == 1 { assert PREFIX14_H[1].0 == "011100000100"; DiffersAt(ADDRESS_FFFFFF, "011100000100", 0); }
      else if i == 2 { assert PREFIX14_H[2].0 == "00100000000100"; DiffersAt(ADDRESS_FFFFFF, "00100000000100", 0); }
      else if i == 3 { assert PREFIX14_H[3].0 == "11001000101000"; DiffersAt(ADDRESS_FFFFFF, "11001000101000", 2); }
      else if i == 4 { assert PREFIX14_H[4].0 == "011100001010"; DiffersAt(ADDRESS_FFFFFF, "011100001010", 0); }
      else if i == 5 { assert PREFIX14_H[5].0 == "000011000000"; DiffersAt(ADDRESS_FFFFFF, "000011000000", 0); }
      else if i == 6 { assert PREFIX14_H[6].0 == "000001100010"; DiffersAt(ADDRESS_FFFFFF, "000001100010", 0); }
      else if i == 7 { assert PREFIX14_H[7].0 == "000001100100"; DiffersAt(ADDRESS_FFFFFF, "000001100100", 0); }
      else if i == 8 { assert PREFIX14_H[8].0 == "01110000110000"; DiffersAt(ADDRESS_FFFFFF, "01110000110000", 0); }
      else if i == 9 { assert PREFIX14_H[9].0 == "011101100"; DiffersAt(ADDRESS_FFFFFF, "011101100", 0); }
      else { assert PREFIX14_H[10].0 == "01101000010000"; DiffersAt(ADDRESS_FFFFFF, "01101000010000", 0); }
    }
  }

  lemma MissFFFFFF_PREFIX14_I()
    ensures NoRowMatches(PREFIX14_I, ADDRESS_FFFFFF)
  {
    forall i | 0 <= i < |PREFIX14_I|
      ensures !StartsWith(ADDRESS_FFFFFF, PREFIX14_I[i].0)
    {
      if i == 0 { assert PREFIX14_I[0].0 == "000011000010"; DiffersAt(ADDRESS_FFFFFF, "000011000010", 0); }
      else if i == 1 { assert PREFIX14_I[1].0 == "100010011000"; DiffersAt(ADDRESS_FFFFFF, "100010011000", 1); }
      else if i == 2 { assert PREFIX14_I[2].0 == "111010001000"; DiffersAt(ADDRESS_FFFFFF, "111010001000", 3); }
      else if i == 3 { assert PREFIX14_I[3].0 == "111010001100"; DiffersAt(ADDRESS_FFFFFF, "111010001100", 3); }
      else if i == 4 { assert PREFIX14_I[4].0 == "011101011"; DiffersAt(ADDRESS_FFFFFF, "011101011", 0); }
      else if i == 5 { assert PREFIX14_I[5].0 == "00000110101000"; DiffersAt(ADDRESS_FFFFFF, "00000110101000", 0); }
      else if i == 6 { assert PREFIX14_I[6].0 == "011100011"; DiffersAt(ADDRESS_FFFFFF, "011100011", 0); }
      else if i == 7 { assert PREFIX14_I[7].0 == "01010000010011"; DiffersAt(ADDRESS_FFFFFF, "01010000010011", 0); }
      else if i == 8 { assert PREFIX14_I[8].0 == "000001101110"; DiffersAt(ADDRESS_FFFFFF, "000001101110", 0); }
      else if i == 9 { assert PREFIX14_I[9].0 == "11001000110000"; DiffersAt(ADDRESS_FFFFFF, "11001000110000", 2); }
      else { assert PREFIX14_I[10].0 == "00001011110000"; DiffersAt(ADDRESS_FFFFFF, "00001011110000", 0); }
    }
  }

  lemma MissFFFFFF_PREFIX14_J()
    ensures NoRowMatches(PREFIX14_J, ADDRESS_FFFFFF)
  {
    forall i | 0 <= i < |PREFIX14_J|
      ensures !StartsWith(ADDRESS_FFFFFF, PREFIX14_J[i].0)
    {
      if i == 0 { assert PREFIX14_J[0].0 == "10010000001000"; DiffersAt(ADDRESS_FFFFFF, "10010000001000", 1); }
      else if i == 1 { assert PREFIX14_J[1].0 == "01010000000000"; DiffersAt(ADDRESS_FFFFFF, "01010000000000", 0); }
      else if i == 2 { assert PREFIX14_J[2].0 == "00001001111000"; DiffersAt(ADDRESS_FFFFFF, "00001001111000", 0); }
      else if i == 3 { assert PREFIX14_J[3].0 == "011100010"; DiffersAt(ADDRESS_FFFFFF, "011100010", 0); }
      else if i == 4 { assert PREFIX14_J[4].0 == "000001110000"; DiffersAt(ADDRESS_FFFFFF, "000001110000", 0); }
      else if i == 5 { assert PREFIX14_J[5].0 == "00000111010000"; DiffersAt(ADDRESS_FFFFFF, "00000111010000", 0); }
      else if i == 6 { assert PREFIX14_J[6].0 == "00000111011000"; DiffersAt(ADDRESS_FFFFFF, "00000111011000", 0); }
      else if i == 7 { assert PREFIX14_J[7].0 == "011101101"; DiffersAt(ADDRESS_FFFFFF, "011101101", 0); }
      else if i == 8 { assert PREFIX14_J[8].0 == "01010000010111"; DiffersAt(ADDRESS_FFFFFF, "01010000010111", 0); }
      else if i == 9 { assert PREFIX14_J[9].0 == "01010000011011"; DiffersAt(ADDRESS_FFFFFF, "01010000011011", 0); }
      else { assert PREFIX14_J[10].0 == "10001001011100"; DiffersAt(ADDRESS_FFFFFF, "10001001011100", 1); }
    }
  }

  lemma MissFFFFFF_PREFIX14_K()
    ensures NoRowMatches(PREFIX14_K, ADDRESS_FFFFFF)
  {
    forall i | 0 <= i < |PREFIX14_K|
      ensures !StartsWith(ADDRESS_FFFFFF, PREFIX14_K[i].0)
    {
      if i == 0 { assert PREFIX14_K[0].0 == "000001111000"; DiffersAt(ADDRESS_FFFFFF, "000001111000", 0); }
      else if i == 1 { assert PREFIX14_K[1].0 == "011101110"; DiffersAt(ADDRESS_FFFFFF, "011101110", 0); }
      else if i == 2 { assert PREFIX14_K[2].0 == "000001111100"; DiffersAt(ADDRESS_FFFFFF, "000001111100", 0); }
      else if i == 3 { assert PREFIX14_K[3].0 == "000011001000"; DiffersAt(ADDRESS_FFFFFF, "000011001000", 0); }
      else if i == 4 { assert PREFIX14_K[4].0 == "00000111101000"; DiffersAt(ADDRESS_FFFFFF, "00000111101000", 0); }
      else if i == 5 { assert PREFIX14_K[5].0 == "01010001010100"; DiffersAt(ADDRESS_FFFFFF, "01010001010100", 0); }
      else if i == 6 { assert PREFIX14_K[6].0 == "01010001001000"; DiffersAt(ADDRESS_FFFFFF, "01010001001000", 0); }
      else if i == 7 { assert PREFIX14_K[7].0 == "000010001000"; DiffersAt(ADDRESS_FFFFFF, "000010001000", 0); }
      else if i == 8 { assert PREFIX14_K[8].0 == "11001000110100"; DiffersAt(ADDRESS_FFFFFF, "11001000110100", 2); }
      else if i == 9 { assert PREFIX14_K[9].0 == "000011000110"; DiffersAt(ADDRESS_FFFFFF, "000011000110", 0); }
      else { assert PREFIX14_K[10].0 == "01100000000110"; DiffersAt(ADDRESS_FFFFFF, "01100000000110", 0); }
    }
  }

  lemma MissFFFFFF_PREFIX14_L()
    ensures NoRowMatches(PREFIX14_L, ADDRESS_FFFFFF)
  {
    forall i | 0 <= i < |PREFIX14_L|
      ensures !StartsWith(ADDRESS_FFFFFF, PREFIX14_L[i].0)
    {
      if i == 0 { assert PREFIX14_L[0].0 == "000001101000"; DiffersAt(ADDRESS_FFFFFF, "000001101000", 0); }
      else if i == 1 { assert PREFIX14_L[1].0 == "100010010110"; DiffersAt(ADDRESS_FFFFFF, "100010010110", 1); }
      else if i == 2 { assert PREFIX14_L[2].0 == "000010000000"; DiffersAt(ADDRESS_FFFFFF, "000010000000", 0); }
      else if i == 3 { assert PREFIX14_L[3].0 == "111010010000"; DiffersAt(ADDRESS_FFFFFF, "111010010000", 3); }
      else if i == 4 { assert PREFIX14_L[4].0 == "01010000011111"; DiffersAt(ADDRESS_FFFFFF, "01010000011111", 0); }
      else if i == 5 { assert PREFIX14_L[5].0 == "11001001000000"; DiffersAt(ADDRESS_FFFFFF, "11001001000000", 2); }
      else if i == 6 { assert PREFIX14_L[6].0 == "100010010000"; DiffersAt(ADDRESS_FFFFFF, "100010010000", 1); }
      else if i == 7 { assert PREFIX14_L[7].0 == "000010001010"; DiffersAt(ADDRESS_FFFFFF, "000010001010", 0); }
      else if i == 8 { assert PREFIX14_L[8].0 == "00000000010000"; DiffersAt(ADDRESS_FFFFFF, "00000000010000", 0); }
      else if i == 9 { assert PREFIX14_L[9].0 == "10001001100100"; DiffersAt(ADDRESS_FFFFFF, "10001001100100", 1); }
      else { assert PREFIX14_L[10].0 == "11110000100100"; DiffersAt(ADDRESS_FFFFFF, "11110000100100", 4); }
    }
  }

  lemma MissFFFFFF_PREFIX12()
    ensures NoRowMatches(PREFIX12, ADDRESS_FFFFFF)
  {
    forall i | 0 <= i < |PREFIX12|
      ensures !StartsWith(ADDRESS_FFFFFF, PREFIX12[i].0)
    {
      if i == 0 { assert PREFIX12[0].0 == "011100000000"; DiffersAt(ADDRESS_FFFFFF, "011100000000", 0); }
      else if i == 1 { assert PREFIX12[1].0 == "01100000000000"; DiffersAt(ADDRESS_FFFFFF, "01100000000000", 0); }
      else if i == 2 { assert PREFIX12[2].0 == "01100000000010"; DiffersAt(ADDRESS_FFFFFF, "01100000000010", 0); }
      else if i == 3 { assert PREFIX12[3].0 == "000010101000"; DiffersAt(ADDRESS_FFFFFF, "000010101000", 0); }
      else if i == 4 { assert PREFIX12[4].0 == "100010010100"; DiffersAt(ADDRESS_FFFFFF, "100010010100", 1); }
      else if i == 5 { assert PREFIX12[5].0 == "011100000010"; DiffersAt(ADDRESS_FFFFFF, "011100000010", 0); }
      else { assert PREFIX12[6].0 == "01010001000000"; DiffersAt(ADDRESS_FFFFFF, "01010001000000", 0); }
    }
  }

  lemma MissFFFFFF_PREFIX9_A()
    ensures NoRowMatches(PREFIX9_A, ADDRESS_FFFFFF)
  {
    forall i | 0 <= i < |PREFIX9_A|
      ensures !StartsWith(ADDRESS_FFFFFF, PREFIX9_A[i].0)
    {
      if i == 0 { assert PREFIX9_A[0].0 == "000010100"; DiffersAt(ADDRESS_FFFFFF, "000010100", 0); }
      else if i == 1 { assert PREFIX9_A[1].0 == "010001000"; DiffersAt(ADDRESS_FFFFFF, "010001000", 0); }
      else if i == 2 { assert PREFIX9_A[2].0 == "010001001"; DiffersAt(ADDRESS_FFFFFF, "010001001", 0); }
      else if i == 3 { assert PREFIX9_A[3].0 == "010001010"; DiffersAt(ADDRESS_FFFFFF, "010001010", 0); }
      else if i == 4 { assert PREFIX9_A[4].0 == "010001011"; DiffersAt(ADDRESS_FFFFFF, "010001011", 0); }
      else if i == 5 { assert PREFIX9_A[5].0 == "010001100"; DiffersAt(ADDRESS_FFFFFF, "010001100", 0); }
      else if i == 6 { assert PREFIX9_A[6].0 == "010001101"; DiffersAt(ADDRESS_FFFFFF, "010001101", 0); }
      else if i == 7 { assert PREFIX9_A[7].0 == "010001110"; DiffersAt(ADDRESS_FFFFFF, "010001110", 0); }
      else { assert PREFIX9_A[8].0 == "010001111"; DiffersAt(ADDRESS_FFFFFF, "010001111", 0); }
    }
  }

  lemma MissFFFFFF_PREFIX9_B()
    ensures NoRowMatches(PREFIX9_B, ADDRESS_FFFFFF)
  {
    forall i | 0 <= i < |PREFIX9_B|
      ensures !StartsWith(ADDRESS_FFFFFF, PREFIX9_B[i].0)
    {
      if i == 0 { assert PREFIX9_B[0].0 == "100010100"; DiffersAt(ADDRESS_FFFFFF, "100010100", 1); }
      else if i == 1 { assert PREFIX9_B[1].0 == "010010000"; DiffersAt(ADDRESS_FFFFFF, "010010000", 0); }
      else if i == 2 { assert PREFIX9_B[2].0 == "010010001"; DiffersAt(ADDRESS_FFFFFF, "010010001", 0); }
      else if i == 3 { assert PREFIX9_B[3].0 == "010010010"; DiffersAt(ADDRESS_FFFFFF, "010010010", 0); }
      else if i == 4 { assert PREFIX9_B[4].0 == "010010011"; DiffersAt(ADDRESS_FFFFFF, "010010011", 0); }
      else if i == 5 { assert PREFIX9_B[5].0 == "010010100"; DiffersAt(ADDRESS_FFFFFF, "010010100", 0); }
      else if i == 6 { assert PREFIX9_B[6].0 == "010010101"; DiffersAt(ADDRESS_FFFFFF, "010010101", 0); }
      else if i == 7 { assert PREFIX9_B[7].0 == "010010110"; DiffersAt(ADDRESS_FFFFFF, "010010110", 0); }
      else { assert PREFIX9_B[8].0 == "010010111"; DiffersAt(ADDRESS_FFFFFF, "010010111", 0); }
    }
  }

  lemma MissFFFFFF_PREFIX9_C()
    ensures NoRowMatches(PREFIX9_C, ADDRESS_FFFFFF)
  {
    forall i | 0 <= i < |PREFIX9_C|
      ensures !StartsWith(ADDRESS_FFFFFF, PREFIX9_C[i].0)
    {
      if i == 0 { assert PREFIX9_C[0].0 == "110010000"; DiffersAt(ADDRESS_FFFFFF, "110010000", 2); }
      else if i == 1 { assert PREFIX9_C[1].0 == "010100001"; DiffersAt(ADDRESS_FFFFFF, "010100001", 0); }
      else if i == 2 { assert PREFIX9_C[2].0 == "000011010"; DiffersAt(ADDRESS_FFFFFF, "000011010", 0); }
      else if i == 3 { assert PREFIX9_C[3].0 == "000011011"; DiffersAt(ADDRESS_FFFFFF, "000011011", 0); }
      else if i == 4 { assert PREFIX9_C[4].0 == "100010000"; DiffersAt(ADDRESS_FFFFFF, "100010000", 1); }
      else if i == 5 { assert PREFIX9_C[5].0 == "100010001"; DiffersAt(ADDRESS_FFFFFF, "100010001", 1); }
      else if i == 6 { assert PREFIX9_C[6].0 == "010011000"; DiffersAt(ADDRESS_FFFFFF, "010011000", 0); }
      else { assert PREFIX9_C[7].0 == "111100000"; DiffersAt(ADDRESS_FFFFFF, "111100000", 4); }
    }
  }

  lemma MissFFFFFF_PREFIX6()
    ensures NoRowMatches(PREFIX6, ADDRESS_FFFFFF)
  {
    forall i | 0 <= i < |PREFIX6|
      ensures !StartsWith(ADDRESS_FFFFFF, PREFIX6[i].0)
    {
      if i == 0 { assert PREFIX6[0].0 == "111000"; DiffersAt(ADDRESS_FFFFFF, "111000", 3); }
      else if i == 1 { assert PREFIX6[1].0 == "011111"; DiffersAt(ADDRESS_FFFFFF, "011111", 0); }
      else if i == 2 { assert PREFIX6[2].0 == "110000"; DiffersAt(ADDRESS_FFFFFF, "110000", 2); }
      else if i == 3 { assert PREFIX6[3].0 == "111001"; DiffersAt(ADDRESS_FFFFFF, "111001", 3); }
      else if i == 4 { assert PREFIX6[4].0 == "001110"; DiffersAt(ADDRESS_FFFFFF, "001110", 0); }
      else if i == 5 { assert PREFIX6[5].0 == "001111"; DiffersAt(ADDRESS_FFFFFF, "001111", 0); }
      else if i == 6 { assert PREFIX6[6].0 == "100000"; DiffersAt(ADDRESS_FFFFFF, "100000", 1); }
      else if i == 7 { assert PREFIX6[7].0 == "001100"; DiffersAt(ADDRESS_FFFFFF, "001100", 0); }
      else if i == 8 { assert PREFIX6[8].0 == "100001"; DiffersAt(ADDRESS_FFFFFF, "100001", 1); }
      else if i == 9 { assert PREFIX6[9].0 == "001101"; DiffersAt(ADDRESS_FFFFFF, "001101", 0); }
      else { assert PREFIX6[10].0 == "010000"; DiffersAt(ADDRESS_FFFFFF, "010000", 0); }
    }
  }

  lemma MissFFFFFF_PREFIX4()
    ensures NoRowMatches(PREFIX4, ADDRESS_FFFFFF)
  {
    forall i | 0 <= i < |PREFIX4|
      ensures !StartsWith(ADDRESS_FFFFFF, PREFIX4[i].0)
    {
      if i == 0 { assert PREFIX4[0].0 == "1010"; DiffersAt(ADDRESS_FFFFFF, "1010", 1); }
      else { assert PREFIX4[1].0 == "0001"; DiffersAt(ADDRESS_FFFFFF, "0001", 0); }
    }
  }

  lemma MissFFFFFF_PREFIX9_MORE()
    ensures NoRowMatches(PREFIX9_MORE, ADDRESS_FFFFFF)
  {
    forall i | 0 <= i < |PREFIX9_MORE|
      ensures !StartsWith(ADDRESS_FFFFFF, PREFIX9_MORE[i].0)
    {
      if i == 0 { assert PREFIX9_MORE[0].0 == "000000001"; DiffersAt(ADDRESS_FFFFFF, "000000001", 0); }
      else if i == 1 { assert PREFIX9_MORE[1].0 == "000000010"; DiffersAt(ADDRESS_FFFFFF, "000000010", 0); }
      else if i == 2 { assert PREFIX9_MORE[2].0 == "000000011"; DiffersAt(ADDRESS_FFFFFF, "000000011", 0); }
      else if i == 3 { assert PREFIX9_MORE[3].0 == "000000100"; DiffersAt(ADDRESS_FFFFFF, "000000100", 0); }
      else if i == 4 { assert PREFIX9_MORE[4].0 == "000000101"; DiffersAt(ADDRESS_FFFFFF, "000000101", 0); }
      else { assert PREFIX9_MORE[5].0 == "000010010000"; DiffersAt(ADDRESS_FFFFFF, "000010010000", 0); }
    }
  }

  lemma Miss000000_PREFIX14_A()
    ensures NoRowMatches(PREFIX14_A, ADDRESS_000000)
  {
    forall i | 0 <= i < |PREFIX14_A|
      ensures !StartsWith(ADDRESS_000000, PREFIX14_A[i].0)
    {
      if i == 0 { assert PREFIX14_A[0].0 == "00001100101000"; DiffersAt(ADDRESS_000000, "00001100101000", 4); }
      else if i == 1 { assert PREFIX14_A[1].0 == "01010000000100"; DiffersAt(ADDRESS_000000, "01010000000100", 1); }
      else if i == 2 { assert PREFIX14_A[2].0 == "00001010101000"; DiffersAt(ADDRESS_000000, "00001010101000", 4); }
      else if i == 3 { assert PREFIX14_A[3].0 == "00001010101100"; DiffersAt(ADDRESS_000000, "00001010101100", 4); }
      else if i == 4 { assert PREFIX14_A[4].0 == "00001001010000"; DiffersAt(ADDRESS_000000, "00001001010000", 4); }
      else if i == 5 { assert PREFIX14_A[5].0 == "01101000000000"; DiffersAt(ADDRESS_000000, "01101000000000", 1); }
      else if i == 6 { assert PREFIX14_A[6].0 == "111010010100"; DiffersAt(ADDRESS_000000, "111010010100", 0); }
      else if i == 7 { assert PREFIX14_A[7].0 == "01010001001100"; DiffersAt(ADDRESS_000000, "01010001001100", 1); }
      else if i == 8 { assert PREFIX14_A[8].0 == "00000011000000"; DiffersAt(ADDRESS_000000, "00000011000000", 6); }
      else if i == 9 { assert PREFIX14_A[9].0 == "10001001010100"; DiffersAt(ADDRESS_000000, "10001001010100", 0); }
      else if i == 10 { assert PREFIX14_A[10].0 == "000010011100"; DiffersAt(ADDRESS_000000, "000010011100", 4); }
      else { assert PREFIX14_A[11].0 == "000000110010"; DiffersAt(ADDRESS_000000, "000000110010", 6); }
    }
  }

  lemma Miss000000_PREFIX14_B()
    ensures NoRowMatches(PREFIX14_B, ADDRESS_000000)
  {
    forall i | 0 <= i < |PREFIX14_B|
      ensures !StartsWith(ADDRESS_000000, PREFIX14_B[i].0)
    {
      if i == 0 { assert PREFIX14_B[0].0 == "011100001110"; DiffersAt(ADDRESS_000000, "011100001110", 1); }
      else if i == 1 { assert PREFIX14_B[1].0 == "000000110100"; DiffersAt(ADDRESS_000000, "000000110100", 6); }
      else if i == 2 { assert PREFIX14_B[2].0 == "00001001011000"; DiffersAt(ADDRESS_000000, "00001001011000", 4); }
      else if i == 3 { assert PREFIX14_B[3].0 == "000001101100"; DiffersAt(ADDRESS_000000, "000001101100", 5); }
      else if i == 4 { assert PREFIX14_B[4].0 == "000010000100"; DiffersAt(ADDRESS_000000, "000010000100", 4); }
      else if i == 5 { assert PREFIX14_B[5].0 == "111010000000"; DiffersAt(ADDRESS_000000, "111010000000", 0); }
      else if i == 6 { assert PREFIX14_B[6].0 == "000010101100"; DiffersAt(ADDRESS_000000, "000010101100", 4); }
      else if i == 7 { assert PREFIX14_B[7].0 == "00000011010100"; DiffersAt(ADDRESS_000000, "00000011010100", 6); }
      else if i == 8 { assert PREFIX14_B[8].0 == "000000110110"; DiffersAt(ADDRESS_000000, "000000110110", 6); }
      else if i == 9 { assert PREFIX14_B[9].0 == "10010000000100"; DiffersAt(ADDRESS_000000, "10010000000100", 0); }
      else if i == 10 { assert PREFIX14_B[10].0 == "000010101110"; DiffersAt(ADDRESS_000000, "000010101110", 4); }
      else { assert PREFIX14_B[11].0 == "000000111000"; DiffersAt(ADDRESS_000000, "000000111000", 6); }
    }
  }

  lemma Miss000000_PREFIX14_C()
    ensures NoRowMatches(PREFIX14_C, ADDRESS_000000)
  {
    forall i | 0 <= i < |PREFIX14_C|
      ensures !StartsWith(ADDRESS_000000, PREFIX14_C[i].0)
    {
      if i == 0 { assert PREFIX14_C[0].0 == "01010000000111"; DiffersAt(ADDRESS_000000, "01010000000111", 1); }
      else if i == 1 { assert PREFIX14_C[1].0 == "000010110000"; DiffersAt(ADDRESS_000000, "000010110000", 4); }
      else if i == 2 { assert PREFIX14_C[2].0 == "01001100100000"; DiffersAt(ADDRESS_000000, "01001100100000", 1); }
      else if i == 3 { assert PREFIX14_C[3].0 == "011100100"; DiffersAt(ADDRESS_000000, "011100100", 1); }
      else if i == 4 { assert PREFIX14_C[4].0 == "000010001100"; DiffersAt(ADDRESS_000000, "000010001100", 4); }
      else if i == 5 { assert PREFIX14_C[5].0 == "00001001100000"; DiffersAt(ADDRESS_000000, "00001001100000", 4); }
      else if i == 6 { assert PREFIX14_C[6].0 == "000011000100"; DiffersAt(ADDRESS_000000, "000011000100", 4); }
      else if i == 7 { assert PREFIX14_C[7].0 == "111010000100"; DiffersAt(ADDRESS_000000, "111010000100", 0); }
      else if i == 8 { assert PREFIX14_C[8].0 == "000010110010"; DiffersAt(ADDRESS_000000, "000010110010", 4); }
      else if i == 9 { assert PREFIX14_C[9].0 == "000001000010"; DiffersAt(ADDRESS_000000, "000001000010", 5); }
      else if i == 10 { assert PREFIX14_C[10].0 == "00100000001000"; DiffersAt(ADDRESS_000000, "00100000001000", 2); }
      else { assert PREFIX14_C[11].0 == "01010001000100"; DiffersAt(ADDRESS_000000, "01010001000100", 1); }
    }
  }

  lemma Miss000000_PREFIX14_D()
    ensures NoRowMatches(PREFIX14_D, ADDRESS_000000)
  {
    forall i | 0 <= i < |PREFIX14_D|
      ensures !StartsWith(ADDRESS_000000, PREFIX14_D[i].0)
    {
      if i == 0 { assert PREFIX14_D[0].0 == "000001000000"; DiffersAt(ADDRESS_000000, "000001000000", 5); }
      else if i == 1 { assert PREFIX14_D[1].0 == "110010001000"; DiffersAt(ADDRESS_000000, "110010001000", 0); }
      else if i == 2 { assert PREFIX14_D[2].0 == "000000111110"; DiffersAt(ADDRESS_000000, "000000111110", 6); }
      else if i == 3 { assert PREFIX14_D[3].0 == "000010011010"; DiffersAt(ADDRESS_000000, "000010011010", 4); }
      else if i == 4 { assert PREFIX14_D[4].0 == "01010001010000"; DiffersAt(ADDRESS_000000, "01010001010000", 1); }
      else if i == 5 { assert PREFIX14_D[5].0 == "000001000100"; DiffersAt(ADDRESS_000000, "000001000100", 5); }
      else if i == 6 { assert PREFIX14_D[6].0 == "00001100110000"; DiffersAt(ADDRESS_000000, "00001100110000", 4); }
      else if i == 7 { assert PREFIX14_D[7].0 == "000010110100"; DiffersAt(ADDRESS_000000, "000010110100", 4); }
      else if i == 8 { assert PREFIX14_D[8].0 == "000001000110"; DiffersAt(ADDRESS_000000, "000001000110", 5); }
      else if i == 9 { assert PREFIX14_D[9].0 == "00000100100000"; DiffersAt(ADDRESS_000000, "00000100100000", 5); }
      else { assert PREFIX14_D[10].0 == "000010110110"; DiffersAt(ADDRESS_000000, "000010110110", 4); }
    }
  }

  lemma Miss000000_PREFIX14_E()
    ensures NoRowMatches(PREFIX14_E, ADDRESS_000000)
  {
    forall i | 0 <= i < |PREFIX14_E|
      ensures !StartsWith(ADDRESS_000000, PREFIX14_E[i].0)
    {
      if i == 0 { assert PREFIX14_E[0].0 == "000010111000"; DiffersAt(ADDRESS_000000, "000010111000", 4); }
      else if i == 1 { assert PREFIX14_E[1].0 == "000010111010"; DiffersAt(ADDRESS_000000, "000010111010", 4); }
      else if i == 2 { assert PREFIX14_E[2].0 == "010011001100"; DiffersAt(ADDRESS_000000, "010011001100", 1); }
      else if i == 3 { assert PREFIX14_E[3].0 == "011100110"; DiffersAt(ADDRESS_000000, "011100110", 1); }
      else if i == 4 { assert PREFIX14_E[4].0 == "011100101"; DiffersAt(ADDRESS_000000, "011100101", 1); }
      else if i == 5 { assert PREFIX14_E[5].0 == "010011001010"; DiffersAt(ADDRESS_000000, "010011001010", 1); }
      else if i == 6 { assert PREFIX14_E[6].0 == "011100111"; DiffersAt(ADDRESS_000000, "011100111", 1); }
      else if i == 7 { assert PREFIX14_E[7].0 == "000010111110"; DiffersAt(ADDRESS_000000, "000010111110", 4); }
      else if i == 8 { assert PREFIX14_E[8].0 == "011101000"; DiffersAt(ADDRESS_000000, "011101000", 1); }
      else if i == 9 { assert PREFIX14_E[9].0 == "01101000001100"; DiffersAt(ADDRESS_000000, "01101000001100", 1); }
      else { assert PREFIX14_E[10].0 == "000001001100"; DiffersAt(ADDRESS_000000, "000001001100", 5); }
    }
  }

  lemma Miss000000_PREFIX14_F()
    ensures NoRowMatches(PREFIX14_F, ADDRESS_000000)
  {
    forall i | 0 <= i < |PREFIX14_F|
      ensures !StartsWith(ADDRESS_000000, PREFIX14_F[i].0)
    {
      if i == 0 { assert PREFIX14_F[0].0 == "11001000111000"; DiffersAt(ADDRESS_000000, "11001000111000", 0); }
      else if i == 1 { assert PREFIX14_F[1].0 == "011100000110"; DiffersAt(ADDRESS_000000, "011100000110", 1); }
      else if i == 2 { assert PREFIX14_F[2].0 == "01100000000100"; DiffersAt(ADDRESS_000000, "01100000000100", 1); }
      else if i == 3 { assert PREFIX14_F[3].0 == "011100001000"; DiffersAt(ADDRESS_000000, "011100001000", 1); }
      else if i == 4 { assert PREFIX14_F[4].0 == "01010000001011"; DiffersAt(ADDRESS_000000, "01010000001011", 1); }
      else if i == 5 { assert PREFIX14_F[5].0 == "011101001"; DiffersAt(ADDRESS_000000, "011101001", 1); }
      else if i == 6 { assert PREFIX14_F[6].0 == "00000100101000"; DiffersAt(ADDRESS_000000, "00000100101000", 5); }
      else if i == 7 { assert PREFIX14_F[7].0 == "000001010000"; DiffersAt(ADDRESS_000000, "000001010000", 5); }
      else if i == 8 { assert PREFIX14_F[8].0 == "01010000001111"; DiffersAt(ADDRESS_000000, "01010000001111", 1); }
      else if i == 9 { assert PREFIX14_F[9].0 == "01001101000000"; DiffersAt(ADDRESS_000000, "01001101000000", 1); }
      else { assert PREFIX14_F[10].0 == "000001010100"; DiffersAt(ADDRESS_000000, "000001010100", 5); }
    }
  }

  lemma Miss000000_PREFIX14_G()
    ensures NoRowMatches(PREFIX14_G, ADDRESS_000000)
  {
    forall i | 0 <= i < |PREFIX14_G|
      ensures !StartsWith(ADDRESS_000000, PREFIX14_G[i].0)
    {
      if i == 0 { assert PREFIX14_G[0].0 == "000001011000"; DiffersAt(ADDRESS_000000, "000001011000", 5); }
      else if i == 1 { assert PREFIX14_G[1].0 == "011101010"; DiffersAt(ADDRESS_000000, "011101010", 1); }
      else if i == 2 { assert PREFIX14_G[2].0 == "00000101101000"; DiffersAt(ADDRESS_000000, "00000101101000", 5); }
      else if i == 3 { assert PREFIX14_G[3].0 == "000001011100"; DiffersAt(ADDRESS_000000, "000001011100", 5); }
      else if i == 4 { assert PREFIX14_G[4].0 == "01001101001000"; DiffersAt(ADDRESS_000000, "01001101001000", 1); }
      else if i == 5 { assert PREFIX14_G[5].0 == "10010000000000"; DiffersAt(ADDRESS_000000, "10010000000000", 0); }
      else if i == 6 { assert PREFIX14_G[6].0 == "00000101111000"; DiffersAt(ADDRESS_000000, "00000101111000", 5); }
      else if i == 7 { assert PREFIX14_G[7].0 == "00000110000000"; DiffersAt(ADDRESS_000000, "00000110000000", 5); }
      else if i == 8 { assert PREFIX14_G[8].0 == "01101000000100"; DiffersAt(ADDRESS_000000, "01101000000100", 1); }
      else if i == 9 { assert PREFIX14_G[9].0 == "01001101010000"; DiffersAt(ADDRESS_000000, "01001101010000", 1); }
      else { assert PREFIX14_G[10].0 == "01101000001000"; DiffersAt(ADDRESS_000000, "01101000001000", 1); }
    }
  }

  lemma Miss000000_PREFIX14_H()
    ensures NoRowMatches(PREFIX14_H, ADDRESS_000000)
  {
    forall i | 0 <= i < |PREFIX14_H|
      ensures !StartsWith(ADDRESS_000000, PREFIX14_H[i].0)
    {
      if i == 0 { assert PREFIX14_H[0].0 == "000000000110"; DiffersAt(ADDRESS_000000, "000000000110", 9); }
      else if i == 1 { assert PREFIX14_H[1].0 == "011100000100"; DiffersAt(ADDRESS_000000, "011100000100", 1); }
      else if i == 2 { assert PREFIX14_H[2].0 == "00100000000100"; DiffersAt(ADDRESS_000000, "00100000000100", 2); }
      else if i == 3 { assert PREFIX14_H[3].0 == "11001000101000"; DiffersAt(ADDRESS_000000, "11001000101000", 0); }
      else if i == 4 { assert PREFIX14_H[4].0 == "011100001010"; DiffersAt(ADDRESS_000000, "011100001010", 1); }
      else if i == 5 { assert PREFIX14_H[5].0 == "000011000000"; DiffersAt(ADDRESS_000000, "000011000000", 4); }
      else if i == 6 { assert PREFIX14_H[6].0 == "000001100010"; DiffersAt(ADDRESS_000000, "000001100010", 5); }
      else if i == 7 { assert PREFIX14_H[7].0 == "000001100100"; DiffersAt(ADDRESS_000000, "000001100100", 5); }
      else if i == 8 { assert PREFIX14_H[8].0 == "01110000110000"; DiffersAt(ADDRESS_000000, "01110000110000", 1); }
      else if i == 9 { assert PREFIX14_H[9].0 == "011101100"; DiffersAt(ADDRESS_000000, "011101100", 1); }
      else { assert PREFIX14_H[10].0 == "01101000010000"; DiffersAt(ADDRESS_000000, "01101000010000", 1); }
    }
  }

  lemma Miss000000_PREFIX14_I()
    ensures NoRowMatches(PREFIX14_I, ADDRESS_000000)
  {
    forall i | 0 <= i < |PREFIX14_I|
      ensures !StartsWith(ADDRESS_000000, PREFIX14_I[i].0)
    {
      if i == 0 { assert PREFIX14_I[0].0 == "000011000010"; DiffersAt(ADDRESS_000000, "000011000010", 4); }
      else if i == 1 { assert PREFIX14_I[1].0 == "100010011000"; DiffersAt(ADDRESS_000000, "100010011000", 0); }
      else if i == 2 { assert PREFIX14_I[2].0 == "111010001000"; DiffersAt(ADDRESS_000000, "111010001000", 0); }
      else if i == 3 { assert PREFIX14_I[3].0 == "111010001100"; DiffersAt(ADDRESS_000000, "111010001100", 0); }
      else if i == 4 { assert PREFIX14_I[4].0 == "011101011"; DiffersAt(ADDRESS_000000, "011101011", 1); }
      else if i == 5 { assert PREFIX14_I[5].0 == "00000110101000"; DiffersAt(ADDRESS_000000, "00000110101000", 5); }
      else if i == 6 { assert PREFIX14_I[6].0 == "011100011"; DiffersAt(ADDRESS_000000, "011100011", 1); }
      else if i == 7 { assert PREFIX14_I[7].0 == "01010000010011"; DiffersAt(ADDRESS_000000, "01010000010011", 1); }
      else if i == 8 { assert PREFIX14_I[8].0 == "000001101110"; DiffersAt(ADDRESS_000000, "000001101110", 5); }
      else if i == 9 { assert PREFIX14_I[9].0 == "11001000110000"; DiffersAt(ADDRESS_000000, "11001000110000", 0); }
      else { assert PREFIX14_I[10].0 == "00001011110000"; DiffersAt(ADDRESS_000000, "00001011110000", 4); }
    }
  }

  lemma Miss000000_PREFIX14_J()
    ensures NoRowMatches(PREFIX14_J, ADDRESS_000000)
  {
    forall i | 0 <= i < |PREFIX14_J|
      ensures !StartsWith(ADDRESS_000000, PREFIX14_J[i].0)
    {
      if i == 0 { assert PREFIX14_J[0].0 == "10010000001000"; DiffersAt(ADDRESS_000000, "10010000001000", 0); }
      else if i == 1 { assert PREFIX14_J[1].0 == "01010000000000"; DiffersAt(ADDRESS_000000, "01010000000000", 1); }
      else if i == 2 { assert PREFIX14_J[2].0 == "00001001111000"; DiffersAt(ADDRESS_000000, "00001001111000", 4); }
      else if i == 3 { assert PREFIX14_J[3].0 == "011100010"; DiffersAt(ADDRESS_000000, "011100010", 1); }
      else if i == 4 { assert PREFIX14_J[4].0 == "000001110000"; DiffersAt(ADDRESS_000000, "000001110000", 5); }
      else if i == 5 { assert PREFIX14_J[5].0 == "00000111010000"; DiffersAt(ADDRESS_000000, "00000111010000", 5); }
      else if i == 6 { assert PREFIX14_J[6].0 == "00000111011000"; DiffersAt(ADDRESS_000000, "00000111011000", 5); }
      else if i == 7 { assert PREFIX14_J[7].0 == "011101101"; DiffersAt(ADDRESS_000000, "011101101", 1); }
      else if i == 8 { assert PREFIX14_J[8].0 == "01010000010111"; DiffersAt(ADDRESS_000000, "01010000010111", 1); }
      else if i == 9 { assert PREFIX14_J[9].0 == "01010000011011"; DiffersAt(ADDRESS_000000, "01010000011011", 1); }
      else { assert PREFIX14_J[10].0 == "10001001011100"; DiffersAt(ADDRESS_000000, "10001001011100", 0); }
    }
  }

  lemma Miss000000_PREFIX14_K()
    ensures NoRowMatches(PREFIX14_K, ADDRESS_000000)
  {
    forall i | 0 <= i < |PREFIX14_K|
      ensures !StartsWith(ADDRESS_000000, PREFIX14_K[i].0)
    {
      if i == 0 { assert PREFIX14_K[0].0 == "000001111000"; DiffersAt(ADDRESS_000000, "000001111000", 5); }
      else if i == 1 { assert PREFIX14_K[1].0 == "011101110"; DiffersAt(ADDRESS_000000, "011101110", 1); }
      else if i == 2 { assert PREFIX14_K[2].0 == "000001111100"; DiffersAt(ADDRESS_000000, "000001111100", 5); }
      else if i == 3 { assert PREFIX14_K[3].0 == "000011001000"; DiffersAt(ADDRESS_000000, "000011001000", 4); }
      else if i == 4 { assert PREFIX14_K[4].0 == "00000111101000"; DiffersAt(ADDRESS_000000, "00000111101000", 5); }
      else if i == 5 { assert PREFIX14_K[5].0 == "01010001010100"; DiffersAt(ADDRESS_000000, "01010001010100", 1); }
      else if i == 6 { assert PREFIX14_K[6].0 == "01010001001000"; DiffersAt(ADDRESS_000000, "01010001001000", 1); }
      else if i == 7 { assert PREFIX14_K[7].0 == "000010001000"; DiffersAt(ADDRESS_000000, "000010001000", 4); }
      else if i == 8 { assert PREFIX14_K[8].0 == "11001000110100"; DiffersAt(ADDRESS_000000, "11001000110100", 0); }
      else if i == 9 { assert PREFIX14_K[9].0 == "000011000110"; DiffersAt(ADDRESS_000000, "000011000110", 4); }
      else { assert PREFIX14_K[10].0 == "01100000000110"; DiffersAt(ADDRESS_000000, "01100000000110", 1); }
    }
  }

  lemma Miss000000_PREFIX14_L()
    ensures NoRowMatches(PREFIX14_L, ADDRESS_000000)
  {
    forall i | 0 <= i < |PREFIX14_L|
      ensures !StartsWith(ADDRESS_000000, PREFIX14_L[i].0)
    {
      if i == 0 { assert PREFIX14_L[0].0 == "000001101000"; DiffersAt(ADDRESS_000000, "000001101000", 5); }
      else if i == 1 { assert PREFIX14_L[1].0 == "100010010110"; DiffersAt(ADDRESS_000000, "100010010110", 0); }
      else if i == 2 { assert PREFIX14_L[2].0 == "000010000000"; DiffersAt(ADDRESS_000000, "000010000000", 4); }
      else if i == 3 { assert PREFIX14_L[3].0 == "111010010000"; DiffersAt(ADDRESS_000000, "111010010000", 0); }
      else if i == 4 { assert PREFIX14_L[4].0 == "01010000011111"; DiffersAt(ADDRESS_000000, "01010000011111", 1); }
      else if i == 5 { assert PREFIX14_L[5].0 == "11001001000000"; DiffersAt(ADDRESS_000000, "11001001000000", 0); }
      else if i == 6 { assert PREFIX14_L[6].0 == "100010010000"; DiffersAt(ADDRESS_000000, "100010010000", 0); }
      else if i == 7 { assert PREFIX14_L[7].0 == "000010001010"; DiffersAt(ADDRESS_000000, "000010001010", 4); }
      else if i == 8 { assert PREFIX14_L[8].0 == "00000000010000"; DiffersAt(ADDRESS_000000, "00000000010000", 9); }
      else if i == 9 { assert PREFIX14_L[9].0 == "10001001100100"; DiffersAt(ADDRESS_000000, "10001001100100", 0); }
      else { assert PREFIX14_L[10].0 == "11110000100100"; DiffersAt(ADDRESS_000000, "11110000100100", 0); }
    }
  }

  lemma Miss000000_PREFIX12()
    ensures NoRowMatches(PREFIX12, ADDRESS_000000)
  {
    forall i | 0 <= i < |PREFIX12|
      ensures !StartsWith(ADDRESS_000000, PREFIX12[i].0)
    {
      if i == 0 { assert PREFIX12[0].0 == "011100000000"; DiffersAt(ADDRESS_000000, "011100000000", 1); }
      else if i == 1 { assert PREFIX12[1].0 == "01100000000000"; DiffersAt(ADDRESS_000000, "01100000000000", 1); }
      else if i == 2 { assert PREFIX12[2].0 == "01100000000010"; DiffersAt(ADDRESS_000000, "01100000000010", 1); }
      else if i == 3 { assert PREFIX12[3].0 == "000010101000"; DiffersAt(ADDRESS_000000, "000010101000", 4); }
      else if i == 4 { assert PREFIX12[4].0 == "100010010100"; DiffersAt(ADDRESS_000000, "100010010100", 0); }
      else if i == 5 { assert PREFIX12[5].0 == "011100000010"; DiffersAt(ADDRESS_000000, "011100000010", 1); }
      else { assert PREFIX12[6].0 == "01010001000000"; DiffersAt(ADDRESS_000000, "01010001000000", 1); }
    }
  }

  lemma Miss000000_PREFIX9_A()
    ensures NoRowMatches(PREFIX9_A, ADDRESS_000000)
  {
    forall i | 0 <= i < |PREFIX9_A|
      ensures !StartsWith(ADDRESS_000000, PREFIX9_A[i].0)
    {
      if i == 0 { assert PREFIX9_A[0].0 == "000010100"; DiffersAt(ADDRESS_000000, "000010100", 4); }
      else if i == 1 { assert PREFIX9_A[1].0 == "010001000"; DiffersAt(ADDRESS_000000, "010001000", 1); }
      else if i == 2 { assert PREFIX9_A[2].0 == "010001001"; DiffersAt(ADDRESS_000000, "010001001", 1); }
      else if i == 3 { assert PREFIX9_A[3].0 == "010001010"; DiffersAt(ADDRESS_000000, "010001010", 1); }
      else if i == 4 { assert PREFIX9_A[4].0 == "010001011"; DiffersAt(ADDRESS_000000, "010001011", 1); }
      else if i == 5 { assert PREFIX9_A[5].0 == "010001100"; DiffersAt(ADDRESS_000000, "010001100", 1); }
      else if i == 6 { assert PREFIX9_A[6].0 == "010001101"; DiffersAt(ADDRESS_000000, "010001101", 1); }
      else if i == 7 { assert PREFIX9_A[7].0 == "010001110"; DiffersAt(ADDRESS_000000, "010001110", 1); }
      else { assert PREFIX9_A[8].0 == "010001111"; DiffersAt(ADDRESS_000000, "010001111", 1); }
    }
  }

  lemma Miss000000_PREFIX9_B()
    ensures NoRowMatches(PREFIX9_B, ADDRESS_000000)
  {
    forall i | 0 <= i < |PREFIX9_B|
      ensures !StartsWith(ADDRESS_000000, PREFIX9_B[i].0)
    {
      if i == 0 { assert PREFIX9_B[0].0 == "100010100"; DiffersAt(ADDRESS_000000, "100010100", 0); }
      else if i == 1 { assert PREFIX9_B[1].0 == "010010000"; DiffersAt(ADDRESS_000000, "010010000", 1); }
      else if i == 2 { assert PREFIX9_B[2].0 == "010010001"; DiffersAt(ADDRESS_000000, "010010001", 1); }
      else if i == 3 { assert PREFIX9_B[3].0 == "010010010"; DiffersAt(ADDRESS_000000, "010010010", 1); }
      else if i == 4 { assert PREFIX9_B[4].0 == "010010011"; DiffersAt(ADDRESS_000000, "010010011", 1); }
      else if i == 5 { assert PREFIX9_B[5].0 == "010010100"; DiffersAt(ADDRESS_000000, "010010100", 1); }
      else if i == 6 { assert PREFIX9_B[6].0 == "010010101"; DiffersAt(ADDRESS_000000, "010010101", 1); }
      else if i == 7 { assert PREFIX9_B[7].0 == "010010110"; DiffersAt(ADDRESS_000000, "010010110", 1); }
      else { assert PREFIX9_B[8].0 == "010010111"; DiffersAt(ADDRESS_000000, "010010111", 1); }
    }
  }

  lemma Miss000000_PREFIX9_C()
    ensures NoRowMatches(PREFIX9_C, ADDRESS_000000)
  {
    forall i | 0 <= i < |PREFIX9_C|
      ensures !StartsWith(ADDRESS_000000, PREFIX9_C[i].0)
    {
      if i == 0 { assert PREFIX9_C[0].0 == "110010000"; DiffersAt(ADDRESS_000000, "110010000", 0); }
      else if i == 1 { assert PREFIX9_C[1].0 == "010100001"; DiffersAt(ADDRESS_000000, "010100001", 1); }
      else if i == 2 { assert PREFIX9_C[2].0 == "000011010"; DiffersAt(ADDRESS_000000, "000011010", 4); }
      else if i == 3 { assert PREFIX9_C[3].0 == "000011011"; DiffersAt(ADDRESS_000000, "000011011", 4); }
      else if i == 4 { assert PREFIX9_C[4].0 == "100010000"; DiffersAt(ADDRESS_000000, "100010000", 0); }
      else if i == 5 { assert PREFIX9_C[5].0 == "100010001"; DiffersAt(ADDRESS_000000, "100010001", 0); }
      else if i == 6 { assert PREFIX9_C[6].0 == "010011000"; DiffersAt(ADDRESS_000000, "010011000", 1); }
      else { assert PREFIX9_C[7].0 == "111100000"; DiffersAt(ADDRESS_000000, "111100000", 0); }
    }
  }

  lemma Miss000000_PREFIX6()
    ensures NoRowMatches(PREFIX6, ADDRESS_000000)
  {
    forall i | 0 <= i < |PREFIX6|
      ensures !StartsWith(ADDRESS_000000, PREFIX6[i].0)
    {
      if i == 0 { assert PREFIX6[0].0 == "111000"; DiffersAt(ADDRESS_000000, "111000", 0); }
      else if i == 1 { assert PREFIX6[1].0 == "011111"; DiffersAt(ADDRESS_000000, "011111", 1); }
      else if i == 2 { assert PREFIX6[2].0 == "110000"; DiffersAt(ADDRESS_000000, "110000", 0); }
      else if i == 3 { assert PREFIX6[3].0 == "111001"; DiffersAt(ADDRESS_000000, "111001", 0); }
      else if i == 4 { assert PREFIX6[4].0 == "001110"; DiffersAt(ADDRESS_000000, "001110", 2); }
      else if i == 5 { assert PREFIX6[5].0 == "001111"; DiffersAt(ADDRESS_000000, "001111", 2); }
      else if i == 6 { assert PREFIX6[6].0 == "100000"; DiffersAt(ADDRESS_000000, "100000", 0); }
      else if i == 7 { assert PREFIX6[7].0 == "001100"; DiffersAt(ADDRESS_000000, "001100", 2); }
      else if i == 8 { assert PREFIX6[8].0 == "100001"; DiffersAt(ADDRESS_000000, "100001", 0); }
      else if i == 9 { assert PREFIX6[9].0 == "001101"; DiffersAt(ADDRESS_000000, "001101", 2); }
      else { assert PREFIX6[10].0 == "010000"; DiffersAt(ADDRESS_000000, "010000", 1); }
    }
  }

  lemma Miss000000_PREFIX4()
    ensures NoRowMatches(PREFIX4, ADDRESS_000000)
  {
    forall i | 0 <= i < |PREFIX4|
      ensures !StartsWith(ADDRESS_000000, PREFIX4[i].0)
    {
      if i == 0 { assert PREFIX4[0].0 == "1010"; DiffersAt(ADDRESS_000000, "1010", 0); }
      else { assert PREFIX4[1].0 == "0001"; DiffersAt(ADDRESS_000000, "0001", 3); }
    }
  }

  lemma Miss000000_PREFIX9_MORE()
    ensures NoRowMatches(PREFIX9_MORE, ADDRESS_000000)
  {
    forall i | 0 <= i < |PREFIX9_MORE|
      ensures !StartsWith(ADDRESS_000000, PREFIX9_MORE[i].0)
    {
      if i == 0 { assert PREFIX9_MORE[0].0 == "000000001"; DiffersAt(ADDRESS_000000, "000000001", 8); }
      else if i == 1 { assert PREFIX9_MORE[1].0 == "000000010"; DiffersAt(ADDRESS_000000, "000000010", 7); }
      else if i == 2 { assert PREFIX9_MORE[2].0 == "000000011"; DiffersAt(ADDRESS_000000, "000000011", 7); }
      else if i == 3 { assert PREFIX9_MORE[3].0 == "000000100"; DiffersAt(ADDRESS_000000, "000000100", 6); }
      else if i == 4 { assert PREFIX9_MORE[4].0 == "000000101"; DiffersAt(ADDRESS_000000, "000000101", 6); }
      else { assert PREFIX9_MORE[5].0 == "000010010000"; DiffersAt(ADDRESS_000000, "000010010000", 4); }
    }
  }

  // ---------------------------------------------------------------------
  // The matching rows
  // ---------------------------------------------------------------------

  lemma HitA00001()
    ensures FirstMatch(PREFIX4, ADDRESS_A00001) == Some("US")
  {
    assert PREFIX4[0] == ("1010", "US");
    assert ADDRESS_A00001[..4] == "1010";
    FirstMatchChar(PREFIX4, ADDRESS_A00001, 0);
  }

  lemma HitAB8E4F()
    ensures FirstMatch(PREFIX4, ADDRESS_AB8E4F) == Some("US")
  {
    assert PREFIX4[0] == ("1010", "US");
    assert ADDRESS_AB8E4F[..4] == "1010";
    FirstMatchChar(PREFIX4, ADDRESS_AB8E4F, 0);
  }

  lemma Hit4C0000()
    ensures FirstMatch(PREFIX9_C, ADDRESS_4C0000) == Some("RS")
  {
    forall i | 0 <= i < 6
      ensures !StartsWith(ADDRESS_4C0000, PREFIX9_C[i].0)
    {
      if i == 0 { assert PREFIX9_C[0].0 == "110010000"; DiffersAt(ADDRESS_4C0000, "110010000", 0); }
      else if i == 1 { assert PREFIX9_C[1].0 == "010100001"; DiffersAt(ADDRESS_4C0000, "010100001", 3); }
      else if i == 2 { assert PREFIX9_C[2].0 == "000011010"; DiffersAt(ADDRESS_4C0000, "000011010", 1); }
      else if i == 3 { assert PREFIX9_C[3].0 == "000011011"; DiffersAt(ADDRESS_4C0000, "000011011", 1); }
      else if i == 4 { assert PREFIX9_C[4].0 == "100010000"; DiffersAt(ADDRESS_4C0000, "100010000", 0); }
      else { assert PREFIX9_C[5].0 == "100010001"; DiffersAt(ADDRESS_4C0000, "100010001", 0); }
    }
    assert PREFIX9_C[6] == ("010011000", "RS");
    assert ADDRESS_4C0000[..9] == "010011000";
    FirstMatchChar(PREFIX9_C, ADDRESS_4C0000, 6);
  }

  lemma HitC00001()
    ensures FirstMatch(PREFIX6, ADDRESS_C00001) == Some("CA")
  {
    forall i | 0 <= i < 2
      ensures !StartsWith(ADDRESS_C00001, PREFIX6[i].0)
    {
      if i == 0 { assert PREFIX6[0].0 == "111000"; DiffersAt(ADDRESS_C00001, "111000", 2); }
      else { assert PREFIX6[1].0 == "011111"; DiffersAt(ADDRESS_C00001, "011111", 0); }
    }
    assert PREFIX6[2] == ("110000", "CA");
    assert ADDRESS_C00001[..6] == "110000";
    FirstMatchChar(PREFIX6, ADDRESS_C00001, 2);
  }

  lemma Hit400000()
    ensures FirstMatch(PREFIX6, ADDRESS_400000) == Some("GB")
  {
    forall i | 0 <= i < 10
      ensures !StartsWith(ADDRESS_400000, PREFIX6[i].0)
    {
      if i == 0 { assert PREFIX6[0].0 == "111000"; DiffersAt(ADDRESS_400000, "111000", 0); }
      else if i == 1 { assert PREFIX6[1].0 == "011111"; DiffersAt(ADDRESS_400000, "011111", 2); }
      else if i == 2 { assert PREFIX6[2].0 == "110000"; DiffersAt(ADDRESS_400000, "110000", 0); }
      else if i == 3 { assert PREFIX6[3].0 == "111001"; DiffersAt(ADDRESS_400000, "111001", 0); }
      else if i == 4 { assert PREFIX6[4].0 == "001110"; DiffersAt(ADDRESS_400000, "001110", 1); }
      else if i == 5 { assert PREFIX6[5].0 == "001111"; DiffersAt(ADDRESS_400000, "001111", 1); }
      else if i == 6 { assert PREFIX6[6].0 == "100000"; DiffersAt(ADDRESS_400000, "100000", 0); }
      else if i == 7 { assert PREFIX6[7].0 == "001100"; DiffersAt(ADDRESS_400000, "001100", 1); }
      else if i == 8 { assert PREFIX6[8].0 == "100001"; DiffersAt(ADDRESS_400000, "100001", 0); }
      else { assert PREFIX6[9].0 == "001101"; DiffersAt(ADDRESS_400000, "001101", 1); }
    }
    assert PREFIX6[10] == ("010000", "GB");
    assert ADDRESS_400000[..6] == "010000";
    FirstMatchChar(PREFIX6, ADDRESS_400000, 10);
  }

  lemma Hit100000()
    ensures FirstMatch(PREFIX4, ADDRESS_100000) == Some("RU")
  {
    forall i | 0 <= i < 1
      ensures !StartsWith(ADDRESS_100000, PREFIX4[i].0)
    {
      assert PREFIX4[0].0 == "1010"; DiffersAt(ADDRESS_100000, "1010", 0);
    }
    assert PREFIX4[1] == ("0001", "RU");
    assert ADDRESS_100000[..4] == "0001";
    FirstMatchChar(PREFIX4, ADDRESS_100000, 1);
  }

  lemma HitF00000()
    ensures FirstMatch(PREFIX9_C, ADDRESS_F00000) == Some("ZZ")
  {
    forall i | 0 <= i < 7
      ensures !StartsWith(ADDRESS_F00000, PREFIX9_C[i].0)
    {
      if i == 0 { assert PREFIX9_C[0].0 == "110010000"; DiffersAt(ADDRESS_F00000, "110010000", 2); }
      else if i == 1 { assert PREFIX9_C[1].0 == "010100001"; DiffersAt(ADDRESS_F00000, "010100001", 0); }
      else if i == 2 { assert PREFIX9_C[2].0 == "000011010"; DiffersAt(ADDRESS_F00000, "000011010", 0); }
      else if i == 3 { assert PREFIX9_C[3].0 == "000011011"; DiffersAt(ADDRESS_F00000, "000011011", 0); }
      else if i == 4 { assert PREFIX9_C[4].0 == "100010000"; DiffersAt(ADDRESS_F00000, "100010000", 1); }
      else if i == 5 { assert PREFIX9_C[5].0 == "100010001"; DiffersAt(ADDRESS_F00000, "100010001", 1); }
      else { assert PREFIX9_C[6].0 == "010011000"; DiffersAt(ADDRESS_F00000, "010011000", 0); }
    }
    assert PREFIX9_C[7] == ("111100000", "ZZ");
    assert ADDRESS_F00000[..9] == "111100000";
    FirstMatchChar(PREFIX9_C, ADDRESS_F00000, 7);
  }

  lemma Hit0CA000()
    ensures FirstMatch(PREFIX14_A, ADDRESS_0CA000) == Some("AG")
  {
    assert PREFIX14_A[0] == ("00001100101000", "AG");
    assert ADDRESS_0CA000[..14] == "00001100101000";
    FirstMatchChar(PREFIX14_A, ADDRESS_0CA000, 0);
  }

  // ---------------------------------------------------------------------
  // The whole table, block after block
  // ---------------------------------------------------------------------

  lemma TableLookupA00001()
    ensures FirstMatch(ICAO_ALLOCATIONS, ADDRESS_A00001) == Some("US")
  {
    MissA00001_PREFIX14_A();
    NoRowMatchesMiss(PREFIX14_A, ADDRESS_A00001);
    MissA00001_PREFIX14_B();
    NoRowMatchesMiss(PREFIX14_B, ADDRESS_A00001);
    FirstMatchAppend(PREFIX14_A,
      PREFIX14_B, ADDRESS_A00001);
    MissA00001_PREFIX14_C();
    NoRowMatchesMiss(PREFIX14_C, ADDRESS_A00001);
    FirstMatchAppend(PREFIX14_A + PREFIX14_B,
      PREFIX14_C, ADDRESS_A00001);
    MissA00001_PREFIX14_D();
    NoRowMatchesMiss(PREFIX14_D, ADDRESS_A00001);
    FirstMatchAppend(PREFIX14_A + PREFIX14_B + PREFIX14_C,
      PREFIX14_D, ADDRESS_A00001);
    MissA00001_PREFIX14_E();
    NoRowMatchesMiss(PREFIX14_E, ADDRESS_A00001);
    FirstMatchAppend(PREFIX14_A + PREFIX14_B + PREFIX14_C + PREFIX14_D,
      PREFIX14_E, ADDRESS_A00001);
    MissA00001_PREFIX14_F();
    NoRowMatchesMiss(PREFIX14_F, ADDRESS_A00001);
    FirstMatchAppend(PREFIX14_A + PREFIX14_B + PREFIX14_C + PREFIX14_D + PREFIX14_E,
      PREFIX14_F, ADDRESS_A00001);
    MissA00001_PREFIX14_G();
    NoRowMatchesMiss(PREFIX14_G, ADDRESS_A00001);
    FirstMatchAppend(PREFIX14_A + PREFIX14_B + PREFIX14_C + PREFIX14_D + PREFIX14_E + PREFIX14_F,
      PREFIX14_G, ADDRESS_A00001);
    MissA00001_PREFIX14_H();
    NoRowMatchesMiss(PREFIX14_H, ADDRESS_A00001);
    FirstMatchAppend(PREFIX14_A + PREFIX14_B + PREFIX14_C + PREFIX14_D + PREFIX14_E + PREFIX14_F + PREFIX14_G,
      PREFIX14_H, ADDRESS_A00001);
    MissA00001_PREFIX14_I();
    NoRowMatchesMiss(PREFIX14_I, ADDRESS_A00001);
    FirstMatchAppend(PREFIX14_A + PREFIX14_B + PREFIX14_C + PREFIX14_D + PREFIX14_E + PREFIX14_F + PREFIX14_G + PREFIX14_H,
      PREFIX14_I, ADDRESS_A00001);
    MissA00001_PREFIX14_J();
    NoRowMatchesMiss(PREFIX14_J, ADDRESS_A00001);
    FirstMatchAppend(PREFIX14_A + PREFIX14_B + PREFIX14_C + PREFIX14_D + PREFIX14_E + PREFIX14_F + PREFIX14_G + PREFIX14_H + PREFIX14_I,
      PREFIX14_J, ADDRESS_A00001);
    MissA00001_PREFIX14_K();
    NoRowMatchesMiss(PREFIX14_K, ADDRESS_A00001);
    FirstMatchAppend(PREFIX14_A + PREFIX14_B + PREFIX14_C + PREFIX14_D + PREFIX14_E + PREFIX14_F + PREFIX14_G + PREFIX14_H + PREFIX14_I + PREFIX14_J,
      PREFIX14_K, ADDRESS_A00001);
    MissA00001_PREFIX14_L();
    NoRowMatchesMiss(PREFIX14_L, ADDRESS_A00001);
    FirstMatchAppend(PREFIX14_A + PREFIX14_B + PREFIX14_C + PREFIX14_D + PREFIX14_E + PREFIX14_F + PREFIX14_G + PREFIX14_H + PREFIX14_I + PREFIX14_J + PREFIX14_K,
      PREFIX14_L, ADDRESS_A00001);
    MissA00001_PREFIX12();
    NoRowMatchesMiss(PREFIX12, ADDRESS_A00001);
    FirstMatchAppend(PREFIX14_A + PREFIX14_B + PREFIX14_C + PREFIX14_D + PREFIX14_E + PREFIX14_F + PREFIX14_G + PREFIX14_H + PREFIX14_I + PREFIX14_J + PREFIX14_K + PREFIX14_L,
      PREFIX12, ADDRESS_A00001);
    MissA00001_PREFIX9_A();
    NoRowMatchesMiss(PREFIX9_A, ADDRESS_A00001);
    FirstMatchAppend(PREFIX14_A + PREFIX14_B + PREFIX14_C + PREFIX14_D + PREFIX14_E + PREFIX14_F + PREFIX14_G + PREFIX14_H + PREFIX14_I + PREFIX14_J + PREFIX14_K + PREFIX14_L + PREFIX12,
      PREFIX9_A, ADDRESS_A00001);
    MissA00001_PREFIX9_B();
    NoRowMatchesMiss(PREFIX9_B, ADDRESS_A00001);
    FirstMatchAppend(PREFIX14_A + PREFIX14_B + PREFIX14_C + PREFIX14_D + PREFIX14_E + PREFIX14_F + PREFIX14_G + PREFIX14_H + PREFIX14_I + PREFIX14_J + PREFIX14_K + PREFIX14_L + PREFIX12 + PREFIX9_A,
      PREFIX9_B, ADDRESS_A00001);
    MissA00001_PREFIX9_C();
    NoRowMatchesMiss(PREFIX9_C, ADDRESS_A00001);
    FirstMatchAppend(PREFIX14_A + PREFIX14_B + PREFIX14_C + PREFIX14_D + PREFIX14_E + PREFIX14_F + PREFIX14_G + PREFIX14_H + PREFIX14_I + PREFIX14_J + PREFIX14_K + PREFIX14_L + PREFIX12 + PREFIX9_A + PREFIX9_B,
      PREFIX9_C, ADDRESS_A00001);
    MissA00001_PREFIX6();
    NoRowMatchesMiss(PREFIX6, ADDRESS_A00001);
    FirstMatchAppend(PREFIX14_A + PREFIX14_B + PREFIX14_C + PREFIX14_D + PREFIX14_E + PREFIX14_F + PREFIX14_G + PREFIX14_H + PREFIX14_I + PREFIX14_J + PREFIX14_K + PREFIX14_L + PREFIX12 + PREFIX9_A + PREFIX9_B + PREFIX9_C,
      PREFIX6, ADDRESS_A00001);
    HitA00001();
    FirstMatchAppend(PREFIX14_A + PREFIX14_B + PREFIX14_C + PREFIX14_D + PREFIX14_E + PREFIX14_F + PREFIX14_G + PREFIX14_H + PREFIX14_I + PREFIX14_J + PREFIX14_K + PREFIX14_L + PREFIX12 + PREFIX9_A + PREFIX9_B + PREFIX9_C + PREFIX6,
      PREFIX4, ADDRESS_A00001);
    FirstMatchAppend(PREFIX14_A + PREFIX14_B + PREFIX14_C + PREFIX14_D + PREFIX14_E + PREFIX14_F + PREFIX14_G + PREFIX14_H + PREFIX14_I + PREFIX14_J + PREFIX14_K + PREFIX14_L + PREFIX12 + PREFIX9_A + PREFIX9_B + PREFIX9_C + PREFIX6 + PREFIX4,
      PREFIX9_MORE, ADDRESS_A00001);
  }

  lemma TableLookupAB8E4F()
    ensures FirstMatch(ICAO_ALLOCATIONS, ADDRESS_AB8E4F) == Some("US")
  {
    MissAB8E4F_PREFIX14_A();
    NoRowMatchesMiss(PREFIX14_A, ADDRESS_AB8E4F);
    MissAB8E4F_PREFIX14_B();
    NoRowMatchesMiss(PREFIX14_B, ADDRESS_AB8E4F);
    FirstMatchAppend(PREFIX14_A,
      PREFIX14_B, ADDRESS_AB8E4F);
    MissAB8E4F_PREFIX14_C();
    NoRowMatchesMiss(PREFIX14_C, ADDRESS_AB8E4F);
    FirstMatchAppend(PREFIX14_A + PREFIX14_B,
      PREFIX14_C, ADDRESS_AB8E4F);
    MissAB8E4F_PREFIX14_D();
    NoRowMatchesMiss(PREFIX14_D, ADDRESS_AB8E4F);
    FirstMatchAppend(PREFIX14_A + PREFIX14_B + PREFIX14_C,
      PREFIX14_D, ADDRESS_AB8E4F);
    MissAB8E4F_PREFIX14_E();
    NoRowMatchesMiss(PREFIX14_E, ADDRESS_AB8E4F);
    FirstMatchAppend(PREFIX14_A + PREFIX14_B + PREFIX14_C + PREFIX14_D,
      PREFIX14_E, ADDRESS_AB8E4F);
    MissAB8E4F_PREFIX14_F();
    NoRowMatchesMiss(PREFIX14_F, ADDRESS_AB8E4F);
    FirstMatchAppend(PREFIX14_A + PREFIX14_B + PREFIX14_C + PREFIX14_D + PREFIX14_E,
      PREFIX14_F, ADDRESS_AB8E4F);
    MissAB8E4F_PREFIX14_G();
    NoRowMatchesMiss(PREFIX14_G, ADDRESS_AB8E4F);
    FirstMatchAppend(PREFIX14_A + PREFIX14_B + PREFIX14_C + PREFIX14_D + PREFIX14_E + PREFIX14_F,
      PREFIX14_G, ADDRESS_AB8E4F);
    MissAB8E4F_PREFIX14_H();
    NoRowMatchesMiss(PREFIX14_H, ADDRESS_AB8E4F);
    FirstMatchAppend(PREFIX14_A + PREFIX14_B + PREFIX14_C + PREFIX14_D + PREFIX14_E + PREFIX14_F + PREFIX14_G,
      PREFIX14_H, ADDRESS_AB8E4F);
    MissAB8E4F_PREFIX14_I();
    NoRowMatchesMiss(PREFIX14_I, ADDRESS_AB8E4F);
    FirstMatchAppend(PREFIX14_A + PREFIX14_B + PREFIX14_C + PREFIX14_D + PREFIX14_E + PREFIX14_F + PREFIX14_G + PREFIX14_H,
      PREFIX14_I, ADDRESS_AB8E4F);
    MissAB8E4F_PREFIX14_J();
    NoRowMatchesMiss(PREFIX14_J, ADDRESS_AB8E4F);
    FirstMatchAppend(PREFIX14_A + PREFIX14_B + PREFIX14_C + PREFIX14_D + PREFIX14_E + PREFIX14_F + PREFIX14_G + PREFIX14_H + PREFIX14_I,
      PREFIX14_J, ADDRESS_AB8E4F);
    MissAB8E4F_PREFIX14_K();
    NoRowMatchesMiss(PREFIX14_K, ADDRESS_AB8E4F);
    FirstMatchAppend(PREFIX14_A + PREFIX14_B + PREFIX14_C + PREFIX14_D + PREFIX14_E + PREFIX14_F + PREFIX14_G + PREFIX14_H + PREFIX14_I + PREFIX14_J,
      PREFIX14_K, ADDRESS_AB8E4F);
    MissAB8E4F_PREFIX14_L();
    NoRowMatchesMiss(PREFIX14_L, ADDRESS_AB8E4F);
    FirstMatchAppend(PREFIX14_A + PREFIX14_B + PREFIX14_C + PREFIX14_D + PREFIX14_E + PREFIX14_F + PREFIX14_G + PREFIX14_H + PREFIX14_I + PREFIX14_J + PREFIX14_K,
      PREFIX14_L, ADDRESS_AB8E4F);
    MissAB8E4F_PREFIX12();
    NoRowMatchesMiss(PREFIX12, ADDRESS_AB8E4F);
    FirstMatchAppend(PREFIX14_A + PREFIX14_B + PREFIX14_C + PREFIX14_D + PREFIX14_E + PREFIX14_F + PREFIX14_G + PREFIX14_H + PREFIX14_I + PREFIX14_J + PREFIX14_K + PREFIX14_L,
      PREFIX12, ADDRESS_AB8E4F);
    MissAB8E4F_PREFIX9_A();
    NoRowMatchesMiss(PREFIX9_A, ADDRESS_AB8E4F);
    FirstMatchAppend(PREFIX14_A + PREFIX14_B + PREFIX14_C + PREFIX14_D + PREFIX14_E + PREFIX14_F + PREFIX14_G + PREFIX14_H + PREFIX14_I + PREFIX14_J + PREFIX14_K + PREFIX14_L + PREFIX12,
      PREFIX9_A, ADDRESS_AB8E4F);
    MissAB8E4F_PREFIX9_B();
    NoRowMatchesMiss(PREFIX9_B, ADDRESS_AB8E4F);
    FirstMatchAppend(PREFIX14_A + PREFIX14_B + PREFIX14_C + PREFIX14_D + PREFIX14_E + PREFIX14_F + PREFIX14_G + PREFIX14_H + PREFIX14_I + PREFIX14_J + PREFIX14_K + PREFIX14_L + PREFIX12 + PREFIX9_A,
      PREFIX9_B, ADDRESS_AB8E4F);
    MissAB8E4F_PREFIX9_C();
    NoRowMatchesMiss(PREFIX9_C, ADDRESS_AB8E4F);
    FirstMatchAppend(PREFIX14_A + PREFIX14_B + PREFIX14_C + PREFIX14_D + PREFIX14_E + PREFIX14_F + PREFIX14_G + PREFIX14_H + PREFIX14_I + PREFIX14_J + PREFIX14_K + PREFIX14_L + PREFIX12 + PREFIX9_A + PREFIX9_B,
      PREFIX9_C, ADDRESS_AB8E4F);
    MissAB8E4F_PREFIX6();
    NoRowMatchesMiss(PREFIX6, ADDRESS_AB8E4F);
    FirstMatchAppend(PREFIX14_A + PREFIX14_B + PREFIX14_C + PREFIX14_D + PREFIX14_E + PREFIX14_F + PREFIX14_G + PREFIX14_H + PREFIX14_I + PREFIX14_J + PREFIX14_K + PREFIX14_L + PREFIX12 + PREFIX9_A + PREFIX9_B + PREFIX9_C,
      PREFIX6, ADDRESS_AB8E4F);
    HitAB8E4F();
    FirstMatchAppend(PREFIX14_A + PREFIX14_B + PREFIX14_C + PREFIX14_D + PREFIX14_E + PREFIX14_F + PREFIX14_G + PREFIX14_H + PREFIX14_I + PREFIX14_J + PREFIX14_K + PREFIX14_L + PREFIX12 + PREFIX9_A + PREFIX9_B + PREFIX9_C + PREFIX6,
      PREFIX4, ADDRESS_AB8E4F);
    FirstMatchAppend(PREFIX14_A + PREFIX14_B + PREFIX14_C + PREFIX14_D + PREFIX14_E + PREFIX14_F + PREFIX14_G + PREFIX14_H + PREFIX14_I + PREFIX14_J + PREFIX14_K + PREFIX14_L + PREFIX12 + PREFIX9_A + PREFIX9_B + PREFIX9_C + PREFIX6 + PREFIX4,
      PREFIX9_MORE, ADDRESS_AB8E4F);
  }

  lemma TableLookup4C0000()
    ensures FirstMatch(ICAO_ALLOCATIONS, ADDRESS_4C0000) == Some("RS")
  {
    Miss4C0000_PREFIX14_A();
    NoRowMatchesMiss(PREFIX14_A, ADDRESS_4C0000);
    Miss4C0000_PREFIX14_B();
    NoRowMatchesMiss(PREFIX14_B, ADDRESS_4C0000);
    FirstMatchAppend(PREFIX14_A,
      PREFIX14_B, ADDRESS_4C0000);
    Miss4C0000_PREFIX14_C();
    NoRowMatchesMiss(PREFIX14_C, ADDRESS_4C0000);
    FirstMatchAppend(PREFIX14_A + PREFIX14_B,
      PREFIX14_C, ADDRESS_4C0000);
    Miss4C0000_PREFIX14_D();
    NoRowMatchesMiss(PREFIX14_D, ADDRESS_4C0000);
    FirstMatchAppend(PREFIX14_A + PREFIX14_B + PREFIX14_C,
      PREFIX14_D, ADDRESS_4C0000);
    Miss4C0000_PREFIX14_E();
    NoRowMatchesMiss(PREFIX14_E, ADDRESS_4C0000);
    FirstMatchAppend(PREFIX14_A + PREFIX14_B + PREFIX14_C + PREFIX14_D,
      PREFIX14_E, ADDRESS_4C0000);
    Miss4C0000_PREFIX14_F();
    NoRowMatchesMiss(PREFIX14_F, ADDRESS_4C0000);
    FirstMatchAppend(PREFIX14_A + PREFIX14_B + PREFIX14_C + PREFIX14_D + PREFIX14_E,
      PREFIX14_F, ADDRESS_4C0000);
    Miss4C0000_PREFIX14_G();
    NoRowMatchesMiss(PREFIX14_G, ADDRESS_4C0000);
    FirstMatchAppend(PREFIX14_A + PREFIX14_B + PREFIX14_C + PREFIX14_D + PREFIX14_E + PREFIX14_F,
      PREFIX14_G, ADDRESS_4C0000);
    Miss4C0000_PREFIX14_H();
    NoRowMatchesMiss(PREFIX14_H, ADDRESS_4C0000);
    FirstMatchAppend(PREFIX14_A + PREFIX14_B + PREFIX14_C + PREFIX14_D + PREFIX14_E + PREFIX14_F + PREFIX14_G,
      PREFIX14_H, ADDRESS_4C0000);
    Miss4C0000_PREFIX14_I();
    NoRowMatchesMiss(PREFIX14_I, ADDRESS_4C0000);
    FirstMatchAppend(PREFIX14_A + PREFIX14_B + PREFIX14_C + PREFIX14_D + PREFIX14_E + PREFIX14_F + PREFIX14_G + PREFIX14_H,
      PREFIX14_I, ADDRESS_4C0000);
    Miss4C0000_PREFIX14_J();
    NoRowMatchesMiss(PREFIX14_J, ADDRESS_4C0000);
    FirstMatchAppend(PREFIX14_A + PREFIX14_B + PREFIX14_C + PREFIX14_D + PREFIX14_E + PREFIX14_F + PREFIX14_G + PREFIX14_H + PREFIX14_I,
      PREFIX14_J, ADDRESS_4C0000);
    Miss4C0000_PREFIX14_K();
    NoRowMatchesMiss(PREFIX14_K, ADDRESS_4C0000);
    FirstMatchAppend(PREFIX14_A + PREFIX14_B + PREFIX14_C + PREFIX14_D + PREFIX14_E + PREFIX14_F + PREFIX14_G + PREFIX14_H + PREFIX14_I + PREFIX14_J,
      PREFIX14_K, ADDRESS_4C0000);
    Miss4C0000_PREFIX14_L();
    NoRowMatchesMiss(PREFIX14_L, ADDRESS_4C0000);
    FirstMatchAppend(PREFIX14_A + PREFIX14_B + PREFIX14_C + PREFIX14_D + PREFIX14_E + PREFIX14_F + PREFIX14_G + PREFIX14_H + PREFIX14_I + PREFIX14_J + PREFIX14_K,
      PREFIX14_L, ADDRESS_4C0000);
    Miss4C0000_PREFIX12();
    NoRowMatchesMiss(PREFIX12, ADDRESS_4C0000);
    FirstMatchAppend(PREFIX14_A + PREFIX14_B + PREFIX14_C + PREFIX14_D + PREFIX14_E + PREFIX14_F + PREFIX14_G + PREFIX14_H + PREFIX14_I + PREFIX14_J + PREFIX14_K + PREFIX14_L,
      PREFIX12, ADDRESS_4C0000);
    Miss4C0000_PREFIX9_A();
    NoRowMatchesMiss(PREFIX9_A, ADDRESS_4C0000);
    FirstMatchAppend(PREFIX14_A + PREFIX14_B + PREFIX14_C + PREFIX14_D + PREFIX14_E + PREFIX14_F + PREFIX14_G + PREFIX14_H + PREFIX14_I + PREFIX14_J + PREFIX14_K + PREFIX14_L + PREFIX12,
      PREFIX9_A, ADDRESS_4C0000);
    Miss4C0000_PREFIX9_B();
    NoRowMatchesMiss(PREFIX9_B, ADDRESS_4C0000);
    FirstMatchAppend(PREFIX14_A + PREFIX14_B + PREFIX14_C + PREFIX14_D + PREFIX14_E + PREFIX14_F + PREFIX14_G + PREFIX14_H + PREFIX14_I + PREFIX14_J + PREFIX14_K + PREFIX14_L + PREFIX12 + PREFIX9_A,
      PREFIX9_B, ADDRESS_4C0000);
    Hit4C0000();
    FirstMatchAppend(PREFIX14_A + PREFIX14_B + PREFIX14_C + PREFIX14_D + PREFIX14_E + PREFIX14_F + PREFIX14_G + PREFIX14_H + PREFIX14_I + PREFIX14_J + PREFIX14_K + PREFIX14_L + PREFIX12 + PREFIX9_A + PREFIX9_B,
      PREFIX9_C, ADDRESS_4C0000);
    FirstMatchAppend(PREFIX14_A + PREFIX14_B + PREFIX14_C + PREFIX14_D + PREFIX14_E + PREFIX14_F + PREFIX14_G + PREFIX14_H + PREFIX14_I + PREFIX14_J + PREFIX14_K + PREFIX14_L + PREFIX12 + PREFIX9_A + PREFIX9_B + PREFIX9_C,
      PREFIX6, ADDRESS_4C0000);
    FirstMatchAppend(PREFIX14_A + PREFIX14_B + PREFIX14_C + PREFIX14_D + PREFIX14_E + PREFIX14_F + PREFIX14_G + PREFIX14_H + PREFIX14_I + PREFIX14_J + PREFIX14_K + PREFIX14_L + PREFIX12 + PREFIX9_A + PREFIX9_B + PREFIX9_C + PREFIX6,
      PREFIX4, ADDRESS_4C0000);
    FirstMatchAppend(PREFIX14_A + PREFIX14_B + PREFIX14_C + PREFIX14_D + PREFIX14_E + PREFIX14_F + PREFIX14_G + PREFIX14_H + PREFIX14_I + PREFIX14_J + PREFIX14_K + PREFIX14_L + PREFIX12 + PREFIX9_A + PREFIX9_B + PREFIX9_C + PREFIX6 + PREFIX4,
      PREFIX9_MORE, ADDRESS_4C0000);
  }

  lemma TableLookupC00001()
    ensures FirstMatch(ICAO_ALLOCATIONS, ADDRESS_C00001) == Some("CA")
  {
    MissC00001_PREFIX14_A();
    NoRowMatchesMiss(PREFIX14_A, ADDRESS_C00001);
    MissC00001_PREFIX14_B();
    NoRowMatchesMiss(PREFIX14_B, ADDRESS_C00001);
    FirstMatchAppend(PREFIX14_A,
      PREFIX14_B, ADDRESS_C00001);
    MissC00001_PREFIX14_C();
    NoRowMatchesMiss(PREFIX14_C, ADDRESS_C00001);
    FirstMatchAppend(PREFIX14_A + PREFIX14_B,
      PREFIX14_C, ADDRESS_C00001);
    MissC00001_PREFIX14_D();
    NoRowMatchesMiss(PREFIX14_D, ADDRESS_C00001);
    FirstMatchAppend(PREFIX14_A + PREFIX14_B + PREFIX14_C,
      PREFIX14_D, ADDRESS_C00001);
    MissC00001_PREFIX14_E();
    NoRowMatchesMiss(PREFIX14_E, ADDRESS_C00001);
    FirstMatchAppend(PREFIX14_A + PREFIX14_B + PREFIX14_C + PREFIX14_D,
      PREFIX14_E, ADDRESS_C00001);
    MissC00001_PREFIX14_F();
    NoRowMatchesMiss(PREFIX14_F, ADDRESS_C00001);
    FirstMatchAppend(PREFIX14_A + PREFIX14_B + PREFIX14_C + PREFIX14_D + PREFIX14_E,
      PREFIX14_F, ADDRESS_C00001);
    MissC00001_PREFIX14_G();
    NoRowMatchesMiss(PREFIX14_G, ADDRESS_C00001);
    FirstMatchAppend(PREFIX14_A + PREFIX14_B + PREFIX14_C + PREFIX14_D + PREFIX14_E + PREFIX14_F,
      PREFIX14_G, ADDRESS_C00001);
    MissC00001_PREFIX14_H();
    NoRowMatchesMiss(PREFIX14_H, ADDRESS_C00001);
    FirstMatchAppend(PREFIX14_A + PREFIX14_B + PREFIX14_C + PREFIX14_D + PREFIX14_E + PREFIX14_F + PREFIX14_G,
      PREFIX14_H, ADDRESS_C00001);
    MissC00001_PREFIX14_I();
    NoRowMatchesMiss(PREFIX14_I, ADDRESS_C00001);
    FirstMatchAppend(PREFIX14_A + PREFIX14_B + PREFIX14_C + PREFIX14_D + PREFIX14_E + PREFIX14_F + PREFIX14_G + PREFIX14_H,
      PREFIX14_I, ADDRESS_C00001);
    MissC00001_PREFIX14_J();
    NoRowMatchesMiss(PREFIX14_J, ADDRESS_C00001);
    FirstMatchAppend(PREFIX14_A + PREFIX14_B + PREFIX14_C + PREFIX14_D + PREFIX14_E + PREFIX14_F + PREFIX14_G + PREFIX14_H + PREFIX14_I,
      PREFIX14_J, ADDRESS_C00001);
    MissC00001_PREFIX14_K();
    NoRowMatchesMiss(PREFIX14_K, ADDRESS_C00001);
    FirstMatchAppend(PREFIX14_A + PREFIX14_B + PREFIX14_C + PREFIX14_D + PREFIX14_E + PREFIX14_F + PREFIX14_G + PREFIX14_H + PREFIX14_I + PREFIX14_J,
      PREFIX14_K, ADDRESS_C00001);
    MissC00001_PREFIX14_L();
    NoRowMatchesMiss(PREFIX14_L, ADDRESS_C00001);
    FirstMatchAppend(PREFIX14_A + PREFIX14_B + PREFIX14_C + PREFIX14_D + PREFIX14_E + PREFIX14_F + PREFIX14_G + PREFIX14_H + PREFIX14_I + PREFIX14_J + PREFIX14_K,
      PREFIX14_L, ADDRESS_C00001);
    MissC00001_PREFIX12();
    NoRowMatchesMiss(PREFIX12, ADDRESS_C00001);
    FirstMatchAppend(PREFIX14_A + PREFIX14_B + PREFIX14_C + PREFIX14_D + PREFIX14_E + PREFIX14_F + PREFIX14_G + PREFIX14_H + PREFIX14_I + PREFIX14_J + PREFIX14_K + PREFIX14_L,
      PREFIX12, ADDRESS_C00001);
    MissC00001_PREFIX9_A();
    NoRowMatchesMiss(PREFIX9_A, ADDRESS_C00001);
    FirstMatchAppend(PREFIX14_A + PREFIX14_B + PREFIX14_C + PREFIX14_D + PREFIX14_E + PREFIX14_F + PREFIX14_G + PREFIX14_H + PREFIX14_I + PREFIX14_J + PREFIX14_K + PREFIX14_L + PREFIX12,
      PREFIX9_A, ADDRESS_C00001);
    MissC00001_PREFIX9_B();
    NoRowMatchesMiss(PREFIX9_B, ADDRESS_C00001);
    FirstMatchAppend(PREFIX14_A + PREFIX14_B + PREFIX14_C + PREFIX14_D + PREFIX14_E + PREFIX14_F + PREFIX14_G + PREFIX14_H + PREFIX14_I + PREFIX14_J + PREFIX14_K + PREFIX14_L + PREFIX12 + PREFIX9_A,
      PREFIX9_B, ADDRESS_C00001);
    MissC00001_PREFIX9_C();
    NoRowMatchesMiss(PREFIX9_C, ADDRESS_C00001);
    FirstMatchAppend(PREFIX14_A + PREFIX14_B + PREFIX14_C + PREFIX14_D + PREFIX14_E + PREFIX14_F + PREFIX14_G + PREFIX14_H + PREFIX14_I + PREFIX14_J + PREFIX14_K + PREFIX14_L + PREFIX12 + PREFIX9_A + PREFIX9_B,
      PREFIX9_C, ADDRESS_C00001);
    HitC00001();
    FirstMatchAppend(PREFIX14_A + PREFIX14_B + PREFIX14_C + PREFIX14_D + PREFIX14_E + PREFIX14_F + PREFIX14_G + PREFIX14_H + PREFIX14_I + PREFIX14_J + PREFIX14_K + PREFIX14_L + PREFIX12 + PREFIX9_A + PREFIX9_B + PREFIX9_C,
      PREFIX6, ADDRESS_C00001);
    FirstMatchAppend(PREFIX14_A + PREFIX14_B + PREFIX14_C + PREFIX14_D + PREFIX14_E + PREFIX14_F + PREFIX14_G + PREFIX14_H + PREFIX14_I + PREFIX14_J + PREFIX14_K + PREFIX14_L + PREFIX12 + PREFIX9_A + PREFIX9_B + PREFIX9_C + PREFIX6,
      PREFIX4, ADDRESS_C00001);
    FirstMatchAppend(PREFIX14_A + PREFIX14_B + PREFIX14_C + PREFIX14_D + PREFIX14_E + PREFIX14_F + PREFIX14_G + PREFIX14_H + PREFIX14_I + PREFIX14_J + PREFIX14_K + PREFIX14_L + PREFIX12 + PREFIX9_A + PREFIX9_B + PREFIX9_C + PREFIX6 + PREFIX4,
      PREFIX9_MORE, ADDRESS_C00001);
  }

  lemma TableLookup400000()
    ensures FirstMatch(ICAO_ALLOCATIONS, ADDRESS_400000) == Some("GB")
  {
    Miss400000_PREFIX14_A();
    NoRowMatchesMiss(PREFIX14_A, ADDRESS_400000);
    Miss400000_PREFIX14_B();
    NoRowMatchesMiss(PREFIX14_B, ADDRESS_400000);
    FirstMatchAppend(PREFIX14_A,
      PREFIX14_B, ADDRESS_400000);
    Miss400000_PREFIX14_C();
    NoRowMatchesMiss(PREFIX14_C, ADDRESS_400000);
    FirstMatchAppend(PREFIX14_A + PREFIX14_B,
      PREFIX14_C, ADDRESS_400000);
    Miss400000_PREFIX14_D();
    NoRowMatchesMiss(PREFIX14_D, ADDRESS_400000);
    FirstMatchAppend(PREFIX14_A + PREFIX14_B + PREFIX14_C,
      PREFIX14_D, ADDRESS_400000);
    Miss400000_PREFIX14_E();
    NoRowMatchesMiss(PREFIX14_E, ADDRESS_400000);
    FirstMatchAppend(PREFIX14_A + PREFIX14_B + PREFIX14_C + PREFIX14_D,
      PREFIX14_E, ADDRESS_400000);
    Miss400000_PREFIX14_F();
    NoRowMatchesMiss(PREFIX14_F, ADDRESS_400000);
    FirstMatchAppend(PREFIX14_A + PREFIX14_B + PREFIX14_C + PREFIX14_D + PREFIX14_E,
      PREFIX14_F, ADDRESS_400000);
    Miss400000_PREFIX14_G();
    NoRowMatchesMiss(PREFIX14_G, ADDRESS_400000);
    FirstMatchAppend(PREFIX14_A + PREFIX14_B + PREFIX14_C + PREFIX14_D + PREFIX14_E + PREFIX14_F,
      PREFIX14_G, ADDRESS_400000);
    Miss400000_PREFIX14_H();
    NoRowMatchesMiss(PREFIX14_H, ADDRESS_400000);
    FirstMatchAppend(PREFIX14_A + PREFIX14_B + PREFIX14_C + PREFIX14_D + PREFIX14_E + PREFIX14_F + PREFIX14_G,
      PREFIX14_H, ADDRESS_400000);
    Miss400000_PREFIX14_I();
    NoRowMatchesMiss(PREFIX14_I, ADDRESS_400000);
    FirstMatchAppend(PREFIX14_A + PREFIX14_B + PREFIX14_C + PREFIX14_D + PREFIX14_E + PREFIX14_F + PREFIX14_G + PREFIX14_H,
      PREFIX14_I, ADDRESS_400000);
    Miss400000_PREFIX14_J();
    NoRowMatchesMiss(PREFIX14_J, ADDRESS_400000);
    FirstMatchAppend(PREFIX14_A + PREFIX14_B + PREFIX14_C + PREFIX14_D + PREFIX14_E + PREFIX14_F + PREFIX14_G + PREFIX14_H + PREFIX14_I,
      PREFIX14_J, ADDRESS_400000);
    Miss400000_PREFIX14_K();
    NoRowMatchesMiss(PREFIX14_K, ADDRESS_400000);
    FirstMatchAppend(PREFIX14_A + PREFIX14_B + PREFIX14_C + PREFIX14_D + PREFIX14_E + PREFIX14_F + PREFIX14_G + PREFIX14_H + PREFIX14_I + PREFIX14_J,
      PREFIX14_K, ADDRESS_400000);
    Miss400000_PREFIX14_L();
    NoRowMatchesMiss(PREFIX14_L, ADDRESS_400000);
    FirstMatchAppend(PREFIX14_A + PREFIX14_B + PREFIX14_C + PREFIX14_D + PREFIX14_E + PREFIX14_F + PREFIX14_G + PREFIX14_H + PREFIX14_I + PREFIX14_J + PREFIX14_K,
      PREFIX14_L, ADDRESS_400000);
    Miss400000_PREFIX12();
    NoRowMatchesMiss(PREFIX12, ADDRESS_400000);
    FirstMatchAppend(PREFIX14_A + PREFIX14_B + PREFIX14_C + PREFIX14_D + PREFIX14_E + PREFIX14_F + PREFIX14_G + PREFIX14_H + PREFIX14_I + PREFIX14_J + PREFIX14_K + PREFIX14_L,
      PREFIX12, ADDRESS_400000);
    Miss400000_PREFIX9_A();
    NoRowMatchesMiss(PREFIX9_A, ADDRESS_400000);
    FirstMatchAppend(PREFIX14_A + PREFIX14_B + PREFIX14_C + PREFIX14_D + PREFIX14_E + PREFIX14_F + PREFIX14_G + PREFIX14_H + PREFIX14_I + PREFIX14_J + PREFIX14_K + PREFIX14_L + PREFIX12,
      PREFIX9_A, ADDRESS_400000);
    Miss400000_PREFIX9_B();
    NoRowMatchesMiss(PREFIX9_B, ADDRESS_400000);
    FirstMatchAppend(PREFIX14_A + PREFIX14_B + PREFIX14_C + PREFIX14_D + PREFIX14_E + PREFIX14_F + PREFIX14_G + PREFIX14_H + PREFIX14_I + PREFIX14_J + PREFIX14_K + PREFIX14_L + PREFIX12 + PREFIX9_A,
      PREFIX9_B, ADDRESS_400000);
    Miss400000_PREFIX9_C();
    NoRowMatchesMiss(PREFIX9_C, ADDRESS_400000);
    FirstMatchAppend(PREFIX14_A + PREFIX14_B + PREFIX14_C + PREFIX14_D + PREFIX14_E + PREFIX14_F + PREFIX14_G + PREFIX14_H + PREFIX14_I + PREFIX14_J + PREFIX14_K + PREFIX14_L + PREFIX12 + PREFIX9_A + PREFIX9_B,
      PREFIX9_C, ADDRESS_400000);
    Hit400000();
    FirstMatchAppend(PREFIX14_A + PREFIX14_B + PREFIX14_C + PREFIX14_D + PREFIX14_E + PREFIX14_F + PREFIX14_G + PREFIX14_H + PREFIX14_I + PREFIX14_J + PREFIX14_K + PREFIX14_L + PREFIX12 + PREFIX9_A + PREFIX9_B + PREFIX9_C,
      PREFIX6, ADDRESS_400000);
    FirstMatchAppend(PREFIX14_A + PREFIX14_B + PREFIX14_C + PREFIX14_D + PREFIX14_E + PREFIX14_F + PREFIX14_G + PREFIX14_H + PREFIX14_I + PREFIX14_J + PREFIX14_K + PREFIX14_L + PREFIX12 + PREFIX9_A + PREFIX9_B + PREFIX9_C + PREFIX6,
      PREFIX4, ADDRESS_400000);
    FirstMatchAppend(PREFIX14_A + PREFIX14_B + PREFIX14_C + PREFIX14_D + PREFIX14_E + PREFIX14_F + PREFIX14_G + PREFIX14_H + PREFIX14_I + PREFIX14_J + PREFIX14_K + PREFIX14_L + PREFIX12 + PREFIX9_A + PREFIX9_B + PREFIX9_C + PREFIX6 + PREFIX4,
      PREFIX9_MORE, ADDRESS_400000);
  }

  lemma TableLookup100000()
    ensures FirstMatch(ICAO_ALLOCATIONS, ADDRESS_100000) == Some("RU")
  {
    Miss100000_PREFIX14_A();
    NoRowMatchesMiss(PREFIX14_A, ADDRESS_100000);
    Miss100000_PREFIX14_B();
    NoRowMatchesMiss(PREFIX14_B, ADDRESS_100000);
    FirstMatchAppend(PREFIX14_A,
      PREFIX14_B, ADDRESS_100000);
    Miss100000_PREFIX14_C();
    NoRowMatchesMiss(PREFIX14_C, ADDRESS_100000);
    FirstMatchAppend(PREFIX14_A + PREFIX14_B,
      PREFIX14_C, ADDRESS_100000);
    Miss100000_PREFIX14_D();
    NoRowMatchesMiss(PREFIX14_D, ADDRESS_100000);
    FirstMatchAppend(PREFIX14_A + PREFIX14_B + PREFIX14_C,
      PREFIX14_D, ADDRESS_100000);
    Miss100000_PREFIX14_E();
    NoRowMatchesMiss(PREFIX14_E, ADDRESS_100000);
    FirstMatchAppend(PREFIX14_A + PREFIX14_B + PREFIX14_C + PREFIX14_D,
      PREFIX14_E, ADDRESS_100000);
    Miss100000_PREFIX14_F();
    NoRowMatchesMiss(PREFIX14_F, ADDRESS_100000);
    FirstMatchAppend(PREFIX14_A + PREFIX14_B + PREFIX14_C + PREFIX14_D + PREFIX14_E,
      PREFIX14_F, ADDRESS_100000);
    Miss100000_PREFIX14_G();
    NoRowMatchesMiss(PREFIX14_G, ADDRESS_100000);
    FirstMatchAppend(PREFIX14_A + PREFIX14_B + PREFIX14_C + PREFIX14_D + PREFIX14_E + PREFIX14_F,
      PREFIX14_G, ADDRESS_100000);
    Miss100000_PREFIX14_H();
    NoRowMatchesMiss(PREFIX14_H, ADDRESS_100000);
    FirstMatchAppend(PREFIX14_A + PREFIX14_B + PREFIX14_C + PREFIX14_D + PREFIX14_E + PREFIX14_F + PREFIX14_G,
      PREFIX14_H, ADDRESS_100000);
    Miss100000_PREFIX14_I();
    NoRowMatchesMiss(PREFIX14_I, ADDRESS_100000);
    FirstMatchAppend(PREFIX14_A + PREFIX14_B + PREFIX14_C + PREFIX14_D + PREFIX14_E + PREFIX14_F + PREFIX14_G + PREFIX14_H,
      PREFIX14_I, ADDRESS_100000);
    Miss100000_PREFIX14_J();
    NoRowMatchesMiss(PREFIX14_J, ADDRESS_100000);
    FirstMatchAppend(PREFIX14_A + PREFIX14_B + PREFIX14_C + PREFIX14_D + PREFIX14_E + PREFIX14_F + PREFIX14_G + PREFIX14_H + PREFIX14_I,
      PREFIX14_J, ADDRESS_100000);
    Miss100000_PREFIX14_K();
    NoRowMatchesMiss(PREFIX14_K, ADDRESS_100000);
    FirstMatchAppend(PREFIX14_A + PREFIX14_B + PREFIX14_C + PREFIX14_D + PREFIX14_E + PREFIX14_F + PREFIX14_G + PREFIX14_H + PREFIX14_I + PREFIX14_J,
      PREFIX14_K, ADDRESS_100000);
    Miss100000_PREFIX14_L();
    NoRowMatchesMiss(PREFIX14_L, ADDRESS_100000);
    FirstMatchAppend(PREFIX14_A + PREFIX14_B + PREFIX14_C + PREFIX14_D + PREFIX14_E + PREFIX14_F + PREFIX14_G + PREFIX14_H + PREFIX14_I + PREFIX14_J + PREFIX14_K,
      PREFIX14_L, ADDRESS_100000);
    Miss100000_PREFIX12();
    NoRowMatchesMiss(PREFIX12, ADDRESS_100000);
    FirstMatchAppend(PREFIX14_A + PREFIX14_B + PREFIX14_C + PREFIX14_D + PREFIX14_E + PREFIX14_F + PREFIX14_G + PREFIX14_H + PREFIX14_I + PREFIX14_J + PREFIX14_K + PREFIX14_L,
      PREFIX12, ADDRESS_100000);
    Miss100000_PREFIX9_A();
    NoRowMatchesMiss(PREFIX9_A, ADDRESS_100000);
    FirstMatchAppend(PREFIX14_A + PREFIX14_B + PREFIX14_C + PREFIX14_D + PREFIX14_E + PREFIX14_F + PREFIX14_G + PREFIX14_H + PREFIX14_I + PREFIX14_J + PREFIX14_K + PREFIX14_L + PREFIX12,
      PREFIX9_A, ADDRESS_100000);
    Miss100000_PREFIX9_B();
    NoRowMatchesMiss(PREFIX9_B, ADDRESS_100000);
    FirstMatchAppend(PREFIX14_A + PREFIX14_B + PREFIX14_C + PREFIX14_D + PREFIX14_E + PREFIX14_F + PREFIX14_G + PREFIX14_H + PREFIX14_I + PREFIX14_J + PREFIX14_K + PREFIX14_L + PREFIX12 + PREFIX9_A,
      PREFIX9_B, ADDRESS_100000);
    Miss100000_PREFIX9_C();
    NoRowMatchesMiss(PREFIX9_C, ADDRESS_100000);
    FirstMatchAppend(PREFIX14_A + PREFIX14_B + PREFIX14_C + PREFIX14_D + PREFIX14_E + PREFIX14_F + PREFIX14_G + PREFIX14_H + PREFIX14_I + PREFIX14_J + PREFIX14_K + PREFIX14_L + PREFIX12 + PREFIX9_A + PREFIX9_B,
      PREFIX9_C, ADDRESS_100000);
    Miss100000_PREFIX6();
    NoRowMatchesMiss(PREFIX6, ADDRESS_100000);
    FirstMatchAppend(PREFIX14_A + PREFIX14_B + PREFIX14_C + PREFIX14_D + PREFIX14_E + PREFIX14_F + PREFIX14_G + PREFIX14_H + PREFIX14_I + PREFIX14_J + PREFIX14_K + PREFIX14_L + PREFIX12 + PREFIX9_A + PREFIX9_B + PREFIX9_C,
      PREFIX6, ADDRESS_100000);
    Hit100000();
    FirstMatchAppend(PREFIX14_A + PREFIX14_B + PREFIX14_C + PREFIX14_D + PREFIX14_E + PREFIX14_F + PREFIX14_G + PREFIX14_H + PREFIX14_I + PREFIX14_J + PREFIX14_K + PREFIX14_L + PREFIX12 + PREFIX9_A + PREFIX9_B + PREFIX9_C + PREFIX6,
      PREFIX4, ADDRESS_100000);
    FirstMatchAppend(PREFIX14_A + PREFIX14_B + PREFIX14_C + PREFIX14_D + PREFIX14_E + PREFIX14_F + PREFIX14_G + PREFIX14_H + PREFIX14_I + PREFIX14_J + PREFIX14_K + PREFIX14_L + PREFIX12 + PREFIX9_A + PREFIX9_B + PREFIX9_C + PREFIX6 + PREFIX4,
      PREFIX9_MORE, ADDRESS_100000);
  }

  lemma TableLookupF00000()
    ensures FirstMatch(ICAO_ALLOCATIONS, ADDRESS_F00000) == Some("ZZ")
  {
    MissF00000_PREFIX14_A();
    NoRowMatchesMiss(PREFIX14_A, ADDRESS_F00000);
    MissF00000_PREFIX14_B();
    NoRowMatchesMiss(PREFIX14_B, ADDRESS_F00000);
    FirstMatchAppend(PREFIX14_A,
      PREFIX14_B, ADDRESS_F00000);
    MissF00000_PREFIX14_C();
    NoRowMatchesMiss(PREFIX14_C, ADDRESS_F00000);
    FirstMatchAppend(PREFIX14_A + PREFIX14_B,
      PREFIX14_C, ADDRESS_F00000);
    MissF00000_PREFIX14_D();
    NoRowMatchesMiss(PREFIX14_D, ADDRESS_F00000);
    FirstMatchAppend(PREFIX14_A + PREFIX14_B + PREFIX14_C,
      PREFIX14_D, ADDRESS_F00000);
    MissF00000_PREFIX14_E();
    NoRowMatchesMiss(PREFIX14_E, ADDRESS_F00000);
    FirstMatchAppend(PREFIX14_A + PREFIX14_B + PREFIX14_C + PREFIX14_D,
      PREFIX14_E, ADDRESS_F00000);
    MissF00000_PREFIX14_F();
    NoRowMatchesMiss(PREFIX14_F, ADDRESS_F00000);
    FirstMatchAppend(PREFIX14_A + PREFIX14_B + PREFIX14_C + PREFIX14_D + PREFIX14_E,
      PREFIX14_F, ADDRESS_F00000);
    MissF00000_PREFIX14_G();
    NoRowMatchesMiss(PREFIX14_G, ADDRESS_F00000);
    FirstMatchAppend(PREFIX14_A + PREFIX14_B + PREFIX14_C + PREFIX14_D + PREFIX14_E + PREFIX14_F,
      PREFIX14_G, ADDRESS_F00000);
    MissF00000_PREFIX14_H();
    NoRowMatchesMiss(PREFIX14_H, ADDRESS_F00000);
    FirstMatchAppend(PREFIX14_A + PREFIX14_B + PREFIX14_C + PREFIX14_D + PREFIX14_E + PREFIX14_F + PREFIX14_G,
      PREFIX14_H, ADDRESS_F00000);
    MissF00000_PREFIX14_I();
    NoRowMatchesMiss(PREFIX14_I, ADDRESS_F00000);
    FirstMatchAppend(PREFIX14_A + PREFIX14_B + PREFIX14_C + PREFIX14_D + PREFIX14_E + PREFIX14_F + PREFIX14_G + PREFIX14_H,
      PREFIX14_I, ADDRESS_F00000);
    MissF00000_PREFIX14_J();
    NoRowMatchesMiss(PREFIX14_J, ADDRESS_F00000);
    FirstMatchAppend(PREFIX14_A + PREFIX14_B + PREFIX14_C + PREFIX14_D + PREFIX14_E + PREFIX14_F + PREFIX14_G + PREFIX14_H + PREFIX14_I,
      PREFIX14_J, ADDRESS_F00000);
    MissF00000_PREFIX14_K();
    NoRowMatchesMiss(PREFIX14_K, ADDRESS_F00000);
    FirstMatchAppend(PREFIX14_A + PREFIX14_B + PREFIX14_C + PREFIX14_D + PREFIX14_E + PREFIX14_F + PREFIX14_G + PREFIX14_H + PREFIX14_I + PREFIX14_J,
      PREFIX14_K, ADDRESS_F00000);
    MissF00000_PREFIX14_L();
    NoRowMatchesMiss(PREFIX14_L, ADDRESS_F00000);
    FirstMatchAppend(PREFIX14_A + PREFIX14_B + PREFIX14_C + PREFIX14_D + PREFIX14_E + PREFIX14_F + PREFIX14_G + PREFIX14_H + PREFIX14_I + PREFIX14_J + PREFIX14_K,
      PREFIX14_L, ADDRESS_F00000);
    MissF00000_PREFIX12();
    NoRowMatchesMiss(PREFIX12, ADDRESS_F00000);
    FirstMatchAppend(PREFIX14_A + PREFIX14_B + PREFIX14_C + PREFIX14_D + PREFIX14_E + PREFIX14_F + PREFIX14_G + PREFIX14_H + PREFIX14_I + PREFIX14_J + PREFIX14_K + PREFIX14_L,
      PREFIX12, ADDRESS_F00000);
    MissF00000_PREFIX9_A();
    NoRowMatchesMiss(PREFIX9_A, ADDRESS_F00000);
    FirstMatchAppend(PREFIX14_A + PREFIX14_B + PREFIX14_C + PREFIX14_D + PREFIX14_E + PREFIX14_F + PREFIX14_G + PREFIX14_H + PREFIX14_I + PREFIX14_J + PREFIX14_K + PREFIX14_L + PREFIX12,
      PREFIX9_A, ADDRESS_F00000);
    MissF00000_PREFIX9_B();
    NoRowMatchesMiss(PREFIX9_B, ADDRESS_F00000);
    FirstMatchAppend(PREFIX14_A + PREFIX14_B + PREFIX14_C + PREFIX14_D + PREFIX14_E + PREFIX14_F + PREFIX14_G + PREFIX14_H + PREFIX14_I + PREFIX14_J + PREFIX14_K + PREFIX14_L + PREFIX12 + PREFIX9_A,
      PREFIX9_B, ADDRESS_F00000);
    HitF00000();
    FirstMatchAppend(PREFIX14_A + PREFIX14_B + PREFIX14_C + PREFIX14_D + PREFIX14_E + PREFIX14_F + PREFIX14_G + PREFIX14_H + PREFIX14_I + PREFIX14_J + PREFIX14_K + PREFIX14_L + PREFIX12 + PREFIX9_A + PREFIX9_B,
      PREFIX9_C, ADDRESS_F00000);
    FirstMatchAppend(PREFIX14_A + PREFIX14_B + PREFIX14_C + PREFIX14_D + PREFIX14_E + PREFIX14_F + PREFIX14_G + PREFIX14_H + PREFIX14_I + PREFIX14_J + PREFIX14_K + PREFIX14_L + PREFIX12 + PREFIX9_A + PREFIX9_B + PREFIX9_C,
      PREFIX6, ADDRESS_F00000);
    FirstMatchAppend(PREFIX14_A + PREFIX14_B + PREFIX14_C + PREFIX14_D + PREFIX14_E + PREFIX14_F + PREFIX14_G + PREFIX14_H + PREFIX14_I + PREFIX14_J + PREFIX14_K + PREFIX14_L + PREFIX12 + PREFIX9_A + PREFIX9_B + PREFIX9_C + PREFIX6,
      PREFIX4, ADDRESS_F00000);
    FirstMatchAppend(PREFIX14_A + PREFIX14_B + PREFIX14_C + PREFIX14_D + PREFIX14_E + PREFIX14_F + PREFIX14_G + PREFIX14_H + PREFIX14_I + PREFIX14_J + PREFIX14_K + PREFIX14_L + PREFIX12 + PREFIX9_A + PREFIX9_B + PREFIX9_C + PREFIX6 + PREFIX4,
      PREFIX9_MORE, ADDRESS_F00000);
  }

  lemma TableLookup0CA000()
    ensures FirstMatch(ICAO_ALLOCATIONS, ADDRESS_0CA000) == Some("AG")
  {
    Hit0CA000();
    FirstMatchAppend(PREFIX14_A,
      PREFIX14_B, ADDRESS_0CA000);
    FirstMatchAppend(PREFIX14_A + PREFIX14_B,
      PREFIX14_C, ADDRESS_0CA000);
    FirstMatchAppend(PREFIX14_A + PREFIX14_B + PREFIX14_C,
      PREFIX14_D, ADDRESS_0CA000);
    FirstMatchAppend(PREFIX14_A + PREFIX14_B + PREFIX14_C + PREFIX14_D,
      PREFIX14_E, ADDRESS_0CA000);
    FirstMatchAppend(PREFIX14_A + PREFIX14_B + PREFIX14_C + PREFIX14_D + PREFIX14_E,
      PREFIX14_F, ADDRESS_0CA000);
    FirstMatchAppend(PREFIX14_A + PREFIX14_B + PREFIX14_C + PREFIX14_D + PREFIX14_E + PREFIX14_F,
      PREFIX14_G, ADDRESS_0CA000);
    FirstMatchAppend(PREFIX14_A + PREFIX14_B + PREFIX14_C + PREFIX14_D + PREFIX14_E + PREFIX14_F + PREFIX14_G,
      PREFIX14_H, ADDRESS_0CA000);
    FirstMatchAppend(PREFIX14_A + PREFIX14_B + PREFIX14_C + PREFIX14_D + PREFIX14_E + PREFIX14_F + PREFIX14_G + PREFIX14_H,
      PREFIX14_I, ADDRESS_0CA000);
    FirstMatchAppend(PREFIX14_A + PREFIX14_B + PREFIX14_C + PREFIX14_D + PREFIX14_E + PREFIX14_F + PREFIX14_G + PREFIX14_H + PREFIX14_I,
      PREFIX14_J, ADDRESS_0CA000);
    FirstMatchAppend(PREFIX14_A + PREFIX14_B + PREFIX14_C + PREFIX14_D + PREFIX14_E + PREFIX14_F + PREFIX14_G + PREFIX14_H + PREFIX14_I + PREFIX14_J,
      PREFIX14_K, ADDRESS_0CA000);
    FirstMatchAppend(PREFIX14_A + PREFIX14_B + PREFIX14_C + PREFIX14_D + PREFIX14_E + PREFIX14_F + PREFIX14_G + PREFIX14_H + PREFIX14_I + PREFIX14_J + PREFIX14_K,
      PREFIX14_L, ADDRESS_0CA000);
    FirstMatchAppend(PREFIX14_A + PREFIX14_B + PREFIX14_C + PREFIX14_D + PREFIX14_E + PREFIX14_F + PREFIX14_G + PREFIX14_H + PREFIX14_I + PREFIX14_J + PREFIX14_K + PREFIX14_L,
      PREFIX12, ADDRESS_0CA000);
    FirstMatchAppend(PREFIX14_A + PREFIX14_B + PREFIX14_C + PREFIX14_D + PREFIX14_E + PREFIX14_F + PREFIX14_G + PREFIX14_H + PREFIX14_I + PREFIX14_J + PREFIX14_K + PREFIX14_L + PREFIX12,
      PREFIX9_A, ADDRESS_0CA000);
    FirstMatchAppend(PREFIX14_A + PREFIX14_B + PREFIX14_C + PREFIX14_D + PREFIX14_E + PREFIX14_F + PREFIX14_G + PREFIX14_H + PREFIX14_I + PREFIX14_J + PREFIX14_K + PREFIX14_L + PREFIX12 + PREFIX9_A,
      PREFIX9_B, ADDRESS_0CA000);
    FirstMatchAppend(PREFIX14_A + PREFIX14_B + PREFIX14_C + PREFIX14_D + PREFIX14_E + PREFIX14_F + PREFIX14_G + PREFIX14_H + PREFIX14_I + PREFIX14_J + PREFIX14_K + PREFIX14_L + PREFIX12 + PREFIX9_A + PREFIX9_B,
      PREFIX9_C, ADDRESS_0CA000);
    FirstMatchAppend(PREFIX14_A + PREFIX14_B + PREFIX14_C + PREFIX14_D + PREFIX14_E + PREFIX14_F + PREFIX14_G + PREFIX14_H + PREFIX14_I + PREFIX14_J + PREFIX14_K + PREFIX14_L + PREFIX12 + PREFIX9_A + PREFIX9_B + PREFIX9_C,
      PREFIX6, ADDRESS_0CA000);
    FirstMatchAppend(PREFIX14_A + PREFIX14_B + PREFIX14_C + PREFIX14_D + PREFIX14_E + PREFIX14_F + PREFIX14_G + PREFIX14_H + PREFIX14_I + PREFIX14_J + PREFIX14_K + PREFIX14_L + PREFIX12 + PREFIX9_A + PREFIX9_B + PREFIX9_C + PREFIX6,
      PREFIX4, ADDRESS_0CA000);
    FirstMatchAppend(PREFIX14_A + PREFIX14_B + PREFIX14_C + PREFIX14_D + PREFIX14_E + PREFIX14_F + PREFIX14_G + PREFIX14_H + PREFIX14_I + PREFIX14_J + PREFIX14_K + PREFIX14_L + PREFIX12 + PREFIX9_A + PREFIX9_B + PREFIX9_C + PREFIX6 + PREFIX4,
      PREFIX9_MORE, ADDRESS_0CA000);
  }

  lemma TableLookupFFFFFF()
    ensures FirstMatch(ICAO_ALLOCATIONS, ADDRESS_FFFFFF) == None
  {
    MissFFFFFF_PREFIX14_A();
    NoRowMatchesMiss(PREFIX14_A, ADDRESS_FFFFFF);
    MissFFFFFF_PREFIX14_B();
    NoRowMatchesMiss(PREFIX14_B, ADDRESS_FFFFFF);
    FirstMatchAppend(PREFIX14_A,
      PREFIX14_B, ADDRESS_FFFFFF);
    MissFFFFFF_PREFIX14_C();
    NoRowMatchesMiss(PREFIX14_C, ADDRESS_FFFFFF);
    FirstMatchAppend(PREFIX14_A + PREFIX14_B,
      PREFIX14_C, ADDRESS_FFFFFF);
    MissFFFFFF_PREFIX14_D();
    NoRowMatchesMiss(PREFIX14_D, ADDRESS_FFFFFF);
    FirstMatchAppend(PREFIX14_A + PREFIX14_B + PREFIX14_C,
      PREFIX14_D, ADDRESS_FFFFFF);
    MissFFFFFF_PREFIX14_E();
    NoRowMatchesMiss(PREFIX14_E, ADDRESS_FFFFFF);
    FirstMatchAppend(PREFIX14_A + PREFIX14_B + PREFIX14_C + PREFIX14_D,
      PREFIX14_E, ADDRESS_FFFFFF);
    MissFFFFFF_PREFIX14_F();
    NoRowMatchesMiss(PREFIX14_F, ADDRESS_FFFFFF);
    FirstMatchAppend(PREFIX14_A + PREFIX14_B + PREFIX14_C + PREFIX14_D + PREFIX14_E,
      PREFIX14_F, ADDRESS_FFFFFF);
    MissFFFFFF_PREFIX14_G();
    NoRowMatchesMiss(PREFIX14_G, ADDRESS_FFFFFF);
    FirstMatchAppend(PREFIX14_A + PREFIX14_B + PREFIX14_C + PREFIX14_D + PREFIX14_E + PREFIX14_F,
      PREFIX14_G, ADDRESS_FFFFFF);
    MissFFFFFF_PREFIX14_H();
    NoRowMatchesMiss(PREFIX14_H, ADDRESS_FFFFFF);
    FirstMatchAppend(PREFIX14_A + PREFIX14_B + PREFIX14_C + PREFIX14_D + PREFIX14_E + PREFIX14_F + PREFIX14_G,
      PREFIX14_H, ADDRESS_FFFFFF);
    MissFFFFFF_PREFIX14_I();
    NoRowMatchesMiss(PREFIX14_I, ADDRESS_FFFFFF);
    FirstMatchAppend(PREFIX14_A + PREFIX14_B + PREFIX14_C + PREFIX14_D + PREFIX14_E + PREFIX14_F + PREFIX14_G + PREFIX14_H,
      PREFIX14_I, ADDRESS_FFFFFF);
    MissFFFFFF_PREFIX14_J();
    NoRowMatchesMiss(PREFIX14_J, ADDRESS_FFFFFF);
    FirstMatchAppend(PREFIX14_A + PREFIX14_B + PREFIX14_C + PREFIX14_D + PREFIX14_E + PREFIX14_F + PREFIX14_G + PREFIX14_H + PREFIX14_I,
      PREFIX14_J, ADDRESS_FFFFFF);
    MissFFFFFF_PREFIX14_K();
    NoRowMatchesMiss(PREFIX14_K, ADDRESS_FFFFFF);
    FirstMatchAppend(PREFIX14_A + PREFIX14_B + PREFIX14_C + PREFIX14_D + PREFIX14_E + PREFIX14_F + PREFIX14_G + PREFIX14_H + PREFIX14_I + PREFIX14_J,
      PREFIX14_K, ADDRESS_FFFFFF);
    MissFFFFFF_PREFIX14_L();
    NoRowMatchesMiss(PREFIX14_L, ADDRESS_FFFFFF);
    FirstMatchAppend(PREFIX14_A + PREFIX14_B + PREFIX14_C + PREFIX14_D + PREFIX14_E + PREFIX14_F + PREFIX14_G + PREFIX14_H + PREFIX14_I + PREFIX14_J + PREFIX14_K,
      PREFIX14_L, ADDRESS_FFFFFF);
    MissFFFFFF_PREFIX12();
    NoRowMatchesMiss(PREFIX12, ADDRESS_FFFFFF);
    FirstMatchAppend(PREFIX14_A + PREFIX14_B + PREFIX14_C + PREFIX14_D + PREFIX14_E + PREFIX14_F + PREFIX14_G + PREFIX14_H + PREFIX14_I + PREFIX14_J + PREFIX14_K + PREFIX14_L,
      PREFIX12, ADDRESS_FFFFFF);
    MissFFFFFF_PREFIX9_A();
    NoRowMatchesMiss(PREFIX9_A, ADDRESS_FFFFFF);
    FirstMatchAppend(PREFIX14_A + PREFIX14_B + PREFIX14_C + PREFIX14_D + PREFIX14_E + PREFIX14_F + PREFIX14_G + PREFIX14_H + PREFIX14_I + PREFIX14_J + PREFIX14_K + PREFIX14_L + PREFIX12,
      PREFIX9_A, ADDRESS_FFFFFF);
    MissFFFFFF_PREFIX9_B();
    NoRowMatchesMiss(PREFIX9_B, ADDRESS_FFFFFF);
    FirstMatchAppend(PREFIX14_A + PREFIX14_B + PREFIX14_C + PREFIX14_D + PREFIX14_E + PREFIX14_F + PREFIX14_G + PREFIX14_H + PREFIX14_I + PREFIX14_J + PREFIX14_K + PREFIX14_L + PREFIX12 + PREFIX9_A,
      PREFIX9_B, ADDRESS_FFFFFF);
    MissFFFFFF_PREFIX9_C();
    NoRowMatchesMiss(PREFIX9_C, ADDRESS_FFFFFF);
    FirstMatchAppend(PREFIX14_A + PREFIX14_B + PREFIX14_C + PREFIX14_D + PREFIX14_E + PREFIX14_F + PREFIX14_G + PREFIX14_H + PREFIX14_I + PREFIX14_J + PREFIX14_K + PREFIX14_L + PREFIX12 + PREFIX9_A + PREFIX9_B,
      PREFIX9_C, ADDRESS_FFFFFF);
    MissFFFFFF_PREFIX6();
    NoRowMatchesMiss(PREFIX6, ADDRESS_FFFFFF);
    FirstMatchAppend(PREFIX14_A + PREFIX14_B + PREFIX14_C + PREFIX14_D + PREFIX14_E + PREFIX14_F + PREFIX14_G + PREFIX14_H + PREFIX14_I + PREFIX14_J + PREFIX14_K + PREFIX14_L + PREFIX12 + PREFIX9_A + PREFIX9_B + PREFIX9_C,
      PREFIX6, ADDRESS_FFFFFF);
    MissFFFFFF_PREFIX4();
    NoRowMatchesMiss(PREFIX4, ADDRESS_FFFFFF);
    FirstMatchAppend(PREFIX14_A + PREFIX14_B + PREFIX14_C + PREFIX14_D + PREFIX14_E + PREFIX14_F + PREFIX14_G + PREFIX14_H + PREFIX14_I + PREFIX14_J + PREFIX14_K + PREFIX14_L + PREFIX12 + PREFIX9_A + PREFIX9_B + PREFIX9_C + PREFIX6,
      PREFIX4, ADDRESS_FFFFFF);
    MissFFFFFF_PREFIX9_MORE();
    NoRowMatchesMiss(PREFIX9_MORE, ADDRESS_FFFFFF);
    FirstMatchAppend(PREFIX14_A + PREFIX14_B + PREFIX14_C + PREFIX14_D + PREFIX14_E + PREFIX14_F + PREFIX14_G + PREFIX14_H + PREFIX14_I + PREFIX14_J + PREFIX14_K + PREFIX14_L + PREFIX12 + PREFIX9_A + PREFIX9_B + PREFIX9_C + PREFIX6 + PREFIX4,
      PREFIX9_MORE, ADDRESS_FFFFFF);
  }

  lemma TableLookup000000()
    ensures FirstMatch(ICAO_ALLOCATIONS, ADDRESS_000000) == None
  {
    Miss000000_PREFIX14_A();
    NoRowMatchesMiss(PREFIX14_A, ADDRESS_000000);
    Miss000000_PREFIX14_B();
    NoRowMatchesMiss(PREFIX14_B, ADDRESS_000000);
    FirstMatchAppend(PREFIX14_A,
      PREFIX14_B, ADDRESS_000000);
    Miss000000_PREFIX14_C();
    NoRowMatchesMiss(PREFIX14_C, ADDRESS_000000);
    FirstMatchAppend(PREFIX14_A + PREFIX14_B,
      PREFIX14_C, ADDRESS_000000);
    Miss000000_PREFIX14_D();
    NoRowMatchesMiss(PREFIX14_D, ADDRESS_000000);
    FirstMatchAppend(PREFIX14_A + PREFIX14_B + PREFIX14_C,
      PREFIX14_D, ADDRESS_000000);
    Miss000000_PREFIX14_E();
    NoRowMatchesMiss(PREFIX14_E, ADDRESS_000000);
    FirstMatchAppend(PREFIX14_A + PREFIX14_B + PREFIX14_C + PREFIX14_D,
      PREFIX14_E, ADDRESS_000000);
    Miss000000_PREFIX14_F();
    NoRowMatchesMiss(PREFIX14_F, ADDRESS_000000);
    FirstMatchAppend(PREFIX14_A + PREFIX14_B + PREFIX14_C + PREFIX14_D + PREFIX14_E,
      PREFIX14_F, ADDRESS_000000);
    Miss000000_PREFIX14_G();
    NoRowMatchesMiss(PREFIX14_G, ADDRESS_000000);
    FirstMatchAppend(PREFIX14_A + PREFIX14_B + PREFIX14_C + PREFIX14_D + PREFIX14_E + PREFIX14_F,
      PREFIX14_G, ADDRESS_000000);
    Miss000000_PREFIX14_H();
    NoRowMatchesMiss(PREFIX14_H, ADDRESS_000000);
    FirstMatchAppend(PREFIX14_A + PREFIX14_B + PREFIX14_C + PREFIX14_D + PREFIX14_E + PREFIX14_F + PREFIX14_G,
      PREFIX14_H, ADDRESS_000000);
    Miss000000_PREFIX14_I();
    NoRowMatchesMiss(PREFIX14_I, ADDRESS_000000);
    FirstMatchAppend(PREFIX14_A + PREFIX14_B + PREFIX14_C + PREFIX14_D + PREFIX14_E + PREFIX14_F + PREFIX14_G + PREFIX14_H,
      PREFIX14_I, ADDRESS_000000);
    Miss000000_PREFIX14_J();
    NoRowMatchesMiss(PREFIX14_J, ADDRESS_000000);
    FirstMatchAppend(PREFIX14_A + PREFIX14_B + PREFIX14_C + PREFIX14_D + PREFIX14_E + PREFIX14_F + PREFIX14_G + PREFIX14_H + PREFIX14_I,
      PREFIX14_J, ADDRESS_000000);
    Miss000000_PREFIX14_K();
    NoRowMatchesMiss(PREFIX14_K, ADDRESS_000000);
    FirstMatchAppend(PREFIX14_A + PREFIX14_B + PREFIX14_C + PREFIX14_D + PREFIX14_E + PREFIX14_F + PREFIX14_G + PREFIX14_H + PREFIX14_I + PREFIX14_J,
      PREFIX14_K, ADDRESS_000000);
    Miss000000_PREFIX14_L();
    NoRowMatchesMiss(PREFIX14_L, ADDRESS_000000);
    FirstMatchAppend(PREFIX14_A + PREFIX14_B + PREFIX14_C + PREFIX14_D + PREFIX14_E + PREFIX14_F + PREFIX14_G + PREFIX14_H + PREFIX14_I + PREFIX14_J + PREFIX14_K,
      PREFIX14_L, ADDRESS_000000);
    Miss000000_PREFIX12();
    NoRowMatchesMiss(PREFIX12, ADDRESS_000000);
    FirstMatchAppend(PREFIX14_A + PREFIX14_B + PREFIX14_C + PREFIX14_D + PREFIX14_E + PREFIX14_F + PREFIX14_G + PREFIX14_H + PREFIX14_I + PREFIX14_J + PREFIX14_K + PREFIX14_L,
      PREFIX12, ADDRESS_000000);
    Miss000000_PREFIX9_A();
    NoRowMatchesMiss(PREFIX9_A, ADDRESS_000000);
    FirstMatchAppend(PREFIX14_A + PREFIX14_B + PREFIX14_C + PREFIX14_D + PREFIX14_E + PREFIX14_F + PREFIX14_G + PREFIX14_H + PREFIX14_I + PREFIX14_J + PREFIX14_K + PREFIX14_L + PREFIX12,
      PREFIX9_A, ADDRESS_000000);
    Miss000000_PREFIX9_B();
    NoRowMatchesMiss(PREFIX9_B, ADDRESS_000000);
    FirstMatchAppend(PREFIX14_A + PREFIX14_B + PREFIX14_C + PREFIX14_D + PREFIX14_E + PREFIX14_F + PREFIX14_G + PREFIX14_H + PREFIX14_I + PREFIX14_J + PREFIX14_K + PREFIX14_L + PREFIX12 + PREFIX9_A,
      PREFIX9_B, ADDRESS_000000);
    Miss000000_PREFIX9_C();
    NoRowMatchesMiss(PREFIX9_C, ADDRESS_000000);
    FirstMatchAppend(PREFIX14_A + PREFIX14_B + PREFIX14_C + PREFIX14_D + PREFIX14_E + PREFIX14_F + PREFIX14_G + PREFIX14_H + PREFIX14_I + PREFIX14_J + PREFIX14_K + PREFIX14_L + PREFIX12 + PREFIX9_A + PREFIX9_B,
      PREFIX9_C, ADDRESS_000000);
    Miss000000_PREFIX6();
    NoRowMatchesMiss(PREFIX6, ADDRESS_000000);
    FirstMatchAppend(PREFIX14_A + PREFIX14_B + PREFIX14_C + PREFIX14_D + PREFIX14_E + PREFIX14_F + PREFIX14_G + PREFIX14_H + PREFIX14_I + PREFIX14_J + PREFIX14_K + PREFIX14_L + PREFIX12 + PREFIX9_A + PREFIX9_B + PREFIX9_C,
      PREFIX6, ADDRESS_000000);
    Miss000000_PREFIX4();
    NoRowMatchesMiss(PREFIX4, ADDRESS_000000);
    FirstMatchAppend(PREFIX14_A + PREFIX14_B + PREFIX14_C + PREFIX14_D + PREFIX14_E + PREFIX14_F + PREFIX14_G + PREFIX14_H + PREFIX14_I + PREFIX14_J + PREFIX14_K + PREFIX14_L + PREFIX12 + PREFIX9_A + PREFIX9_B + PREFIX9_C + PREFIX6,
      PREFIX4, ADDRESS_000000);
    Miss000000_PREFIX9_MORE();
    NoRowMatchesMiss(PREFIX9_MORE, ADDRESS_000000);
    FirstMatchAppend(PREFIX14_A + PREFIX14_B + PREFIX14_C + PREFIX14_D + PREFIX14_E + PREFIX14_F + PREFIX14_G + PREFIX14_H + PREFIX14_I + PREFIX14_J + PREFIX14_K + PREFIX14_L + PREFIX12 + PREFIX9_A + PREFIX9_B + PREFIX9_C + PREFIX6 + PREFIX4,
      PREFIX9_MORE, ADDRESS_000000);
  }

  // ---------------------------------------------------------------------
  // The lookups, by address
  // ---------------------------------------------------------------------

  lemma CountryA00001()
    ensures IcaoToCountry([0xA0, 0x00, 0x01]) == Some("US")
  {
    BinaryA00001();
    TableLookupA00001();
  }

  lemma BytesA00001()
    ensures Registration.ToArr3(0xA00001) == [0xA0, 0x00, 0x01]
  {
  }

  lemma CountryU32A00001()
    ensures IcaoU32ToCountry(0xA00001) == Some("US")
  {
    BytesA00001();
    CountryA00001();
  }

  lemma CountryAB8E4F()
    ensures IcaoToCountry([0xAB, 0x8E, 0x4F]) == Some("US")
  {
    BinaryAB8E4F();
    TableLookupAB8E4F();
  }

  lemma BytesAB8E4F()
    ensures Registration.ToArr3(0xAB8E4F) == [0xAB, 0x8E, 0x4F]
  {
  }

  lemma CountryU32AB8E4F()
    ensures IcaoU32ToCountry(0xAB8E4F) == Some("US")
  {
    BytesAB8E4F();
    CountryAB8E4F();
  }

  lemma Country4C0000()
    ensures IcaoToCountry([0x4C, 0x00, 0x00]) == Some("RS")
  {
    Binary4C0000();
    TableLookup4C0000();
  }

  lemma Bytes4C0000()
    ensures Registration.ToArr3(0x4C0000) == [0x4C, 0x00, 0x00]
  {
  }

  lemma CountryU324C0000()
    ensures IcaoU32ToCountry(0x4C0000) == Some("RS")
  {
    Bytes4C0000();
    Country4C0000();
  }

  lemma CountryC00001()
    ensures IcaoToCountry([0xC0, 0x00, 0x01]) == Some("CA")
  {
    BinaryC00001();
    TableLookupC00001();
  }

  lemma BytesC00001()
    ensures Registration.ToArr3(0xC00001) == [0xC0, 0x00, 0x01]
  {
  }

  lemma CountryU32C00001()
    ensures IcaoU32ToCountry(0xC00001) == Some("CA")
  {
    BytesC00001();
    CountryC00001();
  }

  lemma Country400000()
    ensures IcaoToCountry([0x40, 0x00, 0x00]) == Some("GB")
  {
    Binary400000();
    TableLookup400000();
  }

  lemma Bytes400000()
    ensures Registration.ToArr3(0x400000) == [0x40, 0x00, 0x00]
  {
  }

  lemma CountryU32400000()
    ensures IcaoU32ToCountry(0x400000) == Some("GB")
  {
    Bytes400000();
    Country400000();
  }

  lemma Country100000()
    ensures IcaoToCountry([0x10, 0x00, 0x00]) == Some("RU")
  {
    Binary100000();
    TableLookup100000();
  }

  lemma Bytes100000()
    ensures Registration.ToArr3(0x100000) == [0x10, 0x00, 0x00]
  {
  }

  lemma CountryU32100000()
    ensures IcaoU32ToCountry(0x100000) == Some("RU")
  {
    Bytes100000();
    Country100000();
  }

  lemma CountryF00000()
    ensures IcaoToCountry([0xF0, 0x00, 0x00]) == Some("ZZ")
  {
    BinaryF00000();
    TableLookupF00000();
  }

  lemma BytesF00000()
    ensures Registration.ToArr3(0xF00000) == [0xF0, 0x00, 0x00]
  {
  }

  lemma CountryU32F00000()
    ensures IcaoU32ToCountry(0xF00000) == Some("ZZ")
  {
    BytesF00000();
    CountryF00000();
  }

  lemma Country0CA000()
    ensures IcaoToCountry([0x0C, 0xA0, 0x00]) == Some("AG")
  {
    Binary0CA000();
    TableLookup0CA000();
  }

  lemma CountryFFFFFF()
    ensures IcaoToCountry([0xFF, 0xFF, 0xFF]) == None
  {
    BinaryFFFFFF();
    TableLookupFFFFFF();
  }

  lemma BytesFFFFFF()
    ensures Registration.ToArr3(0xFFFFFF) == [0xFF, 0xFF, 0xFF]
  {
  }

  lemma CountryU32FFFFFF()
    ensures IcaoU32ToCountry(0xFFFFFF) == None
  {
    BytesFFFFFF();
    CountryFFFFFF();
  }

  lemma Country000000()
    ensures IcaoToCountry([0x00, 0x00, 0x00]) == None
  {
    Binary000000();
    TableLookup000000();
  }

  lemma Bytes000000()
    ensures Registration.ToArr3(0x000000) == [0x00, 0x00, 0x00]
  {
  }

  lemma CountryU32000000()
    ensures IcaoU32ToCountry(0x000000) == None
  {
    Bytes000000();
    Country000000();
  }

  /** 0xA00001, the address of N1, falls in the United States block (`1010`). */
  lemma UsaAllocationN1()
    ensures IcaoToCountry([0xA0, 0x00, 0x01]) == Some("US")
    ensures IcaoU32ToCountry(0xA00001) == Some("US")
  {
    CountryA00001();
    CountryU32A00001();
  }

  /** 0xAB8E4F, the address of N8437D, falls in the United States block. */
  lemma UsaAllocationN8437D()
    ensures IcaoToCountry([0xAB, 0x8E, 0x4F]) == Some("US")
    ensures IcaoU32ToCountry(0xAB8E4F) == Some("US")
  {
    CountryAB8E4F();
    CountryU32AB8E4F();
  }

  /** 0x4C0000 falls in the block allocated to Yugoslavia, reported as `RS`. */
  lemma YugoslaviaAllocation()
    ensures IcaoToCountry([0x4C, 0x00, 0x00]) == Some("RS")
    ensures IcaoU32ToCountry(0x4C0000) == Some("RS")
  {
    Country4C0000();
    CountryU324C0000();
  }

  /** 0xC00001 falls in the Canadian block. */
  lemma CanadaAllocation()
    ensures IcaoToCountry([0xC0, 0x00, 0x01]) == Some("CA")
    ensures IcaoU32ToCountry(0xC00001) == Some("CA")
  {
    CountryC00001();
    CountryU32C00001();
  }

  /** 0x400000 falls in the United Kingdom block. */
  lemma UkAllocation()
    ensures IcaoToCountry([0x40, 0x00, 0x00]) == Some("GB")
    ensures IcaoU32ToCountry(0x400000) == Some("GB")
  {
    Country400000();
    CountryU32400000();
  }

  /** 0x100000 falls in the Russian block (`0001`). */
  lemma RussiaAllocation()
    ensures IcaoToCountry([0x10, 0x00, 0x00]) == Some("RU")
    ensures IcaoU32ToCountry(0x100000) == Some("RU")
  {
    Country100000();
    CountryU32100000();
  }

  /** 0xF00000 falls in an ICAO special allocation, reported as `ZZ`. */
  lemma SpecialAllocation()
    ensures IcaoToCountry([0xF0, 0x00, 0x00]) == Some("ZZ")
    ensures IcaoU32ToCountry(0xF00000) == Some("ZZ")
  {
    CountryF00000();
    CountryU32F00000();
  }

  /** No row starts 0xFFFFFF, the largest address: it has no country. */
  lemma NoAllocation()
    ensures IcaoToCountry([0xFF, 0xFF, 0xFF]) == None
    ensures IcaoU32ToCountry(0xFFFFFF) == None
  {
    CountryFFFFFF();
    CountryU32FFFFFF();
  }

  /** No row starts 0x000000 either. */
  lemma ZeroAddress()
    ensures IcaoToCountry([0x00, 0x00, 0x00]) == None
    ensures IcaoU32ToCountry(0x000000) == None
  {
    Country000000();
    CountryU32000000();
  }

  /**
   * 0x0CA000 starts with `00001100101000`, the 14-bit prefix of Antigua
   * and Barbuda in the table's first row: the lookup gives `AG`, not
   * Russia's `RU`.
   */
  lemma LongPrefixAllocation()
    ensures IcaoToCountry([0x0C, 0xA0, 0x00]) == Some("AG")
    ensures IcaoToCountry([0x0C, 0xA0, 0x00]) != Some("RU")
  {
    Country0CA000();
  }
}
