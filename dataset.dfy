/**
 * The records the classifier works on and how they are built from the two
 * ITU tables (`build_data!` in src/lib.rs): one record per country row and
 * per organization row, with the priority read as a 32-bit integer, the
 * list-valued columns read as Python list literals, and a strict variant
 * of each row's pattern.
 */
module Dataset {
  import opened Wrappers
  import opened Text
  import opened Lists

  /** What a classification reports: a country with its ISO codes, or an organization. */
  datatype EntityResult =
    | Country(nation: string, description: string, iso2: string, iso3: string)
    | Organization(name: string, description: string)

  /** One row of either table, ready for lookups. */
  datatype EntityData = EntityData(
    entityResult: EntityResult,
    priority: int,
    callsigns: seq<string>,
    regex: string,
    strictRegex: string,
    icao24bitPrefixes: seq<string>)

  // ---------------------------------------------------------------------
  // Decimal 32-bit integers (`str::parse::<i32>`)
  // ---------------------------------------------------------------------

  const I32_MIN: int := -0x8000_0000
  const I32_MAX: int := 0x7FFF_FFFF

  predicate IsDigit(c: char) {
    '0' <= c <= '9'
  }

  predicate AllDigits(s: string) {
    forall k :: 0 <= k < |s| ==> IsDigit(s[k])
  }

  /** The value of a string of decimal digits, most significant first. */
  function DigitsValue(s: string): nat
    requires AllDigits(s)
  {
    if s == [] then 0
    else DigitsValue(s[..|s| - 1]) * 10 + (s[|s| - 1] as int - '0' as int)
  }

  /**
   * `str::parse::<i32>`: an optional '+' or '-', then at least one decimal
   * digit and nothing else, whose value fits in 32 bits.
   */
  function ParseI32(s: string): (r: Option<int>)
    ensures r.Some? ==> I32_MIN <= r.value <= I32_MAX
  {
    var signed := |s| > 0 && (s[0] == '+' || s[0] == '-');
    var digits := if signed then s[1..] else s;
    if digits == [] || !AllDigits(digits) then None
    else
      var v := if signed && s[0] == '-' then -(DigitsValue(digits) as int) else DigitsValue(digits);
      if I32_MIN <= v <= I32_MAX then Some(v) else None
  }

  /** A priority column: its 32-bit value, or 0 when it does not parse (`unwrap_or(0)`). */
  function Priority(field: string): (r: int)
    ensures I32_MIN <= r <= I32_MAX
  {
    match ParseI32(field)
    case Some(v) => v
    case None => 0
  }

  /** The shortest decimal rendering of `n`. */
  function Decimal(n: nat): (r: string)
    ensures r != [] && AllDigits(r)
  {
    if n < 10 then [('0' as int + n) as char]
    else Decimal(n / 10) + [('0' as int + n % 10) as char]
  }

  /** Reading back a rendered number gives the number. */
  lemma {:induction false} DigitsValueOfDecimal(n: nat)
    ensures DigitsValue(Decimal(n)) == n
  {
    var d := Decimal(n);
    if n < 10 {
      assert d[..0] == [];
    } else {
      assert d[..|d| - 1] == Decimal(n / 10);
      DigitsValueOfDecimal(n / 10);
    }
  }

  /** A signed rendering, as a CSV cell would hold it. */
  function SignedDecimal(n: int): string {
    if n < 0 then "-" + Decimal(-n) else Decimal(n)
  }

  /** Every 32-bit value written in decimal parses back to itself, so it is also the priority. */
  lemma ParseI32OfDecimal(n: int)
    requires I32_MIN <= n <= I32_MAX
    ensures ParseI32(SignedDecimal(n)) == Some(n)
    ensures Priority(SignedDecimal(n)) == n
  {
    var s := SignedDecimal(n);
    if n < 0 {
      var d := Decimal(-n);
      DigitsValueOfDecimal(-n);
      assert s[0] == '-' && s[1..] == d;
      assert DigitsValue(d) == -n;
    } else {
      var d := Decimal(n);
      DigitsValueOfDecimal(n);
      assert s == d && IsDigit(d[0]);
    }
  }

  /** Values outside 32 bits, empty cells, lone signs and cells with other characters all fall back to 0. */
  lemma PriorityFallback(field: string)
    requires field == [] || field == "+" || field == "-"
      || (exists k :: 0 <= k < |field| && !IsDigit(field[k]) && (k > 0 || (field[0] != '+' && field[0] != '-')))
      || (AllDigits(field) && field != [] && DigitsValue(field) > I32_MAX)
    ensures ParseI32(field) == None
    ensures Priority(field) == 0
  {
    if exists k :: 0 <= k < |field| && !IsDigit(field[k]) && (k > 0 || (field[0] != '+' && field[0] != '-')) {
      var k :| 0 <= k < |field| && !IsDigit(field[k]) && (k > 0 || (field[0] != '+' && field[0] != '-'));
      if |field| > 0 && (field[0] == '+' || field[0] == '-') {
        assert field[1..][k - 1] == field[k];
      }
    }
  }

  // ---------------------------------------------------------------------
  // Lines of a data file (`str::lines`)
  // ---------------------------------------------------------------------

  /** A line ended by "\r\n" loses the carriage return. */
  function StripCr(p: string): string {
    if |p| > 0 && p[|p| - 1] == '\r' then p[..|p| - 1] else p
  }

  /**
   * `str::lines`: the pieces between line feeds, each without a carriage
   * return just before its line feed; a final line feed ends the last line
   * rather than starting an empty one.
   */
  function Lines(text: string): (r: seq<string>)
  {
    var ps := Split(text, "\n");
    var n := |ps| - 1;
    seq(n, k requires 0 <= k < n => StripCr(ps[k])) + (if ps[n] == [] then [] else [ps[n]])
  }

  /** A file written line by line, each line ended by a line feed, reads back as those lines. */
  lemma LinesOfFile(ls: seq<string>)
    requires forall i, k :: 0 <= i < |ls| && 0 <= k < |ls[i]| ==> ls[i][k] != '\n'
    requires forall i :: 0 <= i < |ls| ==> ls[i] == [] || ls[i][|ls[i]| - 1] != '\r'
    ensures Lines(Join(ls + [""], "\n")) == ls
  {
    var parts := ls + [""];
    assert forall i :: 0 <= i < |ls| ==> parts[i] == ls[i];
    SplitJoin(parts, "\n");
  }

  // ---------------------------------------------------------------------
  // Records
  // ---------------------------------------------------------------------

  /** The two tables, read in this order. */
  datatype Table = Countries | Organizations

  /** Rows with fewer fields than this are skipped. */
  function MinFields(table: Table): nat {
    match table
    case Countries => 10
    case Organizations => 9
  }

  /**
   * The strict form of a pattern: each optional dash `-{0,1}` becomes a
   * required `\-`, then each optional group at the end, `{0,1}$`, becomes
   * required.
   */
  function StrictPattern(regex: string): string {
    ReplaceAll(ReplaceAll(regex, "-{0,1}", "\\-"), "{0,1}$", "$")
  }

  /** A pattern with neither optional dash nor optional final group is its own strict form. */
  lemma StrictPatternUnchanged(regex: string)
    requires !Contains(regex, "-{0,1}") && !Contains(regex, "{0,1}$")
    ensures StrictPattern(regex) == regex
  {
    ReplaceAbsent(regex, "-{0,1}", "\\-");
    ReplaceAbsent(regex, "{0,1}$", "$");
  }

  /** The record a row of `table` describes, or None when the row is too short. */
  function RowRecord(table: Table, fields: seq<string>): (r: Option<EntityData>)
    ensures r.Some? <==> |fields| >= MinFields(table)
    ensures r.Some? ==> (r.value.entityResult.Country? <==> table == Countries)
  {
    if |fields| < MinFields(table) then None
    else
      match table
      case Countries =>
        var iso := ParsePythonList(fields[3]);
        var iso2 := if |iso| > 0 then iso[0] else "";
        var iso3 := if |iso| > 1 then iso[1] else "";
        Some(EntityData(Country(fields[0], fields[1], iso2, iso3), Priority(fields[2]),
          ParsePythonList(fields[4]), fields[6], StrictPattern(fields[6]), ParsePythonList(fields[9])))
      case Organizations =>
        Some(EntityData(Organization(fields[0], fields[1]), Priority(fields[2]),
          ParsePythonList(fields[3]), fields[5], StrictPattern(fields[5]), ParsePythonList(fields[8])))
  }

  /** List items as the data files hold them: no item contains a comma. */
  predicate CommaFree(items: seq<string>) {
    forall i, k :: 0 <= i < |items| && 0 <= k < |items[i]| ==> items[i][k] != ','
  }

  /** A list literal starts with '[' and ends with ']', so trimming leaves it alone. */
  lemma ReprTrimmed(items: seq<string>)
    ensures Trimmed(PythonRepr(items))
  {
    var r := PythonRepr(items);
    assert r[0] == '[' && r[|r| - 1] == ']';
  }

  /** A number in decimal starts with a sign or a digit and ends with a digit. */
  lemma DecimalTrimmed(n: int)
    ensures Trimmed(SignedDecimal(n))
  {
    var d := Decimal(if n < 0 then -n else n);
    assert IsDigit(d[0]) && IsDigit(d[|d| - 1]);
  }

  /**
   * A country written as a line of the country table, its cells writable,
   * its priority in decimal and its lists as Python writes them, is read
   * back as that country: the first two ISO codes (or "" where the list
   * is shorter), the priority, the callsigns, the pattern with its strict
   * form, and the address prefixes.
   */
  lemma CountryRowRoundTrip(cells: seq<Cell>, priority: int, iso: seq<string>, callsigns: seq<string>, prefixes: seq<string>)
    requires |cells| == 10 && forall k :: 0 <= k < 10 ==> Writable(cells[k])
    requires I32_MIN <= priority <= I32_MAX && cells[2].text == SignedDecimal(priority)
    requires CommaFree(iso) && cells[3].text == PythonRepr(iso)
    requires CommaFree(callsigns) && cells[4].text == PythonRepr(callsigns)
    requires CommaFree(prefixes) && cells[9].text == PythonRepr(prefixes)
    ensures RowRecord(Countries, CsvFields(CsvLine(cells)))
      == Some(EntityData(Country(cells[0].text, cells[1].text, if |iso| > 0 then iso[0] else "", if |iso| > 1 then iso[1] else ""),
                         priority, callsigns, cells[6].text, StrictPattern(cells[6].text), prefixes))
  {
    CsvRoundTrip(cells);
    ParseI32OfDecimal(priority);
    PythonListRoundTrip(iso);
    PythonListRoundTrip(callsigns);
    PythonListRoundTrip(prefixes);
  }

  /** The same for an organization written as a line of the organization table. */
  lemma OrganizationRowRoundTrip(cells: seq<Cell>, priority: int, callsigns: seq<string>, prefixes: seq<string>)
    requires |cells| == 9 && forall k :: 0 <= k < 9 ==> Writable(cells[k])
    requires I32_MIN <= priority <= I32_MAX && cells[2].text == SignedDecimal(priority)
    requires CommaFree(callsigns) && cells[3].text == PythonRepr(callsigns)
    requires CommaFree(prefixes) && cells[8].text == PythonRepr(prefixes)
    ensures RowRecord(Organizations, CsvFields(CsvLine(cells)))
      == Some(EntityData(Organization(cells[0].text, cells[1].text), priority, callsigns, cells[5].text, StrictPattern(cells[5].text), prefixes))
  {
    CsvRoundTrip(cells);
    ParseI32OfDecimal(priority);
    PythonListRoundTrip(callsigns);
    PythonListRoundTrip(prefixes);
  }

  /** The records of one line: none for a blank or short line, else one. */
  function LineRecords(table: Table, line: string): (r: seq<EntityData>)
    ensures |r| <= 1
    ensures Trim(line) == [] ==> r == []
  {
    if Trim(line) == [] then []
    else
      match RowRecord(table, CsvFields(line))
      case Some(d) => [d]
      case None => []
  }

  /** The records of the lines of one table, in line order. */
  function Records(table: Table, lines: seq<string>): seq<EntityData>
  {
    if lines == [] then []
    else Records(table, lines[..|lines| - 1]) + LineRecords(table, lines[|lines| - 1])
  }

  /** `DATA`: the countries, then the organizations, each file without its header line. */
  function AllRecords(countriesCsv: string, orgsCsv: string): seq<EntityData>
    requires Lines(countriesCsv) != [] && Lines(orgsCsv) != []
  {
    Records(Countries, Lines(countriesCsv)[1..]) + Records(Organizations, Lines(orgsCsv)[1..])
  }

  /** One table's loop: skip the header, then blank lines and short rows, keep the rest in order. */
  method BuildTable(table: Table, text: string) returns (data: seq<EntityData>)
    requires Lines(text) != []
    ensures data == Records(table, Lines(text)[1..])
  {
    var lines := Lines(text);
    data := [];
    var i := 1;
    while i < |lines|
      invariant 1 <= i <= |lines|
      invariant data == Records(table, lines[1..i])
    {
      var line := lines[i];
      RecordsStep(table, lines, i);
      if Trim(line) != [] {
        var fields := ParseCsvLine(line);
        var rec := RowRecord(table, fields);
        if rec.Some? {
          data := data + [rec.value];
        }
      }
      i := i + 1;
    }
    assert lines[1..i] == lines[1..];
  }

  /** The records of one more line are those of the line added at the end. */
  lemma RecordsStep(table: Table, lines: seq<string>, i: nat)
    requires 1 <= i < |lines|
    ensures Records(table, lines[1..i + 1]) == Records(table, lines[1..i]) + LineRecords(table, lines[i])
  {
    assert lines[1..i + 1][..i - 1] == lines[1..i];
  }

  /** `build_data!`: both tables, countries first; an empty file has no header and is refused. */
  method BuildData(countriesCsv: string, orgsCsv: string) returns (data: seq<EntityData>)
    requires Lines(countriesCsv) != [] && Lines(orgsCsv) != []
    ensures data == AllRecords(countriesCsv, orgsCsv)
  {
    var countries := BuildTable(Countries, countriesCsv);
    var orgs := BuildTable(Organizations, orgsCsv);
    data := countries + orgs;
  }

  /** Every record of the country table is a country, every record of the other an organization. */
  lemma {:induction false} RecordsKind(table: Table, lines: seq<string>)
    ensures forall i :: 0 <= i < |Records(table, lines)| ==>
      (Records(table, lines)[i].entityResult.Country? <==> table == Countries)
  {
    if lines != [] {
      RecordsKind(table, lines[..|lines| - 1]);
    }
  }

  /** All countries precede all organizations in `DATA`, and the countries are exactly its first records. */
  lemma CountriesFirst(countriesCsv: string, orgsCsv: string)
    requires Lines(countriesCsv) != [] && Lines(orgsCsv) != []
    ensures var data := AllRecords(countriesCsv, orgsCsv);
      forall i :: 0 <= i < |data| ==>
        (data[i].entityResult.Country? <==> i < |Records(Countries, Lines(countriesCsv)[1..])|)
    ensures var data := AllRecords(countriesCsv, orgsCsv);
      forall i, j :: 0 <= i < j < |data| && data[j].entityResult.Country? ==> data[i].entityResult.Country?
  {
    var c := Records(Countries, Lines(countriesCsv)[1..]);
    var o := Records(Organizations, Lines(orgsCsv)[1..]);
    RecordsKind(Countries, Lines(countriesCsv)[1..]);
    RecordsKind(Organizations, Lines(orgsCsv)[1..]);
    KindsInOrder(c, o);
  }

  /** Countries followed by organizations: the countries form the prefix. */
  lemma KindsInOrder(c: seq<EntityData>, o: seq<EntityData>)
    requires forall i :: 0 <= i < |c| ==> c[i].entityResult.Country?
    requires forall i :: 0 <= i < |o| ==> !o[i].entityResult.Country?
    ensures forall i :: 0 <= i < |c + o| ==> ((c + o)[i].entityResult.Country? <==> i < |c|)
    ensures forall i, j :: 0 <= i < j < |c + o| && (c + o)[j].entityResult.Country? ==> (c + o)[i].entityResult.Country?
  {
    assert forall i :: |c| <= i < |c + o| ==> (c + o)[i] == o[i - |c|];
  }

  /** Blank lines add no record. */
  lemma BlankLineSkipped(table: Table, lines: seq<string>, line: string)
    requires forall k :: 0 <= k < |line| ==> IsSpace(line[k])
    ensures Records(table, lines + [line]) == Records(table, lines)
  {
    assert (lines + [line])[..|lines|] == lines;
    LeadingSpacesSpec(line);
    TrimSpec(line);
    assert LeadingSpaces(line) == |line|;
  }

  // ---------------------------------------------------------------------
  // The callsign index (`CALLSIGNS_MAP`)
  // ---------------------------------------------------------------------

  /** Record `i` pushed onto the list of each of `keys` in turn, starting a list where there is none. */
  function PushAll(m: map<string, seq<nat>>, keys: seq<string>, i: nat): map<string, seq<nat>>
  {
    if keys == [] then m
    else
      var m' := PushAll(m, keys[..|keys| - 1], i);
      var k := keys[|keys| - 1];
      m'[k := (if k in m' then m'[k] else []) + [i]]
  }

  /** `CALLSIGNS_MAP`: every record pushed under each of its callsigns, records in order. */
  function CallsignIndex(data: seq<EntityData>): map<string, seq<nat>>
  {
    if data == [] then map[]
    else PushAll(CallsignIndex(data[..|data| - 1]), data[|data| - 1].callsigns, |data| - 1)
  }

  /** The nested loops that fill `CALLSIGNS_MAP`. */
  method BuildCallsignIndex(data: seq<EntityData>) returns (m: map<string, seq<nat>>)
    ensures m == CallsignIndex(data)
  {
    m := map[];
    var i := 0;
    while i < |data|
      invariant 0 <= i <= |data|
      invariant m == CallsignIndex(data[..i])
    {
      var callsigns := data[i].callsigns;
      assert data[..i + 1][..i] == data[..i];
      var j := 0;
      while j < |callsigns|
        invariant 0 <= j <= |callsigns|
        invariant m == PushAll(CallsignIndex(data[..i]), callsigns[..j], i)
      {
        var key := callsigns[j];
        var list := if key in m then m[key] else [];
        m := m[key := list + [i]];
        assert callsigns[..j + 1][..j] == callsigns[..j];
        j := j + 1;
      }
      assert callsigns[..j] == callsigns;
      i := i + 1;
    }
    assert data[..i] == data;
  }

  /** `i`, `n` times. */
  function Repeat(i: nat, n: nat): (r: seq<nat>)
    ensures |r| == n && forall k :: 0 <= k < n ==> r[k] == i
  {
    seq(n, _ => i)
  }

  /** The records that list `key` among their callsigns, in record order, once per time they list it. */
  function Listing(data: seq<EntityData>, key: string): seq<nat>
  {
    if data == [] then []
    else Listing(data[..|data| - 1], key) + Repeat(|data| - 1, multiset(data[|data| - 1].callsigns)[key])
  }

  /** Pushing a record under some keys adds it to those keys' lists, once per occurrence, and to no other. */
  lemma PushAllSpec(m: map<string, seq<nat>>, keys: seq<string>, i: nat)
    ensures forall k :: k in PushAll(m, keys, i) <==> k in m || k in keys
    ensures forall k :: k in PushAll(m, keys, i) ==>
      PushAll(m, keys, i)[k] == (if k in m then m[k] else []) + Repeat(i, multiset(keys)[k])
  {
    PushAllDomain(m, keys, i);
    forall k | k in PushAll(m, keys, i)
      ensures PushAll(m, keys, i)[k] == (if k in m then m[k] else []) + Repeat(i, multiset(keys)[k])
    {
      PushAllValue(m, keys, i, k);
    }
  }

  /** The list under a key gains record `i` once for each time the key is pushed. */
  lemma {:induction false} PushAllValue(m: map<string, seq<nat>>, keys: seq<string>, i: nat, k: string)
    requires k in PushAll(m, keys, i)
    ensures PushAll(m, keys, i)[k] == (if k in m then m[k] else []) + Repeat(i, multiset(keys)[k])
    decreases |keys|
  {
    if keys != [] {
      var init, last := keys[..|keys| - 1], keys[|keys| - 1];
      assert keys == init + [last];
      assert multiset(keys) == multiset(init) + multiset{last};
      var c := multiset(init)[k];
      PushAllDomain(m, init, i);
      if k in PushAll(m, init, i) {
        PushAllValue(m, init, i, k);
      } else {
        assert c == 0;
      }
      if k == last {
        assert Repeat(i, c) + [i] == Repeat(i, c + 1);
      }
    }
  }

  /** The keys after pushing are the keys before and the keys pushed under. */
  lemma {:induction false} PushAllDomain(m: map<string, seq<nat>>, keys: seq<string>, i: nat)
    ensures forall k :: k in PushAll(m, keys, i) <==> k in m || k in keys
  {
    if keys != [] {
      var init := keys[..|keys| - 1];
      PushAllDomain(m, init, i);
      assert keys == init + [keys[|keys| - 1]];
    }
  }


  /** The index holds exactly the keys some record lists, each with that key's listing. */
  lemma {:induction false} CallsignIndexSpec(data: seq<EntityData>)
    ensures forall k :: k in CallsignIndex(data) <==> Listing(data, k) != []
    ensures forall k :: k in CallsignIndex(data) ==> CallsignIndex(data)[k] == Listing(data, k)
  {
    if data != [] {
      var init := data[..|data| - 1];
      var last := data[|data| - 1];
      CallsignIndexSpec(init);
      PushAllSpec(CallsignIndex(init), last.callsigns, |data| - 1);
    }
  }

  /**
   * Record `i` appears under `key` exactly as many times as it lists the key,
   * only records that list the key appear, and they appear in record order.
   */
  lemma ListingSpec(data: seq<EntityData>, key: string)
    ensures forall j :: 0 <= j < |Listing(data, key)| ==>
      Listing(data, key)[j] < |data| && key in data[Listing(data, key)[j]].callsigns
    ensures forall i :: 0 <= i < |data| ==> multiset(Listing(data, key))[i] == multiset(data[i].callsigns)[key]
    ensures forall a, b :: 0 <= a < b < |Listing(data, key)| ==> Listing(data, key)[a] <= Listing(data, key)[b]
  {
    ListingMembers(data, key);
    ListingCount(data, key);
    ListingSorted(data, key);
  }

  /** Every entry of a key's list is a record that lists the key. */
  lemma {:induction false} ListingMembers(data: seq<EntityData>, key: string)
    ensures forall j :: 0 <= j < |Listing(data, key)| ==>
      Listing(data, key)[j] < |data| && key in data[Listing(data, key)[j]].callsigns
  {
    if data != [] {
      var init := data[..|data| - 1];
      var n := |data| - 1;
      ListingMembers(init, key);
      var l := Listing(init, key);
      var r := Repeat(n, multiset(data[n].callsigns)[key]);
      assert Listing(data, key) == l + r;
      assert forall i :: 0 <= i < n ==> init[i] == data[i];
      if r != [] {
        assert key in data[n].callsigns;
      }
    }
  }

  /** Record `i` appears in a key's list as often as it lists the key. */
  lemma {:induction false} ListingCount(data: seq<EntityData>, key: string)
    ensures forall i :: 0 <= i < |data| ==> multiset(Listing(data, key))[i] == multiset(data[i].callsigns)[key]
  {
    if data != [] {
      var init := data[..|data| - 1];
      var n := |data| - 1;
      ListingCount(init, key);
      ListingMembers(init, key);
      var l := Listing(init, key);
      var r := Repeat(n, multiset(data[n].callsigns)[key]);
      assert Listing(data, key) == l + r;
      assert forall i :: 0 <= i < n ==> init[i] == data[i];
      forall x: nat | x < |data| {
        RepeatCount(n, |r|, x);
      }
    }
  }

  /** A key's list is in record order. */
  lemma {:induction false} ListingSorted(data: seq<EntityData>, key: string)
    ensures forall a, b :: 0 <= a < b < |Listing(data, key)| ==> Listing(data, key)[a] <= Listing(data, key)[b]
  {
    if data != [] {
      var init := data[..|data| - 1];
      var n := |data| - 1;
      ListingSorted(init, key);
      ListingMembers(init, key);
      var l := Listing(init, key);
      var r := Repeat(n, multiset(data[n].callsigns)[key]);
      assert Listing(data, key) == l + r;
    }
  }

  /** How often a value occurs in a repetition. */
  lemma {:induction false} RepeatCount(i: nat, n: nat, x: nat)
    ensures multiset(Repeat(i, n))[x] == if x == i then n else 0
  {
    if n > 0 {
      RepeatCount(i, n - 1, x);
      assert Repeat(i, n) == Repeat(i, n - 1) + [i];
    }
  }

  /** A key is in the index exactly when some record lists it, and record `i` is listed under it exactly when it lists the key. */
  lemma CallsignIndexMembers(data: seq<EntityData>, key: string)
    ensures key in CallsignIndex(data) <==> exists i :: 0 <= i < |data| && key in data[i].callsigns
    ensures key in CallsignIndex(data) ==>
      forall i :: 0 <= i < |data| ==> (i in CallsignIndex(data)[key] <==> key in data[i].callsigns)
  {
    var l := Listing(data, key);
    CallsignIndexSpec(data);
    ListingSpec(data, key);
    forall i | 0 <= i < |data|
      ensures i in l <==> key in data[i].callsigns
    {
      assert i in l <==> multiset(l)[i] > 0;
      assert key in data[i].callsigns <==> multiset(data[i].callsigns)[key] > 0;
    }
    if l != [] {
      assert l[0] < |data| && key in data[l[0]].callsigns;
    }
  }

  // ---------------------------------------------------------------------
  // The address-prefix index (`ICAO_MAP`)
  // ---------------------------------------------------------------------

  /** Each of `keys` in turn mapped to record `i`, replacing what it mapped to. */
  function InsertAll(m: map<string, nat>, keys: seq<string>, i: nat): map<string, nat>
  {
    if keys == [] then m else InsertAll(m, keys[..|keys| - 1], i)[keys[|keys| - 1] := i]
  }

  /** `ICAO_MAP`: each prefix of each record mapped to the record; a later record overwrites an earlier one. */
  function IcaoIndex(data: seq<EntityData>): map<string, nat>
  {
    if data == [] then map[]
    else InsertAll(IcaoIndex(data[..|data| - 1]), data[|data| - 1].icao24bitPrefixes, |data| - 1)
  }

  /** The nested loops that fill `ICAO_MAP`. */
  method BuildIcaoIndex(data: seq<EntityData>) returns (m: map<string, nat>)
    ensures m == IcaoIndex(data)
  {
    m := map[];
    var i := 0;
    while i < |data|
      invariant 0 <= i <= |data|
      invariant m == IcaoIndex(data[..i])
    {
      var prefixes := data[i].icao24bitPrefixes;
      assert data[..i + 1][..i] == data[..i];
      var j := 0;
      while j < |prefixes|
        invariant 0 <= j <= |prefixes|
        invariant m == InsertAll(IcaoIndex(data[..i]), prefixes[..j], i)
      {
        m := m[prefixes[j] := i];
        assert prefixes[..j + 1][..j] == prefixes[..j];
        j := j + 1;
      }
      assert prefixes[..j] == prefixes;
      i := i + 1;
    }
    assert data[..i] == data;
  }

  /** Inserting keys adds exactly those keys, each now mapped to the record, and leaves the others alone. */
  lemma {:induction false} InsertAllSpec(m: map<string, nat>, keys: seq<string>, i: nat)
    ensures forall k :: k in InsertAll(m, keys, i) <==> k in m || k in keys
    ensures forall k :: k in InsertAll(m, keys, i) ==> InsertAll(m, keys, i)[k] == if k in keys then i else m[k]
  {
    if keys != [] {
      InsertAllSpec(m, keys[..|keys| - 1], i);
      assert keys == keys[..|keys| - 1] + [keys[|keys| - 1]];
    }
  }

  /** A prefix is in the index exactly when some record lists it, and it maps to the last such record. */
  lemma {:induction false} IcaoIndexSpec(data: seq<EntityData>)
    ensures forall p :: p in IcaoIndex(data) <==> exists i :: 0 <= i < |data| && p in data[i].icao24bitPrefixes
    ensures forall p :: p in IcaoIndex(data) ==>
      IcaoIndex(data)[p] < |data| && p in data[IcaoIndex(data)[p]].icao24bitPrefixes
      && forall j :: IcaoIndex(data)[p] < j < |data| ==> p !in data[j].icao24bitPrefixes
  {
    if data != [] {
      var init := data[..|data| - 1];
      IcaoIndexSpec(init);
      InsertAllSpec(IcaoIndex(init), data[|data| - 1].icao24bitPrefixes, |data| - 1);
      assert forall i :: 0 <= i < |init| ==> init[i] == data[i];
    }
  }

  // ---------------------------------------------------------------------
  // Shortest and longest callsign (`MIN_CALLSIGN_LEN`, `MAX_CALLSIGN_LEN`)
  // ---------------------------------------------------------------------

  /** Every callsign of every record, in record order. */
  function AllCallsigns(data: seq<EntityData>): seq<string>
  {
    if data == [] then [] else AllCallsigns(data[..|data| - 1]) + data[|data| - 1].callsigns
  }

  /** The length of the shortest string, or 0 when there is none. */
  function MinLength(ks: seq<string>): (n: nat)
    ensures ks == [] ==> n == 0
    ensures ks != [] ==> exists k :: 0 <= k < |ks| && |ks[k]| == n
    ensures forall k :: 0 <= k < |ks| ==> n <= |ks[k]|
  {
    if ks == [] then 0
    else if |ks| == 1 then |ks[0]|
    else
      var m := MinLength(ks[1..]);
      assert forall k :: 1 <= k < |ks| ==> ks[1..][k - 1] == ks[k];
      if |ks[0]| <= m then |ks[0]| else m
  }

  /** The length of the longest string, or 0 when there is none. */
  function MaxLength(ks: seq<string>): (n: nat)
    ensures ks == [] ==> n == 0
    ensures ks != [] ==> exists k :: 0 <= k < |ks| && |ks[k]| == n
    ensures forall k :: 0 <= k < |ks| ==> |ks[k]| <= n
  {
    if ks == [] then 0
    else if |ks| == 1 then |ks[0]|
    else
      var m := MaxLength(ks[1..]);
      assert forall k :: 1 <= k < |ks| ==> ks[1..][k - 1] == ks[k];
      if |ks[0]| >= m then |ks[0]| else m
  }

  /** `MIN_CALLSIGN_LEN`. */
  function MinCallsignLen(data: seq<EntityData>): nat {
    MinLength(AllCallsigns(data))
  }

  /** `MAX_CALLSIGN_LEN`. */
  function MaxCallsignLen(data: seq<EntityData>): nat {
    MaxLength(AllCallsigns(data))
  }

  /** The strings gathered are exactly the callsigns some record lists. */
  lemma {:induction false} AllCallsignsSpec(data: seq<EntityData>)
    ensures forall k :: k in AllCallsigns(data) <==> exists i :: 0 <= i < |data| && k in data[i].callsigns
  {
    if data != [] {
      var init := data[..|data| - 1];
      AllCallsignsSpec(init);
      assert forall i :: 0 <= i < |init| ==> init[i] == data[i];
    }
  }

  /**
   * MIN and MAX are the least and greatest key length of the callsign
   * index, both 0 when the index is empty.
   */
  lemma CallsignLengthBounds(data: seq<EntityData>)
    ensures CallsignIndex(data) == map[] ==> MinCallsignLen(data) == 0 && MaxCallsignLen(data) == 0
    ensures forall k :: k in CallsignIndex(data) ==> MinCallsignLen(data) <= |k| <= MaxCallsignLen(data)
    ensures CallsignIndex(data) != map[] ==>
      (exists k :: k in CallsignIndex(data) && |k| == MinCallsignLen(data))
      && (exists k :: k in CallsignIndex(data) && |k| == MaxCallsignLen(data))
  {
    var all := AllCallsigns(data);
    AllCallsignsSpec(data);
    forall k | k in CallsignIndex(data) || k in all
      ensures k in CallsignIndex(data) <==> k in all
    {
      CallsignIndexMembers(data, k);
    }
    if all != [] {
      var a :| 0 <= a < |all| && |all[a]| == MinCallsignLen(data);
      var b :| 0 <= b < |all| && |all[b]| == MaxCallsignLen(data);
      assert all[a] in CallsignIndex(data) && all[b] in CallsignIndex(data);
    } else {
      assert forall k :: k !in CallsignIndex(data);
      assert CallsignIndex(data) == map[];
    }
  }
}
