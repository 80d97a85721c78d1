/**
 * The two small text formats of the data files: Python list literals such
 * as `['T6', 'YA']`, and comma-separated lines whose fields may be quoted
 * with double quotes (a simplified form of the quoting rules in section 2
 * of RFC 4180, with every field trimmed).
 */
module Lists {
  import opened Text

  // ---------------------------------------------------------------------
  // Python list literals
  // ---------------------------------------------------------------------

  /** One item of a list literal: trimmed, and unwrapped from one pair of matching quotes. */
  function ListItem(item: string): (r: string)
    ensures |r| <= |item|
  {
    var t := Trim(item);
    if |t| >= 2 && ((t[0] == '\'' && t[|t| - 1] == '\'') || (t[0] == '"' && t[|t| - 1] == '"')) then
      t[1..|t| - 1]
    else t
  }

  /**
   * `parse_python_list`: the items between the brackets, separated by ", ";
   * anything that is not bracketed, and "[]", gives no items.
   */
  function ParsePythonList(s: string): (r: seq<string>)
  {
    if StartsWith(s, "[") && EndsWith(s, "]") then
      assert s[..1][0] == '[' && s[|s| - 1..][0] == ']';
      var inner := s[1..|s| - 1];
      if inner == [] then []
      else
        var parts := Split(inner, ", ");
        seq(|parts|, k requires 0 <= k < |parts| => ListItem(parts[k]))
    else []
  }

  /** The list is empty exactly when the input is not bracketed or has nothing between the brackets. */
  lemma PythonListEmpty(s: string)
    ensures ParsePythonList(s) == [] <==> !(StartsWith(s, "[") && EndsWith(s, "]")) || |s| == 2
  {
    if StartsWith(s, "[") && EndsWith(s, "]") {
      assert s[..1][0] == '[' && s[|s| - 1..][0] == ']';
    }
  }

  /** A string in single quotes, as Python writes it. */
  function Quoted(x: string): string {
    "'" + x + "'"
  }

  /** The items, each in single quotes. */
  function QuotedItems(items: seq<string>): (r: seq<string>)
    ensures |r| == |items|
    ensures forall k :: 0 <= k < |items| ==> r[k] == Quoted(items[k])
  {
    seq(|items|, k requires 0 <= k < |items| => Quoted(items[k]))
  }

  /** How Python writes a list of strings: quoted items separated by ", " between brackets. */
  function PythonRepr(items: seq<string>): string {
    if items == [] then "[]" else "[" + Join(QuotedItems(items), ", ") + "]"
  }

  /** A quoted item is unwrapped to the string it quotes. */
  lemma ListItemOfQuoted(x: string)
    ensures ListItem(Quoted(x)) == x
  {
    var q := Quoted(x);
    assert !IsSpace(q[0]) && !IsSpace(q[|q| - 1]);
    TrimOfTrimmed(q);
    assert q[1..|q| - 1] == x;
  }

  /** An item in matching single or double quotes, padded with whitespace, is unwrapped to the quoted text. */
  lemma ListItemQuotedPadded(w1: string, q: char, x: string, w2: string)
    requires q == '\'' || q == '"'
    requires AllSpace(w1) && AllSpace(w2)
    ensures ListItem(w1 + [q] + x + [q] + w2) == x
  {
    var t := [q] + x + [q];
    assert w1 + [q] + x + [q] + w2 == w1 + t + w2;
    assert t[0] == q && t[|t| - 1] == q;
    TrimPadded(w1, t, w2);
    assert t[1..|t| - 1] == x;
  }

  /** An item whose trimmed text is not in a matching pair of quotes is only trimmed. */
  lemma ListItemPlainPadded(w1: string, t: string, w2: string)
    requires AllSpace(w1) && AllSpace(w2) && Trimmed(t)
    requires !(|t| >= 2 && ((t[0] == '\'' && t[|t| - 1] == '\'') || (t[0] == '"' && t[|t| - 1] == '"')))
    ensures ListItem(w1 + t + w2) == t
  {
    TrimPadded(w1, t, w2);
  }

  /** Quoting adds no comma. */
  lemma QuotedItemsNoComma(items: seq<string>)
    requires forall i, k :: 0 <= i < |items| && 0 <= k < |items[i]| ==> items[i][k] != ','
    ensures forall i, k :: 0 <= i < |items| && 0 <= k < |QuotedItems(items)[i]| ==> QuotedItems(items)[i][k] != ", "[0]
  {
    forall i, k | 0 <= i < |items| && 0 <= k < |QuotedItems(items)[i]|
      ensures QuotedItems(items)[i][k] != ", "[0]
    {
      assert QuotedItems(items)[i] == "'" + items[i] + "'";
    }
  }

  /** Unwrapping each quoted item gives the items back. */
  lemma UnquoteItems(items: seq<string>)
    ensures seq(|items|, k requires 0 <= k < |items| => ListItem(QuotedItems(items)[k])) == items
  {
    forall k | 0 <= k < |items|
      ensures ListItem(QuotedItems(items)[k]) == items[k]
    {
      ListItemOfQuoted(items[k]);
    }
  }

  /** Parsing gives back every list of strings Python writes, as long as no item contains a comma. */
  lemma PythonListRoundTrip(items: seq<string>)
    requires forall i, k :: 0 <= i < |items| && 0 <= k < |items[i]| ==> items[i][k] != ','
    ensures ParsePythonList(PythonRepr(items)) == items
  {
    if items != [] {
      var parts := QuotedItems(items);
      var inner := Join(parts, ", ");
      var s := PythonRepr(items);
      assert s[1..|s| - 1] == inner;
      QuotedItemsNoComma(items);
      SplitJoin(parts, ", ");
      JoinLength(parts, ", ");
      UnquoteItems(items);
    }
  }

  /** The tested literals. */
  lemma PythonListExamples(s: string)
    requires s == "['T6', 'YA']"
    ensures ParsePythonList(s) == ["T6", "YA"]
  {
    ReprT6YA();
    PythonListRoundTrip(["T6", "YA"]);
  }

  /** Python writes `["T6", "YA"]` as the tested literal. */
  lemma ReprT6YA()
    ensures PythonRepr(["T6", "YA"]) == "['T6', 'YA']"
  {
    var t6, ya := "T6", "YA";
    ReprOfTwo(t6, ya);
    assert "[" + Quoted(t6) + ", " + Quoted(ya) + "]" == "['T6', 'YA']";
  }

  lemma PythonListExampleOne(s: string)
    requires s == "['700']"
    ensures ParsePythonList(s) == ["700"]
  {
    var n700 := "700";
    PythonListRoundTrip([n700]);
    ReprOfOne(n700);
    assert "[" + Quoted(n700) + "]" == s;
  }

  lemma ReprOfOne(a: string)
    ensures PythonRepr([a]) == "[" + Quoted(a) + "]"
  {
    assert QuotedItems([a]) == [Quoted(a)];
  }

  lemma ReprOfTwo(a: string, b: string)
    ensures PythonRepr([a, b]) == "[" + Quoted(a) + ", " + Quoted(b) + "]"
  {
    var q := QuotedItems([a, b]);
    assert q == [Quoted(a), Quoted(b)] && q[1..] == [Quoted(b)];
    assert Join(q, ", ") == Quoted(a) + ", " + Quoted(b);
  }

  // ---------------------------------------------------------------------
  // Comma-separated lines
  // ---------------------------------------------------------------------

  /**
   * The fields of the rest `s` of a line, reading it from a state that is
   * inside or outside quotes with `current` collected for the field being
   * read.  A double quote toggles quoting, except that two double quotes
   * inside quotes stand for one; a comma outside quotes ends a field;
   * every field is trimmed.
   */
  function CsvScan(s: string, inQuotes: bool, current: string): (r: seq<string>)
    ensures |r| >= 1
    decreases |s|
  {
    if s == [] then [Trim(current)]
    else if s[0] == '"' then
      if inQuotes && |s| > 1 && s[1] == '"' then CsvScan(s[2..], inQuotes, current + ['"'])
      else CsvScan(s[1..], !inQuotes, current)
    else if s[0] == ',' && !inQuotes then [Trim(current)] + CsvScan(s[1..], false, [])
    else CsvScan(s[1..], inQuotes, current + [s[0]])
  }

  /** The fields of a line. */
  function CsvFields(line: string): (r: seq<string>)
    ensures |r| >= 1
  {
    CsvScan(line, false, [])
  }

  /** `parse_csv_line`: one pass over the characters, collecting fields. */
  method ParseCsvLine(line: string) returns (fields: seq<string>)
    ensures fields == CsvFields(line)
  {
    fields := [];
    var current := "";
    var inQuotes := false;
    var i := 0;
    while i < |line|
      invariant 0 <= i <= |line|
      invariant fields + CsvScan(line[i..], inQuotes, current) == CsvFields(line)
      decreases |line| - i
    {
      var ch := line[i];
      assert line[i..][1..] == line[i + 1..];
      if ch == '"' {
        if inQuotes && i + 1 < |line| && line[i + 1] == '"' {
          assert line[i..][2..] == line[i + 2..];
          current := current + ['"'];
          i := i + 2;
        } else {
          inQuotes := !inQuotes;
          i := i + 1;
        }
      } else if ch == ',' && !inQuotes {
        ConcatAssoc(fields, [Trim(current)], CsvScan(line[i + 1..], false, []));
        fields := fields + [Trim(current)];
        current := "";
        i := i + 1;
      } else {
        current := current + [ch];
        i := i + 1;
      }
    }
    assert line[i..] == [];
    fields := fields + [Trim(current)];
  }

  /** The number of commas outside quotes in the rest `s` of a line. */
  function UnquotedCommas(s: string, inQuotes: bool): nat
    decreases |s|
  {
    if s == [] then 0
    else if s[0] == '"' then
      if inQuotes && |s| > 1 && s[1] == '"' then UnquotedCommas(s[2..], inQuotes)
      else UnquotedCommas(s[1..], !inQuotes)
    else if s[0] == ',' && !inQuotes then 1 + UnquotedCommas(s[1..], false)
    else UnquotedCommas(s[1..], inQuotes)
  }

  /** A line has one field more than it has commas outside quotes. */
  lemma {:induction false} CsvFieldCount(s: string, inQuotes: bool, current: string)
    ensures |CsvScan(s, inQuotes, current)| == UnquotedCommas(s, inQuotes) + 1
    decreases |s|
  {
    if s == [] {
    } else if s[0] == '"' {
      if inQuotes && |s| > 1 && s[1] == '"' {
        CsvFieldCount(s[2..], inQuotes, current + ['"']);
      } else {
        CsvFieldCount(s[1..], !inQuotes, current);
      }
    } else if s[0] == ',' && !inQuotes {
      CsvFieldCount(s[1..], false, []);
    } else {
      CsvFieldCount(s[1..], inQuotes, current + [s[0]]);
    }
  }

  /** Every field has no whitespace at either end. */
  lemma {:induction false} CsvFieldsTrimmed(s: string, inQuotes: bool, current: string)
    ensures forall k :: 0 <= k < |CsvScan(s, inQuotes, current)| ==> Trimmed(CsvScan(s, inQuotes, current)[k])
    decreases |s|
  {
    if s == [] {
      TrimSpec(current);
    } else if s[0] == '"' {
      if inQuotes && |s| > 1 && s[1] == '"' {
        CsvFieldsTrimmed(s[2..], inQuotes, current + ['"']);
      } else {
        CsvFieldsTrimmed(s[1..], !inQuotes, current);
      }
    } else if s[0] == ',' && !inQuotes {
      TrimSpec(current);
      CsvFieldsTrimmed(s[1..], false, []);
    } else {
      CsvFieldsTrimmed(s[1..], inQuotes, current + [s[0]]);
    }
  }

  /** A field's text with every double quote doubled. */
  function Escape(f: string): (r: string)
  {
    if f == [] then []
    else (if f[0] == '"' then "\"\"" else [f[0]]) + Escape(f[1..])
  }

  /** A field between double quotes, its own double quotes doubled. */
  function QuoteField(f: string): string {
    "\"" + Escape(f) + "\""
  }

  /** How a field is written in a line: as it is, or between double quotes. */
  datatype Cell = Bare(text: string) | Enclosed(text: string)

  /** A cell reads back as its text when the text is trimmed and, written bare, holds no comma or double quote. */
  predicate Writable(c: Cell) {
    Trimmed(c.text) && (c.Bare? ==> forall k :: 0 <= k < |c.text| ==> c.text[k] != ',' && c.text[k] != '"')
  }

  function Written(c: Cell): string {
    match c
    case Bare(t) => t
    case Enclosed(t) => QuoteField(t)
  }

  /** The cells written as a line, separated by commas. */
  function CsvLine(cells: seq<Cell>): string
    requires |cells| >= 1
  {
    if |cells| == 1 then Written(cells[0])
    else Written(cells[0]) + "," + CsvLine(cells[1..])
  }

  /** The texts of the cells, in order. */
  function Texts(cells: seq<Cell>): (r: seq<string>)
    ensures |r| == |cells| && forall k :: 0 <= k < |cells| ==> r[k] == cells[k].text
  {
    seq(|cells|, k requires 0 <= k < |cells| => cells[k].text)
  }

  /** Inside quotes, an escaped field and the closing quote add the field to the current one. */
  lemma {:induction false} CsvScanEscaped(f: string, rest: string, current: string)
    requires rest == [] || rest[0] != '"'
    ensures CsvScan(Escape(f) + "\"" + rest, true, current) == CsvScan(rest, false, current + f)
    decreases |f|
  {
    var s := Escape(f) + "\"" + rest;
    if f == [] {
      assert s == "\"" + rest && s[1..] == rest;
      assert current + f == current;
    } else if f[0] == '"' {
      assert s == "\"\"" + (Escape(f[1..]) + "\"" + rest);
      assert s[2..] == Escape(f[1..]) + "\"" + rest;
      CsvScanEscaped(f[1..], rest, current + ['"']);
      assert current + ['"'] + f[1..] == current + f;
    } else {
      assert s == [f[0]] + (Escape(f[1..]) + "\"" + rest);
      assert s[1..] == Escape(f[1..]) + "\"" + rest;
      CsvScanEscaped(f[1..], rest, current + [f[0]]);
      assert current + [f[0]] + f[1..] == current + f;
    }
  }

  /** A quoted field read from outside quotes adds exactly the field, commas and quotes included. */
  lemma CsvScanQuoted(f: string, rest: string, current: string)
    requires rest == [] || rest[0] != '"'
    ensures CsvScan(QuoteField(f) + rest, false, current) == CsvScan(rest, false, current + f)
  {
    var s := QuoteField(f) + rest;
    assert s == "\"" + (Escape(f) + "\"" + rest);
    assert s[1..] == Escape(f) + "\"" + rest;
    CsvScanEscaped(f, rest, current);
  }

  /** Outside quotes, a field with no comma and no double quote is added to the current one as it is. */
  lemma {:induction false} CsvScanBare(f: string, rest: string, current: string)
    requires forall k :: 0 <= k < |f| ==> f[k] != ',' && f[k] != '"'
    ensures CsvScan(f + rest, false, current) == CsvScan(rest, false, current + f)
    decreases |f|
  {
    if f == [] {
      assert f + rest == rest && current + f == current;
    } else {
      var s := f + rest;
      assert s[0] == f[0] && s[1..] == f[1..] + rest;
      CsvScanBare(f[1..], rest, current + [f[0]]);
      assert current + [f[0]] + f[1..] == current + f;
    }
  }

  /** A writable cell followed by a comma or the end of the line reads as its text. */
  lemma CsvScanCell(c: Cell, rest: string)
    requires Writable(c) && (rest == [] || rest[0] == ',')
    ensures rest == [] ==> CsvScan(Written(c) + rest, false, []) == [c.text]
    ensures rest != [] ==> CsvScan(Written(c) + rest, false, []) == [c.text] + CsvScan(rest[1..], false, [])
  {
    TrimOfTrimmed(c.text);
    if c.Bare? {
      CsvScanBare(c.text, rest, []);
    } else {
      CsvScanQuoted(c.text, rest, []);
    }
    assert [] + c.text == c.text;
  }

  /** Reading back a line of writable cells gives their texts, whatever commas and quotes the enclosed ones hold. */
  lemma {:induction false} CsvRoundTrip(cells: seq<Cell>)
    requires |cells| >= 1
    requires forall k :: 0 <= k < |cells| ==> Writable(cells[k])
    ensures CsvFields(CsvLine(cells)) == Texts(cells)
    decreases |cells|
  {
    if |cells| == 1 {
      CsvScanCell(cells[0], []);
      assert Written(cells[0]) + [] == CsvLine(cells);
    } else {
      var tail := cells[1..];
      var rest := "," + CsvLine(tail);
      assert CsvLine(cells) == Written(cells[0]) + rest;
      CsvScanCell(cells[0], rest);
      assert rest[1..] == CsvLine(tail);
      CsvRoundTrip(tail);
      TextsCons(cells);
    }
  }

  lemma TextsCons(cells: seq<Cell>)
    requires |cells| >= 1
    ensures Texts(cells) == [cells[0].text] + Texts(cells[1..])
  {
  }

  /** A field without double quotes is written between quotes unchanged. */
  lemma {:induction false} EscapeQuoteFree(f: string)
    requires forall k :: 0 <= k < |f| ==> f[k] != '"'
    ensures Escape(f) == f
    decreases |f|
  {
    if f != [] {
      EscapeQuoteFree(f[1..]);
      assert f == [f[0]] + f[1..];
    }
  }

  /** A quote-free field written between quotes and followed by a comma reads as itself. */
  lemma CsvScanQuoteFree(t: string, rest: string)
    requires Writable(Enclosed(t)) && forall k :: 0 <= k < |t| ==> t[k] != '"'
    requires rest != [] && rest[0] == ','
    ensures CsvScan("\"" + t + "\"" + rest, false, []) == [t] + CsvScan(rest[1..], false, [])
  {
    EscapeQuoteFree(t);
    CsvScanCell(Enclosed(t), rest);
  }

  /**
   * A line whose first three fields are written bare and whose fourth and
   * fifth are quote-free and written between quotes reads back as those
   * five fields, then whatever the rest of the line reads as.
   */
  lemma CsvFieldsFive(name: string, kind: string, prio: string, iso: string, calls: string, rest: string)
    requires Writable(Bare(name)) && Writable(Bare(kind)) && Writable(Bare(prio))
    requires Writable(Enclosed(iso)) && forall k :: 0 <= k < |iso| ==> iso[k] != '"'
    requires Writable(Enclosed(calls)) && forall k :: 0 <= k < |calls| ==> calls[k] != '"'
    ensures var fields := CsvFields(name + ("," + (kind + ("," + (prio + ("," + ("\"" + iso + "\"" + ("," + ("\"" + calls + "\"" + ("," + rest))))))))));
      |fields| >= 6 && fields[0] == name && fields[1] == kind && fields[2] == prio
      && fields[3] == iso && fields[4] == calls
  {
    var q := "\"";
    var r4 := "," + rest;
    var c4 := q + calls + q + r4;
    CsvScanQuoteFree(calls, r4);
    assert r4[1..] == rest;
    var s4 := CsvScan(c4, false, []);
    assert |s4| >= 2 && s4[0] == calls;
    var r3 := "," + c4;
    var c3 := q + iso + q + r3;
    CsvScanQuoteFree(iso, r3);
    assert r3[1..] == c4;
    var s3 := CsvScan(c3, false, []);
    assert |s3| >= 3 && s3[0] == iso && s3[1] == calls;
    var r2 := "," + c3;
    var c2 := prio + r2;
    CsvScanCell(Bare(prio), r2);
    assert r2[1..] == c3;
    var s2 := CsvScan(c2, false, []);
    assert |s2| >= 4 && s2[0] == prio && s2[1] == iso && s2[2] == calls;
    var r1 := "," + c2;
    var c1 := kind + r1;
    CsvScanCell(Bare(kind), r1);
    assert r1[1..] == c2;
    var s1 := CsvScan(c1, false, []);
    assert |s1| >= 5 && s1[0] == kind && s1[1] == prio && s1[2] == iso && s1[3] == calls;
    var r0 := "," + c1;
    CsvScanCell(Bare(name), r0);
    assert r0[1..] == c1;
  }

  /** String concatenation regroups. */
  lemma Regroup(a: string, b: string, rest: string)
    ensures a + b + rest == a + (b + rest)
  {
  }

  /** The bare fields of the tested country line can be written as they are there. */
  lemma AfghanistanBareWritable()
    ensures Writable(Bare("Afghanistan")) && Writable(Bare("general")) && Writable(Bare("0"))
  {
  }

  /** The quoted fields of the tested country line can be written between quotes, and hold none. */
  lemma AfghanistanEnclosedWritable()
    ensures var iso := "['AF', 'AFG']"; Writable(Enclosed(iso)) && forall k :: 0 <= k < |iso| ==> iso[k] != '"'
    ensures var calls := "['T6', 'YA']"; Writable(Enclosed(calls)) && forall k :: 0 <= k < |calls| ==> calls[k] != '"'
  {
  }

  /** The first five fields of the tested country line, with the commas between and after them. */
  lemma AfghanistanFields()
    ensures var iso, calls := "['AF', 'AFG']", "['T6', 'YA']";
      "Afghanistan,general,0,\"['AF', 'AFG']\",\"['T6', 'YA']\","
      == "Afghanistan" + ("," + ("general" + ("," + ("0" + ("," + ("\"" + iso + "\"" + ("," + ("\"" + calls + "\"" + ","))))))))
  {
    var name, kind, prio, iso, calls := "Afghanistan", "general", "0", "['AF', 'AFG']", "['T6', 'YA']";
    var quotedIso, quotedCalls := "\"" + iso + "\"", "\"" + calls + "\"";
    var written := "Afghanistan,general,0,\"['AF', 'AFG']\",\"['T6', 'YA']\",";
    assert written == name + ("," + (kind + ("," + (prio + ("," + (quotedIso + ("," + (quotedCalls + ","))))))));
  }

  /** The tested country line, regrouped one field at a time around the rest of the line. */
  lemma AfghanistanRegrouped(rest: string)
    ensures var iso, calls := "['AF', 'AFG']", "['T6', 'YA']";
      "Afghanistan,general,0,\"['AF', 'AFG']\",\"['T6', 'YA']\"," + rest
      == "Afghanistan" + ("," + ("general" + ("," + ("0" + ("," + ("\"" + iso + "\"" + ("," + ("\"" + calls + "\"" + ("," + rest)))))))))
  {
    var name, kind, prio, iso, calls := "Afghanistan", "general", "0", "['AF', 'AFG']", "['T6', 'YA']";
    var quotedIso, quotedCalls := "\"" + iso + "\"", "\"" + calls + "\"";
    AfghanistanFields();
    Regroup(name, "," + (kind + ("," + (prio + ("," + (quotedIso + ("," + (quotedCalls + ","))))))), rest);
    Regroup(",", kind + ("," + (prio + ("," + (quotedIso + ("," + (quotedCalls + ",")))))), rest);
    Regroup(kind, "," + (prio + ("," + (quotedIso + ("," + (quotedCalls + ","))))), rest);
    Regroup(",", prio + ("," + (quotedIso + ("," + (quotedCalls + ",")))), rest);
    Regroup(prio, "," + (quotedIso + ("," + (quotedCalls + ","))), rest);
    Regroup(",", quotedIso + ("," + (quotedCalls + ",")), rest);
    Regroup(quotedIso, "," + (quotedCalls + ","), rest);
    Regroup(",", quotedCalls + ",", rest);
    Regroup(quotedCalls, ",", rest);
  }


  /**
   * The tested line of the country table, whatever follows its fifth
   * field: the first field is the name, written bare, and the fourth and
   * fifth are the ISO and callsign lists, written between quotes.
   */
  lemma CsvFieldsAfghanistan(rest: string)
    ensures var fields := CsvFields("Afghanistan,general,0,\"['AF', 'AFG']\",\"['T6', 'YA']\"," + rest);
      |fields| >= 6 && fields[0] == "Afghanistan" && fields[3] == "['AF', 'AFG']" && fields[4] == "['T6', 'YA']"
      && ParsePythonList(fields[4]) == ["T6", "YA"]
  {
    AfghanistanRegrouped(rest);
    AfghanistanBareWritable();
    AfghanistanEnclosedWritable();
    CsvFieldsFive("Afghanistan", "general", "0", "['AF', 'AFG']", "['T6', 'YA']", rest);
    PythonListExamples("['T6', 'YA']");
  }
}
