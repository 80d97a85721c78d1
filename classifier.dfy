/**
 * The parser (`Parser` in src/lib.rs): a callsign is classified by the
 * records listing one of its prefixes whose pattern matches it, keeping
 * those of highest priority; a 24-bit address in hexadecimal by the
 * records of its prefixes in the address index, shortest prefix first.
 */
module Classifier {
  import opened Wrappers
  import opened Dataset

  /**
   * The regular-expression library, which this model does not look into:
   * whether a pattern compiles, and whether a compiled pattern matches
   * (somewhere in) an input.
   */
  datatype RegexEngine = RegexEngine(compiles: string -> bool, isMatch: (string, string) -> bool)

  /** A pattern that does not compile matches nothing. */
  predicate Hit(re: RegexEngine, pattern: string, input: string) {
    re.compiles(pattern) && re.isMatch(pattern, input)
  }

  /** The loose or the strict pattern of a record. */
  function PatternOf(d: EntityData, strict: bool): string {
    if strict then d.strictRegex else d.regex
  }

  /** The lazily built statics the parser reads: `DATA`, the two indexes and the two lengths. */
  datatype Tables = Tables(
    data: seq<EntityData>,
    callsigns: map<string, seq<nat>>,
    icao: map<string, nat>,
    minLen: nat,
    maxLen: nat)

  /** The statics as `build_data!` and the index builders leave them. */
  predicate Valid(t: Tables) {
    t.callsigns == CallsignIndex(t.data) && t.icao == IcaoIndex(t.data)
    && t.minLen == MinCallsignLen(t.data) && t.maxLen == MaxCallsignLen(t.data)
  }

  /** Every record number in the indexes names a record. */
  predicate Indexed(t: Tables) {
    (forall k, j :: k in t.callsigns && 0 <= j < |t.callsigns[k]| ==> t.callsigns[k][j] < |t.data|)
    && (forall p :: p in t.icao ==> t.icao[p] < |t.data|)
    && t.minLen <= t.maxLen
  }

  /** The statics as built are consistent. */
  lemma ValidIndexed(t: Tables)
    requires Valid(t)
    ensures Indexed(t)
  {
    CallsignIndexSpec(t.data);
    forall k | k in t.callsigns
      ensures forall j :: 0 <= j < |t.callsigns[k]| ==> t.callsigns[k][j] < |t.data|
    {
      ListingSpec(t.data, k);
    }
    IcaoIndexSpec(t.data);
    var all := AllCallsigns(t.data);
    if all != [] {
      assert MinLength(all) <= |all[0]| <= MaxLength(all);
    }
  }

  /** Loading the statics: the records, then the indexes over them. */
  method Load(countriesCsv: string, orgsCsv: string) returns (t: Tables)
    requires Lines(countriesCsv) != [] && Lines(orgsCsv) != []
    ensures Valid(t) && t.data == AllRecords(countriesCsv, orgsCsv)
  {
    var data := BuildData(countriesCsv, orgsCsv);
    var callsigns := BuildCallsignIndex(data);
    var icao := BuildIcaoIndex(data);
    t := Tables(data, callsigns, icao, MinCallsignLen(data), MaxCallsignLen(data));
  }

  /** The records with the given numbers, in that order. */
  function Recs(t: Tables, idxs: seq<nat>): (r: seq<EntityData>)
    requires forall j :: 0 <= j < |idxs| ==> idxs[j] < |t.data|
    ensures |r| == |idxs| && forall j :: 0 <= j < |idxs| ==> r[j] == t.data[idxs[j]]
  {
    seq(|idxs|, j requires 0 <= j < |idxs| => t.data[idxs[j]])
  }

  // ---------------------------------------------------------------------
  // Callsigns (`parse_registration`)
  // ---------------------------------------------------------------------

  /** The records listed under the prefix of length `len`, if the input is that long. */
  function CandidatesAt(t: Tables, input: string, len: nat): (r: seq<nat>)
    requires Indexed(t)
    ensures forall j :: 0 <= j < |r| ==> r[j] < |t.data|
  {
    if len <= |input| && input[..len] in t.callsigns then t.callsigns[input[..len]] else []
  }

  /** The candidates for prefix lengths `t.minLen` up to `hi - 1`, shorter prefixes first. */
  function CandidatesBelow(t: Tables, input: string, hi: nat): (r: seq<nat>)
    requires Indexed(t)
    ensures forall j :: 0 <= j < |r| ==> r[j] < |t.data|
    decreases hi
  {
    if hi <= t.minLen then [] else CandidatesBelow(t, input, hi - 1) + CandidatesAt(t, input, hi - 1)
  }

  /** All candidates: prefix lengths MIN..=MAX ascending. */
  function Candidates(t: Tables, input: string): (r: seq<nat>)
    requires Indexed(t)
    ensures forall j :: 0 <= j < |r| ==> r[j] < |t.data|
  {
    CandidatesBelow(t, input, t.maxLen + 1)
  }

  /** The records among `ds` whose pattern matches the input, in order. */
  function Matching(re: RegexEngine, ds: seq<EntityData>, input: string, strict: bool): (r: seq<EntityData>)
  {
    if ds == [] then []
    else
      var d := ds[|ds| - 1];
      Matching(re, ds[..|ds| - 1], input, strict) + if Hit(re, PatternOf(d, strict), input) then [d] else []
  }

  /** The records among `ds` with priority `p`, in order. */
  function WithPriority(ds: seq<EntityData>, p: int): seq<EntityData>
  {
    if ds == [] then []
    else WithPriority(ds[..|ds| - 1], p) + if ds[|ds| - 1].priority == p then [ds[|ds| - 1]] else []
  }

  /** The highest priority among a non-empty sequence of records. */
  function MaxPriority(ds: seq<EntityData>): (p: int)
    requires ds != []
    ensures exists j :: 0 <= j < |ds| && ds[j].priority == p
    ensures forall j :: 0 <= j < |ds| ==> ds[j].priority <= p
  {
    if |ds| == 1 then ds[0].priority
    else
      var m := MaxPriority(ds[..|ds| - 1]);
      assert forall j :: 0 <= j < |ds| - 1 ==> ds[..|ds| - 1][j] == ds[j];
      if ds[|ds| - 1].priority > m then ds[|ds| - 1].priority else m
  }

  /** `matches_by_priority`: the matching records grouped by priority, each group in order. */
  function ByPriority(ms: seq<EntityData>): map<int, seq<EntityData>>
  {
    if ms == [] then map[]
    else
      var g := ByPriority(ms[..|ms| - 1]);
      var d := ms[|ms| - 1];
      g[d.priority := (if d.priority in g then g[d.priority] else []) + [d]]
  }

  /** What `parse_registration` returns. */
  function Selection(t: Tables, re: RegexEngine, input: string, strict: bool): Option<seq<EntityData>>
    requires Indexed(t)
  {
    var cands := Recs(t, Candidates(t, input));
    if cands == [] then None
    else
      var ms := Matching(re, cands, input, strict);
      if ms == [] then None else Some(WithPriority(ms, MaxPriority(ms)))
  }

  /** `parse_registration`: gather the candidates, group the matching ones by priority, return the top group. */
  method ParseRegistration(t: Tables, re: RegexEngine, input: string, strict: bool) returns (r: Option<seq<EntityData>>)
    requires Valid(t)
    ensures Indexed(t) && r == Selection(t, re, input, strict)
  {
    ValidIndexed(t);
    var datasets := GatherCandidates(t, input);
    if datasets == [] {
      return None;
    }
    var byPriority := GroupMatches(re, datasets, input, strict);
    ghost var ms := Matching(re, datasets, input, strict);
    ByPrioritySpec(ms);
    if byPriority == map[] {
      return None;
    }
    var best := LargestKey(byPriority);
    MaxKey(ms, best);
    r := Some(byPriority[best]);
  }

  /** The first loop of `parse_registration`: the records under each prefix of length MIN..=MAX that the input has. */
  method GatherCandidates(t: Tables, input: string) returns (datasets: seq<EntityData>)
    requires Indexed(t)
    ensures datasets == Recs(t, Candidates(t, input))
  {
    datasets := [];
    var len := t.minLen;
    while len <= t.maxLen
      invariant t.minLen <= len <= t.maxLen + 1
      invariant datasets == Recs(t, CandidatesBelow(t, input, len))
    {
      if |input| >= len {
        var prefix := input[..len];
        if prefix in t.callsigns {
          var indices := t.callsigns[prefix];
          var k := 0;
          while k < |indices|
            invariant 0 <= k <= |indices|
            invariant datasets == Recs(t, CandidatesBelow(t, input, len) + indices[..k])
          {
            datasets := datasets + [t.data[indices[k]]];
            k := k + 1;
          }
          assert indices[..k] == indices;
        }
      }
      len := len + 1;
    }
  }

  /** The second loop: each record whose pattern compiles and matches joins the group of its priority. */
  method GroupMatches(re: RegexEngine, datasets: seq<EntityData>, input: string, strict: bool)
    returns (byPriority: map<int, seq<EntityData>>)
    ensures byPriority == ByPriority(Matching(re, datasets, input, strict))
  {
    byPriority := map[];
    var k := 0;
    while k < |datasets|
      invariant 0 <= k <= |datasets|
      invariant byPriority == ByPriority(Matching(re, datasets[..k], input, strict))
    {
      var d := datasets[k];
      var pattern := if strict then d.strictRegex else d.regex;
      var before := Matching(re, datasets[..k], input, strict);
      MatchingStep(re, datasets, k, input, strict);
      assert pattern == PatternOf(d, strict);
      if re.compiles(pattern) && re.isMatch(pattern, input) {
        ByPrioritySnoc(before, d);
        assert Matching(re, datasets[..k + 1], input, strict) == before + [d];
        var group := if d.priority in byPriority then byPriority[d.priority] else [];
        byPriority := byPriority[d.priority := group + [d]];
      } else {
        assert Matching(re, datasets[..k + 1], input, strict) == before;
      }
      k := k + 1;
    }
    assert datasets[..k] == datasets;
  }

  /** The matches among one more record are those before it, then the record if it matches. */
  lemma MatchingStep(re: RegexEngine, ds: seq<EntityData>, k: nat, input: string, strict: bool)
    requires k < |ds|
    ensures Matching(re, ds[..k + 1], input, strict)
            == Matching(re, ds[..k], input, strict) + if Hit(re, PatternOf(ds[k], strict), input) then [ds[k]] else []
  {
    assert ds[..k + 1][..k] == ds[..k];
  }

  /** One more match joins the end of its priority's group. */
  lemma ByPrioritySnoc(ms: seq<EntityData>, d: EntityData)
    ensures ByPriority(ms + [d])
            == ByPriority(ms)[d.priority := (if d.priority in ByPriority(ms) then ByPriority(ms)[d.priority] else []) + [d]]
  {
    assert (ms + [d])[..|ms|] == ms;
  }

  /** `keys().max()` of a non-empty grouping. */
  method LargestKey(m: map<int, seq<EntityData>>) returns (best: int)
    requires m != map[]
    ensures best in m && forall p :: p in m ==> p <= best
  {
    var keys := m.Keys;
    Element(keys);
    best :| best in keys;
    var rest := keys - {best};
    while rest != {}
      invariant rest <= keys && best in keys
      invariant forall p :: p in keys && p !in rest ==> p <= best
      decreases rest
    {
      Element(rest);
      var p :| p in rest;
      if p > best {
        best := p;
      }
      rest := rest - {p};
    }
  }

  /** A group holds the records of its priority, and there is a group for each priority that occurs. */
  lemma {:induction false} ByPrioritySpec(ms: seq<EntityData>)
    ensures forall p :: p in ByPriority(ms) <==> exists j :: 0 <= j < |ms| && ms[j].priority == p
    ensures forall p :: p in ByPriority(ms) ==> ByPriority(ms)[p] == WithPriority(ms, p)
    ensures ByPriority(ms) == map[] <==> ms == []
  {
    if ms != [] {
      var init := ms[..|ms| - 1];
      ByPrioritySpec(init);
      assert forall j :: 0 <= j < |init| ==> init[j] == ms[j];
      forall p | p in ByPriority(ms)
        ensures p in ByPriority(init) || p == ms[|ms| - 1].priority
      {
      }
      forall p | p !in ByPriority(init) && p != ms[|ms| - 1].priority
        ensures WithPriority(init, p) == []
      {
        WithPriorityEmpty(init, p);
      }
      WithPriorityEmpty(init, ms[|ms| - 1].priority);
    }
  }

  /** No record of a priority, no group. */
  lemma {:induction false} WithPriorityEmpty(ds: seq<EntityData>, p: int)
    ensures WithPriority(ds, p) == [] <==> forall j :: 0 <= j < |ds| ==> ds[j].priority != p
  {
    if ds != [] {
      var init := ds[..|ds| - 1];
      WithPriorityEmpty(init, p);
      assert forall j :: 0 <= j < |init| ==> init[j] == ds[j];
    }
  }

  /** The largest key of the grouping is the highest priority. */
  lemma MaxKey(ms: seq<EntityData>, best: int)
    requires ms != []
    requires best in ByPriority(ms)
    requires forall p :: p in ByPriority(ms) ==> p <= best
    requires forall p :: p in ByPriority(ms) <==> exists j :: 0 <= j < |ms| && ms[j].priority == p
    ensures best == MaxPriority(ms)
  {
    var j :| 0 <= j < |ms| && ms[j].priority == MaxPriority(ms);
    assert ms[j].priority in ByPriority(ms);
  }

  /** A record's pattern, loose or strict, compiles and matches the input. */
  predicate Matches(re: RegexEngine, d: EntityData, input: string, strict: bool) {
    Hit(re, PatternOf(d, strict), input)
  }

  /** The matching records are records of `ds` that match, and every record of `ds` that matches is among them. */
  lemma {:induction false} MatchingMembers(re: RegexEngine, ds: seq<EntityData>, input: string, strict: bool)
    ensures forall d :: d in Matching(re, ds, input, strict) ==> d in ds && Matches(re, d, input, strict)
    ensures forall j :: 0 <= j < |ds| && Matches(re, ds[j], input, strict) ==> ds[j] in Matching(re, ds, input, strict)
  {
    if ds != [] {
      var init := ds[..|ds| - 1];
      MatchingMembers(re, init, input, strict);
      assert forall j :: 0 <= j < |init| ==> init[j] == ds[j];
    }
  }

  /** The records of a priority all have it and come from the sequence. */
  lemma {:induction false} WithPriorityMembers(ms: seq<EntityData>, p: int)
    ensures forall d :: d in WithPriority(ms, p) ==> d in ms && d.priority == p
  {
    if ms != [] {
      WithPriorityMembers(ms[..|ms| - 1], p);
    }
  }

  /** One more record adds itself to its own priority's records only. */
  lemma WithPrioritySnoc(ms: seq<EntityData>, d: EntityData, p: int)
    ensures WithPriority(ms + [d], p) == WithPriority(ms, p) + if d.priority == p then [d] else []
  {
    assert (ms + [d])[..|ms|] == ms;
  }

  /** A record that matches with priority `p`. */
  predicate Qualifies(re: RegexEngine, d: EntityData, input: string, strict: bool, p: int) {
    Matches(re, d, input, strict) && d.priority == p
  }

  /** The position of the earliest record of `ds` that matches with priority `p`, or `|ds|` when there is none. */
  function FirstQualifying(re: RegexEngine, ds: seq<EntityData>, input: string, strict: bool, p: int): (f: nat)
    ensures f <= |ds|
    ensures f < |ds| ==> Qualifies(re, ds[f], input, strict, p)
    ensures forall i :: 0 <= i < f ==> !Qualifies(re, ds[i], input, strict, p)
  {
    if ds == [] then 0
    else
      var init := ds[..|ds| - 1];
      var f := FirstQualifying(re, init, input, strict, p);
      assert forall i :: 0 <= i < |init| ==> init[i] == ds[i];
      if f < |init| then f
      else if Qualifies(re, ds[|ds| - 1], input, strict, p) then |init|
      else |ds|
  }

  /**
   * The matching records of priority `p` are empty exactly when no record
   * qualifies, and otherwise start with the earliest one that does.
   */
  lemma {:induction false} FirstWithPriority(re: RegexEngine, ds: seq<EntityData>, input: string, strict: bool, p: int)
    ensures var w := WithPriority(Matching(re, ds, input, strict), p); var f := FirstQualifying(re, ds, input, strict, p);
      (w == [] <==> f == |ds|) && (f < |ds| ==> w[0] == ds[f])
  {
    if ds != [] {
      var init := ds[..|ds| - 1];
      var last := ds[|ds| - 1];
      var m := Matching(re, init, input, strict);
      FirstWithPriority(re, init, input, strict, p);
      if Matches(re, last, input, strict) {
        assert Matching(re, ds, input, strict) == m + [last];
        WithPrioritySnoc(m, last, p);
      } else {
        assert Matching(re, ds, input, strict) == m;
      }
    }
  }

  /**
   * Among records `ds`, the matching ones of the highest priority found
   * among the matches are non-empty and all match with that priority; no
   * matching record has a higher one, and the first of them is the
   * earliest matching record of `ds` with that priority.
   */
  lemma TopGroupSpec(re: RegexEngine, ds: seq<EntityData>, input: string, strict: bool)
    requires Matching(re, ds, input, strict) != []
    ensures var ms := Matching(re, ds, input, strict); var w := WithPriority(ms, MaxPriority(ms));
      && w != []
      && (forall k :: 0 <= k < |w| ==> w[k] in ds && Matches(re, w[k], input, strict) && w[k].priority == w[0].priority)
      && (forall j :: 0 <= j < |ds| && Matches(re, ds[j], input, strict) ==> ds[j].priority <= w[0].priority)
      && exists j ::
        && 0 <= j < |ds| && ds[j] == w[0] && Matches(re, ds[j], input, strict)
        && forall i :: 0 <= i < j && Matches(re, ds[i], input, strict) ==> ds[i].priority < ds[j].priority
  {
    var ms := Matching(re, ds, input, strict);
    var p := MaxPriority(ms);
    var w := WithPriority(ms, p);
    MatchingMembers(re, ds, input, strict);
    WithPriorityMembers(ms, p);
    FirstWithPriority(re, ds, input, strict, p);
    var f := FirstQualifying(re, ds, input, strict, p);
    forall j | 0 <= j < |ds| && Matches(re, ds[j], input, strict)
      ensures ds[j].priority <= p
    {
      assert ds[j] in ms;
    }
    var k :| 0 <= k < |ms| && ms[k].priority == p;
    assert ms[k] in ms;
    var j :| 0 <= j < |ds| && ds[j] == ms[k];
    assert Qualifies(re, ds[j], input, strict, p);
    assert f < |ds|;
    forall k | 0 <= k < |w|
      ensures w[k] in ds && Matches(re, w[k], input, strict) && w[k].priority == p
    {
      assert w[k] in w;
    }
  }

  /**
   * `parse_registration` finds something exactly when some candidate's
   * pattern compiles and matches; it then returns the top group of the
   * candidates (TopGroupSpec).
   */
  lemma SelectionSpec(t: Tables, re: RegexEngine, input: string, strict: bool)
    requires Indexed(t)
    ensures var cands := Recs(t, Candidates(t, input));
      Selection(t, re, input, strict).Some? <==> exists j :: 0 <= j < |cands| && Matches(re, cands[j], input, strict)
    ensures var cands := Recs(t, Candidates(t, input)); var ms := Matching(re, cands, input, strict);
      Selection(t, re, input, strict).Some? ==> ms != [] && Selection(t, re, input, strict).value == WithPriority(ms, MaxPriority(ms))
  {
    var cands := Recs(t, Candidates(t, input));
    var ms := Matching(re, cands, input, strict);
    MatchingMembers(re, cands, input, strict);
    if ms != [] {
      assert ms[0] in ms;
    }
  }

  // ---------------------------------------------------------------------
  // 24-bit addresses (`parse_icao24bit`)
  // ---------------------------------------------------------------------

  predicate IsUpperHex(c: char) {
    '0' <= c <= '9' || 'A' <= c <= 'F'
  }

  /** The strict form of an address, `^[0-9A-F]{6}$`: six upper-case hexadecimal digits. */
  predicate StrictIcao(input: string) {
    |input| == 6 && forall k :: 0 <= k < 6 ==> IsUpperHex(input[k])
  }

  /** The records of the input's prefixes of lengths 1 to `n` found in the address index, shortest first. */
  function IcaoHits(t: Tables, input: string, n: nat): (r: seq<nat>)
    requires Indexed(t) && n <= |input|
    ensures forall j :: 0 <= j < |r| ==> r[j] < |t.data|
  {
    if n == 0 then []
    else IcaoHits(t, input, n - 1) + if input[..n] in t.icao then [t.icao[input[..n]]] else []
  }

  /** What `parse_icao24bit` returns. */
  function IcaoSelection(t: Tables, input: string, strict: bool): Option<seq<EntityData>>
    requires Indexed(t)
  {
    if strict && !StrictIcao(input) then None
    else
      var hits := IcaoHits(t, input, |input|);
      if hits == [] then None else Some(Recs(t, hits))
  }

  /** `parse_icao24bit`: refuse a malformed address in strict mode, then look up every prefix, shortest first. */
  method ParseIcao24bit(t: Tables, input: string, strict: bool) returns (r: Option<seq<EntityData>>)
    requires Valid(t)
    ensures Indexed(t) && r == IcaoSelection(t, input, strict)
  {
    ValidIndexed(t);
    if strict && !StrictIcao(input) {
      return None;
    }
    var matches: seq<EntityData> := [];
    var i := 0;
    while i < |input|
      invariant 0 <= i <= |input|
      invariant matches == Recs(t, IcaoHits(t, input, i))
    {
      var prefix := input[..i + 1];
      IcaoHitsStep(t, input, i);
      if prefix in t.icao {
        matches := matches + [t.data[t.icao[prefix]]];
      }
      i := i + 1;
    }
    if matches == [] {
      r := None;
    } else {
      r := Some(matches);
    }
  }

  /** One more prefix looked up: its record, if indexed, joins the records found so far. */
  lemma IcaoHitsStep(t: Tables, input: string, i: nat)
    requires Indexed(t) && i < |input|
    ensures Recs(t, IcaoHits(t, input, i + 1))
            == Recs(t, IcaoHits(t, input, i)) + if input[..i + 1] in t.icao then [t.data[t.icao[input[..i + 1]]]] else []
  {
    var h := IcaoHits(t, input, i);
    var e := if input[..i + 1] in t.icao then [t.icao[input[..i + 1]]] else [];
    assert IcaoHits(t, input, i + 1) == h + e;
  }

  /** There are hits up to length `n` exactly when some prefix that long is indexed, and the first is the shortest one's. */
  lemma {:induction false} IcaoHitsFirst(t: Tables, input: string, n: nat)
    requires Indexed(t) && n <= |input|
    ensures IcaoHits(t, input, n) != [] <==> exists m :: 1 <= m <= n && input[..m] in t.icao
    ensures IcaoHits(t, input, n) != [] ==>
      exists m :: 1 <= m <= n && input[..m] in t.icao && IcaoHits(t, input, n)[0] == t.icao[input[..m]]
        && forall l :: 1 <= l < m ==> input[..l] !in t.icao
  {
    if n > 0 {
      IcaoHitsFirst(t, input, n - 1);
      if IcaoHits(t, input, n - 1) == [] {
        assert forall l :: 1 <= l < n ==> input[..l] !in t.icao;
      }
    }
  }

  /**
   * `parse_icao24bit` finds something exactly when the address passes the
   * strict check (if asked for) and one of its prefixes is indexed; the
   * first record found is that of the shortest such prefix.
   */
  lemma IcaoSelectionSpec(t: Tables, input: string, strict: bool)
    requires Indexed(t)
    ensures IcaoSelection(t, input, strict).Some? <==>
      (!strict || StrictIcao(input)) && exists m :: 1 <= m <= |input| && input[..m] in t.icao
    ensures var sel := IcaoSelection(t, input, strict);
      sel.Some? ==>
        && sel.value != []
        && exists m ::
          && 1 <= m <= |input| && input[..m] in t.icao && sel.value[0] == t.data[t.icao[input[..m]]]
          && forall l :: 1 <= l < m ==> input[..l] !in t.icao
  {
    IcaoHitsFirst(t, input, |input|);
  }

  // ---------------------------------------------------------------------
  // The public entry points (`parse`, `parse_simple`)
  // ---------------------------------------------------------------------

  /** `parse`: the entity of the first record the chosen path returns. */
  function Parse(t: Tables, re: RegexEngine, input: string, strict: bool, icao24bit: bool): (r: Option<EntityResult>)
    requires Indexed(t)
  {
    var matches := if icao24bit then IcaoSelection(t, input, strict) else Selection(t, re, input, strict);
    if matches.Some? && matches.value != [] then Some(matches.value[0].entityResult) else None
  }

  /**
   * A callsign is classified exactly when one of its candidates matches,
   * and then as the earliest matching candidate of the highest priority
   * among the matching candidates.
   */
  lemma ParseCallsign(t: Tables, re: RegexEngine, input: string, strict: bool)
    requires Indexed(t)
    ensures var cands := Recs(t, Candidates(t, input));
      Parse(t, re, input, strict, false).Some? <==> exists j :: 0 <= j < |cands| && Matches(re, cands[j], input, strict)
    ensures var cands := Recs(t, Candidates(t, input));
      Parse(t, re, input, strict, false).Some? ==>
        exists j :: 0 <= j < |cands| && Matches(re, cands[j], input, strict)
          && Parse(t, re, input, strict, false).value == cands[j].entityResult
          && (forall i :: 0 <= i < |cands| && Matches(re, cands[i], input, strict) ==> cands[i].priority <= cands[j].priority)
          && (forall i :: 0 <= i < j && Matches(re, cands[i], input, strict) ==> cands[i].priority < cands[j].priority)
  {
    var cands := Recs(t, Candidates(t, input));
    SelectionSpec(t, re, input, strict);
    if Matching(re, cands, input, strict) != [] {
      TopGroupSpec(re, cands, input, strict);
    }
  }

  /**
   * `parse` of an address finds something exactly when the strict check
   * (if asked for) passes and some record lists a prefix of the input.
   */
  lemma ParseAddress(t: Tables, re: RegexEngine, input: string, strict: bool)
    requires Valid(t)
    ensures Indexed(t)
    ensures Parse(t, re, input, strict, true).Some? <==>
      (!strict || StrictIcao(input))
      && exists m, i :: 1 <= m <= |input| && 0 <= i < |t.data| && input[..m] in t.data[i].icao24bitPrefixes
  {
    ValidIndexed(t);
    IcaoSelectionSpec(t, input, strict);
    IcaoIndexSpec(t.data);
  }

  /**
   * What `parse` of an address finds is the entity of the last record that
   * lists the input's shortest prefix listed by any record.
   */
  lemma ParseAddressRecord(t: Tables, re: RegexEngine, input: string, strict: bool)
    requires Valid(t)
    ensures Indexed(t)
    ensures Parse(t, re, input, strict, true).Some? ==>
      exists m, i :: 1 <= m <= |input| && 0 <= i < |t.data| && input[..m] in t.data[i].icao24bitPrefixes
        && Parse(t, re, input, strict, true).value == t.data[i].entityResult
        && (forall j :: i < j < |t.data| ==> input[..m] !in t.data[j].icao24bitPrefixes)
        && (forall l, j :: 1 <= l < m && 0 <= j < |t.data| ==> input[..l] !in t.data[j].icao24bitPrefixes)
  {
    ValidIndexed(t);
    IcaoSelectionSpec(t, input, strict);
    IcaoIndexSpec(t.data);
  }

  /** `parse_simple`: a callsign, with the loose patterns. */
  function ParseSimple(t: Tables, re: RegexEngine, input: string): (r: Option<EntityResult>)
    requires Indexed(t)
    ensures var cands := Recs(t, Candidates(t, input));
      r.Some? <==> exists j :: 0 <= j < |cands| && Hit(re, cands[j].regex, input)
  {
    ParseCallsign(t, re, input, false);
    Parse(t, re, input, false, false)
  }

  /** A non-empty set has an element. */
  lemma Element(s: set<int>)
    requires s != {}
    ensures exists x :: x in s
  {
    if forall x :: x !in s {
      assert false;
    }
  }
}
