/**
 * The Gemini client: the prompt sent for one table and the line-oriented
 * state machine that turns the model's free-text reply into a list of
 * nine-key records (src/gemini_client.py).
 *
 * The reply is read line by line. Each line is stripped; it is classified by
 * the first of nine lower-case markers that occurs anywhere in its lower-cased
 * text, provided it also contains a colon. The text after the first colon,
 * stripped, is stored in the working record under the marker. A line
 * classified as `personal information` appends the working record to the
 * output and starts a fresh all-empty one; whatever is accumulated after the
 * last such line is dropped.
 */
module GeminiClient {
  import opened Wrappers
  import opened Strings
  import opened Seqs

  /** The nine fields of the working record, in the order the elif chain tests them. */
  datatype Field =
    | Column | Description | Type | Collection | DataSource
    | Purpose | LegalBasis | PersonalData | PersonalInformation

  /** The nine fields in elif order. */
  const Fields: seq<Field> :=
    [Column, Description, Type, Collection, DataSource, Purpose, LegalBasis, PersonalData, PersonalInformation]

  /** The keys of every working record. */
  const ParserKeys: set<string> :=
    {"column", "description", "type", "collection", "data source",
     "purpose", "legal basis", "personal data", "personal information"}

  /** The marker a line is searched for; the value is stored under the same string. */
  function Key(f: Field): (k: string)
    ensures k in ParserKeys
  {
    match f
    case Column => "column"
    case Description => "description"
    case Type => "type"
    case Collection => "collection"
    case DataSource => "data source"
    case Purpose => "purpose"
    case LegalBasis => "legal basis"
    case PersonalData => "personal data"
    case PersonalInformation => "personal information"
  }

  /** Position of the field's test in the elif chain. */
  function Rank(f: Field): (n: nat)
    ensures n < |Fields| && Fields[n] == f
  {
    match f
    case Column => 0
    case Description => 1
    case Type => 2
    case Collection => 3
    case DataSource => 4
    case Purpose => 5
    case LegalBasis => 6
    case PersonalData => 7
    case PersonalInformation => 8
  }

  /** Distinct fields are stored under distinct keys. */
  lemma KeyInjective(f: Field, g: Field)
    ensures Key(f) == Key(g) ==> f == g
  {
  }

  /** A Python dict from field key to text. */
  type Record = map<string, string>

  /** The all-empty working record. */
  function Blank(): (r: Record)
    ensures r.Keys == ParserKeys
    ensures forall k :: k in r ==> r[k] == ""
  {
    map k | k in ParserKeys :: ""
  }

  /** The first of the fields `Fields[n..]` whose marker occurs in `lowerLine`. */
  function FirstMarker(lowerLine: string, n: nat): Option<Field>
    requires n <= |Fields|
    decreases |Fields| - n
  {
    if n == |Fields| then None
    else if Contains(lowerLine, Key(Fields[n])) then Some(Fields[n])
    else FirstMarker(lowerLine, n + 1)
  }

  /**
   * How one stripped line is classified: the elif chain of lines 162-188. The
   * first marker, in elif order, contained in the lower-cased line wins,
   * provided the line has a colon.
   */
  function Classify(line: string): (r: Option<Field>)
    ensures r.Some? ==> ':' in line
  {
    var lowerLine := Lower(line);
    if Contains(lowerLine, "column") && ':' in line then Some(Column)
    else if Contains(lowerLine, "description") && ':' in line then Some(Description)
    else if Contains(lowerLine, "type") && ':' in line then Some(Type)
    else if Contains(lowerLine, "collection") && ':' in line then Some(Collection)
    else if Contains(lowerLine, "data source") && ':' in line then Some(DataSource)
    else if Contains(lowerLine, "purpose") && ':' in line then Some(Purpose)
    else if Contains(lowerLine, "legal basis") && ':' in line then Some(LegalBasis)
    else if Contains(lowerLine, "personal data") && ':' in line then Some(PersonalData)
    else if Contains(lowerLine, "personal information") && ':' in line then Some(PersonalInformation)
    else None
  }

  /** The elif chain is a search for the first of `Fields` whose marker occurs in the line. */
  lemma ClassifyIsFirstMarker(line: string)
    ensures Classify(line) == if ':' in line then FirstMarker(Lower(line), 0) else None
  {
    var l := Lower(line);
    assert FirstMarker(l, 0) == if Contains(l, "column") then Some(Column) else FirstMarker(l, 1);
    assert FirstMarker(l, 1) == if Contains(l, "description") then Some(Description) else FirstMarker(l, 2);
    assert FirstMarker(l, 2) == if Contains(l, "type") then Some(Type) else FirstMarker(l, 3);
    assert FirstMarker(l, 3) == if Contains(l, "collection") then Some(Collection) else FirstMarker(l, 4);
    assert FirstMarker(l, 4) == if Contains(l, "data source") then Some(DataSource) else FirstMarker(l, 5);
    assert FirstMarker(l, 5) == if Contains(l, "purpose") then Some(Purpose) else FirstMarker(l, 6);
    assert FirstMarker(l, 6) == if Contains(l, "legal basis") then Some(LegalBasis) else FirstMarker(l, 7);
    assert FirstMarker(l, 7) == if Contains(l, "personal data") then Some(PersonalData) else FirstMarker(l, 8);
    assert FirstMarker(l, 8) == if Contains(l, "personal information") then Some(PersonalInformation) else FirstMarker(l, 9);
    assert FirstMarker(l, 9) == None;
  }

  /** `line.split(':', 1)[1].strip()`: the stripped text after the first colon. */
  function Value(line: string): string
    requires ':' in line
  {
    Strip(line[IndexOf(line, ':') + 1..])
  }

  /** What one reply line contributes: nothing, or a value for one field. */
  datatype Entry = Entry(field: Field, value: string)

  /** Strip a raw reply line, classify it and take its value. */
  function Lex(raw: string): Option<Entry> {
    var line := Strip(raw);
    match Classify(line)
    case None => None
    case Some(f) => Some(Entry(f, Value(line)))
  }

  /** The entries of the reply's lines, line by line. */
  function Tokens(lines: seq<string>): (ts: seq<Option<Entry>>)
    ensures |ts| == |lines|
    ensures forall i :: 0 <= i < |lines| ==> ts[i] == Lex(lines[i])
    decreases |lines|
  {
    if lines == [] then [] else Tokens(lines[..|lines| - 1]) + [Lex(lines[|lines| - 1])]
  }

  lemma {:induction false} TokensAppend(xs: seq<string>, ys: seq<string>)
    ensures Tokens(xs + ys) == Tokens(xs) + Tokens(ys)
    decreases |ys|
  {
    if ys == [] {
      assert xs + ys == xs;
    } else {
      var init, last := ys[..|ys| - 1], ys[|ys| - 1];
      assert (xs + ys)[..|xs + ys| - 1] == xs + init;
      assert (xs + ys)[|xs + ys| - 1] == last;
      TokensAppend(xs, init);
    }
  }

  /** The working record and the records emitted so far. */
  datatype ParseState = ParseState(parsed: Record, parsedDictionaries: seq<Record>)

  const Initial: ParseState := ParseState(Blank(), [])

  /** An entry that flushes the working record. */
  predicate IsFlush(t: Option<Entry>) {
    t.Some? && t.value.field == PersonalInformation
  }

  /** One iteration of the loop over the reply's lines, given the line's entry. */
  function Step(st: ParseState, t: Option<Entry>): ParseState {
    match t
    case None => st
    case Some(e) =>
      var parsed := st.parsed[Key(e.field) := e.value];
      if e.field == PersonalInformation then ParseState(Blank(), st.parsedDictionaries + [parsed])
      else ParseState(parsed, st.parsedDictionaries)
  }

  /** The state after the loop has consumed the entries `ts`. */
  function Run(st: ParseState, ts: seq<Option<Entry>>): ParseState
    decreases |ts|
  {
    if ts == [] then st else Step(Run(st, ts[..|ts| - 1]), ts[|ts| - 1])
  }

  /** The records the loop returns for the entries `ts`. */
  function Records(ts: seq<Option<Entry>>): seq<Record> {
    Run(Initial, ts).parsedDictionaries
  }

  /** `_parse_analysis` as a function of the reply text. */
  function Parse(analysis: string): seq<Record> {
    Records(Tokens(Split(analysis, '\n')))
  }

  lemma RunSnoc(st: ParseState, ts: seq<Option<Entry>>, t: Option<Entry>)
    ensures Run(st, ts + [t]) == Step(Run(st, ts), t)
  {
    assert (ts + [t])[..|ts|] == ts;
  }

  /**
   * The body of the loop of `_parse_analysis` (lines 158-200) for one raw
   * line: strip it, lower-case it, and run the elif chain.
   */
  method ParseLine(parsed0: Record, parsedDictionaries0: seq<Record>, raw: string)
    returns (parsed: Record, parsedDictionaries: seq<Record>)
    ensures ParseState(parsed, parsedDictionaries) == Step(ParseState(parsed0, parsedDictionaries0), Lex(raw))
  {
    parsed, parsedDictionaries := parsed0, parsedDictionaries0;
    var line := Strip(raw);
    var lowerLine := Lower(line);
    if Contains(lowerLine, "column") && ':' in line {
      parsed := parsed["column" := Value(line)];
    } else if Contains(lowerLine, "description") && ':' in line {
      parsed := parsed["description" := Value(line)];
    } else if Contains(lowerLine, "type") && ':' in line {
      parsed := parsed["type" := Value(line)];
    } else if Contains(lowerLine, "collection") && ':' in line {
      parsed := parsed["collection" := Value(line)];
    } else if Contains(lowerLine, "data source") && ':' in line {
      parsed := parsed["data source" := Value(line)];
    } else if Contains(lowerLine, "purpose") && ':' in line {
      parsed := parsed["purpose" := Value(line)];
    } else if Contains(lowerLine, "legal basis") && ':' in line {
      parsed := parsed["legal basis" := Value(line)];
    } else if Contains(lowerLine, "personal data") && ':' in line {
      parsed := parsed["personal data" := Value(line)];
    } else if Contains(lowerLine, "personal information") && ':' in line {
      parsed := parsed["personal information" := Value(line)];
      parsedDictionaries := parsedDictionaries + [parsed];
      parsed := Blank();
    }
  }

  /** `_parse_analysis`: the loop over the reply's lines. */
  method ParseAnalysis(analysis: string) returns (parsedDictionaries: seq<Record>)
    ensures parsedDictionaries == Parse(analysis)
  {
    var parsed := Blank();
    parsedDictionaries := [];
    var lines := Split(analysis, '\n');
    for i := 0 to |lines|
      invariant Run(Initial, Tokens(lines[..i])) == ParseState(parsed, parsedDictionaries)
    {
      assert lines[..i + 1][..i] == lines[..i];
      RunSnoc(Initial, Tokens(lines[..i]), Lex(lines[i]));
      parsed, parsedDictionaries := ParseLine(parsed, parsedDictionaries, lines[i]);
    }
    assert lines[..|lines|] == lines;
  }

  // ---------------------------------------------------------------------------
  // Classification of one line

  lemma RankOfFields(n: nat)
    requires n < |Fields|
    ensures Rank(Fields[n]) == n
  {
  }

  /** `FirstMarker(l, n)` finds `f` exactly when `f` is the first field from `n` on whose marker `l` contains. */
  lemma {:induction false} FirstMarkerFinds(l: string, n: nat, f: Field)
    requires n <= |Fields|
    ensures FirstMarker(l, n) == Some(f) <==>
      n <= Rank(f) && Contains(l, Key(f)) && forall g :: n <= Rank(g) < Rank(f) ==> !Contains(l, Key(g))
    decreases |Fields| - n
  {
    if n < |Fields| {
      FirstMarkerFinds(l, n + 1, f);
      RankOfFields(n);
      if f != Fields[n] {
        assert Rank(f) != n;
      }
    }
  }

  /** `FirstMarker(l, n)` finds nothing exactly when `l` contains no marker from `n` on. */
  lemma {:induction false} FirstMarkerMisses(l: string, n: nat)
    requires n <= |Fields|
    ensures FirstMarker(l, n) == None <==> forall g :: n <= Rank(g) ==> !Contains(l, Key(g))
    decreases |Fields| - n
  {
    if n < |Fields| {
      FirstMarkerMisses(l, n + 1);
      RankOfFields(n);
    }
  }

  /** A line goes to the first marker, in elif order, that occurs in its lower-cased text. */
  lemma ClassifyFirstMatch(line: string, f: Field)
    ensures Classify(line) == Some(f) <==>
      ':' in line && Contains(Lower(line), Key(f))
      && forall g :: Rank(g) < Rank(f) ==> !Contains(Lower(line), Key(g))
  {
    ClassifyIsFirstMarker(line);
    FirstMarkerFinds(Lower(line), 0, f);
  }

  /** A line is ignored exactly when it has no colon or contains no marker. */
  lemma ClassifyNone(line: string)
    ensures Classify(line) == None <==> ':' !in line || forall g :: !Contains(Lower(line), Key(g))
  {
    ClassifyIsFirstMarker(line);
    FirstMarkerMisses(Lower(line), 0);
  }

  /** Classification does not depend on the case of the line. */
  lemma ClassifyIgnoresCase(a: string, b: string)
    requires Lower(a) == Lower(b)
    ensures Classify(a) == Classify(b)
  {
    LowerKeepsNonLetter(a, ':');
    LowerKeepsNonLetter(b, ':');
  }

  /** A line that mentions a marker earlier in the chain is stored under that marker, whatever its label. */
  lemma EarlierMarkerWins(line: string, f: Field, g: Field)
    requires ':' in line && Contains(Lower(line), Key(f)) && Contains(Lower(line), Key(g))
    requires Rank(g) < Rank(f)
    ensures Classify(line) != Some(f)
  {
    ClassifyFirstMatch(line, f);
  }

  /**
   * The stored value is everything after the first colon, stripped; later
   * colons stay in the value (`Legal Basis: GDPR Art. 6: consent` stores
   * `GDPR Art. 6: consent`).
   */
  lemma ValueAfterFirstColon(name: string, rest: string)
    requires ':' !in name
    ensures ':' in name + ":" + rest
    ensures Value(name + ":" + rest) == Strip(rest)
  {
    var line := name + ":" + rest;
    assert line[|name|] == ':';
    assert forall k :: 0 <= k < |name| ==> line[k] == name[k];
    assert IndexOf(line, ':') == |name|;
    assert line[|name| + 1..] == rest;
  }

  // ---------------------------------------------------------------------------
  // The loop, run over several entries

  lemma {:induction false} RunAppend(st: ParseState, xs: seq<Option<Entry>>, ys: seq<Option<Entry>>)
    ensures Run(st, xs + ys) == Run(Run(st, xs), ys)
    decreases |ys|
  {
    if ys == [] {
      assert xs + ys == xs;
    } else {
      var init, last := ys[..|ys| - 1], ys[|ys| - 1];
      assert ys == init + [last];
      assert xs + ys == (xs + init) + [last];
      RunAppend(st, xs, init);
      RunSnoc(st, xs + init, last);
      RunSnoc(Run(st, xs), init, last);
    }
  }

  /** The records already emitted are kept, and later ones are appended after them. */
  lemma {:induction false} RunKeepsEmitted(st: ParseState, ts: seq<Option<Entry>>)
    ensures Run(st, ts).parsed == Run(ParseState(st.parsed, []), ts).parsed
    ensures Run(st, ts).parsedDictionaries
         == st.parsedDictionaries + Run(ParseState(st.parsed, []), ts).parsedDictionaries
    decreases |ts|
  {
    if ts != [] {
      var init, last := ts[..|ts| - 1], ts[|ts| - 1];
      RunKeepsEmitted(st, init);
      var a := Run(st, init);
      var b := Run(ParseState(st.parsed, []), init);
      assert Run(st, ts) == Step(a, last);
      assert Run(ParseState(st.parsed, []), ts) == Step(b, last);
    }
  }

  /** Entries that do not flush never emit a record. */
  lemma {:induction false} NoFlushNoEmission(st: ParseState, ts: seq<Option<Entry>>)
    requires forall i :: 0 <= i < |ts| ==> !IsFlush(ts[i])
    ensures Run(st, ts).parsedDictionaries == st.parsedDictionaries
    decreases |ts|
  {
    if ts != [] {
      var init, last := ts[..|ts| - 1], ts[|ts| - 1];
      NoFlushNoEmission(st, init);
      assert Run(st, ts) == Step(Run(st, init), last);
    }
  }

  // ---------------------------------------------------------------------------
  // Properties of the returned records

  /** The working record and every emitted record have exactly the nine keys. */
  lemma {:induction false} RecordsHaveNineKeys(ts: seq<Option<Entry>>)
    ensures Run(Initial, ts).parsed.Keys == ParserKeys
    ensures forall r :: r in Records(ts) ==> r.Keys == ParserKeys
    decreases |ts|
  {
    if ts != [] {
      var init, last := ts[..|ts| - 1], ts[|ts| - 1];
      RecordsHaveNineKeys(init);
      var st := Run(Initial, init);
      assert Run(Initial, ts) == Step(st, last);
      if last.Some? {
        assert st.parsed[Key(last.value.field) := last.value.value].Keys == ParserKeys;
      }
    }
  }

  /** The values of the flushing entries, in reply order. */
  function FlushValues(ts: seq<Option<Entry>>): seq<string>
    decreases |ts|
  {
    if ts == [] then []
    else
      var last := ts[|ts| - 1];
      FlushValues(ts[..|ts| - 1]) + (if IsFlush(last) then [last.value.value] else [])
  }

  /**
   * One record per flushing entry, in reply order: record `k` carries the
   * value of the `k`-th `personal information` line.
   */
  lemma {:induction false} OneRecordPerFlush(ts: seq<Option<Entry>>)
    ensures |Records(ts)| == |FlushValues(ts)|
    ensures forall k :: 0 <= k < |FlushValues(ts)| ==>
      "personal information" in Records(ts)[k]
      && Records(ts)[k]["personal information"] == FlushValues(ts)[k]
    decreases |ts|
  {
    if ts != [] {
      var init, last := ts[..|ts| - 1], ts[|ts| - 1];
      OneRecordPerFlush(init);
      assert Run(Initial, ts) == Step(Run(Initial, init), last);
    }
  }

  /**
   * The value field `f` has in the working record after `ts`: the value of
   * the latest entry for `f` since the latest flush, or `''`.
   */
  function Pending(ts: seq<Option<Entry>>, f: Field): string
    decreases |ts|
  {
    if ts == [] then ""
    else
      var last := ts[|ts| - 1];
      if IsFlush(last) then ""
      else if last.Some? && last.value.field == f then last.value.value
      else Pending(ts[..|ts| - 1], f)
  }

  /** The working record holds, for every field, its pending value. */
  lemma {:induction false} WorkingRecordIsPending(ts: seq<Option<Entry>>, f: Field)
    ensures Key(f) in Run(Initial, ts).parsed
    ensures Run(Initial, ts).parsed[Key(f)] == Pending(ts, f)
    decreases |ts|
  {
    if ts != [] {
      var init, last := ts[..|ts| - 1], ts[|ts| - 1];
      WorkingRecordIsPending(init, f);
      RecordsHaveNineKeys(init);
      var st := Run(Initial, init);
      assert Run(Initial, ts) == Step(st, last);
      if last.Some? && !IsFlush(last) {
        KeyInjective(f, last.value.field);
      }
    }
  }

  /**
   * A flushing entry emits one record: the pending value of every other field
   * and the entry's own value under `personal information`.
   */
  lemma EmittedRecord(ts: seq<Option<Entry>>, v: string)
    ensures var out := Records(ts + [Some(Entry(PersonalInformation, v))]);
      |out| == |Records(ts)| + 1
      && out[..|Records(ts)|] == Records(ts)
      && out[|Records(ts)|].Keys == ParserKeys
      && out[|Records(ts)|]["personal information"] == v
      && forall f :: f != PersonalInformation ==> out[|Records(ts)|][Key(f)] == Pending(ts, f)
  {
    var flush := Some(Entry(PersonalInformation, v));
    RunSnoc(Initial, ts, flush);
    RecordsHaveNineKeys(ts);
    var st := Run(Initial, ts);
    var rec := st.parsed[Key(PersonalInformation) := v];
    assert Run(Initial, ts + [flush]) == ParseState(Blank(), st.parsedDictionaries + [rec]);
    forall f | f != PersonalInformation
      ensures rec[Key(f)] == Pending(ts, f)
    {
      KeyInjective(f, PersonalInformation);
      WorkingRecordIsPending(ts, f);
    }
  }

  /** Within one record, the latest entry for a field decides its value (last write wins). */
  lemma {:induction false} LatestEntryWins(ts: seq<Option<Entry>>, f: Field, j: nat)
    requires j < |ts| && ts[j].Some? && ts[j].value.field == f && f != PersonalInformation
    requires forall i :: j < i < |ts| ==> !IsFlush(ts[i]) && (ts[i].Some? ==> ts[i].value.field != f)
    ensures Pending(ts, f) == ts[j].value.value
    decreases |ts|
  {
    var init := ts[..|ts| - 1];
    if j < |ts| - 1 {
      assert Pending(ts, f) == Pending(init, f);
      assert init[j] == ts[j];
      assert forall i :: j < i < |init| ==> init[i] == ts[i];
      LatestEntryWins(init, f, j);
    }
  }

  /** A field with no entry since the latest flush is `''`. */
  lemma {:induction false} UnseenFieldIsEmpty(ts: seq<Option<Entry>>, f: Field, j: nat)
    requires j <= |ts| && (j == 0 || IsFlush(ts[j - 1]))
    requires forall i :: j <= i < |ts| ==> ts[i].Some? ==> ts[i].value.field != f
    ensures Pending(ts, f) == ""
    decreases |ts|
  {
    if |ts| > j {
      var init := ts[..|ts| - 1];
      assert j > 0 ==> init[j - 1] == ts[j - 1];
      assert forall i :: j <= i < |init| ==> init[i] == ts[i];
      UnseenFieldIsEmpty(init, f, j);
    }
  }

  /** Two entries for the same field: the second overwrites the first. */
  lemma OverwriteSameField(st: ParseState, f: Field, a: string, b: string)
    requires f != PersonalInformation
    ensures Step(Step(st, Some(Entry(f, a))), Some(Entry(f, b))) == Step(st, Some(Entry(f, b)))
  {
    assert st.parsed[Key(f) := a][Key(f) := b] == st.parsed[Key(f) := b];
  }

  /** Entries for two different fields within a record may come in either order. */
  lemma SwapDifferentFields(xs: seq<Option<Entry>>, a: Entry, b: Entry, ys: seq<Option<Entry>>)
    requires a.field != b.field && a.field != PersonalInformation && b.field != PersonalInformation
    ensures Records(xs + [Some(a), Some(b)] + ys) == Records(xs + [Some(b), Some(a)] + ys)
  {
    var st := Run(Initial, xs);
    KeyInjective(a.field, b.field);
    var m := st.parsed;
    assert m[Key(a.field) := a.value][Key(b.field) := b.value]
        == m[Key(b.field) := b.value][Key(a.field) := a.value];
    assert Step(Step(st, Some(a)), Some(b)) == Step(Step(st, Some(b)), Some(a));
    RunSnoc(st, [Some(a)], Some(b));
    RunSnoc(st, [], Some(a));
    RunSnoc(st, [Some(b)], Some(a));
    RunSnoc(st, [], Some(b));
    assert [Some(a)] + [Some(b)] == [Some(a), Some(b)] && [] + [Some(a)] == [Some(a)];
    assert [Some(b)] + [Some(a)] == [Some(b), Some(a)] && [] + [Some(b)] == [Some(b)];
    RunAppend(Initial, xs, [Some(a), Some(b)]);
    RunAppend(Initial, xs + [Some(a), Some(b)], ys);
    RunAppend(Initial, xs, [Some(b), Some(a)]);
    RunAppend(Initial, xs + [Some(b), Some(a)], ys);
  }

  /** A line without an entry changes nothing. */
  lemma IgnoredEntryIsInvisible(xs: seq<Option<Entry>>, ys: seq<Option<Entry>>)
    ensures Records(xs + [None] + ys) == Records(xs + ys)
  {
    RunSnoc(Initial, xs, None);
    RunAppend(Initial, xs + [None], ys);
    RunAppend(Initial, xs, ys);
  }

  /** After a flush the working record is all-empty: nothing leaks into the next record. */
  lemma FlushSeparatesRecords(xs: seq<Option<Entry>>, t: Option<Entry>, ys: seq<Option<Entry>>)
    requires IsFlush(t)
    ensures Run(Initial, xs + [t]).parsed == Blank()
    ensures Records(xs + [t] + ys) == Records(xs + [t]) + Records(ys)
  {
    RunSnoc(Initial, xs, t);
    RunAppend(Initial, xs + [t], ys);
    RunKeepsEmitted(Run(Initial, xs + [t]), ys);
  }

  /** Fields accumulated after the last `personal information` line are dropped. */
  lemma TrailingFieldsDropped(xs: seq<Option<Entry>>, ys: seq<Option<Entry>>)
    requires forall i :: 0 <= i < |ys| ==> !IsFlush(ys[i])
    ensures Records(xs + ys) == Records(xs)
  {
    RunAppend(Initial, xs, ys);
    NoFlushNoEmission(Run(Initial, xs), ys);
  }

  /** A block of eight entries for eight different fields, in any order, then a flush: one record holding every value. */
  lemma CompleteBlock(ts: seq<Option<Entry>>)
    requires |ts| == 9 && IsFlush(ts[8])
    requires forall i :: 0 <= i < 8 ==> ts[i].Some? && !IsFlush(ts[i])
    requires forall i, j :: 0 <= i < j < 8 ==> ts[i].value.field != ts[j].value.field
    ensures |Records(ts)| == 1 && Records(ts)[0].Keys == ParserKeys
    ensures Records(ts)[0]["personal information"] == ts[8].value.value
    ensures forall i :: 0 <= i < 8 ==> Records(ts)[0][Key(ts[i].value.field)] == ts[i].value.value
  {
    var block := ts[..8];
    assert block + [Some(Entry(PersonalInformation, ts[8].value.value))] == ts;
    assert Records(block) == [] by {
      TrailingFieldsDropped([], block);
      assert [] + block == block;
    }
    EmittedRecord(block, ts[8].value.value);
    forall i | 0 <= i < 8
      ensures Pending(block, ts[i].value.field) == ts[i].value.value
    {
      LatestEntryWins(block, ts[i].value.field, i);
    }
  }

  // ---------------------------------------------------------------------------
  // From the reply text to the entries

  /** The reply text is read as its newline-separated lines. */
  lemma ParseJoinedLines(lines: seq<string>)
    requires |lines| > 0 && forall l :: l in lines ==> '\n' !in l
    ensures Parse(Join(lines, '\n')) == Records(Tokens(lines))
  {
    SplitJoin(lines, '\n');
  }

  /** A line with no colon, or with no marker, leaves the records unchanged. */
  lemma IgnoredLineIsInvisible(xs: seq<string>, raw: string, ys: seq<string>)
    requires ':' !in Strip(raw) || forall g :: !Contains(Lower(Strip(raw)), Key(g))
    ensures Records(Tokens(xs + [raw] + ys)) == Records(Tokens(xs + ys))
  {
    ClassifyNone(Strip(raw));
    assert Lex(raw) == None;
    TokensAppend(xs + [raw], ys);
    TokensAppend(xs, [raw]);
    TokensAppend(xs, ys);
    assert Tokens([raw]) == [None];
    IgnoredEntryIsInvisible(Tokens(xs), Tokens(ys));
  }

  /** A reply in which no line classifies as `personal information` parses to the empty list. */
  lemma NoFlushParsesToNothing(analysis: string)
    requires forall l :: l in Split(analysis, '\n') ==> Classify(Strip(l)) != Some(PersonalInformation)
    ensures Parse(analysis) == []
  {
    var ts := Tokens(Split(analysis, '\n'));
    forall i | 0 <= i < |ts| ensures !IsFlush(ts[i]) {
      assert Split(analysis, '\n')[i] in Split(analysis, '\n');
    }
    TrailingFieldsDropped([], ts);
    assert [] + ts == ts;
  }

  // ---------------------------------------------------------------------------
  // The prompt

  const Indent: string := "            "

  /** The template up to the table's rendering (lines 51-62). */
  const Preamble: string := @"
            # ROLE AND CONTEXT
            You are a Data Protection and Privacy Analysis Assistant with expertise in:
            - General Data Protection Regulation of the European Union (GDPR) compliance analysis
            - Protection of Personal Information Act (POPIA) (South Africa) requirements
            - Database structure evaluation
            - Privacy policy development
            - Data classification

            Note: Your analysis serves as preliminary guidance and should be reviewed by qualified legal counsel.
            
            INPUT DATA IN PYTHON LIST FORMAT:
            "

  /** The template from the end of the schema line to the field list (lines 62-68). */
  const Requirements: string := @"

            # OUTPUT REQUIREMENTS: 
            
            ## Required Fields and format te output MUST be in:
            For each column analyze and provide:

"

  /** The labels the model is asked to use, in the order it is asked to give them. */
  const FieldLabels: seq<string> :=
    ["Column", "Description", "Type", "Collection Method", "Data Source",
     "Primary Purpose", "Legal Basis", "Personal Data", "Personal Information"]

  /** What the template asks for after each label. */
  const FieldHints: seq<string> :=
    ["[column name]",
     "[clear description of the data being stored in the column max 100 words]",
     "[Required/Optional]",
     "[USER_PROVIDED/USER_USAGE_GENERATED/SYSTEM_USAGE_GENERATED/SYSTEM_SET/THIRD_PARTY]",
     "[ALL/VISITORS/REGISTERED_USERS/THIRD_PARTY]",
     "[clear purpose as to why the data is being gathered max 100 words]",
     "[relevant GDPR/POPIA basis max 50 words]",
     "[Yes/No (in reference to GDPR)]",
     "[Yes/No (in reference to POPIA)]"]

  /** The template line for field `k` (lines 69-77): `Label: [hint]`, indented. */
  function FieldLine(k: nat): string
    requires k < |FieldLabels|
  {
    Indent + FieldLabels[k] + ": " + FieldHints[k] + "\n"
  }

  function FieldLines(): seq<string> {
    seq(|FieldLabels|, k requires 0 <= k < |FieldLabels| => FieldLine(k))
  }

  /** The template after the field list (lines 78-117). */
  const Guidelines: string := @"
            ## Formatting Rules
            1. Each field must start on a new line.
            2. No line breaks within field values
            3. Use exact field names as defined in the INPUT DATA.
            4. One colon after each field name followed by single space
            5. No special characters (commas etc)
            6. Use periods or hyphens for separation where needed.
            7. Maintain consistent capitalization
            8. No additional explanations or formatting

            ## Analysis Guidelines

            ### Description Guidelines
            - Reference common CMS/LMS table structures such as Wordpress and Moodle
            - Consider relationships with other visible columns and table name
            - Be specific and concise
            - Focus on data content where possible and not technical aspects

            ### Legal Classification Guidelines
            Base analysis on:
            - GDPR Article 4 definition of personal data
            - POPIA Chapter 1 definition of personal information
            - Purpose limitation principles
            - Data minimization requirements

            ### Purpose Guidelines
            - Link to legitimate business functions
            - Demonstrate necessity
            - Show proportionality
            - Identify specific use cases

            ## OUTPUT VALIDATION
            Your response must:
            1. Be directly parseable using field name patterns
            2. Contain all required fields
            3. Follow exact formatting rules
            4. Stay within word limits
            5. Use only allowed values for categorical fields
            "

  /** The pieces of the prompt for one table, around the table's rendering `tableSchema` (Python's `str(table)`). */
  function PromptPieces(tableSchema: string): seq<string> {
    [Preamble, tableSchema, Requirements] + FieldLines() + [Guidelines]
  }

  /** The f-string of lines 50-117. */
  function Prompt(tableSchema: string): string {
    Concat(PromptPieces(tableSchema))
  }

  /** The prompt opens with the fixed preamble, and the schema follows it verbatim. */
  lemma PromptEmbedsSchema(tableSchema: string)
    ensures |Preamble| + |tableSchema| <= |Prompt(tableSchema)|
    ensures Prompt(tableSchema)[..|Preamble|] == Preamble
    ensures Prompt(tableSchema)[|Preamble|..|Preamble| + |tableSchema|] == tableSchema
  {
    var pieces := PromptPieces(tableSchema);
    ConcatPiece(pieces, 0);
    ConcatPiece(pieces, 1);
    assert pieces[..0] == [];
    assert pieces[..1] == [Preamble];
    assert Concat([Preamble]) == Preamble + Concat([]);
  }

  /** Where piece `n` of the prompt starts. */
  function PieceStart(tableSchema: string, n: nat): nat
    requires n <= |PromptPieces(tableSchema)|
  {
    |Concat(PromptPieces(tableSchema)[..n])|
  }

  lemma PieceStartNext(tableSchema: string, n: nat)
    requires n < |PromptPieces(tableSchema)|
    ensures PieceStart(tableSchema, n + 1) == PieceStart(tableSchema, n) + |PromptPieces(tableSchema)[n]|
  {
    var pieces := PromptPieces(tableSchema);
    assert pieces[..n + 1] == pieces[..n] + [pieces[n]];
    ConcatAppend(pieces[..n], [pieces[n]]);
    assert Concat([pieces[n]]) == pieces[n] + Concat([]);
  }

  /** In any concatenation, an indented `name: ...` piece that follows a piece ending in a newline. */
  lemma IndentedPiece(pieces: seq<string>, n: nat, name: string, rest: string)
    requires 1 <= n < |pieces| && pieces[n] == Indent + name + ": " + rest
    requires |pieces[n - 1]| > 0 && pieces[n - 1][|pieces[n - 1]| - 1] == '\n'
    ensures var off := |Concat(pieces[..n])|;
      1 <= off && off + |Indent| + |name| + 2 <= |Concat(pieces)|
      && Concat(pieces)[off - 1] == '\n'
      && Concat(pieces)[off..off + |Indent|] == Indent
      && Concat(pieces)[off + |Indent|..off + |Indent| + |name| + 2] == name + ": "
  {
    var p := Concat(pieces);
    var line, prev := pieces[n], pieces[n - 1];
    var off, start := |Concat(pieces[..n])|, |Concat(pieces[..n - 1])|;
    assert off == start + |prev| by {
      assert pieces[..n] == pieces[..n - 1] + [prev];
      ConcatAppend(pieces[..n - 1], [prev]);
      assert Concat([prev]) == prev + Concat([]);
    }
    assert off + |line| <= |p| && p[off..off + |line|] == line by {
      ConcatPiece(pieces, n);
    }
    assert p[start..start + |prev|] == prev by {
      ConcatPiece(pieces, n - 1);
    }
    assert p[off - 1] == '\n' by {
      assert p[off - 1] == p[start..start + |prev|][|prev| - 1];
    }
    var w := |Indent| + |name| + 2;
    assert line[..|Indent|] == Indent && line[|Indent|..w] == name + ": ";
    SliceOfSlice(p, off, off + |line|, 0, |Indent|);
    SliceOfSlice(p, off, off + |line|, |Indent|, w);
  }

  lemma RequirementsEndsWithNewline()
    ensures |Requirements| > 0 && Requirements[|Requirements| - 1] == '\n'
  {
  }

  /** Piece `3 + k` of the prompt is the template line for field `k`. */
  lemma FieldPiece(tableSchema: string, k: nat)
    requires k < |FieldLabels|
    ensures PromptPieces(tableSchema)[3 + k] == Indent + FieldLabels[k] + ": " + (FieldHints[k] + "\n")
  {
    assert PromptPieces(tableSchema)[3 + k] == FieldLines()[k];
    assert FieldLines()[k] == FieldLine(k);
  }

  /** Piece `2 + k` of the prompt ends with a newline. */
  lemma PieceBeforeFieldEndsLine(tableSchema: string, k: nat)
    requires k < |FieldLabels|
    ensures var prev := PromptPieces(tableSchema)[2 + k]; |prev| > 0 && prev[|prev| - 1] == '\n'
  {
    if k == 0 {
      assert PromptPieces(tableSchema)[2] == Requirements;
      RequirementsEndsWithNewline();
    } else {
      FieldPiece(tableSchema, k - 1);
    }
  }

  /** `name` followed by `: ` sits at `pos` in `p`, at the start of an indented line. */
  predicate LabelAt(p: string, pos: nat, name: string) {
    |Indent| + 1 <= pos && pos + |name| + 2 <= |p|
    && p[pos - |Indent| - 1] == '\n'
    && p[pos - |Indent|..pos] == Indent
    && p[pos..pos + |name| + 2] == name + ": "
  }

  /** The template line for field `k` starts a line of the prompt. */
  lemma LabelLine(tableSchema: string, k: nat)
    requires k < |FieldLabels|
    ensures LabelAt(Prompt(tableSchema), PieceStart(tableSchema, 3 + k) + |Indent|, FieldLabels[k])
  {
    FieldPiece(tableSchema, k);
    PieceBeforeFieldEndsLine(tableSchema, k);
    IndentedPiece(PromptPieces(tableSchema), 3 + k, FieldLabels[k], FieldHints[k] + "\n");
  }

  /** Where the label of field `k` starts in the prompt. */
  function LabelPos(tableSchema: string, k: nat): nat
    requires k < |FieldLabels|
  {
    PieceStart(tableSchema, 3 + k) + |Indent|
  }

  /**
   * The nine labels appear in the prompt in the order Column, Description,
   * Type, Collection Method, Data Source, Primary Purpose, Legal Basis,
   * Personal Data, Personal Information, each at the start of its own
   * indented line and followed by a colon and a space.
   */
  lemma PromptListsLabelsInOrder(tableSchema: string)
    ensures forall k :: 0 <= k < |FieldLabels| ==>
      LabelAt(Prompt(tableSchema), LabelPos(tableSchema, k), FieldLabels[k])
    ensures forall k :: 0 <= k < |FieldLabels| - 1 ==> LabelPos(tableSchema, k) < LabelPos(tableSchema, k + 1)
  {
    forall k | 0 <= k < |FieldLabels|
      ensures LabelAt(Prompt(tableSchema), LabelPos(tableSchema, k), FieldLabels[k])
    {
      LabelLine(tableSchema, k);
    }
    forall k | 0 <= k < |FieldLabels| - 1
      ensures LabelPos(tableSchema, k) < LabelPos(tableSchema, k + 1)
    {
      FieldPiece(tableSchema, k);
      PieceStartNext(tableSchema, 3 + k);
    }
  }

  // ---------------------------------------------------------------------------
  // One table's analysis

  /**
   * `analyze_table_schema_data`: build the prompt, ask the model, parse the
   * reply. `generate` stands for the Gemini call and yields `None` when the
   * call (or reading the reply's text) raises; the `except` branch then
   * returns `None`.
   */
  method AnalyzeTableSchemaData(tableSchema: string, generate: string -> Option<string>)
    returns (analysis: Option<seq<Record>>)
    ensures analysis.None? <==> generate(Prompt(tableSchema)).None?
    ensures analysis.Some? ==> analysis.value == Parse(generate(Prompt(tableSchema)).value)
  {
    var prompt := Prompt(tableSchema);
    var response := generate(prompt);
    if response.None? {
      return None;
    }
    var analysisDict := ParseAnalysis(response.value);
    analysis := Some(analysisDict);
  }
}
