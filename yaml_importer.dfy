/**
 * The YAML-like importer: a line-by-line state machine that reads the snapshot format
 * the YAML exporter writes (section headers, `-` record starts, `key: value` lines).
 */
module YamlImport {
  import opened Models
  import opened Text

  /** splitKeyValue: the trimmed text before the first ':' and the trimmed text after
      it; a line without ':' is all key and an empty value. */
  function SplitKeyValue(line: string): (string, string) {
    var i := IndexOf(line, ':');
    if i == |line| then (TrimSpace(line), "") else (TrimSpace(line[..i]), TrimSpace(line[i + 1..]))
  }

  /** Only the first ':' splits: whatever follows it, further colons included, is the value. */
  lemma SplitKeyValueFirstColon(key: string, rest: string)
    requires IndexOf(key, ':') == |key|
    ensures SplitKeyValue(key + ":" + rest) == (TrimSpace(key), TrimSpace(rest))
  {
    var line := key + ":" + rest;
    ColonShape(key, rest);
    IndexOfConcat(key, line[|key|..], ':');
  }

  lemma ColonShape(key: string, rest: string)
    ensures var line := key + ":" + rest;
      && line == key + line[|key|..]
      && IndexOf(line[|key|..], ':') == 0
      && line[..|key|] == key
      && line[|key| + 1..] == rest
  {
    var line := key + ":" + rest;
    assert line[|key|..] == [':'] + rest;
  }

  /** A line without ':' is all key, with an empty value. */
  lemma SplitKeyValueNoColon(line: string)
    requires IndexOf(line, ':') == |line|
    ensures SplitKeyValue(line) == (TrimSpace(line), "")
  {
  }

  /** A `key: value` line as the exporter writes it splits back into its key and value. */
  lemma SplitKeyValueRendered(key: string, value: string)
    requires IndexOf(key, ':') == |key|
    ensures SplitKeyValue(key + ": " + value) == (TrimSpace(key), TrimSpace(value))
  {
    var line := key + ": " + value;
    var tail := line[|key|..];
    RenderedShape(key, value);
    IndexOfConcat(key, tail, ':');
    TrimSpaceSpaceFirst(' ', value);
  }

  lemma RenderedShape(key: string, value: string)
    ensures var line := key + ": " + value;
      && line == key + line[|key|..]
      && line[|key|..][0] == ':'
      && IndexOf(line[|key|..], ':') == 0
      && line[..|key|] == key
      && line[|key| + 1..] == [' '] + value
  {
    var line := key + ": " + value;
    assert line[|key|..] == [':', ' '] + value;
  }

  predicate IsQuote(c: char) {
    c == '"' || c == '\''
  }

  /** unquote: the trimmed value without one pair of matching surrounding quotes, when
      it has at least two characters. */
  function Unquote(value: string): (r: string)
    ensures var v := TrimSpace(value);
            if |v| >= 2 && IsQuote(v[0]) && v[|v| - 1] == v[0] then r == v[1..|v| - 1] else r == v
  {
    var v := TrimSpace(value);
    if |v| >= 2 && ((v[0] == '"' && v[|v| - 1] == '"') || (v[0] == '\'' && v[|v| - 1] == '\'')) then
      v[1..|v| - 1]
    else
      v
  }

  /** Quoting a text and unquoting it gives the text back, whatever it holds. */
  lemma UnquoteQuoted(s: string, q: char)
    requires IsQuote(q)
    ensures Unquote([q] + s + [q]) == s
  {
    var v := [q] + s + [q];
    assert LeadingSpaces(v) == 0;
    assert TrailingSpaces(v) == 0 by {
      assert v[|v| - 1] == q;
    }
    assert TrimSpace(v) == v;
    assert v[1..|v| - 1] == s;
  }

  /** Value of `key` in a record, the empty string when absent. */
  function Field(rec: map<string, string>, key: string): string {
    if key in rec then rec[key] else ""
  }

  function AccountOf(rec: map<string, string>, p: Parsers): BankAccount {
    BankAccount(Field(rec, "id"), Unquote(Field(rec, "name")), NumberOr0(p, Field(rec, "balance")))
  }

  function CategoryOf(rec: map<string, string>): Category {
    Category(Field(rec, "id"), Field(rec, "type"), Unquote(Field(rec, "name")))
  }

  function OperationOf(rec: map<string, string>, p: Parsers): Operation {
    Operation(Field(rec, "id"), Field(rec, "type"), Field(rec, "bank_account_id"),
              NumberOr0(p, Field(rec, "amount")), TimeOr0(p, Field(rec, "date")),
              Unquote(Field(rec, "description")), Field(rec, "category_id"))
  }

  /** The parser's variables: current section, the open record if any, and the data. */
  datatype Reader = Reader(section: string, current: Option<map<string, string>>, data: StorageData)

  const START: Reader := Reader("", None, EMPTY)

  /** flush: with an open record and a section set, the record becomes an entity of the
      section (if it is one of the three) and is closed; with no section the open record
      stays open. */
  function Flush(st: Reader, p: Parsers): (r: Reader)
    ensures st.current.None? || st.section == "" ==> r == st
    ensures st.current.Some? && st.section != "" ==> r.current.None? && r.section == st.section
    ensures r.data.accounts == st.data.accounts
              + (if st.current.Some? && st.section == "accounts" then [AccountOf(st.current.value, p)] else [])
    ensures r.data.categories == st.data.categories
              + (if st.current.Some? && st.section == "categories" then [CategoryOf(st.current.value)] else [])
    ensures r.data.operations == st.data.operations
              + (if st.current.Some? && st.section == "operations" then [OperationOf(st.current.value, p)] else [])
  {
    if st.current.None? || st.section == "" then st
    else
      var rec := st.current.value;
      var d := st.data;
      var d' :=
        if st.section == "accounts" then d.(accounts := d.accounts + [AccountOf(rec, p)])
        else if st.section == "categories" then d.(categories := d.categories + [CategoryOf(rec)])
        else if st.section == "operations" then d.(operations := d.operations + [OperationOf(rec, p)])
        else d;
      Reader(st.section, None, d')
  }

  /** A section header: not a record start, ends with ':'. */
  predicate IsHeader(t: string) {
    !HasPrefix(t, "-") && HasSuffix(t, ":")
  }

  /** The record with the `key: value` of `kv` stored; a repeated key overwrites. */
  function Store(rec: map<string, string>, kv: string): map<string, string> {
    var (k, v) := SplitKeyValue(kv);
    rec[k := v]
  }

  /** One iteration of the line loop. */
  function Step(st: Reader, line: string, p: Parsers): Reader {
    var t := TrimSpace(line);
    if t == [] then st
    else if IsHeader(t) then Flush(st, p).(section := t[..|t| - 1])
    else if HasPrefix(t, "-") then
      var rem := TrimSpace(t[1..]);
      Flush(st, p).(current := Some(if rem == [] then map[] else Store(map[], rem)))
    else if st.current.Some? then st.(current := Some(Store(st.current.value, t)))
    else st
  }

  /** The loop over `lines`, from state `st`. */
  function Run(st: Reader, lines: seq<string>, p: Parsers): Reader {
    if lines == [] then st else Step(Run(st, lines[..|lines| - 1], p), lines[|lines| - 1], p)
  }

  /** What Import returns for a text: the loop over its lines, then a final flush. */
  function ImportYaml(raw: string, p: Parsers): StorageData {
    Flush(Run(START, SplitLines(raw), p), p).data
  }

  /** YAMLImporter.Import on the text the file holds. */
  method Import(raw: string, p: Parsers) returns (data: StorageData)
    ensures data == ImportYaml(raw, p)
  {
    var lines := SplitLines(raw);
    var section := "";
    var current: Option<map<string, string>> := None;
    data := EMPTY;
    for i := 0 to |lines|
      invariant Reader(section, current, data) == Run(START, lines[..i], p)
    {
      assert lines[..i + 1][..i] == lines[..i];
      ghost var st := Reader(section, current, data);
      assert Run(START, lines[..i + 1], p) == Step(st, lines[i], p);
      var trimmed := TrimSpace(lines[i]);
      if trimmed == [] {
        continue;
      }
      if !HasPrefix(trimmed, "-") && HasSuffix(trimmed, ":") {
        assert Step(st, lines[i], p) == Flush(st, p).(section := trimmed[..|trimmed| - 1]);
        var flushed := Flush(Reader(section, current, data), p);
        current, data := flushed.current, flushed.data;
        section := trimmed[..|trimmed| - 1];
        continue;
      }
      if HasPrefix(trimmed, "-") {
        var flushed := Flush(Reader(section, current, data), p);
        data := flushed.data;
        var rec := map[];
        var remainder := TrimSpace(trimmed[1..]);
        if remainder != [] {
          var (key, value) := SplitKeyValue(remainder);
          rec := rec[key := value];
          assert rec == Store(map[], remainder);
        }
        current := Some(rec);
        assert Step(st, lines[i], p) == Flush(st, p).(current := Some(rec));
        continue;
      }
      if current.Some? {
        var (key, value) := SplitKeyValue(trimmed);
        current := Some(current.value[key := value]);
        assert current == Some(Store(st.current.value, trimmed));
      }
    }
    assert lines[..|lines|] == lines;
    var flushed := Flush(Reader(section, current, data), p);
    data := flushed.data;
  }

  /** The lines that are not blank, in order. */
  function NonBlank(lines: seq<string>): (r: seq<string>)
    ensures |r| <= |lines|
  {
    if lines == [] then []
    else
      var last := lines[|lines| - 1];
      NonBlank(lines[..|lines| - 1]) + (if TrimSpace(last) == [] then [] else [last])
  }

  /** Blank and white-space-only lines change nothing: dropping them all gives the same run. */
  lemma {:induction false} RunIgnoresBlankLines(st: Reader, lines: seq<string>, p: Parsers)
    ensures Run(st, NonBlank(lines), p) == Run(st, lines, p)
  {
    if lines != [] {
      var init, last := lines[..|lines| - 1], lines[|lines| - 1];
      RunIgnoresBlankLines(st, init, p);
      if TrimSpace(last) != [] {
        var n := NonBlank(init) + [last];
        assert n[..|n| - 1] == NonBlank(init);
      } else {
        assert NonBlank(lines) == NonBlank(init);
      }
    }
  }

  /** Entities are only ever appended: the data before any line is a prefix of the data
      after it, collection by collection. */
  lemma {:induction false} RunOnlyAppends(st: Reader, lines: seq<string>, p: Parsers)
    ensures st.data.accounts <= Run(st, lines, p).data.accounts
    ensures st.data.categories <= Run(st, lines, p).data.categories
    ensures st.data.operations <= Run(st, lines, p).data.operations
  {
    if lines != [] {
      var before := Run(st, lines[..|lines| - 1], p);
      RunOnlyAppends(st, lines[..|lines| - 1], p);
      StepOnlyAppends(before, lines[|lines| - 1], p);
    }
  }

  /** One line only ever appends to the data. */
  lemma StepOnlyAppends(st: Reader, line: string, p: Parsers)
    ensures st.data.accounts <= Step(st, line, p).data.accounts
    ensures st.data.categories <= Step(st, line, p).data.categories
    ensures st.data.operations <= Step(st, line, p).data.operations
  {
  }

  /** How the line loop reads a `- key: value` record start and a header `name:`. */
  lemma StepRecordStart(st: Reader, key: string, value: string, p: Parsers)
    requires key != [] && value != [] && IndexOf(key, ':') == |key|
    requires !IsSpace(key[0]) && !IsSpace(key[|key| - 1]) && !IsSpace(value[0]) && !IsSpace(value[|value| - 1])
    ensures Step(st, "- " + key + ": " + value, p) == Flush(st, p).(current := Some(map[key := value]))
  {
    var line := "- " + key + ": " + value;
    var kv := key + ": " + value;
    RecordLineTrim(key, value);
    assert Step(st, line, p) == Flush(st, p).(current := Some(Store(map[], kv)));
    StoreRendered(key, value);
  }

  /** A line that is a lone '-' (padding aside) flushes the open record and opens an
      empty one. */
  lemma StepBareDash(st: Reader, line: string, p: Parsers)
    requires TrimSpace(line) == "-"
    ensures Step(st, line, p) == Flush(st, p).(current := Some(map[]))
  {
    DashShape(TrimSpace(line));
  }

  lemma DashShape(t: string)
    requires t == "-"
    ensures t != [] && !IsHeader(t) && HasPrefix(t, "-") && TrimSpace(t[1..]) == []
  {
    assert t[1..] == [];
    assert t[|t| - 1..] == "-";
  }

  lemma StoreRendered(key: string, value: string)
    requires key != [] && value != [] && IndexOf(key, ':') == |key|
    requires !IsSpace(key[0]) && !IsSpace(key[|key| - 1]) && !IsSpace(value[0]) && !IsSpace(value[|value| - 1])
    ensures Store(map[], key + ": " + value) == map[key := value]
  {
    SplitKeyValueRendered(key, value);
    TrimSpaceUnpadded(key);
    TrimSpaceUnpadded(value);
  }

  /** The trims the line loop applies to a `- key: value` line leave `key: value`. */
  lemma RecordLineTrim(key: string, value: string)
    requires key != [] && value != []
    requires !IsSpace(key[0]) && !IsSpace(value[|value| - 1])
    ensures var line := "- " + key + ": " + value;
            && TrimSpace(line) == line && HasPrefix(line, "-") && !IsHeader(line)
            && TrimSpace(line[1..]) == key + ": " + value
  {
    var kv := key + ": " + value;
    var line := ['-'] + ([' '] + kv);
    RecordLineShape(key, value);
    assert line[0] == '-' && line[|line| - 1] == value[|value| - 1];
    TrimSpaceUnpadded(line);
    assert line[..1] == "-";
    assert line[1..] == [' '] + kv;
    TrimSpaceSpaceFirst(' ', kv);
    assert kv[0] == key[0] && kv[|kv| - 1] == value[|value| - 1];
    TrimSpaceUnpadded(kv);
  }

  lemma RecordLineShape(key: string, value: string)
    ensures "- " + key + ": " + value == ['-'] + ([' '] + (key + ": " + value))
  {
  }

  /** A `key: value` line is stored in the open record, overwriting an earlier value of
      the same key; with no record open it changes nothing. */
  lemma StepKeyValue(st: Reader, key: string, value: string, p: Parsers)
    requires key != [] && value != [] && IndexOf(key, ':') == |key| && key[0] != '-'
    requires !IsSpace(key[0]) && !IsSpace(key[|key| - 1]) && !IsSpace(value[0]) && !IsSpace(value[|value| - 1])
    requires value[|value| - 1] != ':'
    ensures Step(st, key + ": " + value, p)
         == if st.current.Some? then st.(current := Some(st.current.value[key := value])) else st
  {
    KeyValueLine(key, value);
    KeyValueSplit(key, value);
  }

  /** The trims and tests the line loop applies to a `key: value` line. */
  lemma KeyValueLine(key: string, value: string)
    requires key != [] && value != [] && key[0] != '-'
    requires !IsSpace(key[0]) && !IsSpace(value[|value| - 1]) && value[|value| - 1] != ':'
    ensures var line := key + ": " + value;
            TrimSpace(line) == line && line != [] && !HasPrefix(line, "-") && !IsHeader(line)
  {
    var line := key + ": " + value;
    assert line[0] == key[0] && line[|line| - 1] == value[|value| - 1];
    TrimSpaceUnpadded(line);
    assert !HasPrefix(line, "-") by {
      assert line[..1] == [key[0]];
    }
    assert !HasSuffix(line, ":") by {
      assert line[|line| - 1..] == [value[|value| - 1]];
    }
  }

  lemma KeyValueSplit(key: string, value: string)
    requires key != [] && value != [] && IndexOf(key, ':') == |key|
    requires !IsSpace(key[0]) && !IsSpace(key[|key| - 1]) && !IsSpace(value[0]) && !IsSpace(value[|value| - 1])
    ensures SplitKeyValue(key + ": " + value) == (key, value)
  {
    SplitKeyValueRendered(key, value);
    TrimSpaceUnpadded(key);
    TrimSpaceUnpadded(value);
  }

  lemma StepHeader(st: Reader, name: string, p: Parsers)
    requires name != [] && name[0] != '-' && !IsSpace(name[0])
    ensures Step(st, name + ":", p) == Flush(st, p).(section := name)
  {
    var line := name + ":";
    TrimSpaceUnpadded(line);
    var t := TrimSpace(line);
    assert t == line;
    assert !HasPrefix(t, "-") by {
      assert t[0] == name[0];
    }
    assert HasSuffix(t, ":") by {
      assert t[|t| - 1..] == ":";
    }
    assert t[..|t| - 1] == name;
  }

  /** A key with an empty value inside a record is read as a section header: the record
      is flushed, and the key/value lines after it are dropped until the next record. */
  lemma EmptyValueKeyEndsRecord(st: Reader, key: string, line: string, p: Parsers)
    requires st.current.Some? && st.section != ""
    requires key != [] && key[0] != '-' && !IsSpace(key[0])
    requires !HasPrefix(TrimSpace(line), "-") && !IsHeader(TrimSpace(line))
    ensures var after := Step(st, key + ":", p);
            && after == Reader(key, None, Flush(st, p).data)
            && Step(after, line, p) == after
  {
    StepHeader(st, key, p);
  }

  /** A record opened before any section header stays open across the first header, and
      the next flush files it under that header's section. */
  lemma RecordBeforeHeaderJoinsNextSection(st: Reader, name: string, p: Parsers)
    requires st.section == "" && st.current.Some?
    requires name != [] && name[0] != '-' && !IsSpace(name[0])
    ensures Step(st, name + ":", p) == st.(section := name)
    ensures Flush(Step(st, name + ":", p), p).data == Flush(st.(section := name), p).data
  {
    StepHeader(st, name, p);
  }
}
