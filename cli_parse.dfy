/** The text scrapers of `cloudfoundry/cli.py` over the output of the `cf` tool:
    `current_target` and `service` read "key: value" blocks (splitting a line in two
    different ways), `services` reads the first column of a table after its header row
    and `apps` the first column after a fixed four-line header. */
module CliParse {
  import opened PyValues
  import opened Text

  /** One key/value pair read off a line. */
  datatype Entry = Entry(key: string, value: string)

  /** The mapping a scraper builds: each line read left to right, a later entry for the
      same key overwriting an earlier one (the `d[key] = value` of the loops). */
  function Collect(lines: seq<string>, entry: string -> Option<Entry>): map<string, string>
    decreases |lines|
  {
    if lines == [] then map[]
    else
      var m := Collect(lines[..|lines| - 1], entry);
      match entry(lines[|lines| - 1])
      case None => m
      case Some(e) => m[e.key := e.value]
  }

  /** Reading one more line. */
  lemma CollectNext(lines: seq<string>, i: nat, entry: string -> Option<Entry>)
    requires i < |lines|
    ensures Collect(lines[..i + 1], entry) == match entry(lines[i])
      case None => Collect(lines[..i], entry)
      case Some(e) => Collect(lines[..i], entry)[e.key := e.value]
  {
    assert lines[..i + 1][..i] == lines[..i];
    assert lines[..i + 1][i] == lines[i];
  }

  predicate Defines(entry: string -> Option<Entry>, line: string, key: string) {
    entry(line).Some? && entry(line).value.key == key
  }

  /** Line j is the last line that gives `key` a value. */
  predicate LastDefinition(entry: string -> Option<Entry>, lines: seq<string>, j: int, key: string) {
    && 0 <= j < |lines|
    && Defines(entry, lines[j], key)
    && forall i :: j < i < |lines| ==> !Defines(entry, lines[i], key)
  }

  /** A key is in the mapping exactly when some line defines it. */
  lemma {:induction false} CollectKeys(lines: seq<string>, entry: string -> Option<Entry>, key: string)
    ensures key in Collect(lines, entry) <==> exists j :: 0 <= j < |lines| && Defines(entry, lines[j], key)
    decreases |lines|
  {
    if lines != [] {
      var n := |lines| - 1;
      var init := lines[..n];
      CollectKeys(init, entry, key);
      if key in Collect(init, entry) {
        var j :| 0 <= j < |init| && Defines(entry, init[j], key);
        assert init[j] == lines[j];
      }
      if !Defines(entry, lines[n], key) && exists j :: 0 <= j < |lines| && Defines(entry, lines[j], key) {
        var j :| 0 <= j < |lines| && Defines(entry, lines[j], key);
        assert init[j] == lines[j];
      }
    }
  }

  /** A key's value is the one given by the last line that defines it. */
  lemma {:induction false} CollectLast(lines: seq<string>, entry: string -> Option<Entry>, key: string, j: int)
    requires LastDefinition(entry, lines, j, key)
    ensures key in Collect(lines, entry) && Collect(lines, entry)[key] == entry(lines[j]).value.value
    decreases |lines|
  {
    var n := |lines| - 1;
    var init := lines[..n];
    if j < n {
      assert !Defines(entry, lines[n], key);
      forall i | j < i < |init| ensures !Defines(entry, init[i], key) {
        assert init[i] == lines[i];
      }
      assert init[j] == lines[j];
      CollectLast(init, entry, key, j);
    }
  }

  // ---- current_target: split at the first colon -------------------------------------

  /** A line of `cf target` output that is non-empty and holds a colon contributes the
      trimmed text before its first colon as key and the trimmed rest as value. */
  function TargetEntry(line: string): Option<Entry> {
    if line != "" && ':' in line then
      var i := IndexOf(line, ':');
      Some(Entry(Strip(line[..i]), Strip(line[i + 1..])))
    else None
  }

  function TargetOf(contents: string): map<string, string> {
    Collect(Lines(contents), TargetEntry)
  }

  /** The loop `current_target` and `service` share: every line of the text, in order,
      offered to `entry`, and the pair it yields stored under its key. */
  method ReadBlock(contents: string, entry: string -> Option<Entry>) returns (d: map<string, string>)
    ensures d == Collect(Lines(contents), entry)
  {
    var lines := Lines(contents);
    d := map[];
    var i := 0;
    while i < |lines|
      invariant 0 <= i <= |lines|
      invariant d == Collect(lines[..i], entry)
    {
      CollectNext(lines, i, entry);
      var e := entry(lines[i]);
      if e.Some? {
        d := d[e.value.key := e.value.value];
      }
      i := i + 1;
    }
    assert lines[..|lines|] == lines;
  }

  /** The parsing loop of `current_target` (the `cf target` call itself is
      `Cli.CloudFoundry.CurrentTarget`). */
  method ParseTarget(contents: string) returns (target: map<string, string>)
    ensures target == TargetOf(contents)
  {
    target := ReadBlock(contents, TargetEntry);
  }

  // ---- service: split at the last colon followed by whitespace --------------------------

  /** Group 1 of `(.+):\s+(.*)` can end before position i of the stripped line. */
  predicate SplitsAt(line: string, i: int) {
    1 <= i && i + 1 < |line| && line[i] == ':' && IsSpace(line[i + 1])
  }

  /** The greedy `(.+)` backtracks from the right: the match ends group 1 at the last
      position at most `hi` where the line splits. */
  function LastSplit(line: string, hi: int): (r: Option<nat>)
    ensures r.Some? ==> SplitsAt(line, r.value) && r.value <= hi
    decreases hi
  {
    if hi < 1 then None
    else if SplitsAt(line, hi) then Some(hi)
    else LastSplit(line, hi - 1)
  }

  /** No split lies between the one found and `hi`; none at all when none is found. */
  lemma {:induction false} LastSplitIsLast(line: string, hi: int)
    ensures LastSplit(line, hi).Some? ==> forall j :: LastSplit(line, hi).value < j <= hi ==> !SplitsAt(line, j)
    ensures LastSplit(line, hi).None? ==> forall j :: j <= hi ==> !SplitsAt(line, j)
    decreases hi
  {
    if hi >= 1 && !SplitsAt(line, hi) {
      LastSplitIsLast(line, hi - 1);
    }
  }

  /** `re.match('(.+)\:\s+(.*)', line.strip())`, with both groups stripped. `\s+` takes
      the whitespace after the colon, which the strip of group 2 would remove anyway. */
  function ServiceEntry(line: string): Option<Entry> {
    MatchPair(Strip(line))
  }

  /** The match on an already stripped line. */
  function MatchPair(l: string): Option<Entry> {
    match LastSplit(l, |l| - 2)
    case None => None
    case Some(i) => Some(Entry(Strip(l[..i]), Strip(l[i + 1..])))
  }

  /** The pattern matches exactly when the stripped line has a colon, not first, with
      whitespace and then at least one character after it... */
  lemma ServiceEntryMatches(line: string)
    ensures ServiceEntry(line).Some? <==> exists i :: SplitsAt(Strip(line), i)
  {
    var l := Strip(line);
    LastSplitIsLast(l, |l| - 2);
    if i :| SplitsAt(l, i) {
      assert i <= |l| - 2;
    }
  }

  /** `cloudfoundry.domain.Service`: what `cf service NAME` reports, each field `None`
      when the output has no such key. */
  datatype Service = Service(
    name: Option<string>,
    service: Option<string>,
    plan: Option<string>,
    status: Option<string>,
    message: Option<string>)

  function ServiceRecord(s: map<string, string>): Service {
    Service(Get(s, "name"), Get(s, "service"), Get(s, "plan"), Get(s, "status"), Get(s, "message"))
  }

  function ServiceOf(contents: string): Service {
    ServiceRecord(Collect(Lines(contents), ServiceEntry))
  }

  /** The parsing loop of `service` once the lookup has exited 0. */
  method ParseService(contents: string) returns (record: Service)
    ensures record == ServiceOf(contents)
  {
    var s := ReadBlock(contents, ServiceEntry);
    record := ServiceRecord(s);
  }

  /** A non-empty text with no whitespace at either end, which `strip` leaves alone. */
  predicate Trimmed(x: string) {
    x != "" && !IsSpace(x[0]) && !IsSpace(x[|x| - 1])
  }

  lemma StripTrimmed(x: string)
    requires Trimmed(x)
    ensures Strip(x) == x
  {
    assert TrimLeft(x) == x;
  }

  /** A text that `strip` leaves alone: empty, or with no whitespace at either end. */
  predicate Stripped(x: string) {
    x == "" || Trimmed(x)
  }

  lemma StripStripped(x: string)
    requires Stripped(x)
    ensures Strip(x) == x
  {
    if x != "" {
      StripTrimmed(x);
    }
  }

  lemma StripLeadingSpace(x: string)
    ensures Strip(" " + x) == Strip(x)
  {
    assert (" " + x)[1..] == x;
  }

  /** `current_target` splits a line at its first colon; key and value may be empty. */
  lemma TargetSplitsFirst(k: string, rest: string)
    requires Strip(k) == k && ':' !in k && Strip(rest) == rest
    ensures TargetEntry(k + ": " + rest) == Some(Entry(k, rest))
  {
    var line := k + ": " + rest;
    assert line[..|k|] == k;
    assert line[|k|] == ':';
    assert IndexOf(line, ':') == |k|;
    assert line[|k| + 1..] == " " + rest;
    StripLeadingSpace(rest);
  }

  /** The line "k: v" that `cf target` prints for one entry. */
  function TargetLine(k: string, v: string): string {
    k + ": " + v
  }

  /** The lines listing the entries of `m` in the order `keys` gives. */
  function TargetLines(keys: seq<string>, m: map<string, string>): (lines: seq<string>)
    requires forall k :: k in keys ==> k in m
    ensures |lines| == |keys|
    decreases |keys|
  {
    if keys == [] then []
    else TargetLines(keys[..|keys| - 1], m) + [TargetLine(keys[|keys| - 1], m[keys[|keys| - 1]])]
  }

  /** An entry `current_target` reads back unchanged: key and value left alone by
      `strip` (either may be empty) and on one line, and no colon in the key (the value
      may hold colons). */
  predicate Printable(k: string, v: string) {
    Stripped(k) && ':' !in k && '\n' !in k && Stripped(v) && '\n' !in v
  }

  lemma {:induction false} TargetLinesAt(keys: seq<string>, m: map<string, string>, i: int)
    requires forall k :: k in keys ==> k in m
    requires 0 <= i < |keys|
    ensures TargetLines(keys, m)[i] == TargetLine(keys[i], m[keys[i]])
    decreases |keys|
  {
    if i < |keys| - 1 {
      TargetLinesAt(keys[..|keys| - 1], m, i);
    }
  }

  /** No listed line breaks when no key or value holds a newline. */
  lemma TargetLinesOneLine(keys: seq<string>, m: map<string, string>)
    requires forall k :: k in keys ==> k in m && '\n' !in k && '\n' !in m[k]
    ensures forall i :: 0 <= i < |keys| ==> '\n' !in TargetLines(keys, m)[i]
  {
    forall i | 0 <= i < |keys| ensures '\n' !in TargetLines(keys, m)[i] {
      TargetLinesAt(keys, m, i);
    }
  }

  /** Reading the listed lines gives back the entries of the listed keys. */
  lemma {:induction false} CollectTargetLines(keys: seq<string>, m: map<string, string>)
    requires forall k :: k in keys ==> k in m && Printable(k, m[k])
    ensures var d := Collect(TargetLines(keys, m), TargetEntry);
      forall k :: (k in d <==> k in keys) && (k in d ==> d[k] == m[k])
    decreases |keys|
  {
    if keys != [] {
      var n := |keys| - 1;
      var init, last := keys[..n], keys[n];
      assert keys == init + [last];
      CollectTargetLines(init, m);
      var lines := TargetLines(keys, m);
      assert lines[..n] == TargetLines(init, m);
      StripStripped(last);
      StripStripped(m[last]);
      TargetSplitsFirst(last, m[last]);
      var d0 := Collect(TargetLines(init, m), TargetEntry);
      assert Collect(lines, TargetEntry) == d0[last := m[last]];
    }
  }

  /** `current_target` reads back what `cf target` prints for a map: listing every
      entry of `m` once or more, in any order, as "key: value" lines gives `m`. */
  lemma TargetRoundTrip(m: map<string, string>, keys: seq<string>)
    requires forall k :: k in m <==> k in keys
    requires forall k :: k in m ==> Printable(k, m[k])
    ensures TargetOf(Join(TargetLines(keys, m), '\n')) == m
  {
    if keys == [] {
      assert m == map[];
      assert Lines("") == [""];
      assert [""][..0] == [];
    } else {
      var lines := TargetLines(keys, m);
      TargetLinesOneLine(keys, m);
      JoinSplit(lines, '\n');
      CollectTargetLines(keys, m);
    }
  }

  /** The backtracking stops at the last colon it can split at. */
  lemma LastSplitIs(line: string, hi: int, p: nat)
    requires SplitsAt(line, p) && p <= hi
    requires forall j :: p < j <= hi && j < |line| ==> line[j] != ':'
    ensures LastSplit(line, hi) == Some(p)
  {
    LastSplitIsLast(line, hi);
  }

  lemma ColonSpaceLine(head: string, v: string)
    requires Trimmed(head) && Trimmed(v) && ':' !in v
    ensures LastSplit(head + ": " + v, |head + ": " + v| - 2) == Some(|head|)
  {
    var line := head + ": " + v;
    var p := |head|;
    assert line[p] == ':' && line[p + 1] == ' ';
    forall j | p < j <= |line| - 2 && j < |line| ensures line[j] != ':' {
      if j > p + 1 {
        assert line[j] == v[j - p - 2];
      }
    }
    LastSplitIs(line, |line| - 2, p);
  }

  lemma MatchPairSplitsLast(head: string, v: string)
    requires Trimmed(head) && Trimmed(v) && ':' !in v
    ensures MatchPair(head + ": " + v) == Some(Entry(head, v))
  {
    var line := head + ": " + v;
    var p := |head|;
    ColonSpaceLine(head, v);
    assert line[..p] == head;
    assert line[p + 1..] == " " + v;
    StripTrimmed(head);
    StripLeadingSpace(v);
    StripTrimmed(v);
  }

  /** `service` splits a line at the last colon followed by whitespace. */
  lemma ServiceSplitsLast(head: string, v: string)
    requires Trimmed(head) && Trimmed(v) && ':' !in v
    ensures ServiceEntry(head + ": " + v) == Some(Entry(head, v))
  {
    var line := head + ": " + v;
    assert line[0] == head[0] && line[|line| - 1] == v[|v| - 1];
    StripTrimmed(line);
    MatchPairSplitsLast(head, v);
  }

  /** The two block parsers split a line "k: m: v" differently: `current_target` at the
      first colon (key k, value "m: v"), `service` at the last colon followed by
      whitespace (key "k: m", value v). */
  lemma SplitsDiffer(k: string, m: string, v: string)
    requires Trimmed(k) && Trimmed(m) && Trimmed(v)
    requires ':' !in k && ':' !in m && ':' !in v
    ensures TargetEntry(k + ": " + m + ": " + v) == Some(Entry(k, m + ": " + v))
    ensures ServiceEntry(k + ": " + m + ": " + v) == Some(Entry(k + ": " + m, v))
  {
    assert k + ": " + m + ": " + v == k + ": " + (m + ": " + v);
    StripTrimmed(k);
    StripTrimmed(m + ": " + v);
    TargetSplitsFirst(k, m + ": " + v);
    ServiceSplitsLast(k + ": " + m, v);
  }

  /** A line "key:" with nothing after its colon gives no entry to `service`, while
      `current_target` records the key with an empty value. */
  lemma EmptyValueDiffers(key: string)
    requires Trimmed(key) && ':' !in key
    ensures ServiceEntry(key + ":") == None
    ensures TargetEntry(key + ":") == Some(Entry(key, ""))
  {
    var l := key + ":";
    assert l[..|key|] == key;
    assert IndexOf(l, ':') == |key|;
    assert l[|key| + 1..] == "";
    StripTrimmed(key);
    StripTrimmed(l);
    forall i ensures !SplitsAt(Strip(l), i) {
    }
  }

  // ---- services: first column after the header row ---------------------------------------

  /** `line.strip()` is falsy: the line is all whitespace (`Text.StripEmpty`). */
  predicate Blank(line: string) {
    AllSpace(line)
  }

  /** A non-blank line starting with "name" is the table header. */
  predicate IsHeader(line: string) {
    !Blank(line) && StartsWith(line, "name")
  }

  /** A non-blank line that is not a header is a data row. */
  predicate IsRow(line: string) {
    !Blank(line) && !StartsWith(line, "name")
  }

  /** The state of the `services` loop: the names looked up so far and `parse_line`. */
  datatype Scan = Scan(names: seq<string>, parsing: bool)

  /** The state of the `services` loop after the first n lines. */
  function ScanUpTo(lines: seq<string>, n: nat): Scan
    requires n <= |lines|
    decreases n
  {
    if n == 0 then Scan([], false)
    else
      var before := ScanUpTo(lines, n - 1);
      var line := lines[n - 1];
      if Blank(line) then before
      else if StartsWith(line, "name") then Scan(before.names, true)
      else if before.parsing then Scan(before.names + [FirstToken(line)], true)
      else before
  }

  /** The names `services` looks up, in order. */
  function ServiceNames(contents: string): seq<string> {
    var lines := Lines(contents);
    ScanUpTo(lines, |lines|).names
  }

  /** Reference definition: the first token of every data row, in order. */
  function DataRows(lines: seq<string>): seq<string>
    decreases |lines|
  {
    if lines == [] then []
    else (if IsRow(lines[0]) then [FirstToken(lines[0])] else []) + DataRows(lines[1..])
  }

  lemma {:induction false} DataRowsSnoc(lines: seq<string>, line: string)
    ensures DataRows(lines + [line]) == DataRows(lines) + (if IsRow(line) then [FirstToken(line)] else [])
    decreases |lines|
  {
    if lines != [] {
      var h := if IsRow(lines[0]) then [FirstToken(lines[0])] else [];
      var t := if IsRow(line) then [FirstToken(line)] else [];
      assert (lines + [line])[1..] == lines[1..] + [line];
      DataRowsSnoc(lines[1..], line);
      assert h + (DataRows(lines[1..]) + t) == (h + DataRows(lines[1..])) + t;
    } else {
      assert ([] + [line])[1..] == [];
    }
  }

  lemma DataRowsLast(xs: seq<string>)
    requires xs != []
    ensures DataRows(xs) == DataRows(xs[..|xs| - 1]) +
      (if IsRow(xs[|xs| - 1]) then [FirstToken(xs[|xs| - 1])] else [])
  {
    assert xs == xs[..|xs| - 1] + [xs[|xs| - 1]];
    DataRowsSnoc(xs[..|xs| - 1], xs[|xs| - 1]);
  }

  /** `parse_line` is set exactly once a header has been read. */
  lemma {:induction false} ParsingAfterHeader(lines: seq<string>, n: nat)
    requires n <= |lines|
    ensures ScanUpTo(lines, n).parsing <==> exists j :: 0 <= j < n && IsHeader(lines[j])
    decreases n
  {
    if n > 0 {
      ParsingAfterHeader(lines, n - 1);
      if ScanUpTo(lines, n - 1).parsing {
        var j :| 0 <= j < n - 1 && IsHeader(lines[j]);
        assert 0 <= j < n && IsHeader(lines[j]);
      }
    }
  }

  /** Without a header nothing is looked up. */
  lemma {:induction false} NoHeaderNoNames(lines: seq<string>, n: nat)
    requires n <= |lines|
    requires forall j :: 0 <= j < n ==> !IsHeader(lines[j])
    ensures ScanUpTo(lines, n) == Scan([], false)
    decreases n
  {
    if n > 0 {
      NoHeaderNoNames(lines, n - 1);
    }
  }

  /** Once `parse_line` is set, a line adds its first token exactly when it is a data row. */
  lemma ScanWhileParsing(lines: seq<string>, n: nat)
    requires 0 < n <= |lines| && ScanUpTo(lines, n - 1).parsing
    ensures ScanUpTo(lines, n) == Scan(ScanUpTo(lines, n - 1).names +
      (if IsRow(lines[n - 1]) then [FirstToken(lines[n - 1])] else []), true)
  {
  }

  /** Reading the first header sets `parse_line` with nothing looked up yet. */
  lemma FirstHeader(lines: seq<string>, h: nat)
    requires h < |lines| && IsHeader(lines[h])
    requires forall j :: 0 <= j < h ==> !IsHeader(lines[j])
    ensures ScanUpTo(lines, h + 1) == Scan([], true)
  {
    NoHeaderNoNames(lines, h);
  }

  /** Once the header at line h has been read, every later data row is looked up and
      later header-like lines are skipped. */
  lemma {:induction false} RowsAfterHeader(lines: seq<string>, h: nat, n: nat)
    requires h < n <= |lines| && IsHeader(lines[h])
    requires forall j :: 0 <= j < h ==> !IsHeader(lines[j])
    ensures ScanUpTo(lines, n) == Scan(DataRows(lines[h + 1..n]), true)
    decreases n
  {
    if n == h + 1 {
      FirstHeader(lines, h);
      assert lines[h + 1..n] == [];
    } else {
      RowsAfterHeader(lines, h, n - 1);
      RowsStep(lines, h, n);
    }
  }

  lemma RowsStep(lines: seq<string>, h: nat, n: nat)
    requires h + 1 < n <= |lines|
    requires ScanUpTo(lines, n - 1) == Scan(DataRows(lines[h + 1..n - 1]), true)
    ensures ScanUpTo(lines, n) == Scan(DataRows(lines[h + 1..n]), true)
  {
    var rows := lines[h + 1..n];
    ScanWhileParsing(lines, n);
    DataRowsLast(rows);
    assert rows[..n - h - 2] == lines[h + 1..n - 1] && rows[n - h - 2] == lines[n - 1];
  }

  /** Lines before the first header are ignored; every data row after it contributes its
      first space-separated token, in order. */
  lemma NamesFollowFirstHeader(lines: seq<string>, h: nat)
    requires h < |lines| && IsHeader(lines[h])
    requires forall j :: 0 <= j < h ==> !IsHeader(lines[j])
    ensures ScanUpTo(lines, |lines|).names == DataRows(lines[h + 1..])
  {
    RowsAfterHeader(lines, h, |lines|);
    assert lines[h + 1..|lines|] == lines[h + 1..];
  }

  // ---- apps: first column after four header lines -------------------------------------

  /** What the loop of `apps` has collected after the first n lines, `i > 3 and line`
      deciding for line i. */
  function AppsUpTo(lines: seq<string>, n: nat): seq<string>
    requires n <= |lines|
    decreases n
  {
    if n == 0 then []
    else
      var before := AppsUpTo(lines, n - 1);
      if n - 1 > 3 && lines[n - 1] != "" then before + [FirstToken(lines[n - 1])] else before
  }

  /** Reference definition: the first token of every non-empty line. */
  function NonEmptyTokens(lines: seq<string>): seq<string>
    decreases |lines|
  {
    if lines == [] then []
    else (if lines[0] != "" then [FirstToken(lines[0])] else []) + NonEmptyTokens(lines[1..])
  }

  /** What `apps` returns: the first token of every non-empty line from index 4 on. */
  function AppNames(contents: string): seq<string> {
    var lines := Lines(contents);
    if |lines| <= 4 then [] else NonEmptyTokens(lines[4..])
  }

  lemma {:induction false} NonEmptyTokensSnoc(lines: seq<string>, line: string)
    ensures NonEmptyTokens(lines + [line]) ==
      NonEmptyTokens(lines) + (if line != "" then [FirstToken(line)] else [])
    decreases |lines|
  {
    if lines != [] {
      var h := if lines[0] != "" then [FirstToken(lines[0])] else [];
      var t := if line != "" then [FirstToken(line)] else [];
      assert (lines + [line])[1..] == lines[1..] + [line];
      NonEmptyTokensSnoc(lines[1..], line);
      assert h + (NonEmptyTokens(lines[1..]) + t) == (h + NonEmptyTokens(lines[1..])) + t;
    } else {
      assert ([] + [line])[1..] == [];
    }
  }

  /** The first four lines contribute nothing, blank or not. */
  lemma {:induction false} AppsHeader(lines: seq<string>, n: nat)
    requires n <= 4 && n <= |lines|
    ensures AppsUpTo(lines, n) == []
  {
    if n > 0 {
      AppsHeader(lines, n - 1);
    }
  }

  lemma {:induction false} AppsAfterHeader(lines: seq<string>, n: nat)
    requires 4 <= n <= |lines|
    ensures AppsUpTo(lines, n) == NonEmptyTokens(lines[4..n])
    decreases n
  {
    if n == 4 {
      AppsHeader(lines, 4);
    } else {
      AppsAfterHeader(lines, n - 1);
      assert lines[4..n] == lines[4..n - 1] + [lines[n - 1]];
      NonEmptyTokensSnoc(lines[4..n - 1], lines[n - 1]);
    }
  }

  /** The loop of `apps` (the `cf apps` call itself is `Cli.CloudFoundry.Apps`). */
  method ParseApps(contents: string) returns (appnames: seq<string>)
    ensures appnames == AppNames(contents)
  {
    var lines := Lines(contents);
    appnames := [];
    var i := 0;
    while i < |lines|
      invariant 0 <= i <= |lines|
      invariant appnames == AppsUpTo(lines, i)
    {
      if i > 3 && lines[i] != "" {
        appnames := appnames + [FirstToken(lines[i])];
      }
      i := i + 1;
    }
    if |lines| <= 4 {
      AppsHeader(lines, |lines|);
    } else {
      AppsAfterHeader(lines, |lines|);
      assert lines[4..|lines|] == lines[4..];
    }
  }
}
