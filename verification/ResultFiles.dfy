/** Reading benchmark results back from the CSV files the benchmarks write. */
module ResultFiles {
  import opened Prelude
  import opened Results
  import opened Sorting

  /**
   A file that cannot be opened, or its content: the characters its bytes decode to, `None`
   where they are not valid UTF-8.
   */
  datatype File = Unreadable | Opened(content: seq<Option<char>>)

  // ----- Lines -----

  /** Where the first line ends: at a newline, or at the end of the content. */
  function LineEnd(content: seq<Option<char>>): (n: nat)
    ensures n <= |content|
    ensures n < |content| ==> content[n] == Some('\n')
    ensures forall i :: 0 <= i < n ==> content[i] != Some('\n')
  {
    if content == [] || content[0] == Some('\n') then 0 else 1 + LineEnd(content[1..])
  }

  /** The text of a line; `None` when it cannot be decoded. */
  function Decoded(line: seq<Option<char>>): Option<string> {
    if line == [] then Some([])
    else
      var rest := Decoded(line[1..]);
      if line[0].None? || rest.None? then None else Some([line[0].value] + rest.value)
  }

  /** A carriage return before the newline belongs to the line ending. */
  function DropReturn(line: seq<Option<char>>): seq<Option<char>> {
    if line != [] && line[|line| - 1] == Some('\r') then line[..|line| - 1] else line
  }

  /** `BufRead::lines`: the lines, without their endings; the last one need not have an ending. */
  function LinesOf(content: seq<Option<char>>): seq<Option<string>>
    decreases |content|
  {
    if content == [] then [] else
      var n := LineEnd(content);
      if n == |content| then [Decoded(content)]
      else [Decoded(DropReturn(content[..n]))] + LinesOf(content[n + 1..])
  }

  /** Unicode's White_Space property. */
  predicate IsSpace(c: char) {
    var u := c as int;
    || 9 <= u <= 13 || u == 0x20 || u == 0x85 || u == 0xA0 || u == 0x1680 || 0x2000 <= u <= 0x200A
    || u == 0x2028 || u == 0x2029 || u == 0x202F || u == 0x205F || u == 0x3000
  }

  function TrimStart(s: string): string {
    if s != [] && IsSpace(s[0]) then TrimStart(s[1..]) else s
  }

  function TrimEnd(s: string): string {
    if s != [] && IsSpace(s[|s| - 1]) then TrimEnd(s[..|s| - 1]) else s
  }

  function Trim(s: string): string {
    TrimEnd(TrimStart(s))
  }

  function Split(s: string): (parts: seq<string>)
    ensures parts != []
  {
    if s == [] then [[]] else
      var rest := Split(s[1..]);
      if s[0] == ',' then [[]] + rest else [[s[0]] + rest[0]] + rest[1..]
  }

  function Join(parts: seq<string>): string
    requires parts != []
  {
    if |parts| == 1 then parts[0] else parts[0] + [','] + Join(parts[1..])
  }

  /** No space at either end. */
  predicate Trimmed(s: string) {
    s != [] ==> !IsSpace(s[0]) && !IsSpace(s[|s| - 1])
  }

  /** Text that survives being written as a field: no comma, no newline, no space at either end. */
  predicate Clean(s: string) {
    ',' !in s && '\n' !in s && Trimmed(s)
  }

  function ParseAll<T>(fields: seq<string>, parse: string -> Option<T>): Option<seq<T>> {
    if fields == [] then Some([]) else
      match parse(fields[0])
      case None => None
      case Some(first) =>
        match ParseAll(fields[1..], parse)
        case None => None
        case Some(rest) => Some([first] + rest)
  }

  // ----- The three row formats -----

  function IcountRow(line: string, parse: string -> Option<real>): Option<(string, real)> {
    var parts := Split(Trim(line));
    if |parts| < 2 || parse(parts[1]).None? || |parts| > 2 then None
    else Some((parts[0], parse(parts[1]).value))
  }

  predicate LeNat(x: nat, y: nat) { x <= y }

  /** The upper median: the element in the middle of the sorted samples. */
  function Median(samples: seq<nat>): nat
    requires samples != []
  {
    SortPermutes(samples, LeNat);
    Sort(samples, LeNat)[|samples| / 2]
  }

  function WalltimeRow(line: string, parse: string -> Option<nat>): Option<(string, real)> {
    var parts := Split(Trim(line));
    match ParseAll(parts[1..], parse)
    case None => None
    case Some(walltimes) => if walltimes == [] then None else Some((parts[0], Median(walltimes) as real))
  }

  function MemoryRow(line: string, parse: string -> Option<nat>): Option<(string, MemoryDetails)> {
    var parts := Split(Trim(line));
    match ParseAll(parts[1..], parse)
    case None => None
    case Some(counts) =>
      if |counts| != 4 then None
      else Some((parts[0], MemoryDetails(counts[0], counts[1], counts[2], counts[3])))
  }

  type RowParser<T> = string -> Option<(string, T)>

  function IcountRows(parse: string -> Option<real>): RowParser<real> {
    line => IcountRow(line, parse)
  }

  function WalltimeRows(parse: string -> Option<nat>): RowParser<real> {
    line => WalltimeRow(line, parse)
  }

  function MemoryRows(parse: string -> Option<nat>): RowParser<MemoryDetails> {
    line => MemoryRow(line, parse)
  }

  // ----- Whole files -----

  /** The entry a line stands for, unless the line is unreadable or malformed. */
  function EntryOf<T>(line: Option<string>, row: RowParser<T>): Option<(string, T)> {
    if line.None? then None else row(line.value)
  }

  /** What the lines say, later lines winning; nothing when some line is bad. */
  function Contents<T>(lines: seq<Option<string>>, row: RowParser<T>): Option<map<string, T>> {
    if lines == [] then Some(map[]) else
      var before := Contents(lines[..|lines| - 1], row);
      var entry := EntryOf(lines[|lines| - 1], row);
      if before.None? || entry.None? then None else Some(before.value[entry.value.0 := entry.value.1])
  }

  predicate Agrees<T(==)>(result: Result<map<string, T>>, contents: Option<map<string, T>>) {
    match result
    case Ok(values) => contents == Some(values)
    case Err(_) => contents == None
  }

  lemma {:induction false} PrefixBad<T>(lines: seq<Option<string>>, n: nat, row: RowParser<T>)
    requires n <= |lines| && Contents(lines[..n], row).None?
    ensures Contents(lines, row).None?
    decreases |lines| - n
  {
    if n < |lines| {
      assert lines[..n + 1][..n] == lines[..n];
      PrefixBad(lines, n + 1, row);
    } else {
      assert lines[..n] == lines;
    }
  }

  /** Reading one more line: it adds its entry, or spoils the whole read. */
  lemma {:induction false} OneMoreLine<T>(lines: seq<Option<string>>, i: nat, row: RowParser<T>)
    requires i < |lines| && Contents(lines[..i], row).Some?
    ensures EntryOf(lines[i], row).None? ==> Contents(lines, row).None?
    ensures EntryOf(lines[i], row).Some? ==>
              var (name, value) := EntryOf(lines[i], row).value;
              Contents(lines[..i + 1], row) == Some(Contents(lines[..i], row).value[name := value])
  {
    assert lines[..i + 1][..i] == lines[..i];
    if EntryOf(lines[i], row).None? {
      PrefixBad(lines, i + 1, row);
    }
  }

  method ReadIcountResults(file: File, parse: string -> Option<real>) returns (result: Result<map<string, real>>)
    ensures file.Unreadable? ==> result.Err?
    ensures file.Opened? ==> Agrees(result, Contents(LinesOf(file.content), IcountRows(parse)))
  {
    if file.Unreadable? {
      return Err("CSV file for comparison not found");
    }
    var measurements: map<string, real> := map[];
    var lines := LinesOf(file.content);
    for i := 0 to |lines|
      invariant Contents(lines[..i], IcountRows(parse)) == Some(measurements)
    {
      OneMoreLine(lines, i, IcountRows(parse));
      if lines[i].None? {
        return Err("failed to read line from CSV file");
      }
      var parts := Split(Trim(lines[i].value));
      if |parts| < 2 {
        return Err("CSV is wrongly formatted");
      }
      var count := parse(parts[1]);
      if count.None? {
        return Err("failed to parse instruction count");
      }
      measurements := measurements[parts[0] := count.value];
      if |parts| > 2 {
        return Err("CSV is wrongly formatted");
      }
    }
    assert lines[..|lines|] == lines;
    return Ok(measurements);
  }

  method ReadWalltimeResults(file: File, parse: string -> Option<nat>) returns (result: Result<map<string, real>>)
    ensures file.Unreadable? ==> result.Err?
    ensures file.Opened? ==> Agrees(result, Contents(LinesOf(file.content), WalltimeRows(parse)))
  {
    if file.Unreadable? {
      return Err("file not found");
    }
    var results: map<string, real> := map[];
    var lines := LinesOf(file.content);
    for i := 0 to |lines|
      invariant Contents(lines[..i], WalltimeRows(parse)) == Some(results)
    {
      OneMoreLine(lines, i, WalltimeRows(parse));
      if lines[i].None? {
        return Err("failed to read line from CSV file");
      }
      var parts := Split(Trim(lines[i].value));
      var walltimes := ParseAll(parts[1..], parse);
      if walltimes.None? {
        return Err("invalid f64 in row");
      }
      if walltimes.value == [] {
        return Err("no measurements for walltime results row");
      }
      SortPermutes(walltimes.value, LeNat);
      var sorted := Sort(walltimes.value, LeNat);
      results := results[parts[0] := sorted[|sorted| / 2] as real];
    }
    assert lines[..|lines|] == lines;
    return Ok(results);
  }

  /** A missing memory file counts as no results. */
  method MaybeReadMemoryResults(file: File, parse: string -> Option<nat>)
    returns (result: Result<map<string, MemoryDetails>>)
    ensures file.Unreadable? ==> result == Ok(map[])
    ensures file.Opened? ==> Agrees(result, Contents(LinesOf(file.content), MemoryRows(parse)))
  {
    var results: map<string, MemoryDetails> := map[];
    if file.Unreadable? {
      return Ok(results);
    }
    var lines := LinesOf(file.content);
    for i := 0 to |lines|
      invariant Contents(lines[..i], MemoryRows(parse)) == Some(results)
    {
      OneMoreLine(lines, i, MemoryRows(parse));
      if lines[i].None? {
        return Err("failed to read line from CSV file");
      }
      var parts := Split(Trim(lines[i].value));
      var counts := ParseAll(parts[1..], parse);
      if counts.None? {
        return Err("invalid u64 in row");
      }
      if |counts.value| != 4 {
        return Err("incorrect number of measurements for memory results row");
      }
      results := results[parts[0] := MemoryDetails(counts.value[0], counts.value[1], counts.value[2], counts.value[3])];
    }
    assert lines[..|lines|] == lines;
    return Ok(results);
  }

  // ----- What a read returns -----

  /** The whole read fails exactly when some line is bad: unreadable, or a row of the wrong shape. */
  lemma {:induction false} ReadFailsOnBadLine<T>(lines: seq<Option<string>>, row: RowParser<T>)
    ensures Contents(lines, row).None? <==> exists i :: 0 <= i < |lines| && EntryOf(lines[i], row).None?
  {
    if lines != [] {
      var n := |lines| - 1;
      ReadFailsOnBadLine(lines[..n], row);
      if Contents(lines[..n], row).None? {
        var i :| 0 <= i < n && EntryOf(lines[..n][i], row).None?;
        assert EntryOf(lines[i], row).None?;
      }
      if exists i :: 0 <= i < n && EntryOf(lines[i], row).None? {
        var i :| 0 <= i < n && EntryOf(lines[i], row).None?;
        assert EntryOf(lines[..n][i], row).None?;
      }
    }
  }

  lemma {:induction false} ParseFails<T>(fields: seq<string>, parse: string -> Option<T>)
    ensures ParseAll(fields, parse).None? <==> exists i :: 0 <= i < |fields| && parse(fields[i]).None?
    ensures ParseAll(fields, parse).Some? ==> |ParseAll(fields, parse).value| == |fields|
  {
    if fields != [] {
      ParseFails(fields[1..], parse);
      if parse(fields[0]).Some? && ParseAll(fields[1..], parse).None? {
        var i :| 0 <= i < |fields[1..]| && parse(fields[1..][i]).None?;
        assert parse(fields[i + 1]).None?;
      }
    }
  }

  /**
   What a bad row is: an icount row has exactly two fields, a walltime row at least two and a
   memory row exactly five, and every field after the name parses.
   */
  lemma BadRows(line: string, number: string -> Option<real>, count: string -> Option<nat>)
    ensures var fields := Split(Trim(line));
            && (IcountRow(line, number).None? <==> |fields| != 2 || number(fields[1]).None?)
            && (WalltimeRow(line, count).None? <==>
                  |fields| < 2 || exists i :: 1 <= i < |fields| && count(fields[i]).None?)
            && (MemoryRow(line, count).None? <==>
                  |fields| != 5 || exists i :: 1 <= i < |fields| && count(fields[i]).None?)
  {
    var fields := Split(Trim(line));
    ParseFails(fields[1..], count);
    assert forall i :: 1 <= i < |fields| ==> fields[i] == fields[1..][i - 1];
    if i :| 0 <= i < |fields[1..]| && count(fields[1..][i]).None? {
      assert count(fields[i + 1]).None?;
    }
  }

  /** The line `i` names `name`, and no later line does. */
  ghost predicate LastFor<T>(lines: seq<Option<string>>, row: RowParser<T>, i: nat, name: string)
    requires i < |lines|
  {
    && EntryOf(lines[i], row).Some? && EntryOf(lines[i], row).value.0 == name
    && forall k :: i < k < |lines| && EntryOf(lines[k], row).Some? ==> EntryOf(lines[k], row).value.0 != name
  }

  /** With several rows for a name the last one wins; names without a row are absent. */
  lemma {:induction false} LastRowWins<T>(lines: seq<Option<string>>, row: RowParser<T>, name: string)
    requires Contents(lines, row).Some?
    ensures name in Contents(lines, row).value <==> exists i :: 0 <= i < |lines| && LastFor(lines, row, i, name)
    ensures forall i :: 0 <= i < |lines| && LastFor(lines, row, i, name) ==>
              name in Contents(lines, row).value && Contents(lines, row).value[name] == EntryOf(lines[i], row).value.1
  {
    if lines != [] {
      var n := |lines| - 1;
      LastRowWins(lines[..n], row, name);
      if EntryOf(lines[n], row).value.0 == name {
        assert LastFor(lines, row, n, name);
      } else {
        forall i | 0 <= i < n ensures LastFor(lines, row, i, name) <==> LastFor(lines[..n], row, i, name) {
          LastForPrefix(lines, row, i, name);
        }
      }
    }
  }

  lemma LastForPrefix<T>(lines: seq<Option<string>>, row: RowParser<T>, i: nat, name: string)
    requires i < |lines| - 1
    requires EntryOf(lines[|lines| - 1], row).Some? && EntryOf(lines[|lines| - 1], row).value.0 != name
    ensures LastFor(lines, row, i, name) <==> LastFor(lines[..|lines| - 1], row, i, name)
  {
    var n := |lines| - 1;
    assert forall k :: 0 <= k < n ==> lines[..n][k] == lines[k];
  }

  // ----- Spaces around a row -----

  predicate AllSpace(s: string) {
    forall i :: 0 <= i < |s| ==> IsSpace(s[i])
  }

  lemma {:induction false} TrimStartDrops(left: string, s: string)
    requires AllSpace(left)
    ensures TrimStart(left + s) == TrimStart(s)
  {
    if left == [] {
      assert left + s == s;
    } else {
      TrimStartDrops(left[1..], s);
      assert (left + s)[1..] == left[1..] + s;
    }
  }

  lemma {:induction false} TrimEndDrops(s: string, right: string)
    requires AllSpace(right)
    ensures TrimEnd(s + right) == TrimEnd(s)
  {
    if right == [] {
      assert s + right == s;
    } else {
      var n := |right| - 1;
      TrimEndDrops(s, right[..n]);
      assert (s + right)[..|s + right| - 1] == s + right[..n];
    }
  }

  /** Tabs, spaces, line ends and the like count as spaces; of the ASCII characters, only these. */
  lemma AsciiSpaces(c: char)
    requires c < 128 as char
    ensures IsSpace(c) <==> c in ['\t', '\n', 11 as char, 12 as char, '\r', ' ']
  {
  }

  /** Whatever spaces surround a row, it is read as the row itself. */
  lemma SpacesDoNotMatter(left: string, row: string, right: string)
    requires AllSpace(left) && AllSpace(right) && Trimmed(row)
    ensures Trim(left + row + right) == row
  {
    assert left + row + right == left + (row + right);
    TrimStartDrops(left, row + right);
    if row == [] {
      assert row + right == right + [];
      TrimStartDrops(right, []);
    } else {
      TrimEndDrops(row, right);
    }
  }

  // ----- Round trips -----

  lemma {:induction false} SplitField(field: string, rest: string)
    requires ',' !in field
    ensures Split(field) == [field]
    ensures Split(field + [','] + rest) == [field] + Split(rest)
  {
    var whole := field + [','] + rest;
    if field == [] {
      assert whole[1..] == rest;
    } else {
      SplitField(field[1..], rest);
      assert whole[1..] == field[1..] + [','] + rest;
      assert [field[0]] + field[1..] == field;
    }
  }

  lemma {:induction false} SplitJoin(parts: seq<string>)
    requires parts != [] && forall part :: part in parts ==> ',' !in part
    ensures Split(Join(parts)) == parts
  {
    if |parts| == 1 {
      SplitField(parts[0], []);
    } else {
      SplitJoin(parts[1..]);
      SplitField(parts[0], Join(parts[1..]));
    }
  }

  lemma {:induction false} JoinTrimmed(parts: seq<string>)
    requires parts != [] && forall part :: part in parts ==> Clean(part)
    ensures Trimmed(Join(parts)) && '\n' !in Join(parts)
  {
    assert Clean(parts[0]) && !IsSpace(',');
    if |parts| > 1 {
      JoinTrimmed(parts[1..]);
      var joined, rest := Join(parts), Join(parts[1..]);
      assert joined[0] == if parts[0] == [] then ',' else parts[0][0];
      assert joined[|joined| - 1] == if rest == [] then ',' else rest[|rest| - 1];
    }
  }

  /** Splitting the trimmed line gives back the fields it was made of. */
  lemma {:induction false} FieldsSurvive(parts: seq<string>)
    requires parts != [] && forall part :: part in parts ==> Clean(part)
    ensures Split(Trim(Join(parts))) == parts
  {
    JoinTrimmed(parts);
    SplitJoin(parts);
  }

  /** Fields print and parse back. */
  ghost predicate Prints<T>(format: T -> string, parse: string -> Option<T>, value: T) {
    Clean(format(value)) && parse(format(value)) == Some(value)
  }

  function Printed<T>(values: seq<T>, format: T -> string): seq<string> {
    seq(|values|, i requires 0 <= i < |values| => format(values[i]))
  }

  lemma {:induction false} ParsePrinted<T>(values: seq<T>, format: T -> string, parse: string -> Option<T>)
    requires forall value :: value in values ==> Prints(format, parse, value)
    ensures ParseAll(Printed(values, format), parse) == Some(values)
  {
    if values != [] {
      assert Prints(format, parse, values[0]);
      ParsePrinted(values[1..], format, parse);
      assert Printed(values, format)[1..] == Printed(values[1..], format);
      assert [values[0]] + values[1..] == values;
    }
  }

  function RowText<T>(name: string, values: seq<T>, format: T -> string): string {
    Join([name] + Printed(values, format))
  }

  lemma RowFields<T>(name: string, values: seq<T>, format: T -> string, parse: string -> Option<T>)
    requires Clean(name) && forall value :: value in values ==> Prints(format, parse, value)
    ensures var parts := Split(Trim(RowText(name, values, format)));
            parts[0] == name && |parts| == |values| + 1 && parts[1..] == Printed(values, format)
            && ParseAll(parts[1..], parse) == Some(values)
    ensures '\n' !in RowText(name, values, format) && Trimmed(RowText(name, values, format))
    ensures values != [] ==> RowText(name, values, format) != []
  {
    var parts := [name] + Printed(values, format);
    forall part | part in parts ensures Clean(part) {
      if part != name {
        var i :| 0 <= i < |values| && part == format(values[i]);
        assert Prints(format, parse, values[i]);
      }
    }
    FieldsSurvive(parts);
    JoinTrimmed(parts);
    ParsePrinted(values, format, parse);
    assert parts[1..] == Printed(values, format);
  }

  /** How lines end: with or without a carriage return, and whether the last one ends at all. */
  datatype Endings = Endings(carriage: bool, lastEnds: bool)
  {
    function Ending(): string { if carriage then ['\r', '\n'] else ['\n'] }
  }

  /** A file with one row per name. */
  function TextFor(order: seq<string>, text: string -> string, endings: Endings): string {
    if order == [] then []
    else if |order| == 1 && !endings.lastEnds then text(order[0])
    else text(order[0]) + endings.Ending() + TextFor(order[1..], text, endings)
  }

  /** The content of a file that holds this text. */
  function Encoded(text: string): seq<Option<char>> {
    seq(|text|, i requires 0 <= i < |text| => Some(text[i]))
  }

  function LinesFor(order: seq<string>, text: string -> string): seq<Option<string>> {
    seq(|order|, i requires 0 <= i < |order| => Some(text(order[i])))
  }

  lemma {:induction false} DecodedEncoded(text: string)
    ensures Decoded(Encoded(text)) == Some(text)
  {
    if text != [] {
      DecodedEncoded(text[1..]);
      assert Encoded(text)[1..] == Encoded(text[1..]);
      assert [text[0]] + text[1..] == text;
    }
  }

  /** The line before the first newline, and what follows it. */
  lemma {:induction false} CutLine(line: seq<Option<char>>, rest: seq<Option<char>>)
    requires Some('\n') !in line
    ensures LinesOf(line + [Some('\n')] + rest) == [Decoded(DropReturn(line))] + LinesOf(rest)
  {
    var content := line + [Some('\n')] + rest;
    var n := LineEnd(content);
    assert content[|line|] == Some('\n');
    assert forall i :: 0 <= i < |line| ==> content[i] == line[i] && line[i] in line;
    assert n == |line|;
    assert content[..n] == line && content[n + 1..] == rest;
  }

  lemma EncodedConcat(a: string, b: string)
    ensures Encoded(a + b) == Encoded(a) + Encoded(b)
  {
  }

  lemma EncodedLine(line: string, rest: string)
    ensures Encoded(line + ['\n'] + rest) == Encoded(line) + [Some('\n')] + Encoded(rest)
  {
    EncodedConcat(line + ['\n'], rest);
    EncodedConcat(line, ['\n']);
    assert Encoded(['\n']) == [Some('\n')];
  }

  function Ended(row: string, carriage: bool): string {
    if carriage then row + ['\r'] else row
  }

  lemma EndedLine(row: string, endings: Endings, rest: string)
    ensures row + endings.Ending() + rest == Ended(row, endings.carriage) + ['\n'] + rest
  {
  }

  /** The first row of a text comes back as its first line. */
  lemma FirstLine(row: string, endings: Endings, rest: string)
    requires '\n' !in row && Trimmed(row)
    ensures LinesOf(Encoded(row + endings.Ending() + rest)) == [Some(row)] + LinesOf(Encoded(rest))
  {
    hide LinesOf, Encoded, Decoded;
    var line := Ended(row, endings.carriage);
    EndedLine(row, endings, rest);
    EncodedLine(line, rest);
    NoNewline(line);
    CutLine(Encoded(line), Encoded(rest));
    ReturnDropped(row, endings.carriage);
    DecodedEncoded(row);
  }

  lemma NoNewline(line: string)
    requires '\n' !in line
    ensures Some('\n') !in Encoded(line)
  {
  }

  lemma ReturnDropped(row: string, carriage: bool)
    requires Trimmed(row)
    ensures DropReturn(Encoded(Ended(row, carriage))) == Encoded(row)
  {
    assert IsSpace('\r');
    if carriage {
      assert Encoded(row + ['\r'])[..|row|] == Encoded(row);
    }
  }

  /** A last line without an ending is a line all the same, unless it is empty. */
  lemma LastLine(row: string)
    requires '\n' !in row && row != []
    ensures LinesOf(Encoded(row)) == [Some(row)]
  {
    assert forall i :: 0 <= i < |row| ==> Encoded(row)[i] == Some(row[i]) && row[i] in row;
    assert LineEnd(Encoded(row)) == |row|;
    DecodedEncoded(row);
  }

  lemma NoLines()
    ensures LinesOf(Encoded([])) == []
  {
    assert Encoded([]) == [];
  }

  /** The lines of the written file are the rows, however lines end. */
  lemma {:induction false} LinesComeBack(order: seq<string>, text: string -> string, endings: Endings)
    requires forall name :: name in order ==> '\n' !in text(name) && Trimmed(text(name)) && text(name) != []
    ensures LinesOf(Encoded(TextFor(order, text, endings))) == LinesFor(order, text)
  {
    hide LinesOf, Encoded;
    if order == [] {
      NoLines();
    } else if |order| == 1 && !endings.lastEnds {
      assert order[0] in order;
      LastLine(text(order[0]));
    } else {
      assert order[0] in order;
      LinesComeBack(order[1..], text, endings);
      FirstLine(text(order[0]), endings, TextFor(order[1..], text, endings));
      assert LinesFor(order, text) == [Some(text(order[0]))] + LinesFor(order[1..], text);
    }
  }

  ghost predicate ListsKeys<T>(order: seq<string>, values: map<string, T>) {
    forall name :: name in order <==> name in values
  }

  function Restricted<T>(values: map<string, T>, order: seq<string>): map<string, T> {
    map name | name in values && name in order :: values[name]
  }

  lemma {:induction false} LinesReadSome<T>(order: seq<string>, values: map<string, T>, text: string -> string,
                                            row: RowParser<T>)
    requires forall name :: name in order ==> name in values && row(text(name)) == Some((name, values[name]))
    ensures Contents(LinesFor(order, text), row) == Some(Restricted(values, order))
  {
    if order != [] {
      var n := |order| - 1;
      assert order == order[..n] + [order[n]];
      LinesReadSome(order[..n], values, text, row);
      assert LinesFor(order, text)[..n] == LinesFor(order[..n], text);
      assert order[n] in order;
      assert Restricted(values, order) == Restricted(values, order[..n])[order[n] := values[order[n]]];
    }
  }

  /** If every name's row parses to its value, a file with the rows in any order reads back as the map. */
  lemma {:induction false} TextReadsBack<T>(order: seq<string>, values: map<string, T>, text: string -> string,
                                            endings: Endings, row: RowParser<T>)
    requires ListsKeys(order, values)
    requires forall name :: name in values ==>
               && '\n' !in text(name) && Trimmed(text(name)) && text(name) != []
               && row(text(name)) == Some((name, values[name]))
    ensures Contents(LinesOf(Encoded(TextFor(order, text, endings))), row) == Some(values)
  {
    LinesComeBack(order, text, endings);
    LinesReadSome(order, values, text, row);
    assert Restricted(values, order) == values;
  }

  /** Each scenario's row, its fields taken from `fields`. */
  function RowTexts<T>(fields: map<string, seq<T>>, format: T -> string): string -> string {
    name => if name in fields then RowText(name, fields[name], format) else []
  }

  /**
   From the file's text: the icount reader inverts the format, whatever the order of the rows and the
   line endings.
   */
  lemma IcountRoundTrip(values: map<string, real>, order: seq<string>, format: real -> string,
                        parse: string -> Option<real>, endings: Endings)
    requires ListsKeys(order, values)
    requires forall name :: name in values ==> Clean(name) && Prints(format, parse, values[name])
    ensures var text := RowTexts(map name | name in values :: [values[name]], format);
            Contents(LinesOf(Encoded(TextFor(order, text, endings))), IcountRows(parse)) == Some(values)
  {
    var text := RowTexts(map name | name in values :: [values[name]], format);
    forall name | name in values
      ensures IcountRows(parse)(text(name)) == Some((name, values[name]))
      ensures '\n' !in text(name) && Trimmed(text(name)) && text(name) != []
    {
      RowFields(name, [values[name]], format, parse);
    }
    TextReadsBack(order, values, text, endings, IcountRows(parse));
  }

  function Counts(details: MemoryDetails): seq<nat> {
    [details.heapTotalBytes, details.heapTotalBlocks, details.heapPeakBytes, details.heapPeakBlocks]
  }

  /**
   From the file's text: the memory reader inverts the format, whatever the order of the rows and the
   line endings.
   */
  lemma MemoryRoundTrip(values: map<string, MemoryDetails>, order: seq<string>, format: nat -> string,
                        parse: string -> Option<nat>, endings: Endings)
    requires ListsKeys(order, values)
    requires forall name :: name in values ==> Clean(name)
    requires forall name, n :: name in values && n in Counts(values[name]) ==> Prints(format, parse, n)
    ensures var text := RowTexts(map name | name in values :: Counts(values[name]), format);
            Contents(LinesOf(Encoded(TextFor(order, text, endings))), MemoryRows(parse)) == Some(values)
  {
    var text := RowTexts(map name | name in values :: Counts(values[name]), format);
    forall name | name in values
      ensures MemoryRows(parse)(text(name)) == Some((name, values[name]))
      ensures '\n' !in text(name) && Trimmed(text(name)) && text(name) != []
    {
      RowFields(name, Counts(values[name]), format, parse);
    }
    TextReadsBack(order, values, text, endings, MemoryRows(parse));
  }

  /**
   From the file's text: the walltime reader turns each scenario's samples into their median,
   whatever the order of the rows and the line endings.
   */
  lemma {:induction false} WalltimeRoundTrip(samples: map<string, seq<nat>>, order: seq<string>,
                                             format: nat -> string, parse: string -> Option<nat>,
                                             endings: Endings)
    requires ListsKeys(order, samples)
    requires forall name :: name in samples ==> Clean(name) && samples[name] != []
    requires forall name, n :: name in samples && n in samples[name] ==> Prints(format, parse, n)
    ensures Contents(LinesOf(Encoded(TextFor(order, RowTexts(samples, format), endings))), WalltimeRows(parse)) ==
            Some(map name | name in samples :: Median(samples[name]) as real)
  {
    var text := RowTexts(samples, format);
    var values := map name | name in samples :: Median(samples[name]) as real;
    forall name | name in values
      ensures WalltimeRows(parse)(text(name)) == Some((name, values[name]))
      ensures '\n' !in text(name) && Trimmed(text(name)) && text(name) != []
    {
      RowFields(name, samples[name], format, parse);
    }
    TextReadsBack(order, values, text, endings, WalltimeRows(parse));
  }

  // ----- The median -----

  function AtMost(bound: nat): nat -> bool {
    x => x <= bound
  }

  function AtLeast(bound: nat): nat -> bool {
    x => x >= bound
  }

  lemma {:induction false} ManyAtMost(sorted: seq<nat>, i: nat)
    requires i < |sorted| && SortedBy(sorted, LeNat)
    ensures Count(sorted, AtMost(sorted[i])) >= i + 1
  {
    var low, high := sorted[..i + 1], sorted[i + 1..];
    forall j | 0 <= j < |low| ensures AtMost(sorted[i])(low[j]) {
      assert j < i ==> LeNat(sorted[j], sorted[i]);
    }
    CountBounds(low, AtMost(sorted[i]));
    CountConcat(low, high, AtMost(sorted[i]));
    assert sorted == low + high;
  }

  lemma {:induction false} ManyAtLeast(sorted: seq<nat>, i: nat)
    requires i < |sorted| && SortedBy(sorted, LeNat)
    ensures Count(sorted, AtLeast(sorted[i])) >= |sorted| - i
  {
    var low, high := sorted[..i], sorted[i..];
    forall j | 0 <= j < |high| ensures AtLeast(sorted[i])(high[j]) {
      assert j > 0 ==> LeNat(sorted[i], sorted[i + j]);
    }
    CountBounds(high, AtLeast(sorted[i]));
    CountConcat(low, high, AtLeast(sorted[i]));
    assert sorted == low + high;
  }

  /**
   The value stored for a row is one of its samples, with more than half of the samples not
   above it and at least half (rounded up) not below it; the order of the samples is
   immaterial.
   */
  lemma {:induction false} MedianIsMiddle(samples: seq<nat>, permuted: seq<nat>)
    requires samples != [] && multiset(permuted) == multiset(samples)
    ensures Median(samples) in samples
    ensures Count(samples, AtMost(Median(samples))) >= |samples| / 2 + 1
    ensures Count(samples, AtLeast(Median(samples))) >= |samples| - |samples| / 2
    ensures permuted != [] && Median(permuted) == Median(samples)
  {
    var sorted := Sort(samples, LeNat);
    SortPermutes(samples, LeNat);
    SortSorts(samples, LeNat);
    assert Median(samples) in multiset(sorted);
    ManyAtMost(sorted, |samples| / 2);
    ManyAtLeast(sorted, |samples| / 2);
    CountPermutation(samples, sorted, AtMost(Median(samples)));
    CountPermutation(samples, sorted, AtLeast(Median(samples)));
    SameLength(permuted, samples);
    SortPermutes(permuted, LeNat);
    SortSorts(permuted, LeNat);
    SortedUnique(Sort(permuted, LeNat), sorted, LeNat);
  }
}
