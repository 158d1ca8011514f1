/** Reading a schema dump line by line: one-line statements, blocks that run to a line ending in a
    semicolon, and lines that are not statements at all. */
module MigrationParser {
  import opened Wrappers
  import opened Text

  datatype Kind = Sequence | Table | Default | Constraint | Index | Owner

  /** What a line outside a block is taken for. */
  datatype Mode = OneLine(kind: Kind) | Opens(kind: Kind) | Skipped | Unknown

  /** A statement read from the dump; `table` is what the line that started it names. */
  datatype Item = Item(kind: Kind, table: Option<string>, sql: string)

  predicate StartsWith(s: string, prefix: string) { prefix <= s }

  predicate EndsWith(s: string, c: char) { |s| > 0 && s[|s| - 1] == c }

  predicate Contains(s: string, word: string) { word <= s || (|s| > 0 && Contains(s[1..], word)) }

  /** The tests in the order they are made. */
  function Classify(s: string): Mode {
    if StartsWith(s, "CREATE SEQUENCE") then Opens(Sequence)
    else if StartsWith(s, "CREATE TABLE") then Opens(Table)
    else if StartsWith(s, "ALTER TABLE ONLY") && Contains(s, "SET DEFAULT nextval") then OneLine(Default)
    else if StartsWith(s, "ALTER TABLE") && (Contains(s, "ADD CONSTRAINT") || Contains(s, "ADD PRIMARY KEY")) then
        OneLine(Constraint)
    else if StartsWith(s, "ALTER TABLE ONLY public.") then Opens(Constraint)
    else if StartsWith(s, "CREATE INDEX") || StartsWith(s, "CREATE UNIQUE INDEX") then OneLine(Index)
    else if StartsWith(s, "ALTER TABLE") && Contains(s, "OWNER TO") then OneLine(Owner)
    else if StartsWith(s, "SET ") || StartsWith(s, "SELECT ") || StartsWith(s, "--")
        || StartsWith(s, "COMMENT ON") then Skipped
    else Unknown
  }

  /** The words a statement may start with tell it apart. */
  lemma FirstLetters(s: string)
    requires |s| > 9
    ensures StartsWith(s, "CREATE SEQUENCE") ==> s[0] == 'C' && s[7] == 'S'
    ensures StartsWith(s, "CREATE TABLE") ==> s[0] == 'C' && s[7] == 'T'
    ensures StartsWith(s, "CREATE INDEX") ==> s[0] == 'C' && s[7] == 'I'
    ensures StartsWith(s, "CREATE UNIQUE INDEX") ==> s[0] == 'C' && s[7] == 'U'
    ensures StartsWith(s, "ALTER TABLE") ==> s[0] == 'A'
  {
  }

  /** What a line has to start with or contain to be taken for the start of a statement of a kind; a default is
      never taken for another change to its table, nor a named constraint for a block. */
  lemma LinesAre(s: string)
    ensures var alters := StartsWith(s, "ALTER TABLE");
            var defaults := StartsWith(s, "ALTER TABLE ONLY") && Contains(s, "SET DEFAULT nextval");
            var constrains := alters && !defaults && (Contains(s, "ADD CONSTRAINT") || Contains(s, "ADD PRIMARY KEY"));
            var opens := !defaults && !constrains && StartsWith(s, "ALTER TABLE ONLY public.");
            && (Classify(s) == Opens(Sequence) <==> StartsWith(s, "CREATE SEQUENCE"))
            && (Classify(s) == Opens(Table) <==> StartsWith(s, "CREATE TABLE"))
            && (Classify(s) == OneLine(Default) <==> defaults)
            && (Classify(s) == OneLine(Constraint) <==> constrains)
            && (Classify(s) == Opens(Constraint) <==> opens)
            && (Classify(s) == OneLine(Index) <==>
                  StartsWith(s, "CREATE INDEX") || StartsWith(s, "CREATE UNIQUE INDEX"))
            && (Classify(s) == OneLine(Owner) <==>
                  alters && !defaults && !constrains && !opens && Contains(s, "OWNER TO"))
  {
    if |s| > 9 && s[0] == 'C' {
      FirstLetters(s);
    }
  }

  /** Every statement line has something on it. */
  lemma ClassifiedIsNotBlank(s: string)
    requires Classify(s).OneLine? || Classify(s).Opens?
    ensures s != ""
  {
  }

  function Join(lines: seq<string>): string {
    if |lines| == 0 then ""
    else if |lines| == 1 then lines[0]
    else Join(lines[..|lines| - 1]) + "\n" + lines[|lines| - 1]
  }

  predicate Closes(line: string) { EndsWith(Trim(line), ';') }

  // The reader as a fold over the lines

  datatype Reader = Reader(items: seq<Item>, buf: seq<string>, kind: Kind, table: Option<string>, inBlock: bool)

  const START := Reader([], [], Sequence, None, false)

  function Flushed(r: Reader): Reader {
    var sql := Trim(Join(r.buf));
    r.(items := if |r.buf| > 0 && sql != "" then r.items + [Item(r.kind, r.table, sql)] else r.items, buf := [])
  }

  /** A line inside a block. */
  function Append(r: Reader, line: string): Reader {
    var next := r.(buf := r.buf + [line]);
    if Closes(line) then Flushed(next).(inBlock := false) else next
  }

  function ReadLine(r: Reader, line: string, tableIn: string -> Option<string>): Reader {
    if r.inBlock then Append(r, line)
    else
      var s := Trim(line);
      match Classify(s)
      case OneLine(kind) => r.(items := r.items + [Item(kind, tableIn(s), s)], kind := kind, table := tableIn(s))
      case Opens(kind) => Append(r.(kind := kind, table := tableIn(s), inBlock := true), line)
      case Skipped => r
      case Unknown => r
  }

  function Read(r: Reader, lines: seq<string>, tableIn: string -> Option<string>): Reader {
    if |lines| == 0 then r else ReadLine(Read(r, lines[..|lines| - 1], tableIn), lines[|lines| - 1], tableIn)
  }

  /** The statements of a dump; a block left open at the end is kept. */
  function Parse(lines: seq<string>, tableIn: string -> Option<string>): seq<Item> {
    Flushed(Read(START, lines, tableIn)).items
  }

  // What a dump is made of

  datatype Chunk = Line(text: string) | Block(lines: seq<string>) | Noise(text: string)

  /** A block starts with an opening line, and only its last line ends in a semicolon. */
  predicate WellFormed(c: Chunk) {
    match c
    case Line(text) => Classify(Trim(text)).OneLine?
    case Block(lines) =>
      && |lines| > 0 && Classify(Trim(lines[0])).Opens?
      && Closes(lines[|lines| - 1]) && forall i :: 0 <= i < |lines| - 1 ==> !Closes(lines[i])
    case Noise(text) => Classify(Trim(text)).Skipped? || Classify(Trim(text)).Unknown?
  }

  function LinesOf(c: Chunk): seq<string> {
    match c
    case Line(text) => [text]
    case Block(lines) => lines
    case Noise(text) => [text]
  }

  function Print(chunks: seq<Chunk>): seq<string> {
    if |chunks| == 0 then [] else Print(chunks[..|chunks| - 1]) + LinesOf(chunks[|chunks| - 1])
  }

  function ItemsOf(c: Chunk, tableIn: string -> Option<string>): seq<Item>
    requires WellFormed(c)
  {
    match c
    case Line(text) => [Item(Classify(Trim(text)).kind, tableIn(Trim(text)), Trim(text))]
    case Block(lines) => [Item(Classify(Trim(lines[0])).kind, tableIn(Trim(lines[0])), Trim(Join(lines)))]
    case Noise(text) => []
  }

  function Statements(chunks: seq<Chunk>, tableIn: string -> Option<string>): seq<Item>
    requires forall i :: 0 <= i < |chunks| ==> WellFormed(chunks[i])
  {
    if |chunks| == 0 then [] else Statements(chunks[..|chunks| - 1], tableIn) + ItemsOf(chunks[|chunks| - 1], tableIn)
  }

  // Texts that are not blank

  ghost predicate Blank(s: string) { forall i :: 0 <= i < |s| ==> IsSpace(s[i]) }

  lemma {:induction false} TrimLeftBlank(s: string)
    ensures TrimLeft(s) == "" <==> Blank(s)
  {
    if |s| > 0 && IsSpace(s[0]) {
      TrimLeftBlank(s[1..]);
      assert forall i :: 1 <= i < |s| ==> s[i] == s[1..][i - 1];
    }
  }

  lemma {:induction false} TrimRightKeepsFirst(s: string)
    requires |s| > 0 && !IsSpace(s[0])
    ensures TrimRight(s) != ""
  {
    if IsSpace(s[|s| - 1]) {
      TrimRightKeepsFirst(s[..|s| - 1]);
    }
  }

  lemma TrimBlank(s: string)
    ensures Trim(s) == "" <==> Blank(s)
  {
    TrimLeftBlank(s);
    TrimLeftStarts(s);
    if TrimLeft(s) != "" {
      TrimRightKeepsFirst(TrimLeft(s));
    }
  }

  lemma {:induction false} JoinNotBlank(lines: seq<string>)
    requires |lines| > 0 && !Blank(lines[0])
    ensures !Blank(Join(lines))
  {
    if |lines| > 1 {
      var head := Join(lines[..|lines| - 1]);
      JoinNotBlank(lines[..|lines| - 1]);
      var i :| 0 <= i < |head| && !IsSpace(head[i]);
      assert Join(lines)[i] == head[i];
    }
  }

  lemma BlockNotBlank(lines: seq<string>)
    requires |lines| > 0 && Classify(Trim(lines[0])).Opens?
    ensures Trim(Join(lines)) != ""
  {
    ClassifiedIsNotBlank(Trim(lines[0]));
    TrimBlank(lines[0]);
    JoinNotBlank(lines);
    TrimBlank(Join(lines));
  }

  /** A text contains a word when the word stands somewhere in it. */
  lemma {:induction false} ContainsIff(s: string, word: string)
    ensures Contains(s, word) <==> exists i :: 0 <= i <= |s| && word <= s[i..]
  {
    assert s[0..] == s;
    if |s| > 0 {
      ContainsIff(s[1..], word);
      forall i | 1 <= i <= |s| ensures s[i..] == s[1..][i - 1..] {
      }
      forall i | 0 <= i <= |s[1..]| ensures s[1..][i..] == s[i + 1..] {
      }
    }
  }

  /** A line closes a block when a semicolon is the last thing on it that is not blank. */
  lemma ClosesIff(line: string)
    ensures Closes(line) <==>
              exists i :: 0 <= i < |line| && line[i] == ';' && forall j :: i < j < |line| ==> IsSpace(line[j])
  {
    var a, b := TrimCuts(line);
    if a < b {
      assert Trim(line)[b - a - 1] == line[b - 1] && !IsSpace(line[b - 1]);
    }
  }

  /** The lines of a block stand one after the other with line feeds between them. */
  lemma {:induction false} JoinAppend(a: seq<string>, b: seq<string>)
    requires |a| > 0 && |b| > 0
    ensures Join(a + b) == Join(a) + "\n" + Join(b) && Join([a[0]]) == a[0]
  {
    assert (a + b)[..|a + b| - 1] == a + b[..|b| - 1] && (a + b)[|a + b| - 1] == b[|b| - 1];
    if |b| == 1 {
      assert a + b[..0] == a;
    } else {
      JoinAppend(a, b[..|b| - 1]);
    }
  }

  // Parsing inverts printing

  lemma {:induction false} ReadAppend(r: Reader, a: seq<string>, b: seq<string>, tableIn: string -> Option<string>)
    ensures Read(r, a + b, tableIn) == Read(Read(r, a, tableIn), b, tableIn)
  {
    if |b| == 0 {
      assert a + b == a;
    } else {
      assert (a + b)[..|a + b| - 1] == a + b[..|b| - 1];
      ReadAppend(r, a, b[..|b| - 1], tableIn);
    }
  }

  lemma ReadOne(r: Reader, line: string, tableIn: string -> Option<string>)
    ensures Read(r, [line], tableIn) == ReadLine(r, line, tableIn)
  {
    assert [line][..0] == [];
  }

  /** While no line of a block closes it, its lines pile up. */
  lemma {:induction false} ReadOpen(r: Reader, lines: seq<string>, n: nat, tableIn: string -> Option<string>)
    requires !r.inBlock && r.buf == [] && 0 < n <= |lines| && Classify(Trim(lines[0])).Opens?
    requires forall i :: 0 <= i < n ==> !Closes(lines[i])
    ensures Read(r, lines[..n], tableIn)
              == Reader(r.items, lines[..n], Classify(Trim(lines[0])).kind, tableIn(Trim(lines[0])), true)
  {
    if n == 1 {
      assert lines[..1] == [lines[0]];
      ReadOne(r, lines[0], tableIn);
    } else {
      assert lines[..n] == lines[..n - 1] + [lines[n - 1]];
      ReadOpen(r, lines, n - 1, tableIn);
      ReadAppend(r, lines[..n - 1], [lines[n - 1]], tableIn);
      ReadOne(Read(r, lines[..n - 1], tableIn), lines[n - 1], tableIn);
    }
  }

  /** A block is read up to the first line that closes it, and what comes after is read as usual. */
  lemma ReadBlock(r: Reader, lines: seq<string>, n: nat, tableIn: string -> Option<string>)
    requires !r.inBlock && r.buf == [] && n < |lines| && Classify(Trim(lines[0])).Opens?
    requires Closes(lines[n]) && forall i :: 0 <= i < n ==> !Closes(lines[i])
    ensures var kind, table := Classify(Trim(lines[0])).kind, tableIn(Trim(lines[0]));
            Read(r, lines[..n + 1], tableIn) == Reader(r.items + [Item(kind, table, Trim(Join(lines[..n + 1])))], [],
                                                       kind, table, false)
  {
    BlockNotBlank(lines[..n + 1]);
    if n == 0 {
      assert lines[..1] == [lines[0]];
      ReadOne(r, lines[0], tableIn);
      assert r.buf + [lines[0]] == [lines[0]];
    } else {
      assert lines[..n + 1] == lines[..n] + [lines[n]];
      ReadOpen(r, lines, n, tableIn);
      ReadAppend(r, lines[..n], [lines[n]], tableIn);
      ReadOne(Read(r, lines[..n], tableIn), lines[n], tableIn);
    }
  }

  lemma ReadChunk(r: Reader, c: Chunk, tableIn: string -> Option<string>)
    requires WellFormed(c) && !r.inBlock && r.buf == []
    ensures var t := Read(r, LinesOf(c), tableIn); t.items == r.items + ItemsOf(c, tableIn) && !t.inBlock && t.buf == []
  {
    match c
    case Line(text) => ReadOne(r, text, tableIn);
    case Block(lines) =>
      ReadBlock(r, lines, |lines| - 1, tableIn);
      assert lines[..|lines|] == lines;
    case Noise(text) => ReadOne(r, text, tableIn);
  }

  lemma {:induction false} ReadPrinted(chunks: seq<Chunk>, tableIn: string -> Option<string>)
    requires forall i :: 0 <= i < |chunks| ==> WellFormed(chunks[i])
    ensures var t := Read(START, Print(chunks), tableIn);
            t.items == Statements(chunks, tableIn) && !t.inBlock && t.buf == []
  {
    if |chunks| > 0 {
      var head, last := chunks[..|chunks| - 1], chunks[|chunks| - 1];
      ReadPrinted(head, tableIn);
      ReadAppend(START, Print(head), LinesOf(last), tableIn);
      ReadChunk(Read(START, Print(head), tableIn), last, tableIn);
    }
  }

  /** Parsing inverts printing: for any mixture of well-formed one-line statements, blocks and noise the
      parser returns exactly the statements, in order, with their kind and table. */
  lemma ParsePrint(chunks: seq<Chunk>, tableIn: string -> Option<string>)
    requires forall i :: 0 <= i < |chunks| ==> WellFormed(chunks[i])
    ensures Parse(Print(chunks), tableIn) == Statements(chunks, tableIn)
  {
    ReadPrinted(chunks, tableIn);
  }

  /** Two readers in the same place, one of which has read `before` as well. */
  ghost predicate Ahead(r: Reader, q: Reader, before: seq<Item>) {
    && r.items == before + q.items && r.buf == q.buf && r.inBlock == q.inBlock
    && (r.inBlock || r.buf != [] ==> r.kind == q.kind && r.table == q.table)
  }

  lemma FlushedAhead(r: Reader, q: Reader, before: seq<Item>)
    requires Ahead(r, q, before)
    ensures Ahead(Flushed(r), Flushed(q), before)
  {
    var item := Item(q.kind, q.table, Trim(Join(q.buf)));
    assert before + q.items + [item] == before + (q.items + [item]);
  }

  lemma AppendAhead(r: Reader, q: Reader, before: seq<Item>, line: string)
    requires Ahead(r, q, before) && r.inBlock
    ensures Ahead(Append(r, line), Append(q, line), before)
  {
    FlushedAhead(r.(buf := r.buf + [line]), q.(buf := q.buf + [line]), before);
  }

  lemma LineAhead(r: Reader, q: Reader, before: seq<Item>, line: string, tableIn: string -> Option<string>)
    requires Ahead(r, q, before) && (r.inBlock || r.buf == [])
    ensures Ahead(ReadLine(r, line, tableIn), ReadLine(q, line, tableIn), before)
    ensures ReadLine(r, line, tableIn).inBlock || ReadLine(r, line, tableIn).buf == []
  {
    var s := Trim(line);
    if r.inBlock {
      AppendAhead(r, q, before, line);
    } else if Classify(s).Opens? {
      var kind := Classify(s).kind;
      AppendAhead(r.(kind := kind, table := tableIn(s), inBlock := true),
                  q.(kind := kind, table := tableIn(s), inBlock := true), before, line);
    } else if Classify(s).OneLine? {
      var item := Item(Classify(s).kind, tableIn(s), s);
      assert before + q.items + [item] == before + (q.items + [item]);
    }
  }

  lemma {:induction false} StaysAhead(
    r: Reader, q: Reader, before: seq<Item>, lines: seq<string>, tableIn: string -> Option<string>)
    requires Ahead(r, q, before) && (r.inBlock || r.buf == [])
    ensures Ahead(Read(r, lines, tableIn), Read(q, lines, tableIn), before)
    ensures Read(r, lines, tableIn).inBlock || Read(r, lines, tableIn).buf == []
  {
    if |lines| > 0 {
      var head := lines[..|lines| - 1];
      StaysAhead(r, q, before, head, tableIn);
      LineAhead(Read(r, head, tableIn), Read(q, head, tableIn), before, lines[|lines| - 1], tableIn);
    }
  }

  /** Between statements nothing of the past matters but the items read. */
  lemma ReadOn(block: seq<string>, rest: seq<string>, tableIn: string -> Option<string>)
    requires !Read(START, block, tableIn).inBlock && Read(START, block, tableIn).buf == []
    ensures Parse(block + rest, tableIn) == Read(START, block, tableIn).items + Parse(rest, tableIn)
  {
    var r := Read(START, block, tableIn);
    ReadAppend(START, block, rest, tableIn);
    StaysAhead(r, START, r.items, rest, tableIn);
    FlushedAhead(Read(r, rest, tableIn), Read(START, rest, tableIn), r.items);
  }

  /** A block is cut at the first line that ends in a semicolon, whether or not it is meant to end there:
      up to it one statement, after it the lines are read as if the dump began there. */
  lemma BlockIsCut(lines: seq<string>, n: nat, tableIn: string -> Option<string>)
    requires n < |lines| && Classify(Trim(lines[0])).Opens?
    requires Closes(lines[n]) && forall i :: 0 <= i < n ==> !Closes(lines[i])
    ensures Parse(lines, tableIn)
              == [Item(Classify(Trim(lines[0])).kind, tableIn(Trim(lines[0])), Trim(Join(lines[..n + 1])))]
                  + Parse(lines[n + 1..], tableIn)
  {
    assert lines == lines[..n + 1] + lines[n + 1..];
    ReadBlock(START, lines, n, tableIn);
    ReadOn(lines[..n + 1], lines[n + 1..], tableIn);
  }

  /** A block nothing closes is kept whole at the end of the dump. */
  lemma OpenBlockIsKept(lines: seq<string>, tableIn: string -> Option<string>)
    requires |lines| > 0 && Classify(Trim(lines[0])).Opens? && forall i :: 0 <= i < |lines| ==> !Closes(lines[i])
    ensures Parse(lines, tableIn) == [Item(Classify(Trim(lines[0])).kind, tableIn(Trim(lines[0])), Trim(Join(lines)))]
  {
    assert lines[..|lines|] == lines;
    ReadOpen(START, lines, |lines|, tableIn);
    BlockNotBlank(lines);
  }

  // The parser as it runs

  method ParseDump(lines: seq<string>, tableIn: string -> Option<string>) returns (items: seq<Item>)
    ensures items == Parse(lines, tableIn)
  {
    items := [];
    var buf: seq<string>, kind, table, inBlock := [], Sequence, None, false;
    var k := 0;
    while k < |lines|
      invariant 0 <= k <= |lines|
      invariant Read(START, lines[..k], tableIn) == Reader(items, buf, kind, table, inBlock)
    {
      assert lines[..k + 1][..k] == lines[..k];
      var line := lines[k];
      var s := Trim(line);
      k := k + 1;
      if !inBlock {
        var mode := Classify(s);
        if mode.OneLine? || mode.Opens? { kind, table := mode.kind, tableIn(s); }
        if mode.OneLine? {
          items := items + [Item(kind, table, s)];
          continue;
        }
        if !mode.Opens? { continue; }
        inBlock := true;
      }
      buf := buf + [line];
      if EndsWith(s, ';') {
        var sql := Trim(Join(buf));
        if sql != "" { items := items + [Item(kind, table, sql)]; }
        buf := [];
        inBlock := false;
      }
    }
    assert lines[..k] == lines;
    if |buf| > 0 {
      var sql := Trim(Join(buf));
      if sql != "" { items := items + [Item(kind, table, sql)]; }
    }
  }
}
