/** Running a generated file against a database that refuses to make what is already there: statements are
    guarded where their text matches a pattern, and a run stops at the first one refused. */
module MigrationRerun {
  import opened Wrappers
  import opened Text
  import opened MigrationParser
  import opened MigrationPatterns
  import opened MigrationOrder

  // What a statement does

  datatype Object =
    | Relation(kind: Kind, name: string)
    | ConstraintOf(table: string, name: string)
    | KeyOf(table: string)
    | Once(table: string, action: string)
    | Setting(table: string, aspect: string)

  /** Make an object, refused when it is there; set something, over whatever was set; add one more unnamed
      thing; or a text the database cannot read. */
  datatype Action = Create(obj: Object, body: string) | Put(obj: Object, body: string) | Append(body: string) | Invalid

  /** Act, or act unless some object is there. */
  datatype Command = Do(act: Action) | Unless(seen: Object, act: Action)

  /** A name up to the next blank, bracket, comma or semicolon outside quotes. */
  function Name(s: string, quoted: bool): string {
    if |s| == 0 || (!quoted && (IsSpace(s[0]) || s[0] == '(' || s[0] == ',' || s[0] == ';')) then ""
    else [s[0]] + Name(s[1..], if s[0] == '"' then !quoted else quoted)
  }

  function NameAt(s: string): string { Name(TrimLeft(s), false) }

  const IF_ABSENT := "IF NOT EXISTS "

  /** A sequence, table or index as the dump writes it. */
  function CreateAs(kind: Kind, rest: string): Command {
    var text := TrimLeft(rest);
    if StartsWith(text, IF_ABSENT) then
      var obj := Relation(kind, NameAt(After(text, IF_ABSENT)));
      Unless(obj, Create(obj, text))
    else if kind == Index && NameAt(text) == "ON" then Do(Append(text))
    else Do(Create(Relation(kind, NameAt(text)), text))
  }

  /** Changes to a table that are refused when they have been made before. */
  const ONCE_ONLY: seq<string> := [
    "ADD COLUMN", "DROP ", "RENAME ", "INHERIT ", "NO INHERIT ", "SET SCHEMA ", "ATTACH PARTITION ",
    "DETACH PARTITION "]

  const ADDITIONS: seq<string> := ["ADD UNIQUE", "ADD CHECK", "ADD FOREIGN KEY", "ADD EXCLUDE"]

  predicate IsOnceOnly(action: string) {
    StartsWithAny(action, ONCE_ONLY)
    || (StartsWith(action, "ALTER ")
        && (Contains(action, " ADD GENERATED") || Contains(action, " DROP IDENTITY")
            || Contains(action, " DROP EXPRESSION")))
  }

  /** A setting is told apart by all but the last word of it. */
  function Aspect(action: string): string {
    if |action| == 0 then "" else if IsSpace(action[|action| - 1]) then action else Aspect(action[..|action| - 1])
  }

  const ADD_CONSTRAINT := "ADD CONSTRAINT "

  function Alter(table: string, action: string): Action {
    if StartsWith(action, ADD_CONSTRAINT) then Create(ConstraintOf(table, NameAt(After(action, ADD_CONSTRAINT))),
                                                      action)
    else if StartsWith(action, "ADD PRIMARY KEY") then Create(KeyOf(table), action)
    else if StartsWithAny(action, ADDITIONS) then Append(action)
    else if IsOnceOnly(action) then Create(Once(table, action), action)
    else Put(Setting(table, Aspect(action)), action)
  }

  function AlterAs(sql: string): Action {
    var rest := TrimLeft(After(sql, "ALTER TABLE"));
    var named := TrimLeft(After(rest, "ONLY "));
    var table := Name(named, false);
    Alter(table, TrimLeft(After(named, table)))
  }

  function IndexBody(sql: string): string { After(After(sql, "CREATE UNIQUE INDEX"), "CREATE INDEX") }

  /** A statement as the dump writes it. */
  function Written(it: Item): Command {
    match it.kind
    case Sequence => CreateAs(Sequence, After(it.sql, "CREATE SEQUENCE"))
    case Table => CreateAs(Table, After(it.sql, "CREATE TABLE"))
    case Index => CreateAs(Index, IndexBody(it.sql))
    case Default => Do(AlterAs(it.sql))
    case Constraint => Do(AlterAs(it.sql))
    case Owner => Do(AlterAs(it.sql))
  }

  // How it is guarded

  /** Made only if absent, when a public name follows the keywords. */
  function IfAbsent(kind: Kind, sql: string, keywords: string): Option<Command> {
    if NameAfter(keywords)(sql).None? then None
    else
      var obj := Relation(kind, NameAt(After(sql, keywords)));
      Some(Unless(obj, Create(obj, sql)))
  }

  /** The index pattern takes any word for a name; after some the guard is no valid text any more. */
  function IndexIfAbsent(sql: string): Option<Command> {
    var rest := IndexBody(sql);
    if !StartsWith(rest, " ") || Word(rest[1..]) == "" then None
    else if Word(rest[1..]) == "ON" || Word(rest[1..]) == "IF" || Word(rest[1..]) == "CONCURRENTLY" then
        Some(Do(Invalid))
    else
      var obj := Relation(Index, NameAt(rest[1..]));
      Some(Unless(obj, Create(obj, sql)))
  }

  /** A default is set only where the column has none. */
  function DefaultIfUnset(sql: string): Option<Command> {
    match NameAfter("ALTER TABLE ONLY ")(sql)
    case None => None
    case Some(table) =>
      var rest := sql[|"ALTER TABLE ONLY " + table|..];
      var column := Word(After(rest, " ALTER COLUMN "));
      var value := After(After(rest, " ALTER COLUMN " + column), " SET DEFAULT ");
      if column != "" && StartsWith(rest, " ALTER COLUMN " + column + " SET DEFAULT ") && Contains(value, ";") then
        var obj := Setting(table, "ALTER COLUMN " + column + " SET DEFAULT ");
        Some(Unless(obj, Put(obj, value)))
      else None
  }

  predicate IsPlain(c: char) { !IsSpace(c) && c != '(' && c != ',' && c != ';' && c != '"' }

  /** A name without quotes ends at the first blank. */
  lemma {:induction false} NameEnds(name: string, rest: string)
    requires forall i :: 0 <= i < |name| ==> IsPlain(name[i])
    requires |rest| == 0 || IsSpace(rest[0])
    ensures Name(name + rest, false) == name
  {
    if |name| == 0 {
      assert name + rest == rest;
    } else {
      assert (name + rest)[1..] == name[1..] + rest;
      NameEnds(name[1..], rest);
    }
  }

  lemma {:induction false} InQuotes(name: string, rest: string)
    requires '"' !in name && (|rest| == 0 || !IsPlain(rest[0])) && (|rest| == 0 || rest[0] != '"')
    ensures Name(name + ("\"" + rest), true) == name + "\""
  {
    if |name| == 0 {
      assert name + ("\"" + rest) == "\"" + rest && ("\"" + rest)[1..] == rest;
    } else {
      assert (name + ("\"" + rest))[1..] == name[1..] + ("\"" + rest);
      InQuotes(name[1..], rest);
    }
  }

  /** A name in quotes ends at the closing quote, whatever stands between. */
  lemma QuotedNameEnds(name: string, rest: string)
    requires '"' !in name && (|rest| == 0 || !IsPlain(rest[0])) && (|rest| == 0 || rest[0] != '"')
    ensures Name("\"" + (name + ("\"" + rest)), false) == "\"" + (name + "\"")
  {
    InQuotes(name, rest);
    assert ("\"" + (name + ("\"" + rest)))[1..] == name + ("\"" + rest);
  }

  /** What follows the table in the text of a change to a public table. */
  function Change(sql: string): string
    requires Altered(sql).Some?
  {
    var head := if StartsWith(sql, "ALTER TABLE ONLY ") then "ALTER TABLE ONLY " else "ALTER TABLE ";
    sql[|head + Altered(sql).value|..]
  }

  lemma AfterPrefix(prefix: string, rest: string)
    ensures After(prefix + rest, prefix) == rest
  {
    assert (prefix + rest)[|prefix|..] == rest;
  }

  lemma TrimOneBlank(rest: string)
    requires |rest| > 0 && !IsSpace(rest[0])
    ensures TrimLeft(" " + rest) == rest
  {
    assert (" " + rest)[1..] == rest;
  }

  lemma NameAndChange(table: string, change: string)
    requires |table| > 0 && forall i :: 0 <= i < |table| ==> IsPlain(table[i])
    requires |change| > 0 && IsSpace(change[0])
    ensures Name(table + change, false) == table && After(table + change, table) == change
    ensures TrimLeft(table + change) == table + change
  {
    NameEnds(table, change);
    AfterPrefix(table, change);
  }

  lemma OnlyHead(named: string)
    requires |named| > 0 && !IsSpace(named[0])
    ensures TrimLeft(After("ALTER TABLE ONLY " + named, "ALTER TABLE")) == "ONLY " + named
  {
    assert "ALTER TABLE ONLY " + named == "ALTER TABLE" + (" ONLY " + named);
    AfterPrefix("ALTER TABLE", " ONLY " + named);
    assert " ONLY " + named == " " + ("ONLY " + named);
    TrimOneBlank("ONLY " + named);
  }

  lemma PlainHead(named: string)
    requires |named| > 0 && !IsSpace(named[0])
    ensures TrimLeft(After("ALTER TABLE " + named, "ALTER TABLE")) == named
  {
    assert "ALTER TABLE " + named == "ALTER TABLE" + (" " + named);
    AfterPrefix("ALTER TABLE", " " + named);
    TrimOneBlank(named);
  }

  lemma HeadAndName(sql: string, head: string, table: string)
    requires StartsWith(sql, head) && PublicName(sql[|head|..]) == Some(table)
    ensures sql == head + (table + sql[|head + table|..])
  {
    assert sql[|head|..] == table + sql[|head + table|..];
  }

  lemma NameIsPlain(sql: string)
    requires Altered(sql).Some?
    ensures |Altered(sql).value| > 0 && Altered(sql).value[0] == 'p'
    ensures forall i :: 0 <= i < |Altered(sql).value| ==> IsPlain(Altered(sql).value[i])
  {
  }

  /** A change to a public table is read as what follows the table's name. */
  lemma AlteredAs(sql: string)
    requires Altered(sql).Some? && Change(sql) != TrimLeft(Change(sql))
    ensures AlterAs(sql) == Alter(Altered(sql).value, TrimLeft(Change(sql)))
  {
    var table, change := Altered(sql).value, Change(sql);
    NameIsPlain(sql);
    NameAndChange(table, change);
    if StartsWith(sql, "ALTER TABLE ONLY ") {
      HeadAndName(sql, "ALTER TABLE ONLY ", table);
      OnlyHead(table + change);
      AfterPrefix("ONLY ", table + change);
    } else {
      HeadAndName(sql, "ALTER TABLE ", table);
      PlainHead(table + change);
      assert (table + change)[0] == 'p';
    }
  }

  /** The table and constraint name the guard of a constraint looks for. */
  function GuardName(sql: string): Option<Object> {
    match Altered(sql)
    case None => None
    case Some(table) =>
      var action := TrimLeft(Change(sql));
      var name := Word(After(action, ADD_CONSTRAINT));
      if action != Change(sql) && StartsWith(action, ADD_CONSTRAINT) && name != "" then
          Some(ConstraintOf(table, name)) else None
  }

  lemma GuardedConstraint(sql: string)
    requires GuardName(sql).Some?
    ensures AlterAs(sql) == Alter(Altered(sql).value, TrimLeft(Change(sql))) && AlterAs(sql).Create?
  {
    AlteredAs(sql);
  }

  function Guarded(it: Item): Option<Command> {
    match it.kind
    case Sequence => IfAbsent(Sequence, it.sql, "CREATE SEQUENCE ")
    case Table => IfAbsent(Table, it.sql, "CREATE TABLE ")
    case Index => IndexIfAbsent(it.sql)
    case Default => DefaultIfUnset(it.sql)
    case Constraint => if GuardName(it.sql).Some? then Some(Unless(GuardName(it.sql).value, AlterAs(it.sql))) else None
    case Owner => None
  }

  lemma PublicNameIff(s: string)
    ensures PublicName(s).Some? <==> exists rest :: s == "public." + rest && rest != "" && IsWord(rest[0])
  {
    if StartsWith(s, "public.") {
      assert s == "public." + s[7..];
    }
  }

  lemma AfterKeywordsIff(s: string, keywords: string)
    ensures NameAfter(keywords)(s).Some? <==>
              exists rest :: s == keywords + ("public." + rest) && rest != "" && IsWord(rest[0])
  {
    if StartsWith(s, keywords) {
      assert s == keywords + s[|keywords|..];
      PublicNameIff(s[|keywords|..]);
    }
    if rest :| s == keywords + ("public." + rest) && rest != "" && IsWord(rest[0]) {
      assert s[|keywords|..] == "public." + rest;
      PublicNameIff(s[|keywords|..]);
    }
  }

  /** What gets a guard: a table or a sequence with a public name after its keywords; never a change of owner. */
  lemma GuardedIff(it: Item)
    ensures it.kind == Table ==> (Guarded(it).Some? <==>
              exists rest :: it.sql == "CREATE TABLE " + ("public." + rest) && rest != "" && IsWord(rest[0]))
    ensures it.kind == Sequence ==> (Guarded(it).Some? <==>
              exists rest :: it.sql == "CREATE SEQUENCE " + ("public." + rest) && rest != "" && IsWord(rest[0]))
    ensures it.kind == Owner ==> Guarded(it).None?
  {
    AfterKeywordsIff(it.sql, "CREATE TABLE ");
    AfterKeywordsIff(it.sql, "CREATE SEQUENCE ");
  }

  /** The statement as the generator writes it: guarded where a pattern matches, and as it was where none does. */
  function CommandOf(it: Item): Command {
    if Guarded(it).Some? then Guarded(it).value else Written(it)
  }

  lemma BetweenRead(head: string, word: string, mid: string, value: string)
    requires (forall i :: 0 <= i < |word| ==> IsWord(word[i])) && |mid| > 0 && !IsWord(mid[0])
    ensures var rest := head + (word + (mid + value));
            && Word(After(rest, head)) == word && StartsWith(rest, head + word + mid)
            && After(After(rest, head + word), mid) == value
  {
    AfterPrefix(head, word + (mid + value));
    WordOf(word, mid + value);
    assert head + (word + (mid + value)) == head + word + (mid + value) == (head + word + mid) + value;
    AfterPrefix(head + word, mid + value);
    AfterPrefix(mid, value);
  }

  lemma DefaultIs(sql: string, table: string, rest: string, column: string, value: string)
    requires NameAfter("ALTER TABLE ONLY ")(sql) == Some(table) && sql == "ALTER TABLE ONLY " + table + rest
    requires column != "" && Word(After(rest, " ALTER COLUMN ")) == column
    requires StartsWith(rest, " ALTER COLUMN " + column + " SET DEFAULT ")
    requires After(After(rest, " ALTER COLUMN " + column), " SET DEFAULT ") == value && Contains(value, ";")
    ensures var obj := Setting(table, "ALTER COLUMN " + column + " SET DEFAULT ");
            DefaultIfUnset(sql) == Some(Unless(obj, Put(obj, value)))
  {
    assert sql[|"ALTER TABLE ONLY " + table|..] == rest;
  }

  lemma TwoThenTwo(a: string, b: string, c: string, d: string)
    ensures a + (b + (c + d)) == a + (b + c) + d
  {
  }

  lemma DefaultText(table: string, change: string)
    requires |table| > 0 && (forall i :: 0 <= i < |table| ==> IsWord(table[i])) && |change| > 0 && !IsWord(change[0])
    ensures NameAfter("ALTER TABLE ONLY ")("ALTER TABLE ONLY " + ("public." + table) + change)
            == Some("public." + table)
  {
    NameFound("ALTER TABLE ONLY ", table, change);
    TwoThenTwo("ALTER TABLE ONLY ", "public.", table, change);
  }

  function DefaultChange(column: string, value: string): string {
    " ALTER COLUMN " + (column + (" SET DEFAULT " + value))
  }

  /** The default of a column of a public table is set only where the column has none. */
  lemma DefaultGuard(table: string, column: string, value: string, owner: Option<string>)
    requires |table| > 0 && forall i :: 0 <= i < |table| ==> IsWord(table[i])
    requires |column| > 0 && forall i :: 0 <= i < |column| ==> IsWord(column[i])
    requires Contains(value, ";")
    ensures var sql := "ALTER TABLE ONLY " + ("public." + table) + DefaultChange(column, value);
            var obj := Setting("public." + table, "ALTER COLUMN " + column + " SET DEFAULT ");
            CommandOf(Item(Default, owner, sql)) == Unless(obj, Put(obj, value))
  {
    var change := DefaultChange(column, value);
    DefaultText(table, change);
    BetweenRead(" ALTER COLUMN ", column, " SET DEFAULT ", value);
    DefaultIs("ALTER TABLE ONLY " + ("public." + table) + change, "public." + table, change, column, value);
  }

  /** A guard protects what is made, or a default by looking at that very default. */
  lemma GuardsProtect(it: Item)
    ensures var c := CommandOf(it); c.Unless? ==> c.act.Create? || (c.act.Put? && c.seen == c.act.obj)
  {
    if it.kind == Constraint && GuardName(it.sql).Some? {
      GuardedConstraint(it.sql);
    }
  }

  // Running

  datatype Schema = Schema(objects: map<Object, string>, extra: seq<string>)

  datatype Outcome = Done(schema: Schema) | Stopped(schema: Schema)

  function Named(name: Option<string>): seq<string> { if name.Some? then [name.value] else [] }

  /** What has to be there: the table an index or a change is about, a table it refers to, a sequence it draws on. */
  function Needs(it: Item): seq<string> {
    if it.kind == Sequence || it.kind == Table then []
    else
      Named(it.table) + Named(Search(it.sql, NameAfter("REFERENCES "))) + Named(Search(it.sql, NameAfter("nextval('")))
  }

  predicate Exists(s: Schema, table: string) {
    Relation(Table, table) in s.objects || Relation(Sequence, table) in s.objects
  }

  function Perform(s: Schema, act: Action): Option<Schema> {
    match act
    case Create(obj, body) => if obj in s.objects then None else Some(s.(objects := s.objects[obj := body]))
    case Put(obj, body) => Some(s.(objects := s.objects[obj := body]))
    case Append(body) => Some(s.(extra := s.extra + [body]))
    case Invalid => None
  }

  function Exec(s: Schema, it: Item): Option<Schema> {
    var c := CommandOf(it);
    if exists table :: table in Needs(it) && !Exists(s, table) then None
    else if c.Unless? && c.seen in s.objects then Some(s)
    else Perform(s, c.act)
  }

  /** Statement by statement, each kept as soon as it is done, up to the first that is refused. */
  function RunFile(s: Schema, file: seq<Item>): Outcome {
    if |file| == 0 then Done(s)
    else match RunFile(s, file[..|file| - 1])
      case Stopped(t) => Stopped(t)
      case Done(t) => match Exec(t, file[|file| - 1])
        case None => Stopped(t)
        case Some(u) => Done(u)
  }

  function At(s: Schema, o: Object): Option<string> { if o in s.objects then Some(s.objects[o]) else None }

  // Schemas only grow

  ghost predicate Grows(s: Schema, t: Schema) { s.objects.Keys <= t.objects.Keys && |s.extra| <= |t.extra| }

  lemma ExecGrows(s: Schema, it: Item)
    requires Exec(s, it).Some?
    ensures Grows(s, Exec(s, it).value)
  {
  }

  lemma {:induction false} RunGrows(s: Schema, file: seq<Item>)
    ensures Grows(s, RunFile(s, file).schema)
  {
    if |file| > 0 {
      RunGrows(s, file[..|file| - 1]);
    }
  }

  lemma LastDone(s: Schema, file: seq<Item>)
    requires |file| > 0 && RunFile(s, file).Done?
    ensures var r := RunFile(s, file[..|file| - 1]);
            r.Done? && Exec(r.schema, file[|file| - 1]) == Some(RunFile(s, file).schema)
                && Grows(r.schema, RunFile(s, file).schema)
  {
    ExecGrows(RunFile(s, file[..|file| - 1]).schema, file[|file| - 1]);
  }

  /** A completed run has completed every statement of it, and lost nothing since. */
  lemma {:induction false} EachDone(s: Schema, file: seq<Item>, i: nat)
    requires i < |file| && RunFile(s, file).Done?
    ensures var r := RunFile(s, file[..i]);
            && r.Done? && Grows(r.schema, RunFile(s, file).schema)
            && Exec(r.schema, file[i]).Some? && Grows(Exec(r.schema, file[i]).value, RunFile(s, file).schema)
  {
    var head := file[..|file| - 1];
    LastDone(s, file);
    if i < |head| {
      EachDone(s, head, i);
      assert head[..i] == file[..i];
    }
  }

  /** What the first run leaves behind of a statement. */
  lemma LeftBehind(s: Schema, file: seq<Item>, i: nat)
    requires i < |file| && RunFile(s, file).Done?
    ensures var t, c := RunFile(s, file).schema, CommandOf(file[i]);
            && (forall table :: table in Needs(file[i]) ==> Exists(t, table))
            && (c.Do? && (c.act.Create? || c.act.Put?) ==> c.act.obj in t.objects)
            && (c.Do? ==> !c.act.Invalid?)
            && (c.Unless? && c.seen !in t.objects ==> c.act.Create? && c.act.obj in t.objects)
  {
    EachDone(s, file, i);
    GuardsProtect(file[i]);
    forall table | table in Needs(file[i]) ensures Exists(RunFile(s, file).schema, table) {
      assert Exists(RunFile(s, file[..i]).schema, table);
    }
  }

  // The second run

  /** Nothing is left to do, or it is something that may be done again. */
  predicate Settled(t: Schema, c: Command) {
    if c.Unless? then c.seen in t.objects else c.act.Put?
  }

  /** The last thing the first `k` statements set an object to. */
  function LastPut(file: seq<Item>, o: Object, k: nat): Option<string>
    requires k <= |file|
  {
    if k == 0 then None
    else
      var c := CommandOf(file[k - 1]);
      if c.Do? && c.act.Put? && c.act.obj == o then Some(c.act.body) else LastPut(file, o, k - 1)
  }

  lemma {:induction false} PutsStand(s: Schema, file: seq<Item>, o: Object, k: nat)
    requires k <= |file| && RunFile(s, file[..k]).Done? && LastPut(file, o, k).Some?
    ensures At(RunFile(s, file[..k]).schema, o) == LastPut(file, o, k)
  {
    assert file[..k][..k - 1] == file[..k - 1];
    var c := CommandOf(file[k - 1]);
    if !(c.Do? && c.act.Put? && c.act.obj == o) {
      PutsStand(s, file, o, k - 1);
      GuardsProtect(file[k - 1]);
    }
  }

  /** What an object has after the first `k` statements only set things. */
  function Reset(t: Schema, file: seq<Item>, o: Object, k: nat): string
    requires k <= |file| && o in t.objects
  {
    if LastPut(file, o, k).Some? then LastPut(file, o, k).value else t.objects[o]
  }

  /** The tables a statement needs are there, and so is what it sets. */
  ghost predicate Ready(t: Schema, it: Item) {
    && Settled(t, CommandOf(it))
    && (forall table :: table in Needs(it) ==> Exists(t, table))
    && (CommandOf(it).Do? ==> CommandOf(it).act.obj in t.objects)
  }

  lemma ReadyRuns(t: Schema, it: Item, r: Schema)
    requires Ready(t, it) && r.objects.Keys == t.objects.Keys
    ensures var c := CommandOf(it);
            Exec(r, it) == Some(if c.Do? then r.(objects := r.objects[c.act.obj := c.act.body]) else r)
  {
    forall table | table in Needs(it) ensures Exists(r, table) {
      assert Exists(t, table);
    }
  }

  /** Over a schema in which everything is settled, a file only sets again what it sets. */
  lemma {:induction false} Resets(t: Schema, file: seq<Item>, k: nat)
    requires k <= |file| && forall i :: 0 <= i < |file| ==> Ready(t, file[i])
    ensures var r := RunFile(t, file[..k]);
            && r.Done? && r.schema.objects.Keys == t.objects.Keys && r.schema.extra == t.extra
            && forall o :: o in t.objects ==> r.schema.objects[o] == Reset(t, file, o, k)
  {
    if k > 0 {
      assert file[..k][..k - 1] == file[..k - 1];
      Resets(t, file, k - 1);
      ReadyRuns(t, file[k - 1], RunFile(t, file[..k - 1]).schema);
    }
  }

  lemma RerunIsDone(s: Schema, file: seq<Item>)
    requires RunFile(s, file).Done?
    requires forall i :: 0 <= i < |file| ==> Settled(RunFile(s, file).schema, CommandOf(file[i]))
    ensures RunFile(RunFile(s, file).schema, file) == RunFile(s, file)
  {
    var t, n := RunFile(s, file).schema, |file|;
    forall i | 0 <= i < n ensures Ready(t, file[i]) {
      LeftBehind(s, file, i);
    }
    Resets(t, file, n);
    assert file[..n] == file;
    forall o | o in t.objects ensures Reset(t, file, o, n) == t.objects[o] {
      if LastPut(file, o, n).Some? {
        PutsStand(s, file, o, n);
      }
    }
    assert RunFile(t, file).schema.objects == t.objects;
  }

  lemma UnsettledShows(s: Schema, file: seq<Item>, i: nat)
    requires RunFile(s, file).Done? && i < |file|
    requires !Settled(RunFile(s, file).schema, CommandOf(file[i]))
    ensures RunFile(RunFile(s, file).schema, file) != RunFile(s, file)
  {
    var t := RunFile(s, file).schema;
    LeftBehind(s, file, i);
    if RunFile(t, file) == Done(t) {
      EachDone(t, file, i);
      RunGrows(t, file[..i]);
      assert false;
    }
  }

  /** After a run that completes, the same file completes again and leaves the schema as it is if and only if
      every statement in it is a setting, or has a guard that finds what it looks for. */
  lemma RunTwiceIff(s: Schema, file: seq<Item>)
    requires RunFile(s, file).Done?
    ensures (RunFile(RunFile(s, file).schema, file) == RunFile(s, file))
              <==> (forall i :: 0 <= i < |file| ==> Settled(RunFile(s, file).schema, CommandOf(file[i])))
  {
    var t := RunFile(s, file).schema;
    if forall i :: 0 <= i < |file| ==> Settled(t, CommandOf(file[i])) {
      RerunIsDone(s, file);
    } else {
      var i :| 0 <= i < |file| && !Settled(t, CommandOf(file[i]));
      UnsettledShows(s, file, i);
    }
  }

  // Which statements may be run again

  predicate LooksForItself(c: Command)
    requires c.Unless?
  {
    (c.act.Create? || c.act.Put?) && c.seen == c.act.obj
  }

  /** Such a guard, or a setting. */
  predicate Rerunnable(it: Item) {
    var c := CommandOf(it);
    if c.Unless? then LooksForItself(c) else c.act.Put?
  }

  predicate IsOneWord(name: string) { forall i :: 0 <= i < |name| ==> IsWord(name[i]) }

  /** A name of word characters only is the word the text starts with. */
  lemma {:induction false} NameIsWord(s: string)
    requires IsOneWord(Name(s, false))
    ensures Word(s) == Name(s, false)
  {
    var name := Name(s, false);
    if name != "" {
      assert IsWord(name[0]) && name[0] == s[0];
      var rest := Name(s[1..], false);
      assert forall i :: 0 <= i < |rest| ==> rest[i] == name[i + 1];
      NameIsWord(s[1..]);
    }
  }

  lemma ConstraintAction(table: string, action: string)
    requires StartsWith(action, ADD_CONSTRAINT)
    ensures Alter(table, action) == Create(ConstraintOf(table, NameAt(After(action, ADD_CONSTRAINT))), action)
  {
  }

  lemma WordOrName(named: string)
    requires Word(named) != ""
    ensures IsOneWord(NameAt(named)) ==> NameAt(named) == Word(named)
  {
    assert IsWord(Word(named)[0]) && Word(named)[0] == named[0];
    assert TrimLeft(named) == named;
    if IsOneWord(Name(named, false)) {
      NameIsWord(named);
    }
  }

  /** What the text of a constraint calls it. */
  function ConstraintText(sql: string): string
    requires Altered(sql).Some?
  {
    After(TrimLeft(Change(sql)), ADD_CONSTRAINT)
  }

  lemma GuardReads(sql: string)
    requires GuardName(sql).Some?
    ensures Altered(sql).Some? && StartsWith(TrimLeft(Change(sql)), ADD_CONSTRAINT) && Word(ConstraintText(sql)) != ""
    ensures GuardName(sql) == Some(ConstraintOf(Altered(sql).value, Word(ConstraintText(sql))))
  {
  }

  /** A constraint is guarded by the word its name starts with, which is its name if that is a word. */
  lemma ConstraintGuard(sql: string)
    requires GuardName(sql).Some?
    ensures var seen, act := GuardName(sql).value, AlterAs(sql);
            && seen.ConstraintOf? && IsOneWord(seen.name) && act.Create? && act.obj.ConstraintOf?
            && act.obj.table == seen.table && (IsOneWord(act.obj.name) ==> act.obj == seen)
  {
    GuardReads(sql);
    GuardedConstraint(sql);
    ConstraintAction(Altered(sql).value, TrimLeft(Change(sql)));
    WordOrName(ConstraintText(sql));
  }

  /** Only a constraint can be guarded by another name, and then its own is no word. */
  lemma OddGuard(it: Item)
    requires CommandOf(it).Unless? && !LooksForItself(CommandOf(it))
    ensures var c := CommandOf(it);
            && c.seen.ConstraintOf? && IsOneWord(c.seen.name)
            && c.act.Create? && c.act.obj.ConstraintOf? && !IsOneWord(c.act.obj.name)
  {
    if it.kind == Constraint {
      ConstraintGuard(it.sql);
    }
  }

  /** The statement makes the object, or sets it. */
  predicate Sets(it: Item, o: Object) {
    var act := CommandOf(it).act;
    (act.Create? || act.Put?) && act.obj == o
  }

  /** A statement that may be run again by itself, or whose guard looks for something else that is there from the
      start or set by a statement of the file. */
  ghost predicate MayRepeat(s: Schema, file: seq<Item>, it: Item) {
    Rerunnable(it)
    || (CommandOf(it).Unless?
        && (CommandOf(it).seen in s.objects || exists j :: 0 <= j < |file| && Sets(file[j], CommandOf(it).seen)))
  }

  lemma {:induction false} SetByWhom(s: Schema, file: seq<Item>, o: Object)
    requires RunFile(s, file).Done? && o in RunFile(s, file).schema.objects
    ensures o in s.objects || exists j :: 0 <= j < |file| && Sets(file[j], o)
  {
    if |file| > 0 {
      var n := |file| - 1;
      LastDone(s, file);
      if o in RunFile(s, file[..n]).schema.objects {
        SetByWhom(s, file[..n], o);
        if o !in s.objects {
          var j :| 0 <= j < n && Sets(file[..n][j], o);
          assert Sets(file[j], o);
        }
      } else {
        assert Sets(file[n], o);
      }
    }
  }

  /** What an odd guard looks for is there after the run when a statement sets it: that one is guarded by it too. */
  lemma SetIsThere(s: Schema, file: seq<Item>, it: Item, j: nat)
    requires RunFile(s, file).Done? && j < |file|
    requires CommandOf(it).Unless? && !LooksForItself(CommandOf(it)) && Sets(file[j], CommandOf(it).seen)
    ensures CommandOf(it).seen in RunFile(s, file).schema.objects
  {
    OddGuard(it);
    LeftBehind(s, file, j);
    if CommandOf(file[j]).Unless? && !LooksForItself(CommandOf(file[j])) {
      OddGuard(file[j]);
    }
  }

  lemma SettledIff(s: Schema, file: seq<Item>, i: nat)
    requires RunFile(s, file).Done? && i < |file|
    ensures Settled(RunFile(s, file).schema, CommandOf(file[i])) <==> MayRepeat(s, file, file[i])
  {
    var t, c := RunFile(s, file).schema, CommandOf(file[i]);
    LeftBehind(s, file, i);
    RunGrows(s, file);
    if c.Unless? && !LooksForItself(c) {
      if c.seen in t.objects {
        SetByWhom(s, file, c.seen);
      } else if MayRepeat(s, file, file[i]) {
        var j :| 0 <= j < |file| && Sets(file[j], c.seen);
        SetIsThere(s, file, file[i], j);
      }
    }
  }

  // A generated file

  function GeneratedFile(lines: seq<string>, file: File): seq<Item> {
    var items := Parse(lines, TableIn);
    Sorted(GroupOf(items, file, |items|))
  }

  predicate WrittenTo(lines: seq<string>, file: File, it: Item) {
    it in Parse(lines, TableIn) && FileFor(it.table) == file
  }

  /** A generated file holds the statements of the dump that go there, and no others. */
  lemma GeneratedHolds(lines: seq<string>, file: File, it: Item)
    ensures it in GeneratedFile(lines, file) <==> WrittenTo(lines, file, it)
  {
    var items := Parse(lines, TableIn);
    var group := GroupOf(items, file, |items|);
    GroupsPartition(items, |items|, it);
    assert items[..|items|] == items;
    SortedMembers(group);
    assert it in Sorted(group) <==> multiset(Sorted(group))[it] > 0;
    assert it in items <==> multiset(items)[it] > 0;
  }

  /** The same of a statement of the dump. */
  ghost predicate MayRepeatIn(lines: seq<string>, file: File, s: Schema, it: Item) {
    Rerunnable(it)
    || (CommandOf(it).Unless?
        && (CommandOf(it).seen in s.objects
            || exists maker :: WrittenTo(lines, file, maker) && Sets(maker, CommandOf(it).seen)))
  }

  lemma MayRepeatAlike(lines: seq<string>, file: File, s: Schema, it: Item)
    ensures MayRepeat(s, GeneratedFile(lines, file), it) <==> MayRepeatIn(lines, file, s, it)
  {
    var f := GeneratedFile(lines, file);
    forall j | 0 <= j < |f| ensures WrittenTo(lines, file, f[j]) {
      GeneratedHolds(lines, file, f[j]);
    }
    forall maker | WrittenTo(lines, file, maker) ensures exists j :: 0 <= j < |f| && f[j] == maker {
      GeneratedHolds(lines, file, maker);
    }
  }

  /** A generated file that has run to its end can be run again with nothing changed if and only if every
      statement of the dump that went into it is a setting, or has a guard that looks for what it guards, or
      for something that was there before or that a statement of the dump that went there makes. */
  lemma GeneratedTwiceIff(lines: seq<string>, file: File, s: Schema)
    requires RunFile(s, GeneratedFile(lines, file)).Done?
    ensures var f := GeneratedFile(lines, file);
            (RunFile(RunFile(s, f).schema, f) == RunFile(s, f)) <==>
                (forall it :: WrittenTo(lines, file, it) ==> MayRepeatIn(lines, file, s, it))
  {
    var f := GeneratedFile(lines, file);
    RunTwiceIff(s, f);
    forall i | 0 <= i < |f|
      ensures WrittenTo(lines, file, f[i])
      ensures Settled(RunFile(s, f).schema, CommandOf(f[i])) <==> MayRepeatIn(lines, file, s, f[i])
    {
      GeneratedHolds(lines, file, f[i]);
      SettledIff(s, f, i);
      MayRepeatAlike(lines, file, s, f[i]);
    }
    forall it | WrittenTo(lines, file, it) ensures exists i :: 0 <= i < |f| && f[i] == it {
      GeneratedHolds(lines, file, it);
    }
  }

  // A fresh build

  predicate Makes(it: Item, table: string) {
    var c := CommandOf(it);
    c.act.Create? && (c.act.obj == Relation(Table, table) || c.act.obj == Relation(Sequence, table))
  }

  lemma ChangesMakeNoTable(sql: string)
    ensures AlterAs(sql).Create? ==> !AlterAs(sql).obj.Relation?
  {
  }

  lemma MakerKind(maker: Item, table: string)
    requires Makes(maker, table)
    ensures maker.kind == Sequence || maker.kind == Table
  {
    ChangesMakeNoTable(maker.sql);
  }

  /** Whatever makes a table ranks before whatever needs one. */
  lemma MakersFirst(maker: Item, table: string, user: Item)
    requires Makes(maker, table) && user.kind != Sequence && user.kind != Table
    ensures Rank(maker) < Rank(user)
  {
    MakerKind(maker, table);
  }

  /** What a statement needs is there from the start or made by a statement of the file. */
  ghost predicate Provided(s: Schema, file: seq<Item>, it: Item) {
    forall table :: table in Needs(it) ==> Exists(s, table) || exists j :: 0 <= j < |file| && Makes(file[j], table)
  }

  lemma ProvidedInTime(s: Schema, file: seq<Item>, k: nat, table: string)
    requires Ranked(file) && k < |file| && RunFile(s, file[..k]).Done?
    requires forall i :: 0 <= i < |file| ==> Rerunnable(file[i])
    requires Provided(s, file, file[k]) && table in Needs(file[k])
    ensures Exists(RunFile(s, file[..k]).schema, table)
  {
    RunGrows(s, file[..k]);
    if !Exists(s, table) {
      var j :| 0 <= j < |file| && Makes(file[j], table);
      MakersFirst(file[j], table, file[k]);
      assert j < k;
      LeftBehind(s, file[..k], j);
      assert file[..k][j] == file[j] && Rerunnable(file[j]);
    }
  }

  lemma {:induction false} Builds(s: Schema, file: seq<Item>, k: nat)
    requires Ranked(file) && k <= |file|
    requires forall i :: 0 <= i < |file| ==> Rerunnable(file[i]) && Provided(s, file, file[i])
    ensures RunFile(s, file[..k]).Done?
  {
    if k > 0 {
      assert file[..k][..k - 1] == file[..k - 1];
      Builds(s, file, k - 1);
      var it, before := file[k - 1], RunFile(s, file[..k - 1]).schema;
      forall table | table in Needs(it) ensures Exists(before, table) {
        ProvidedInTime(s, file, k - 1, table);
      }
      assert Rerunnable(it);
    }
  }

  /** From whatever schema it starts, a generated file runs to its end, and a second time with nothing
      changed, when its statements may be run again and every table they need is there already or made by a
      statement of the dump that goes into the same file: the order of ranks puts it in time. */
  lemma GeneratedFileBuilds(lines: seq<string>, file: File, s: Schema)
    requires forall it :: WrittenTo(lines, file, it) ==> Rerunnable(it)
    requires forall it, table :: WrittenTo(lines, file, it) && table in Needs(it) ==>
               Exists(s, table) || exists maker :: WrittenTo(lines, file, maker) && Makes(maker, table)
    ensures var f := GeneratedFile(lines, file);
            RunFile(s, f).Done? && RunFile(RunFile(s, f).schema, f) == RunFile(s, f)
  {
    var f := GeneratedFile(lines, file);
    SortedIsStable(GroupOf(Parse(lines, TableIn), file, |Parse(lines, TableIn)|), 0);
    forall i | 0 <= i < |f| ensures Rerunnable(f[i]) && Provided(s, f, f[i]) {
      GeneratedHolds(lines, file, f[i]);
      forall table | table in Needs(f[i]) && !Exists(s, table) ensures exists j :: 0 <= j < |f| && Makes(f[j], table) {
        var maker :| WrittenTo(lines, file, maker) && Makes(maker, table);
        GeneratedHolds(lines, file, maker);
      }
    }
    Builds(s, f, |f|);
    assert f[..|f|] == f;
    RunTwiceIff(s, f);
    forall i | 0 <= i < |f| ensures Settled(RunFile(s, f).schema, CommandOf(f[i])) {
      SettledIff(s, f, i);
    }
  }

  // Statements guards fit, and statements they do not

  /** A change to the table T, as the parser keeps it. */
  function Changing(action: string): Item {
    Item(Constraint, Some("public.t"), "ALTER TABLE ONLY " + ("public.t" + (" " + action)))
  }

  lemma ChangeOf(sql: string, table: string, change: string)
    requires sql == "ALTER TABLE ONLY " + (table + change) && Altered(sql) == Some(table)
    ensures Change(sql) == change
  {
    assert sql == ("ALTER TABLE ONLY " + table) + change;
    AfterPrefix("ALTER TABLE ONLY " + table, change);
  }

  lemma ChangingNames(rest: string)
    requires |rest| == 0 || !IsWord(rest[0])
    ensures Altered("ALTER TABLE ONLY " + ("public.t" + rest)) == Some("public.t")
  {
    assert "public.t" + rest == "public." + ("t" + rest);
    NameFound("ALTER TABLE ONLY ", "t", rest);
    assert "public." + "t" == "public.t";
  }

  lemma ChangingIs(action: string)
    requires |action| > 0 && !IsSpace(action[0])
    ensures Altered(Changing(action).sql) == Some("public.t") && TrimLeft(Change(Changing(action).sql)) == action
    ensures AlterAs(Changing(action).sql) == Alter("public.t", action)
  {
    var sql := Changing(action).sql;
    ChangingNames(" " + action);
    ChangeOf(sql, "public.t", " " + action);
    TrimOneBlank(action);
    AlteredAs(sql);
  }

  lemma GuardIs(sql: string, table: string, action: string, name: string)
    requires Altered(sql) == Some(table) && TrimLeft(Change(sql)) == action && Change(sql) != action
    requires StartsWith(action, ADD_CONSTRAINT) && Word(After(action, ADD_CONSTRAINT)) == name && name != ""
    ensures GuardName(sql) == Some(ConstraintOf(table, name))
  {
  }

  lemma NamedIsGuarded(it: Item, table: string, action: string, name: string)
    requires it.kind == Constraint && Altered(it.sql) == Some(table)
    requires TrimLeft(Change(it.sql)) == action && Change(it.sql) != action && AlterAs(it.sql) == Alter(table, action)
    requires StartsWith(action, ADD_CONSTRAINT) && name != ""
    requires Word(After(action, ADD_CONSTRAINT)) == name && NameAt(After(action, ADD_CONSTRAINT)) == name
    ensures CommandOf(it) == Unless(ConstraintOf(table, name), Create(ConstraintOf(table, name), action))
  {
    GuardIs(it.sql, table, action, name);
    ConstraintAction(table, action);
  }

  lemma WordIsName(name: string, rest: string)
    requires |name| > 0 && (forall i :: 0 <= i < |name| ==> IsWord(name[i])) && |rest| > 0 && IsSpace(rest[0])
    ensures Word(name + rest) == name && NameAt(name + rest) == name
  {
    WordOf(name, rest);
    NameEnds(name, rest);
    assert TrimLeft(name + rest) == name + rest;
  }

  /** A constraint named by a word is guarded by that very name. */
  lemma NamedConstraintReruns(name: string, rest: string)
    requires |name| > 0 && (forall i :: 0 <= i < |name| ==> IsWord(name[i])) && |rest| > 0 && IsSpace(rest[0])
    ensures Rerunnable(Changing(ADD_CONSTRAINT + (name + rest)))
  {
    var action := ADD_CONSTRAINT + (name + rest);
    ChangingIs(action);
    AfterPrefix(ADD_CONSTRAINT, name + rest);
    WordIsName(name, rest);
    NamedIsGuarded(Changing(action), "public.t", action, name);
  }

  lemma TableIsGuarded(it: Item, name: string)
    requires it.kind == Table && NameAfter("CREATE TABLE ")(it.sql).Some?
             && NameAt(After(it.sql, "CREATE TABLE ")) == name
    ensures Rerunnable(it) && Makes(it, name)
  {
  }

  lemma PublicNameEnds(word: string, rest: string)
    requires |word| > 0 && (forall i :: 0 <= i < |word| ==> IsWord(word[i])) && |rest| > 0 && IsSpace(rest[0])
    ensures NameAt("public." + (word + rest)) == "public." + word
  {
    assert ("public." + word) + rest == "public." + (word + rest);
    NameAndChange("public." + word, rest);
  }

  /** A table with a public name is made only if absent, and can be built on. */
  lemma TableIsMade(it: Item, word: string, rest: string)
    requires |word| > 0 && (forall i :: 0 <= i < |word| ==> IsWord(word[i])) && |rest| > 0 && IsSpace(rest[0])
    requires it.kind == Table && it.sql == "CREATE TABLE " + ("public." + (word + rest))
    ensures Rerunnable(it) && Makes(it, "public." + word)
  {
    NameFound("CREATE TABLE ", word, rest);
    AfterPrefix("CREATE TABLE ", "public." + (word + rest));
    PublicNameEnds(word, rest);
    TableIsGuarded(it, "public." + word);
  }

  lemma Unguarded(it: Item, action: string)
    requires it.kind == Constraint && Altered(it.sql).Some? && TrimLeft(Change(it.sql)) == action
    requires !StartsWith(action, ADD_CONSTRAINT) || Word(After(action, ADD_CONSTRAINT)) == ""
    ensures CommandOf(it) == Do(AlterAs(it.sql))
  {
    assert GuardName(it.sql).None?;
  }

  /** A setting, such as a replica identity, is written without a guard and may be made again. */
  lemma SettingNeedsNoGuard(action: string)
    requires |action| > 0 && !IsSpace(action[0]) && Alter("public.t", action).Put?
    ensures Rerunnable(Changing(action))
  {
    var it := Changing(action);
    ChangingIs(action);
    assert !StartsWith(action, ADD_CONSTRAINT);
    Unguarded(it, action);
  }

  /** No prefix fits a text that differs from each in its first or third letter. */
  lemma {:induction false} NoneStarts(s: string, prefixes: seq<string>)
    requires |s| > 2
    requires forall i :: 0 <= i < |prefixes| ==> |prefixes[i]| > 2 && (prefixes[i][0] != s[0] || prefixes[i][2] != s[2])
    ensures !StartsWithAny(s, prefixes)
  {
    if |prefixes| > 0 {
      assert !StartsWith(s, prefixes[0]);
      NoneStarts(s, prefixes[1..]);
    }
  }

  lemma NoKnownChange(action: string)
    requires |action| > 2 && action[0] == 'R' && action[2] == 'P'
    ensures Alter("public.t", action).Put?
  {
    NoneStarts(action, ADDITIONS);
    NoneStarts(action, ONCE_ONLY);
  }

  lemma ReplicaIdentityRepeats()
    ensures Rerunnable(Changing("REPLICA IDENTITY FULL;"))
  {
    NoKnownChange("REPLICA IDENTITY FULL;");
    SettingNeedsNoGuard("REPLICA IDENTITY FULL;");
  }

  lemma QuotedIsMade(it: Item, table: string, action: string)
    requires it.kind == Constraint && Altered(it.sql) == Some(table) && AlterAs(it.sql) == Alter(table, action)
    requires TrimLeft(Change(it.sql)) == action && StartsWith(action, ADD_CONSTRAINT)
             && Word(After(action, ADD_CONSTRAINT)) == ""
    ensures CommandOf(it).Do? && CommandOf(it).act.Create?
  {
    Unguarded(it, action);
    ConstraintAction(table, action);
  }

  lemma QuotedIsUnguarded(quoted: string)
    requires |quoted| > 0 && quoted[0] == '"'
    ensures CommandOf(Changing(ADD_CONSTRAINT + quoted)).Do? && CommandOf(Changing(ADD_CONSTRAINT + quoted)).act.Create?
  {
    var action := ADD_CONSTRAINT + quoted;
    assert Word(quoted) == "";
    AfterPrefix(ADD_CONSTRAINT, quoted);
    ChangingIs(action);
    QuotedIsMade(Changing(action), "public.t", action);
  }

  lemma RefusedAgain(s: Schema, it: Item)
    requires RunFile(s, [it]).Done? && CommandOf(it).Do? && CommandOf(it).act.Create?
    ensures RunFile(RunFile(s, [it]).schema, [it]) == Stopped(RunFile(s, [it]).schema)
  {
    assert [it][..0] == [];
    LeftBehind(s, [it], 0);
  }

  /** A quoted name is no word the guard's pattern could match: wherever such a constraint can be made at all,
      a second run of it is refused. */
  lemma QuotedNameStopsRerun(quoted: string, s: Schema)
    requires |quoted| > 0 && quoted[0] == '"' && RunFile(s, [Changing(ADD_CONSTRAINT + quoted)]).Done?
    ensures var f := [Changing(ADD_CONSTRAINT + quoted)];
            RunFile(RunFile(s, f).schema, f) == Stopped(RunFile(s, f).schema)
  {
    QuotedIsUnguarded(quoted);
    RefusedAgain(s, Changing(ADD_CONSTRAINT + quoted));
  }

  lemma PlainNameAt(name: string, rest: string)
    requires |name| > 0 && (forall i :: 0 <= i < |name| ==> IsPlain(name[i])) && |rest| > 0 && IsSpace(rest[0])
    ensures NameAt(name + rest) == name
  {
    NameEnds(name, rest);
    assert (name + rest)[0] == name[0];
  }

  lemma OddWord(word: string, odd: string, rest: string)
    requires IsOneWord(word) && |odd| > 0 && !IsWord(odd[0])
    ensures Word(word + odd + rest) == word
  {
    assert word + odd + rest == word + (odd + rest);
    WordOf(word, odd + rest);
  }

  lemma OddName(word: string, odd: string, rest: string)
    requires |word| > 0 && IsOneWord(word) && |odd| > 0 && !IsWord(odd[0]) && |rest| > 0 && IsSpace(rest[0])
    requires forall i :: 0 <= i < |odd| ==> IsPlain(odd[i])
    ensures Word(word + odd + rest) == word && NameAt(word + odd + rest) == word + odd
  {
    OddWord(word, odd, rest);
    PlainNameAt(word + odd, rest);
  }

  lemma OddIsGuarded(it: Item, table: string, action: string)
    requires it.kind == Constraint && Altered(it.sql) == Some(table)
    requires TrimLeft(Change(it.sql)) == action && Change(it.sql) != action && AlterAs(it.sql) == Alter(table, action)
    requires StartsWith(action, ADD_CONSTRAINT) && Word(After(action, ADD_CONSTRAINT)) != ""
    ensures CommandOf(it) == Unless(ConstraintOf(table, Word(After(action, ADD_CONSTRAINT))),
                                    Create(ConstraintOf(table, NameAt(After(action, ADD_CONSTRAINT))), action))
  {
    GuardIs(it.sql, table, action, Word(After(action, ADD_CONSTRAINT)));
    ConstraintAction(table, action);
  }

  lemma OddNameGuard(word: string, odd: string, rest: string)
    requires |word| > 0 && IsOneWord(word) && |odd| > 0 && !IsWord(odd[0]) && |rest| > 0 && IsSpace(rest[0])
    requires forall i :: 0 <= i < |odd| ==> IsPlain(odd[i])
    ensures var action := ADD_CONSTRAINT + (word + odd + rest);
            CommandOf(Changing(action))
              == Unless(ConstraintOf("public.t", word), Create(ConstraintOf("public.t", word + odd), action))
  {
    var action := ADD_CONSTRAINT + (word + odd + rest);
    ChangingIs(action);
    AfterPrefix(ADD_CONSTRAINT, word + odd + rest);
    OddName(word, odd, rest);
    OddIsGuarded(Changing(action), "public.t", action);
  }

  lemma RunsOne(s: Schema, it: Item)
    ensures RunFile(s, [it]) == match Exec(s, it) { case None => Stopped(s) case Some(t) => Done(t) }
  {
    assert [it][..0] == [];
  }

  /** A constraint such as a$b is guarded by the a before the dollar. Where there is no constraint a, it is made
      and the file is refused the second time; where there is one, it is never made at all. */
  lemma DollarNameStopsRerun(word: string, rest: string, s: Schema)
    requires |word| > 0 && IsOneWord(word) && |rest| > 0 && IsSpace(rest[0])
    requires RunFile(s, [Changing(ADD_CONSTRAINT + (word + "$b" + rest))]).Done?
    ensures var f := [Changing(ADD_CONSTRAINT + (word + "$b" + rest))];
            var t := RunFile(s, f).schema;
            if ConstraintOf("public.t", word) in s.objects then t == s
            else ConstraintOf("public.t", word + "$b") in t.objects && RunFile(t, f) == Stopped(t)
  {
    var it := Changing(ADD_CONSTRAINT + (word + "$b" + rest));
    OddNameGuard(word, "$b", rest);
    RunsOne(s, it);
    RunsOne(RunFile(s, [it]).schema, it);
    assert (word + "$b")[|word|] == '$' && word + "$b" != word;
  }

  lemma IndexRest(rest: string)
    ensures IndexBody("CREATE INDEX" + rest) == rest
  {
    AfterPrefix("CREATE INDEX", rest);
    assert ("CREATE INDEX" + rest)[7] == 'I';
  }

  lemma IndexWithoutName(it: Item, body: string)
    requires it.kind == Index && IndexBody(it.sql) == body && StartsWith(body, " ") && Word(body[1..]) == "ON"
    ensures CommandOf(it) == Do(Invalid)
  {
  }

  lemma UnnamedIndexIs(it: Item, rest: string)
    requires it.kind == Index && it.sql == "CREATE INDEX" + (" ON " + rest)
    ensures CommandOf(it) == Do(Invalid)
  {
    IndexRest(" ON " + rest);
    assert (" ON " + rest)[1..] == "ON" + (" " + rest);
    WordOf("ON", " " + rest);
    IndexWithoutName(it, " ON " + rest);
  }

  /** An index without a name gets a guard the database cannot read, and no file with it in ever completes. */
  lemma UnnamedIndexStops(it: Item, rest: string, s: Schema, file: seq<Item>)
    requires it.kind == Index && it.sql == "CREATE INDEX" + (" ON " + rest) && it in file
    ensures RunFile(s, file).Stopped?
  {
    UnnamedIndexIs(it, rest);
    if RunFile(s, file).Done? {
      var i :| 0 <= i < |file| && file[i] == it;
      LeftBehind(s, file, i);
    }
  }
}
