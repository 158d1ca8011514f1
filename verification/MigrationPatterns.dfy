/** What the generator reads out of a statement's text: the words and table names its patterns match. */
module MigrationPatterns {
  import opened Wrappers
  import opened MigrationParser

  predicate IsWord(c: char) { 'a' <= c <= 'z' || 'A' <= c <= 'Z' || '0' <= c <= '9' || c == '_' }

  /** The longest run of word characters a text starts with. */
  function Word(s: string): (r: string)
    ensures r <= s && forall i :: 0 <= i < |r| ==> IsWord(r[i])
    ensures |r| < |s| ==> !IsWord(s[|r|])
  {
    if |s| > 0 && IsWord(s[0]) then [s[0]] + Word(s[1..]) else ""
  }

  /** What follows a prefix; the whole text when it does not start with it. */
  function After(s: string, prefix: string): string {
    if StartsWith(s, prefix) then s[|prefix|..] else s
  }

  /** A table of the public schema at the head of a text. */
  function PublicName(s: string): (r: Option<string>)
    ensures r.Some? ==> r.value <= s && 7 < |r.value|
  {
    if StartsWith(s, "public.") && Word(s[7..]) != "" then Some("public." + Word(s[7..])) else None
  }

  function NameAfter(prefix: string): string -> Option<string> {
    (s: string) => if StartsWith(s, prefix) then PublicName(s[|prefix|..]) else None
  }

  /** The table of an ALTER TABLE, with or without ONLY. */
  function Altered(s: string): Option<string> {
    if StartsWith(s, "ALTER TABLE ONLY ") then PublicName(After(s, "ALTER TABLE ONLY "))
        else NameAfter("ALTER TABLE ")(s)
  }

  /** The leftmost place a pattern matches. */
  function Search(s: string, pattern: string -> Option<string>): Option<string> {
    if pattern(s).Some? || |s| == 0 then pattern(s) else Search(s[1..], pattern)
  }

  const ID_SEQUENCE := "_id_seq"

  /** The longest part of a word that ends in the suffix and has something before it. */
  function UpToSuffix(word: string, suffix: string): Option<string> {
    if |word| <= |suffix| then None
    else if word[|word| - |suffix|..] == suffix then Some(word)
    else UpToSuffix(word[..|word| - 1], suffix)
  }

  function Without(s: string, part: string): string
    requires |part| > 0
  {
    if |s| == 0 then "" else if StartsWith(s, part) then Without(s[|part|..], part) else [s[0]] + Without(s[1..], part)
  }

  /** A sequence named after the identity column of a table belongs to that table. */
  function SequenceOwner(s: string): Option<string> {
    match NameAfter("CREATE SEQUENCE ")(s)
    case None => None
    case Some(name) =>
      match UpToSuffix(name[7..], ID_SEQUENCE)
      case None => None
      case Some(word) => Some(Without("public." + word, ID_SEQUENCE))
  }

  /** The table a line that starts a statement is about. */
  function TableIn(s: string): Option<string> {
    match Classify(s)
    case Opens(Sequence) => Search(s, SequenceOwner)
    case Opens(Table) => Search(s, NameAfter("CREATE TABLE "))
    case OneLine(Default) => Search(s, NameAfter("ALTER TABLE ONLY "))
    case OneLine(Constraint) => Search(s, Altered)
    case Opens(Constraint) => Search(s, NameAfter("ALTER TABLE ONLY "))
    case OneLine(Index) => Search(s, NameAfter("ON "))
    case OneLine(Owner) => Search(s, Altered)
    case _ => None
  }

  // Sequences travel with their tables

  lemma {:induction false} WordOf(word: string, rest: string)
    requires forall i :: 0 <= i < |word| ==> IsWord(word[i])
    requires |rest| == 0 || !IsWord(rest[0])
    ensures Word(word + rest) == word
  {
    if |word| == 0 {
      assert word + rest == rest;
    } else {
      assert (word + rest)[1..] == word[1..] + rest;
      WordOf(word[1..], rest);
    }
  }

  lemma {:induction false} WithoutLast(s: string, part: string)
    requires |part| > 0 && forall i :: 0 <= i < |s| ==> !StartsWith((s + part)[i..], part)
    ensures Without(s + part, part) == s
  {
    if |s| == 0 {
      assert s + part == part && part[|part|..] == "";
    } else {
      assert (s + part)[0..] == s + part && !StartsWith((s + part)[0..], part);
      assert (s + part)[1..] == s[1..] + part;
      forall i | 0 <= i < |s[1..]| ensures !StartsWith((s[1..] + part)[i..], part) {
        assert (s[1..] + part)[i..] == (s + part)[i + 1..];
      }
      WithoutLast(s[1..], part);
    }
  }

  lemma NameFound(prefix: string, word: string, rest: string)
    requires |word| > 0 && (forall i :: 0 <= i < |word| ==> IsWord(word[i])) && (|rest| == 0 || !IsWord(rest[0]))
    ensures NameAfter(prefix)(prefix + ("public." + (word + rest))) == Some("public." + word)
  {
    var name := "public." + (word + rest);
    assert (prefix + name)[|prefix|..] == name && name[7..] == word + rest;
    WordOf(word, rest);
  }

  lemma OwnerIsRest(word: string)
    requires |word| > 0
    requires var name := "public." + word; forall i :: 0 <= i < |name| ==>
             !StartsWith((name + ID_SEQUENCE)[i..], ID_SEQUENCE)
    ensures UpToSuffix(word + ID_SEQUENCE, ID_SEQUENCE) == Some(word + ID_SEQUENCE)
    ensures Without("public." + (word + ID_SEQUENCE), ID_SEQUENCE) == "public." + word
  {
    var full := word + ID_SEQUENCE;
    assert full[|full| - |ID_SEQUENCE|..] == ID_SEQUENCE;
    assert "public." + full == ("public." + word) + ID_SEQUENCE;
    WithoutLast("public." + word, ID_SEQUENCE);
  }

  // What the patterns find

  /** A search finds what the pattern reads at the first place it matches at all. */
  lemma {:induction false} SearchIs(s: string, pattern: string -> Option<string>)
    ensures Search(s, pattern).None? <==> forall i :: 0 <= i <= |s| ==> pattern(s[i..]).None?
    ensures Search(s, pattern).Some? ==>
              exists i :: 0 <= i <= |s| && pattern(s[i..]) == Search(s, pattern)
                && forall j :: 0 <= j < i ==> pattern(s[j..]).None?
  {
    assert s[0..] == s;
    if pattern(s).None? && |s| > 0 {
      var rest := s[1..];
      SearchIs(rest, pattern);
      forall i | 0 <= i <= |rest| ensures rest[i..] == s[i + 1..] {
      }
      assert forall i :: 1 <= i <= |s| ==> s[i..] == rest[i - 1..];
      if Search(rest, pattern).Some? {
        var i :| 0 <= i <= |rest| && pattern(rest[i..]) == Search(rest, pattern)
                 && forall j :: 0 <= j < i ==> pattern(rest[j..]).None?;
        assert pattern(s[i + 1..]) == Search(s, pattern);
        forall j | 0 <= j < i + 1 ensures pattern(s[j..]).None? {
          assert j > 0 ==> s[j..] == rest[j - 1..];
        }
      }
    }
  }

  predicate EndsIn(word: string, suffix: string) {
    |word| > |suffix| && word[|word| - |suffix|..] == suffix
  }

  /** The longest part of a word that ends in the suffix, with something before it, is what is read. */
  lemma {:induction false} UpToSuffixIs(word: string, suffix: string)
    ensures var r := UpToSuffix(word, suffix);
            && (r.Some? ==> r.value <= word && EndsIn(r.value, suffix))
            && forall n :: 0 <= n <= |word| && EndsIn(word[..n], suffix) ==> r.Some? && n <= |r.value|
  {
    assert word[..|word|] == word;
    if |word| > |suffix| && !EndsIn(word, suffix) {
      var rest := word[..|word| - 1];
      UpToSuffixIs(rest, suffix);
      forall n | 0 <= n <= |word| && EndsIn(word[..n], suffix)
        ensures UpToSuffix(word, suffix).Some? && n <= |UpToSuffix(word, suffix).value|
      {
        assert n < |word| ==> rest[..n] == word[..n];
      }
    }
  }

  lemma SearchAtOnce(s: string, pattern: string -> Option<string>)
    requires pattern(s).Some?
    ensures Search(s, pattern) == pattern(s)
  {
  }

  lemma TableLine(name: string)
    ensures Classify("CREATE TABLE " + name) == Opens(Table)
  {
    var s := "CREATE TABLE " + name;
    assert s[7] == 'T';
    assert "CREATE TABLE" <= s;
  }

  /** The making of a public table is filed under the table. */
  lemma TableTravels(word: string, rest: string)
    requires |word| > 0 && (forall i :: 0 <= i < |word| ==> IsWord(word[i])) && (|rest| == 0 || !IsWord(rest[0]))
    ensures TableIn("CREATE TABLE " + ("public." + (word + rest))) == Some("public." + word)
  {
    var name := "public." + (word + rest);
    TableLine(name);
    NameFound("CREATE TABLE ", word, rest);
    SearchAtOnce("CREATE TABLE " + name, NameAfter("CREATE TABLE "));
  }

  lemma OnlyLine(name: string)
    requires "public." <= name
    ensures var s := "ALTER TABLE ONLY " + name;
            Classify(s) == OneLine(Default) || Classify(s) == OneLine(Constraint) || Classify(s) == Opens(Constraint)
  {
    var s := "ALTER TABLE ONLY " + name;
    LinesAre(s);
    assert s == "ALTER TABLE ONLY public." + name[7..];
  }

  lemma AlteredSearch(s: string)
    requires Altered(s).Some? && NameAfter("ALTER TABLE ONLY ")(s) == Altered(s)
    requires Classify(s) == OneLine(Default) || Classify(s) == OneLine(Constraint) || Classify(s) == Opens(Constraint)
    ensures TableIn(s) == Altered(s)
  {
    SearchAtOnce(s, NameAfter("ALTER TABLE ONLY "));
    SearchAtOnce(s, Altered);
  }

  /** A change to a public table is filed under the table, whatever is changed. */
  lemma ChangeTravels(word: string, rest: string)
    requires |word| > 0 && (forall i :: 0 <= i < |word| ==> IsWord(word[i])) && (|rest| == 0 || !IsWord(rest[0]))
    ensures TableIn("ALTER TABLE ONLY " + ("public." + (word + rest))) == Some("public." + word)
  {
    var name := "public." + (word + rest);
    NameFound("ALTER TABLE ONLY ", word, rest);
    OnlyLine(name);
    AlteredSearch("ALTER TABLE ONLY " + name);
  }

  /** The sequence of a table's identity column is filed under that table, whose statements therefore go
      into the same file. */
  lemma SequenceTravels(word: string, rest: string)
    requires |word| > 0 && (forall i :: 0 <= i < |word| ==> IsWord(word[i])) && (|rest| == 0 || !IsWord(rest[0]))
    requires var name := "public." + word; forall i :: 0 <= i < |name| ==>
             !StartsWith((name + ID_SEQUENCE)[i..], ID_SEQUENCE)
    ensures TableIn("CREATE SEQUENCE " + ("public." + (word + ID_SEQUENCE + rest))) == Some("public." + word)
  {
    var full := word + ID_SEQUENCE;
    var s := "CREATE SEQUENCE " + ("public." + (full + rest));
    NameFound("CREATE SEQUENCE ", full, rest);
    OwnerIsRest(word);
    assert ("public." + full)[7..] == full;
    assert SequenceOwner(s) == Some("public." + word);
  }
}
