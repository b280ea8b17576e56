// The stored container list: fields joined by ',', records joined by ';'.
module Containers {

  datatype ContainerInfo = ContainerInfo(id: string, name: string, path: string)

  const FIELD_SEPARATOR := ','
  const RECORD_SEPARATOR := ';'

  /** Kotlin's `split` on one character: always at least one part, empty parts kept. */
  function Split(s: string, sep: char): (parts: seq<string>)
    ensures |parts| >= 1
  {
    if s == [] then [[]]
    else
      var rest := Split(s[1..], sep);
      if s[0] == sep then [[]] + rest else [[s[0]] + rest[0]] + rest[1..]
  }

  /** Kotlin's `joinToString` with a one-character separator. */
  function Join(parts: seq<string>, sep: char): string {
    if parts == [] then []
    else if |parts| == 1 then parts[0]
    else parts[0] + [sep] + Join(parts[1..], sep)
  }

  function Render(c: ContainerInfo): string {
    c.id + [FIELD_SEPARATOR] + c.name + [FIELD_SEPARATOR] + c.path
  }

  function RenderAll(cs: seq<ContainerInfo>): (rs: seq<string>)
    ensures |rs| == |cs|
  {
    if cs == [] then [] else [Render(cs[0])] + RenderAll(cs[1..])
  }

  function Save(cs: seq<ContainerInfo>): string {
    Join(RenderAll(cs), RECORD_SEPARATOR)
  }

  /** `mapNotNull`: records without exactly three fields are dropped. */
  function ParseAll(records: seq<string>): seq<ContainerInfo> {
    if records == [] then []
    else
      var parts := Split(records[0], FIELD_SEPARATOR);
      (if |parts| == 3 then [ContainerInfo(parts[0], parts[1], parts[2])] else []) + ParseAll(records[1..])
  }

  function Load(stored: string): seq<ContainerInfo> {
    if stored == [] then [] else ParseAll(Split(stored, RECORD_SEPARATOR))
  }

  predicate CleanField(f: string) {
    FIELD_SEPARATOR !in f && RECORD_SEPARATOR !in f
  }

  predicate Clean(c: ContainerInfo) {
    CleanField(c.id) && CleanField(c.name) && CleanField(c.path)
  }

  predicate AllClean(cs: seq<ContainerInfo>) {
    forall c | c in cs :: Clean(c)
  }

  lemma {:induction false} SplitAtom(s: string, sep: char)
    requires sep !in s
    ensures Split(s, sep) == [s]
  {
    if s == [] {
    } else {
      SplitAtom(s[1..], sep);
      assert [s[0]] + s[1..] == s;
    }
  }

  lemma {:induction false} SplitFirst(head: string, tail: string, sep: char)
    requires sep !in head
    ensures Split(head + [sep] + tail, sep) == [head] + Split(tail, sep)
  {
    var s := head + [sep] + tail;
    if head == [] {
      assert s[1..] == tail;
    } else {
      assert s[1..] == head[1..] + [sep] + tail;
      SplitFirst(head[1..], tail, sep);
      assert [head[0]] + head[1..] == head;
    }
  }

  lemma {:induction false} SplitJoin(parts: seq<string>, sep: char)
    requires parts != []
    requires forall p | p in parts :: sep !in p
    ensures Split(Join(parts, sep), sep) == parts
  {
    if |parts| == 1 {
      SplitAtom(parts[0], sep);
    } else {
      SplitFirst(parts[0], Join(parts[1..], sep), sep);
      SplitJoin(parts[1..], sep);
    }
  }

  /** No part of a split contains the separator, and every character of a part comes from the string. */
  lemma {:induction false} SplitParts(s: string, sep: char)
    ensures forall p | p in Split(s, sep) :: sep !in p && (forall ch | ch in p :: ch in s)
  {
    if s != [] {
      SplitParts(s[1..], sep);
      var rest := Split(s[1..], sep);
      forall p | p in Split(s, sep)
        ensures sep !in p && forall ch | ch in p :: ch in s
      {
        assert rest[0] in rest;
        assert p in rest || p == [] || (s[0] != sep && p == [s[0]] + rest[0]);
        forall ch | ch in p
          ensures ch in s
        {
          assert ch == s[0] || ch in s[1..];
        }
      }
    }
  }

  lemma RenderedFields(c: ContainerInfo)
    requires Clean(c)
    ensures Split(Render(c), FIELD_SEPARATOR) == [c.id] + ([c.name] + [c.path]) && RECORD_SEPARATOR !in Render(c)
  {
    SplitFirst(c.id, c.name + [FIELD_SEPARATOR] + c.path, FIELD_SEPARATOR);
    SplitFirst(c.name, c.path, FIELD_SEPARATOR);
    SplitAtom(c.path, FIELD_SEPARATOR);
    assert Render(c) == c.id + [FIELD_SEPARATOR] + (c.name + [FIELD_SEPARATOR] + c.path);
  }

  lemma {:induction false} ParseRendered(cs: seq<ContainerInfo>)
    requires AllClean(cs)
    ensures ParseAll(RenderAll(cs)) == cs
    ensures forall r | r in RenderAll(cs) :: RECORD_SEPARATOR !in r
  {
    if cs == [] {
    } else {
      var c := cs[0];
      assert c in cs;
      RenderedFields(c);
      ParseRendered(cs[1..]);
    }
  }

  lemma {:induction false} ParsedClean(records: seq<string>)
    requires forall r | r in records :: RECORD_SEPARATOR !in r
    ensures AllClean(ParseAll(records))
  {
    if records == [] {
    } else {
      SplitParts(records[0], FIELD_SEPARATOR);
      var parts := Split(records[0], FIELD_SEPARATOR);
      if |parts| == 3 {
        assert parts[0] in parts && parts[1] in parts && parts[2] in parts;
      }
      ParsedClean(records[1..]);
    }
  }

  /** Whatever string is stored, no loaded field contains a separator. */
  lemma LoadedFieldsClean(stored: string)
    ensures AllClean(Load(stored))
  {
    if stored != [] {
      SplitParts(stored, RECORD_SEPARATOR);
      ParsedClean(Split(stored, RECORD_SEPARATOR));
    }
  }

  lemma SavedNonEmpty(cs: seq<ContainerInfo>)
    requires cs != []
    ensures Save(cs) != []
  {
    assert FIELD_SEPARATOR in Render(cs[0]);
    assert RenderAll(cs)[0] == Render(cs[0]);
  }

  /** Saving then loading gives the list back exactly when no field contains ',' or ';'. */
  lemma SaveLoadRoundTrip(cs: seq<ContainerInfo>)
    ensures Load(Save(cs)) == cs <==> AllClean(cs)
  {
    LoadedFieldsClean(Save(cs));
    if AllClean(cs) && cs != [] {
      SavedNonEmpty(cs);
      ParseRendered(cs);
      SplitJoin(RenderAll(cs), RECORD_SEPARATOR);
    }
  }

  // ---------- which records are loaded ----------

  function Count(s: string, ch: char): nat {
    if s == [] then 0 else (if s[0] == ch then 1 else 0) + Count(s[1..], ch)
  }

  /** A split takes nothing away but the separators, and has one part more than there are of them. */
  lemma {:induction false} JoinSplit(s: string, sep: char)
    ensures Join(Split(s, sep), sep) == s && |Split(s, sep)| == Count(s, sep) + 1
  {
    if s != [] {
      JoinSplit(s[1..], sep);
      var rest := Split(s[1..], sep);
      if s[0] == sep {
        assert ([[]] + rest)[1..] == rest;
      } else if |rest| > 1 {
        assert ([[s[0]] + rest[0]] + rest[1..])[1..] == rest[1..];
        assert [s[0]] + rest[0] + [sep] + Join(rest[1..], sep) == [s[0]] + (rest[0] + [sep] + Join(rest[1..], sep));
      }
    }
  }

  /** The records with exactly three fields, in order. */
  function WithTwoCommas(records: seq<string>): seq<string> {
    if records == [] then []
    else (if Count(records[0], ',') == 2 then [records[0]] else []) + WithTwoCommas(records[1..])
  }

  lemma RenderedBack(record: string)
    requires |Split(record, FIELD_SEPARATOR)| == 3
    ensures var parts := Split(record, FIELD_SEPARATOR); Render(ContainerInfo(parts[0], parts[1], parts[2])) == record
  {
    var parts, sep := Split(record, FIELD_SEPARATOR), FIELD_SEPARATOR;
    JoinSplit(record, sep);
    assert Join(parts[1..], sep) == parts[1] + [sep] + Join(parts[1..][1..], sep);
    assert Join(parts[1..][1..], sep) == parts[2];
    assert parts[0] + [sep] + (parts[1] + [sep] + parts[2]) == parts[0] + [sep] + parts[1] + [sep] + parts[2];
  }

  lemma {:induction false} ParsedRecords(records: seq<string>)
    ensures RenderAll(ParseAll(records)) == WithTwoCommas(records)
  {
    if records != [] {
      ParsedRecords(records[1..]);
      JoinSplit(records[0], FIELD_SEPARATOR);
      if |Split(records[0], FIELD_SEPARATOR)| == 3 {
        RenderedBack(records[0]);
        assert ParseAll(records)[1..] == ParseAll(records[1..]);
      } else {
        assert ParseAll(records) == ParseAll(records[1..]);
      }
    }
  }

  /** A stored string loads its records with exactly three fields, unchanged and in order, and no others. */
  lemma LoadsThreeFields(stored: string)
    ensures RenderAll(Load(stored)) == WithTwoCommas(Split(stored, ';'))
    ensures Join(Split(stored, ';'), ';') == stored && forall r | r in Split(stored, ';') :: ';' !in r
  {
    JoinSplit(stored, ';');
    SplitParts(stored, ';');
    ParsedRecords(Split(stored, RECORD_SEPARATOR));
  }

  /** What is stored: id, name and path with commas between them, and a semicolon between two containers. */
  lemma SavedAs(c: ContainerInfo, rest: seq<ContainerInfo>)
    ensures var head := c.id + "," + c.name + "," + c.path;
            Save([c] + rest) == if rest == [] then head else head + ";" + Save(rest)
  {
    assert ([c] + rest)[1..] == rest;
    assert RenderAll([c] + rest) == [Render(c)] + RenderAll(rest);
    assert ([Render(c)] + RenderAll(rest))[1..] == RenderAll(rest);
  }

  /** One load normalises any stored string: saving and loading again changes nothing. */
  lemma LoadIsStable(stored: string)
    ensures Load(Save(Load(stored))) == Load(stored)
  {
    LoadedFieldsClean(stored);
    SaveLoadRoundTrip(Load(stored));
  }
}
