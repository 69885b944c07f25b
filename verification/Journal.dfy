/** The order journal's file: one line per record, appended and flushed before anything else happens, and read back
    after a crash. How a record is written and parsed is a parameter; what is used of it is stated in Codec. */
module Journal {
  import opened Contracts

  newtype byte = x: int | 0 <= x < 256

  const NEWLINE: byte := 10

  const RETURN: byte := 13

  /** A parsed line: an object with its mode, or any other value. */
  datatype Json<T> = Object(mode: int, rec: T) | Other

  datatype Entry<T> = Entry(mode: int, rec: T)

  datatype JournalError = TornJournal | CorruptLine(index: nat)

  predicate IsBreak(b: byte) { b == NEWLINE || b == RETURN }

  predicate IsSpace(b: byte) { b == 32 || 9 <= b <= 13 }

  predicate Blank(line: seq<byte>) { forall i :: 0 <= i < |line| ==> IsSpace(line[i]) }

  /** The length of the first line, without its break. */
  function LineEnd(raw: seq<byte>): (n: nat)
    ensures n <= |raw| && (n < |raw| ==> IsBreak(raw[n])) && forall i :: 0 <= i < n ==> !IsBreak(raw[i])
  {
    if raw == [] || IsBreak(raw[0]) then 0
    else
      assert forall i :: 0 < i < |raw| ==> raw[i] == raw[1..][i - 1];
      1 + LineEnd(raw[1..])
  }

  function SplitLines(raw: seq<byte>): seq<seq<byte>> {
    if raw == [] then []
    else
      var n := LineEnd(raw);
      if n == |raw| then [raw]
      else
        var next := if raw[n] == RETURN && n + 1 < |raw| && raw[n + 1] == NEWLINE then n + 2 else n + 1;
        [raw[..n]] + SplitLines(raw[next..])
  }

  /** Line breaks: a newline, a return, or a return and a newline. */
  predicate BreakSeq(b: seq<byte>) { b == [10] || b == [13] || b == [13, 10] }

  /** The lines with the breaks after them. */
  function Joined(lines: seq<seq<byte>>, breaks: seq<seq<byte>>): seq<byte>
    requires |lines| == |breaks|
  {
    if lines == [] then [] else lines[0] + breaks[0] + Joined(lines[1..], breaks[1..])
  }

  predicate NoBreak(line: seq<byte>) { forall i :: 0 <= i < |line| ==> line[i] != 10 && line[i] != 13 }

  /** The k-th line holds no newline or return and is followed by a line break, unless it is the last one and not empty;
      a return before a newline is one break with it. */
  predicate LineAt(lines: seq<seq<byte>>, breaks: seq<seq<byte>>, k: nat)
    requires |lines| == |breaks| && k < |lines|
  {
    && NoBreak(lines[k]) && (BreakSeq(breaks[k]) || (k == |lines| - 1 && breaks[k] == [] && lines[k] != []))
    && (breaks[k] == [13] && k + 1 < |lines| && lines[k + 1] == [] ==> breaks[k + 1] != [] && breaks[k + 1][0] == 13)
  }

  /** The lines and the breaks after them are the file. */
  predicate CutsInto(raw: seq<byte>, lines: seq<seq<byte>>, breaks: seq<seq<byte>>) {
    |breaks| == |lines| && Joined(lines, breaks) == raw && forall k :: 0 <= k < |lines| ==> LineAt(lines, breaks, k)
  }

  /** Splitting cuts a file into its lines and loses nothing but their breaks. */
  lemma {:induction false} LinesJoin(raw: seq<byte>) returns (breaks: seq<seq<byte>>)
    ensures CutsInto(raw, SplitLines(raw), breaks)
  {
    breaks := [];
    if raw != [] {
      var n := LineEnd(raw);
      if n == |raw| {
        breaks := [[]];
        LastLine(raw);
      } else {
        var next := if raw[n] == RETURN && n + 1 < |raw| && raw[n + 1] == NEWLINE then n + 2 else n + 1;
        var rest := LinesJoin(raw[next..]);
        FirstBreak(raw, n, next);
        LineBefore(raw[..n], raw[n..next], raw[next..], SplitLines(raw[next..]), rest);
        assert raw == raw[..n] + raw[n..next] + raw[next..];
        breaks := [raw[n..next]] + rest;
      }
    }
  }

  lemma LastLine(raw: seq<byte>)
    requires raw != [] && LineEnd(raw) == |raw|
    ensures SplitLines(raw) == [raw] && CutsInto(raw, [raw], [[]])
  {
    assert forall i :: 0 <= i < |raw| ==> !IsBreak(raw[i]);
    assert Joined([raw], [[]]) == raw + [] + Joined([], []);
  }

  lemma LineBefore(line: seq<byte>, first: seq<byte>, rest: seq<byte>, lines: seq<seq<byte>>, breaks: seq<seq<byte>>)
    requires NoBreak(line) && BreakSeq(first) && CutsInto(rest, lines, breaks)
    requires first == [13] && rest != [] ==> rest[0] != 10
    ensures CutsInto(line + first + rest, [line] + lines, [first] + breaks)
  {
    var more, after := [line] + lines, [first] + breaks;
    assert more[1..] == lines && after[1..] == breaks;
    forall k | 0 <= k < |more|
      ensures LineAt(more, after, k)
    {
      if k > 0 {
        assert LineAt(lines, breaks, k - 1);
      } else if first == [13] && |lines| > 0 && lines[0] == [] {
        assert LineAt(lines, breaks, 0);
        assert rest == breaks[0] + Joined(lines[1..], breaks[1..]);
      }
    }
  }

  lemma FirstBreak(raw: seq<byte>, n: nat, next: nat)
    requires n < |raw| && IsBreak(raw[n]) && forall i :: 0 <= i < n ==> !IsBreak(raw[i])
    requires next == if raw[n] == RETURN && n + 1 < |raw| && raw[n + 1] == NEWLINE then n + 2 else n + 1
    ensures BreakSeq(raw[n..next]) && next <= |raw| && (raw[n..next] == [13] && next < |raw| ==> raw[next] != 10)
    ensures NoBreak(raw[..n])
  {
    var gap := raw[n..next];
    assert gap[0] == raw[n];
    if raw[n] == RETURN && n + 1 < |raw| && raw[n + 1] == NEWLINE {
      assert gap[1] == raw[n + 1];
      assert gap == [13, 10];
    } else {
      assert gap == [raw[n]];
    }
  }

  // ---------------------------------------------------------------- reading

  /** The first k lines of a file taken in: the records of one mode, and whether the last line did not parse. */
  function Scan<T>(parse: seq<byte> -> Option<Json<T>>, mode: int, lines: seq<seq<byte>>, k: nat)
    : Result<(seq<T>, bool), JournalError>
    requires k <= |lines|
  {
    if k == 0 then Success(([], false))
    else
      match Scan(parse, mode, lines, k - 1)
      case Failure(e) => Failure(e)
      case Success((records, torn)) =>
        if Blank(lines[k - 1]) then Success((records, torn))
        else
          match parse(lines[k - 1])
          case None => if k == |lines| then Success((records, true)) else Failure(CorruptLine(k - 1))
          case Some(Other) => Failure(CorruptLine(k - 1))
          case Some(Object(m, rec)) => Success((if m == mode then records + [rec] else records, torn))
  }

  /** The k-th line holds something, and it is no object; a last line that cannot be parsed is let pass. */
  predicate Corrupt<T>(parse: seq<byte> -> Option<Json<T>>, lines: seq<seq<byte>>, k: nat)
    requires k < |lines|
  {
    && (exists i :: 0 <= i < |lines[k]| && lines[k][i] !in {9, 10, 11, 12, 13, 32})
    && match parse(lines[k]) case Some(Object(_, _)) => false case Some(Other) => true case None => k < |lines| - 1
  }

  /** The k-th line holds a record of this mode. */
  predicate OfThisMode<T>(parse: seq<byte> -> Option<Json<T>>, mode: int, lines: seq<seq<byte>>, k: nat)
    requires k < |lines|
  {
    !Blank(lines[k]) && parse(lines[k]).Some? && parse(lines[k]).value.Object? && parse(lines[k]).value.mode == mode
  }

  /** The records are those of the lines named, in file order, and no other line of the first n holds one of this mode. */
  ghost predicate RecordsOf<T(!new)>(
    parse: seq<byte> -> Option<Json<T>>, mode: int, lines: seq<seq<byte>>, n: nat, records: seq<T>, at: seq<nat>)
    requires n <= |lines|
  {
    && |at| == |records| && (forall j :: 0 <= j < |at| ==> at[j] < n) && (forall i, j :: 0 <= i < j < |at| ==> at[i] < at[j])
    && (forall j :: 0 <= j < |at| ==> OfThisMode(parse, mode, lines, at[j]) && records[j] == parse(lines[at[j]]).value.rec)
    && (forall k :: 0 <= k < n && OfThisMode(parse, mode, lines, k) ==> k in at)
  }

  /** WHAT A FILE MEANS. Read to the n-th line, a file is refused if and only if some line before it is corrupt, and then for
      the first such line. Otherwise its records are those of the mode, in file order, and it is torn if and only if the
      last line holds something that cannot be parsed. */
  lemma {:induction false} ScanMeans<T(!new)>(parse: seq<byte> -> Option<Json<T>>, mode: int, lines: seq<seq<byte>>, n: nat)
    returns (at: seq<nat>)
    requires n <= |lines|
    ensures match Scan(parse, mode, lines, n)
            case Failure(e) =>
              exists k :: 0 <= k < n && e == CorruptLine(k) && Corrupt(parse, lines, k) && forall j :: 0 <= j < k ==> !Corrupt(parse, lines, j)
            case Success((records, torn)) =>
              && (forall k :: 0 <= k < n ==> !Corrupt(parse, lines, k)) && RecordsOf(parse, mode, lines, n, records, at)
              && (torn <==> n == |lines| && n > 0 && !Blank(lines[n - 1]) && parse(lines[n - 1]).None?)
  {
    at := [];
    if n > 0 {
      at := ScanMeans(parse, mode, lines, n - 1);
      LineMeans(parse, lines, n - 1);
      var before := Scan(parse, mode, lines, n - 1);
      if before.Success? && OfThisMode(parse, mode, lines, n - 1) {
        at := at + [n - 1];
      }
    }
  }

  lemma LineMeans<T>(parse: seq<byte> -> Option<Json<T>>, lines: seq<seq<byte>>, k: nat)
    requires k < |lines|
    ensures Corrupt(parse, lines, k)
            <==> !Blank(lines[k]) && (parse(lines[k]) == Some(Other) || (parse(lines[k]).None? && k < |lines| - 1))
  {
    forall i | 0 <= i < |lines[k]|
      ensures IsSpace(lines[k][i]) <==> lines[k][i] in {9, 10, 11, 12, 13, 32}
    {
    }
  }

  predicate Unfinished(raw: seq<byte>) { raw != [] && raw[|raw| - 1] != NEWLINE }

  /** The journal object: one file per day and the days it has found torn. */
  class OrderJournal<T> {
    const mode: int
    const enc: Entry<T> -> seq<byte>
    const parse: seq<byte> -> Option<Json<T>>
    var files: map<int, seq<byte>>
    var tornDays: set<int>

    constructor (mode: int, enc: Entry<T> -> seq<byte>, parse: seq<byte> -> Option<Json<T>>, files: map<int, seq<byte>>)
      ensures this.mode == mode && this.enc == enc && this.parse == parse && this.files == files && tornDays == {}
    {
      this.mode, this.enc, this.parse, this.files, tornDays := mode, enc, parse, files, {};
    }

    function File(day: int): seq<byte>
      reads this
    {
      if day in files then files[day] else []
    }

    /** Refuses a day found torn; otherwise the record is the file's new last line. */
    method Append(day: int, rec: T) returns (r: Result<(), JournalError>)
      modifies this`files
      ensures r.Failure? <==> day in tornDays
      ensures r.Failure? ==> files == old(files)
      ensures r.Success? ==> files == old(files)[day := old(File(day)) + enc(Entry(mode, rec)) + [NEWLINE]]
    {
      if day in tornDays {
        return Failure(TornJournal);
      }
      files := files[day := File(day) + enc(Entry(mode, rec)) + [NEWLINE]];
      r := Success(());
    }

    method ReadDay(day: int) returns (r: Result<seq<T>, JournalError>)
      modifies this`tornDays
      ensures var raw := File(day);
              var scanned := Scan(parse, mode, SplitLines(raw), |SplitLines(raw)|);
              && (match scanned case Failure(e) => r == Failure(e) case Success((records, _)) => r == Success(records))
              && (scanned.Success? ==>
                    tornDays == old(tornDays) + if Unfinished(raw) || scanned.value.1 then {day} else {})
              && old(tornDays) <= tornDays <= old(tornDays) + {day}
    {
      if day !in files {
        return Success([]);
      }
      var raw := files[day];
      if raw != [] && raw[|raw| - 1] != NEWLINE {
        tornDays := tornDays + {day};
      }
      var lines := SplitLines(raw);
      var records: seq<T> := [];
      ghost var torn := false;
      for idx := 0 to |lines|
        invariant Scan(parse, mode, lines, idx) == Success((records, torn))
        invariant tornDays == old(tornDays) + if Unfinished(raw) || torn then {day} else {}
      {
        var line := lines[idx];
        if Blank(line) {
          continue;
        }
        var parsed := parse(line);
        if parsed.None? {
          if idx == |lines| - 1 {
            tornDays, torn := tornDays + {day}, true;
            continue;
          }
          FailureSticks(parse, mode, lines, idx + 1, |lines|);
          return Failure(CorruptLine(idx));
        }
        if parsed.value.Other? {
          FailureSticks(parse, mode, lines, idx + 1, |lines|);
          return Failure(CorruptLine(idx));
        }
        if parsed.value.mode == mode {
          records := records + [parsed.value.rec];
        }
      }
      r := Success(records);
    }
  }

  lemma {:induction false} FailureSticks<T>(
    parse: seq<byte> -> Option<Json<T>>, mode: int, lines: seq<seq<byte>>, k: nat, n: nat)
    requires k <= n <= |lines| && Scan(parse, mode, lines, k).Failure?
    ensures Scan(parse, mode, lines, n) == Scan(parse, mode, lines, k)
  {
    if k < n {
      FailureSticks(parse, mode, lines, k, n - 1);
    }
  }

  // ---------------------------------------------------------------- what is used of the encoding

  /** A record is written on one line, reads back as itself, and no shorter beginning of it parses. */
  ghost predicate Codec<T(!new)>(enc: Entry<T> -> seq<byte>, parse: seq<byte> -> Option<Json<T>>) {
    && (forall e :: enc(e) != [] && !IsSpace(enc(e)[0]))
    && (forall e, i :: 0 <= i < |enc(e)| ==> !IsBreak(enc(e)[i]))
    && (forall e :: parse(enc(e)) == Some(Object(e.mode, e.rec)))
    && (forall e, i :: 0 < i < |enc(e)| ==> parse(enc(e)[..i]).None?)
  }

  /** The file after the given records were appended. */
  function Content<T>(enc: Entry<T> -> seq<byte>, entries: seq<Entry<T>>): seq<byte> {
    if entries == [] then [] else enc(entries[0]) + [NEWLINE] + Content(enc, entries[1..])
  }

  /** The records of one mode, in file order. */
  function OfMode<T>(entries: seq<Entry<T>>, mode: int): seq<T> {
    if entries == [] then []
    else
      var last := entries[|entries| - 1];
      var before := OfMode(entries[..|entries| - 1], mode);
      if last.mode == mode then before + [last.rec] else before
  }

  // ---------------------------------------------------------------- a crash while appending

  lemma FirstLine(line: seq<byte>, rest: seq<byte>)
    requires forall i :: 0 <= i < |line| ==> !IsBreak(line[i])
    ensures LineEnd(line + [NEWLINE] + rest) == |line| && LineEnd(line) == |line|
  {
    var raw := line + [NEWLINE] + rest;
    assert forall i :: 0 <= i < |line| ==> raw[i] == line[i];
    assert raw[|line|] == NEWLINE;
  }

  function Lines<T>(enc: Entry<T> -> seq<byte>, entries: seq<Entry<T>>): seq<seq<byte>> {
    seq(|entries|, i requires 0 <= i < |entries| => enc(entries[i]))
  }

  lemma SplitFirst(line: seq<byte>, rest: seq<byte>)
    requires forall i :: 0 <= i < |line| ==> !IsBreak(line[i])
    ensures SplitLines(line + [NEWLINE] + rest) == [line] + SplitLines(rest)
  {
    var raw := line + [NEWLINE] + rest;
    FirstLine(line, rest);
    assert raw[..|line|] == line && raw[|line| + 1..] == rest;
    assert raw[|line|] == NEWLINE;
  }

  lemma SplitTail(tail: seq<byte>)
    requires forall i :: 0 <= i < |tail| ==> !IsBreak(tail[i])
    ensures SplitLines(tail) == if tail == [] then [] else [tail]
  {
    FirstLine(tail, []);
  }

  /** The line of the first record is split off the rest. */
  lemma SplitRecord<T(!new)>(
    enc: Entry<T> -> seq<byte>, parse: seq<byte> -> Option<Json<T>>, entries: seq<Entry<T>>, tail: seq<byte>)
    requires Codec(enc, parse) && entries != []
    ensures SplitLines(Content(enc, entries) + tail) == [enc(entries[0])] + SplitLines(Content(enc, entries[1..]) + tail)
  {
    var line, rest := enc(entries[0]), Content(enc, entries[1..]) + tail;
    assert Content(enc, entries) + tail == line + [NEWLINE] + rest;
    SplitFirst(line, rest);
  }

  /** Whole records split into their lines, and an unfinished tail is a line of its own. */
  lemma {:induction false} SplitContent<T(!new)>(
    enc: Entry<T> -> seq<byte>, parse: seq<byte> -> Option<Json<T>>, entries: seq<Entry<T>>, tail: seq<byte>)
    requires Codec(enc, parse) && forall i :: 0 <= i < |tail| ==> !IsBreak(tail[i])
    ensures SplitLines(Content(enc, entries) + tail) == Lines(enc, entries) + if tail == [] then [] else [tail]
  {
    if entries == [] {
      assert Content(enc, entries) + tail == tail;
      SplitTail(tail);
    } else {
      SplitRecord(enc, parse, entries, tail);
      SplitContent(enc, parse, entries[1..], tail);
      assert Lines(enc, entries) == [enc(entries[0])] + Lines(enc, entries[1..]);
    }
  }

  lemma {:induction false} ScanLines<T(!new)>(
    enc: Entry<T> -> seq<byte>, parse: seq<byte> -> Option<Json<T>>, mode: int, entries: seq<Entry<T>>,
    lines: seq<seq<byte>>, k: nat)
    requires Codec(enc, parse) && k <= |entries| && Lines(enc, entries) <= lines
    ensures Scan(parse, mode, lines, k) == Success((OfMode(entries[..k], mode), false))
  {
    if k > 0 {
      ScanLines(enc, parse, mode, entries, lines, k - 1);
      assert lines[k - 1] == enc(entries[k - 1]);
      assert entries[..k][..k - 1] == entries[..k - 1];
    }
  }

  /** Reading the bytes of a day gives these records, and finds the day torn or not. */
  predicate ReadsAs<T(==)>(parse: seq<byte> -> Option<Json<T>>, mode: int, raw: seq<byte>, records: seq<T>, torn: bool) {
    var lines := SplitLines(raw);
    var scanned := Scan(parse, mode, lines, |lines|);
    scanned.Success? && scanned.value.0 == records && (torn <==> Unfinished(raw) || scanned.value.1)
  }

  /** However much of a record's line reaches the disk, reading the day gives the records before it, or those and the
      record itself exactly when all of its text is there; and the day is found torn exactly when something but not the
      whole line is there. */
  lemma CrashedAppend<T(!new)>(
    enc: Entry<T> -> seq<byte>, parse: seq<byte> -> Option<Json<T>>, mode: int, entries: seq<Entry<T>>, e: Entry<T>, n: nat)
    requires Codec(enc, parse) && n <= |enc(e)| + 1
    ensures var raw := Content(enc, entries) + (enc(e) + [NEWLINE])[..n];
            ReadsAs(parse, mode, raw, OfMode(if n < |enc(e)| then entries else entries + [e], mode), 0 < n <= |enc(e)|)
  {
    var raw := Content(enc, entries) + (enc(e) + [NEWLINE])[..n];
    if n == |enc(e)| + 1 {
      ContentAppends(enc, entries, e);
      assert (enc(e) + [NEWLINE])[..n] == enc(e) + [NEWLINE];
      WholeFile(enc, parse, mode, entries + [e]);
    } else if n == 0 {
      assert raw == Content(enc, entries);
      WholeFile(enc, parse, mode, entries);
    } else {
      assert (enc(e) + [NEWLINE])[..n] == enc(e)[..n];
      TornFile(enc, parse, mode, entries, e, n);
    }
  }

  lemma {:induction false} ContentEnds<T>(enc: Entry<T> -> seq<byte>, entries: seq<Entry<T>>)
    ensures !Unfinished(Content(enc, entries))
  {
    if entries != [] {
      ContentEnds(enc, entries[1..]);
    }
  }

  lemma {:induction false} ContentAppends<T>(enc: Entry<T> -> seq<byte>, entries: seq<Entry<T>>, e: Entry<T>)
    ensures Content(enc, entries + [e]) == Content(enc, entries) + (enc(e) + [NEWLINE])
  {
    if entries == [] {
      assert entries + [e] == [e];
      assert Content(enc, [e]) == enc(e) + [NEWLINE] + Content(enc, [e][1..]);
    } else {
      ContentAppends(enc, entries[1..], e);
      assert (entries + [e])[1..] == entries[1..] + [e];
    }
  }

  lemma WholeFile<T(!new)>(enc: Entry<T> -> seq<byte>, parse: seq<byte> -> Option<Json<T>>, mode: int, entries: seq<Entry<T>>)
    requires Codec(enc, parse)
    ensures ReadsAs(parse, mode, Content(enc, entries), OfMode(entries, mode), false)
  {
    var lines := Lines(enc, entries);
    assert SplitLines(Content(enc, entries)) == lines by {
      SplitContent(enc, parse, entries, []);
      assert Content(enc, entries) + [] == Content(enc, entries);
      assert lines + [] == lines;
    }
    ScanLines(enc, parse, mode, entries, lines, |entries|);
    assert entries[..|entries|] == entries;
    ContentEnds(enc, entries);
  }

  lemma TornFile<T(!new)>(
    enc: Entry<T> -> seq<byte>, parse: seq<byte> -> Option<Json<T>>, mode: int, entries: seq<Entry<T>>, e: Entry<T>, n: nat)
    requires Codec(enc, parse) && 0 < n <= |enc(e)|
    ensures ReadsAs(parse, mode, Content(enc, entries) + enc(e)[..n],
                    OfMode(if n < |enc(e)| then entries else entries + [e], mode), true)
  {
    var tail := enc(e)[..n];
    var raw := Content(enc, entries) + tail;
    SplitContent(enc, parse, entries, tail);
    var lines := Lines(enc, entries) + [tail];
    ScanLines(enc, parse, mode, entries, lines, |entries|);
    assert entries[..|entries|] == entries;
    assert !Blank(tail) by { assert tail[0] == enc(e)[0]; }
    assert raw[|raw| - 1] == enc(e)[n - 1];
    if n == |enc(e)| {
      assert tail == enc(e);
      assert (entries + [e])[..|entries|] == entries;
    }
  }
}
