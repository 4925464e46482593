/**
 * The text of a meta-data file as the simulator's files write it, and the
 * proof that processMetaData reads such a file back as the entries it was
 * written from.
 *
 * An entry is written `S(start)0`: component letter, the operation in
 * parentheses, the cycle count in decimal.  A line holds one or more
 * entries separated by "; " and ends with ';' or '.'.
 */
module MetaDataText {
  import opened SimTypes
  import opened StringUtilities
  import opened InputDataProcessor

  /** The digit character for `d`. */
  function Digit(d: nat): (c: char)
    requires d < 10
    ensures IsDigit(c) && c as int - '0' as int == d
  {
    ('0' as int + d) as char
  }

  /** `n` in decimal, without leading zeros. */
  function Numeral(n: nat): (s: string)
    ensures s != [] && forall i :: 0 <= i < |s| ==> IsDigit(s[i])
  {
    if n < 10 then [Digit(n)] else Numeral(n / 10) + [Digit(n % 10)]
  }

  /** A numeral reads back as the number it was written from. */
  lemma {:induction false} NumeralValue(n: nat)
    ensures DecimalValue(Numeral(n)) == n
  {
    if n < 10 {
      DecimalValueSnoc([], Digit(n));
    } else {
      NumeralValue(n / 10);
      DecimalValueSnoc(Numeral(n / 10), Digit(n % 10));
    }
  }

  /** A run made only of digits is its own digit run. */
  lemma {:induction false} DigitRunAll(s: string)
    requires forall i :: 0 <= i < |s| ==> IsDigit(s[i])
    ensures DigitRun(s) == s
  {
    if s != [] {
      DigitRunAll(s[1..]);
    }
  }

  /** A `%d` conversion reads a numeral as its number. */
  lemma ScanNumeral(n: nat)
    ensures ScanInt(Numeral(n)) == Some(n)
  {
    var s := Numeral(n);
    assert SkipSpace(s) == s;
    DigitRunAll(s);
    NumeralValue(n);
  }

  /** A character that may stand in an operation string as the files write it. */
  predicate NameChar(c: char)
  {
    c != ')' && c != ';' && c != '.' && c != '\n' && c != NUL
  }

  /** An entry the files can hold: legal, with a cycle count of at least zero. */
  predicate Writable(op: Op)
  {
    Legal(op) && op.cycles >= 0
  }

  /** Every legal entry has a letter other than a space, and a non-empty operation string of name characters. */
  lemma LegalShape(op: Op)
    requires Legal(op)
    ensures op.letter != ' ' && NameChar(op.letter) && op.name != []
    ensures forall i :: 0 <= i < |op.name| ==> NameChar(op.name[i])
  {
    var i :| 0 <= i < 9 && LegalOp(i) == op.name;
    LegalOpShape(i);
  }

  lemma LegalOpShape(i: nat)
    requires i < 9
    ensures LegalOp(i) != [] && forall k :: 0 <= k < |LegalOp(i)| ==> NameChar(LegalOp(i)[k])
  {
  }

  /** An entry as the files write it. */
  function EntryText(op: Op): string
    requires op.cycles >= 0
  {
    [op.letter] + "(" + op.name + ")" + Numeral(op.cycles)
  }

  /** The first `d` in `x + [d] + y`, when `x` holds none, is the one after `x`. */
  lemma FirstAfter(x: string, d: char, y: string)
    requires d !in x
    ensures IndexOf(x + [d] + y, d) == |x|
  {
    assert (x + [d] + y)[|x|] == d;
    assert (x + [d] + y)[..|x|] == x;
  }

  /** Splitting at a delimiter that first occurs after `x` gives `x` and what follows the delimiter. */
  lemma SplitAfter(x: string, d: char, y: string)
    requires d !in x
    ensures d in x + [d] + y
    ensures Before(x + [d] + y, d) == x && After(x + [d] + y, d) == y
  {
    var s := x + [d] + y;
    FirstAfter(x, d, y);
    assert s[|x|] == d;
    assert s[..|x|] == x;
    assert s[|x| + 1..] == y;
  }

  /** The sscanf of an entry's text fills all three slots with the entry's own fields. */
  lemma ScanEntryText(op: Op)
    requires Writable(op)
    ensures ScanEntry(EntryText(op)) == Some(op)
  {
    LegalShape(op);
    var e := EntryText(op);
    var rest := op.name + [')'] + Numeral(op.cycles);
    assert e[1] == '(' && e[2..] == rest;
    FirstAfter(op.name, ')', Numeral(op.cycles));
    assert rest[..|op.name|] == op.name;
    assert rest[|op.name| + 1..] == Numeral(op.cycles);
    ScanNumeral(op.cycles);
  }

  predicate AllWritable(ops: seq<Op>)
  {
    forall i :: 0 <= i < |ops| ==> Writable(ops[i])
  }

  /** An entry's text holds no separator, terminator, newline or NUL, and does not start with a space. */
  lemma EntryChars(op: Op)
    requires Writable(op)
    ensures EntryText(op)[0] == op.letter != ' ' && EntryText(op)[1] == '('
    ensures ';' !in EntryText(op) && '.' !in EntryText(op) && '\n' !in EntryText(op) && NUL !in EntryText(op)
  {
    LegalShape(op);
    var n := Numeral(op.cycles);
    assert ';' !in op.name && '.' !in op.name && '\n' !in op.name && NUL !in op.name;
    assert ';' !in n && '.' !in n && '\n' !in n && NUL !in n;
  }

  /**
   * What follows an entry on its line: the terminator, or ';' and the
   * rest of the line after it.
   */
  function Rest(m: seq<Op>, term: char): string
    requires AllWritable(m)
    decreases |m|, 1
  {
    if m == [] then [term] else [';'] + Tail(m, term)
  }

  /** The rest of a line after a ';': nothing, or a space, the next entry, and what follows it. */
  function Tail(m: seq<Op>, term: char): string
    requires AllWritable(m)
    decreases |m|, 0
  {
    if m == [] then [] else [' '] + EntryText(m[0]) + Rest(m[1..], term)
  }

  /** A line holding the entries `ops` and ending with `term`. */
  function LineText(ops: seq<Op>, term: char): string
    requires ops != [] && AllWritable(ops)
  {
    EntryText(ops[0]) + Rest(ops[1..], term)
  }

  /** The loop's condition on a rest that starts with the next entry: that entry is what is read next. */
  lemma NextAt(next: string, d: char, rest: string, acc: seq<Op>)
    requires d !in next && (d == ';' || (d == '.' && ';' !in next + [d] + rest))
    ensures NextEntries(next + [d] + rest, acc) == LineEntries(next, rest, acc)
  {
    SplitAfter(next, d, rest);
  }

  /** An entry after a separator, space included, is read as the entry written. */
  lemma NextEntry(op: Op)
    requires Writable(op)
    ensures ParseEntry(DropSpace([' '] + EntryText(op))) == Some(op)
  {
    assert DropSpace([' '] + EntryText(op)) == EntryText(op);
    ScanEntryText(op);
  }

  /** The loop reads the first entry of a rest and goes on after it. */
  lemma TailStep(m: seq<Op>, term: char, acc: seq<Op>)
    requires AllWritable(m) && m != []
    requires term == ';' || term == '.'
    ensures NextEntries(Tail(m, term), acc) == NextEntries(Tail(m[1..], term), acc + [m[0]])
  {
    var next := [' '] + EntryText(m[0]);
    EntryChars(m[0]);
    TailShape(m, term);
    if m[1..] != [] || term == ';' {
      NextAt(next, ';', Tail(m[1..], term), acc);
    } else {
      NextAt(next, '.', [], acc);
    }
    NextEntry(m[0]);
  }

  /** A rest is a space and its first entry, then ';' and the rest after it, or the closing '.'. */
  lemma TailShape(m: seq<Op>, term: char)
    requires AllWritable(m) && m != []
    ensures m[1..] != [] || term == ';' ==> Tail(m, term) == [' '] + EntryText(m[0]) + [';'] + Tail(m[1..], term)
    ensures m[1..] == [] && term != ';' ==> Tail(m, term) == [' '] + EntryText(m[0]) + [term] + []
  {
  }

  /** The do-while loop reads every entry of a rest, in order. */
  lemma {:induction false} TailEntries(m: seq<Op>, term: char, acc: seq<Op>)
    requires AllWritable(m)
    requires term == ';' || term == '.'
    ensures NextEntries(Tail(m, term), acc) == Some(acc + m)
    decreases |m|
  {
    if m == [] {
      AppendHead(acc, m);
    } else {
      TailStep(m, term, acc);
      TailEntries(m[1..], term, acc + [m[0]]);
      AppendHead(acc, m);
    }
  }

  /** Appending a sequence is appending its head, then its tail. */
  lemma AppendHead(acc: seq<Op>, m: seq<Op>)
    ensures m == [] ==> acc + m == acc
    ensures m != [] ==> acc + [m[0]] + m[1..] == acc + m
  {
    if m != [] {
      assert [m[0]] + m[1..] == m;
    }
  }

  /** A line processMetaData reads in full: it holds a ';' unless it is a single entry closed by '.'. */
  predicate Parsable(ops: seq<Op>, term: char)
  {
    ops != [] && AllWritable(ops) && (term == ';' || (term == '.' && |ops| >= 2))
  }

  /** A parsable line is its first entry, a ';', and the rest after it. */
  lemma LineShape(ops: seq<Op>, term: char)
    requires Parsable(ops, term)
    ensures LineText(ops, term) == EntryText(ops[0]) + [';'] + Tail(ops[1..], term)
  {
  }

  /** A rest holds no newline or NUL when its terminator is neither. */
  lemma {:induction false} RestChars(m: seq<Op>, term: char)
    requires AllWritable(m) && term != '\n' && term != NUL
    ensures '\n' !in Rest(m, term) && NUL !in Rest(m, term)
    ensures '\n' !in Tail(m, term) && NUL !in Tail(m, term)
    decreases |m|
  {
    if m != [] {
      EntryChars(m[0]);
      RestChars(m[1..], term);
    }
  }

  /** A written line reads as itself once stripString has run. */
  lemma LineReadsAsItself(ops: seq<Op>, term: char)
    requires Parsable(ops, term)
    ensures ReadLine(LineText(ops, term)) == LineText(ops, term)
  {
    EntryChars(ops[0]);
    RestChars(ops[1..], term);
    ReadsAsItself(LineText(ops, term));
  }

  /** The do-while loop reads a whole line's entries, in order, after those already read. */
  lemma LineEntriesOf(ops: seq<Op>, term: char, acc: seq<Op>)
    requires Parsable(ops, term)
    ensures ';' in LineText(ops, term)
    ensures LineEntries(Before(LineText(ops, term), ';'), After(LineText(ops, term), ';'), acc) == Some(acc + ops)
  {
    var e := EntryText(ops[0]);
    EntryChars(ops[0]);
    LineShape(ops, term);
    SplitAfter(e, ';', Tail(ops[1..], term));
    ScanEntryText(ops[0]);
    assert DropSpace(e) == e;
    TailEntries(ops[1..], term, acc + [ops[0]]);
    AppendHead(acc, ops);
  }

  /** The start marker of a meta-data file: no leading space, no newline or NUL. */
  lemma MetaStartChars()
    ensures StartMarker(Meta) != [] && StartMarker(Meta)[0] != ' '
    ensures '\n' !in StartMarker(Meta) && NUL !in StartMarker(Meta)
  {
  }

  /** The end marker of a meta-data file: no leading space, no newline or NUL. */
  lemma MetaEndChars()
    ensures EndMarker(Meta) != [] && EndMarker(Meta)[0] != ' '
    ensures '\n' !in EndMarker(Meta) && NUL !in EndMarker(Meta)
  {
  }

  /** A line whose second character is '(' is neither marker of a meta-data file. */
  lemma NotMetaMarker(t: string)
    requires |t| > 1 && t[1] == '('
    ensures t != StartMarker(Meta) && t != EndMarker(Meta)
  {
    assert StartMarker(Meta)[1] == 't';
    assert EndMarker(Meta)[1] == 'n';
  }

  /** The end marker, read after the start marker, stops processMetaData's loop. */
  lemma MetaStepEnd(s: MetaState)
    requires s.phase == Scanning && s.hit
    ensures MetaStep(s, EndMarker(Meta)) == s.(phase := Stopped)
  {
    assert EndMarker(Meta)[1] != StartMarker(Meta)[1];
  }

  /**
   * A line holding a single entry closed by '.' has no ';' to split at:
   * processMetaData's loop stops there and the entry is not read.
   */
  lemma LoneEntryStops(s: MetaState, op: Op)
    requires s.phase == Scanning && s.hit && Writable(op)
    ensures MetaStep(s, EntryText(op) + ".") == s.(phase := Stopped)
  {
    var t := EntryText(op) + ".";
    EntryChars(op);
    assert t[1] == '(';
    NotMetaMarker(t);
    assert ';' !in t by {
      forall i | 0 <= i < |t|
        ensures t[i] != ';'
      {
        if i < |EntryText(op)| {
          assert t[i] == EntryText(op)[i];
        }
      }
    }
  }

  /** The marker lines of a meta-data file read as themselves. */
  lemma MetaMarkers()
    ensures ReadLine(StartMarker(Meta)) == StartMarker(Meta)
    ensures ReadLine(EndMarker(Meta)) == EndMarker(Meta)
  {
    MetaStartChars();
    MetaEndChars();
    ReadsAsItself(StartMarker(Meta));
    ReadsAsItself(EndMarker(Meta));
  }

  /** One pass of processMetaData's loop over a written line appends the line's entries. */
  lemma MetaStepLine(s: MetaState, ops: seq<Op>, term: char)
    requires s.phase == Scanning && s.hit && Parsable(ops, term)
    ensures MetaStep(s, LineText(ops, term)) == s.(ops := s.ops + ops)
  {
    EntryChars(ops[0]);
    NotMetaMarker(LineText(ops, term));
    LineEntriesOf(ops, term, s.ops);
  }

  /** A line of a meta-data file: its entries and the character that closes it. */
  datatype Written = Written(ops: seq<Op>, term: char)

  predicate AllParsable(ws: seq<Written>)
  {
    forall i :: 0 <= i < |ws| ==> Parsable(ws[i].ops, ws[i].term)
  }

  /** A meta-data file: the start marker, the written lines, the end marker. */
  function MetaFile(ws: seq<Written>): (lines: seq<string>)
    requires AllParsable(ws)
    ensures |lines| == |ws| + 2
  {
    [StartMarker(Meta)] + Body(ws) + [EndMarker(Meta)]
  }

  /** The written lines of a meta-data file, one text per line. */
  function Body(ws: seq<Written>): (lines: seq<string>)
    requires AllParsable(ws)
    ensures |lines| == |ws|
    ensures forall i :: 0 <= i < |ws| ==> lines[i] == LineText(ws[i].ops, ws[i].term)
  {
    seq(|ws|, i requires 0 <= i < |ws| => LineText(ws[i].ops, ws[i].term))
  }

  /** The entries of the written lines, line after line. */
  function Entries(ws: seq<Written>): seq<Op>
  {
    if ws == [] then [] else Entries(ws[..|ws| - 1]) + ws[|ws| - 1].ops
  }

  /** The first and the last line of a meta-data file are the markers. */
  lemma MetaFileEnds(ws: seq<Written>)
    requires AllParsable(ws)
    ensures MetaFile(ws)[0] == StartMarker(Meta)
    ensures MetaFile(ws)[|ws| + 1] == EndMarker(Meta)
  {
  }

  /** The entries of the first `k` lines extend those of the first `k - 1` by line `k`'s. */
  lemma EntriesSnoc(ws: seq<Written>, k: nat)
    requires 0 < k <= |ws|
    ensures Entries(ws[..k]) == Entries(ws[..k - 1]) + ws[k - 1].ops
  {
    assert ws[..k][..k - 1] == ws[..k - 1];
  }

  /** Line `i` of a meta-data file reads as itself. */
  lemma MetaFileLine(ws: seq<Written>, i: nat)
    requires AllParsable(ws) && i < |ws| + 2
    ensures ReadLine(MetaFile(ws)[i]) == MetaFile(ws)[i]
  {
    var line := MetaFile(ws)[i];
    if i == 0 {
      MetaFileEnds(ws);
      MetaMarkers();
      assert ReadLine(line) == ReadLine(StartMarker(Meta)) == StartMarker(Meta);
    } else if i == |ws| + 1 {
      MetaFileEnds(ws);
      MetaMarkers();
      assert ReadLine(line) == ReadLine(EndMarker(Meta)) == EndMarker(Meta);
    } else {
      assert line == Body(ws)[i - 1];
      LineReadsAsItself(ws[i - 1].ops, ws[i - 1].term);
    }
  }

  /** Every line of a meta-data file reads as itself. */
  lemma MetaFileReadsAsItself(ws: seq<Written>)
    requires AllParsable(ws)
    ensures Texts(MetaFile(ws)) == MetaFile(ws)
  {
    var f := MetaFile(ws);
    forall i | 0 <= i < |f|
      ensures Texts(f)[i] == f[i]
    {
      MetaFileLine(ws, i);
    }
  }

  /** After the start marker and `k` written lines, the loop holds the entries of those lines. */
  lemma {:induction false} MetaFileRun(ws: seq<Written>, k: nat)
    requires AllParsable(ws) && k <= |ws|
    ensures MetaRun(MetaFile(ws)[..k + 1]) == MetaState(true, Entries(ws[..k]), Scanning)
  {
    var f := MetaFile(ws);
    MetaRunNext(f, k);
    if k == 0 {
      MetaFileEnds(ws);
      assert f[..0] == [];
      assert ws[..0] == [];
    } else {
      MetaFileRun(ws, k - 1);
      assert f[k] == Body(ws)[k - 1];
      MetaStepLine(MetaRun(f[..k]), ws[k - 1].ops, ws[k - 1].term);
      EntriesSnoc(ws, k);
    }
  }

  /**
   * The round trip: processMetaData reads a meta-data file written from
   * entries back as those entries, in order.
   */
  lemma ParseMetaFile(ws: seq<Written>)
    requires AllParsable(ws)
    ensures ParseMeta(MetaFile(ws)) == Some(Entries(ws))
  {
    var f := MetaFile(ws);
    var n := |ws| + 1;
    MetaFileReadsAsItself(ws);
    MetaFileRun(ws, |ws|);
    assert ws[..|ws|] == ws;
    MetaRunNext(f, n);
    MetaFileEnds(ws);
    MetaStepEnd(MetaRun(f[..n]));
    assert f[..n + 1] == f;
  }
}
