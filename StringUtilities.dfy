/**
 * The simulator's own C-string helpers (StringUtilities.c).
 *
 * A C string is a `char` buffer whose text ends at the first NUL.  Each
 * helper is a method over `array<char>` that keeps the C loop, proved
 * against a function on the text (`Content`) that says what it computes.
 */
module StringUtilities {

  const NUL: char := '\0'

  /** The text a C buffer holds: everything before its first NUL. */
  function Content(buf: seq<char>): (r: seq<char>)
    ensures |r| <= |buf| && r == buf[..|r|]
    ensures NUL !in r
    ensures |r| < |buf| ==> buf[|r|] == NUL
  {
    if buf == [] || buf[0] == NUL then []
    else
      var rest := Content(buf[1..]);
      assert buf[..1 + |rest|] == [buf[0]] + buf[1..][..|rest|];
      [buf[0]] + rest
  }

  /** A NUL at `i` with none before it ends the text there. */
  lemma ContentAt(buf: seq<char>, i: nat)
    requires i < |buf| && buf[i] == NUL && NUL !in buf[..i]
    ensures Content(buf) == buf[..i]
  {
    var r := Content(buf);
    assert forall k :: 0 <= k < i ==> buf[k] == buf[..i][k];
  }

  /** With no NUL in the first `i + 1` cells the text is longer than `i`. */
  lemma ContentBeyond(buf: seq<char>, i: nat)
    requires i < |buf| && NUL !in buf[..i + 1]
    ensures |Content(buf)| > i
  {
    var r := Content(buf);
    assert forall k :: 0 <= k <= i ==> buf[k] == buf[..i + 1][k];
  }

  /** A terminated buffer has its NUL after its last non-NUL cell. */
  lemma NulBeyond(buf: seq<char>, i: nat)
    requires NUL in buf && i < |buf| && NUL !in buf[..i + 1]
    ensures i + 1 < |buf|
  {
    var p :| 0 <= p < |buf| && buf[p] == NUL;
    assert forall k :: 0 <= k <= i ==> buf[k] == buf[..i + 1][k];
  }

  /** Text followed by a NUL reads back as that text. */
  lemma ContentOfTerminated(s: seq<char>, tail: seq<char>)
    requires NUL !in s
    ensures Content(s + [NUL] + tail) == s
  {
    var b := s + [NUL] + tail;
    assert b[..|s|] == s;
    ContentAt(b, |s|);
  }

  // ---------------------------------------------------------------------
  // compareString

  /** Buffers that agree up to a cell where they differ hold different texts. */
  lemma ContentDiffers(a: seq<char>, b: seq<char>, i: nat)
    requires i < |a| && i < |b| && a[..i] == b[..i] && NUL !in a[..i]
    requires a[i] != b[i]
    ensures Content(a) != Content(b)
  {
    assert NUL !in b[..i];
    if a[i] == NUL {
      ContentAt(a, i);
      assert NUL !in b[..i + 1];
      ContentBeyond(b, i);
    } else if b[i] == NUL {
      ContentAt(b, i);
      assert NUL !in a[..i + 1];
      ContentBeyond(a, i);
    } else {
      assert NUL !in a[..i + 1] && NUL !in b[..i + 1];
      ContentBeyond(a, i);
      ContentBeyond(b, i);
      assert Content(a)[i] == a[i] && Content(b)[i] == b[i];
    }
  }

  /** compareString: 1 when the two texts are equal, 0 otherwise. */
  method CompareString(str1: array<char>, str2: array<char>) returns (r: int)
    requires NUL in str1[..] && NUL in str2[..]
    ensures r == 1 || r == 0
    ensures r == 1 <==> Content(str1[..]) == Content(str2[..])
  {
    var strCmpInd := 0;
    while true
      invariant strCmpInd < str1.Length && strCmpInd < str2.Length
      invariant str1[..strCmpInd] == str2[..strCmpInd]
      invariant NUL !in str1[..strCmpInd]
      decreases str1.Length - strCmpInd
    {
      if str1[strCmpInd] == str2[strCmpInd] {
        if str1[strCmpInd] == NUL && str2[strCmpInd] == NUL {
          ContentAt(str1[..], strCmpInd);
          ContentAt(str2[..], strCmpInd);
          return 1;
        } else {
          assert str1[..strCmpInd + 1] == str1[..strCmpInd] + [str1[strCmpInd]];
          assert str2[..strCmpInd + 1] == str2[..strCmpInd] + [str2[strCmpInd]];
          NulBeyond(str1[..], strCmpInd);
          NulBeyond(str2[..], strCmpInd);
          strCmpInd := strCmpInd + 1;
        }
      } else {
        ContentDiffers(str1[..], str2[..], strCmpInd);
        return 0;
      }
    }
  }

  // ---------------------------------------------------------------------
  // splitString

  /** Position of the first `c` in `s`, or `|s|` when `c` does not occur. */
  function IndexOf(s: seq<char>, c: char): (i: nat)
    ensures i <= |s| && c !in s[..i]
    ensures i < |s| ==> s[i] == c
    ensures c in s <==> i < |s|
  {
    if s == [] || s[0] == c then 0
    else
      var j := IndexOf(s[1..], c);
      assert s[..1 + j] == [s[0]] + s[1..][..j];
      1 + j
  }

  /** Text left of the first `d` (all of `s` when there is none). */
  function Before(s: seq<char>, d: char): (r: seq<char>)
    ensures d !in r && |r| <= |s|
    ensures r == s[..|r|]
  {
    s[..IndexOf(s, d)]
  }

  /** Text right of the first `d`. */
  function After(s: seq<char>, d: char): (r: seq<char>)
    requires d in s
    ensures |r| < |s|
  {
    s[IndexOf(s, d) + 1..]
  }

  /** Splitting at the first delimiter loses only that delimiter. */
  lemma SplitRejoins(s: seq<char>, d: char)
    requires d in s
    ensures Before(s, d) + [d] + After(s, d) == s
    ensures d !in Before(s, d)
  {
    var i := IndexOf(s, d);
    assert s == s[..i] + [s[i]] + s[i + 1..];
  }

  /** `buf` after the text `t` and its NUL are written over its first cells. */
  function Terminate(t: seq<char>, buf: seq<char>): (r: seq<char>)
    requires |t| < |buf|
    ensures |r| == |buf|
    ensures NUL !in t ==> Content(r) == t
  {
    var r := t + [NUL] + buf[|t| + 1..];
    if NUL !in t then ContentOfTerminated(t, buf[|t| + 1..]); r else r
  }

  /** A buffer that agrees with `Terminate(t, buf)` cell by cell is it. */
  lemma TerminateByCells(a: seq<char>, t: seq<char>, buf: seq<char>)
    requires |t| < |buf| == |a| && a[|t|] == NUL
    requires forall k :: 0 <= k < |t| ==> a[k] == t[k]
    requires forall k :: |t| < k < |a| ==> a[k] == buf[k]
    ensures a == Terminate(t, buf)
  {
  }

  /**
   * splitString: copies the text left of the first `delimiter` into `left`
   * and, when the delimiter occurs, the text right of it into `right`,
   * each NUL-terminated; returns 1 when the delimiter was found, else 0
   * and `right` is untouched.  `right` may be `buffer` itself (it is
   * written strictly behind the read position), `left` may not.
   */
  method SplitString(buffer: array<char>, left: array<char>, right: array<char>, delimiter: char)
    returns (r: int)
    requires NUL in buffer[..] && delimiter != NUL
    requires left != buffer && left != right
    requires |Before(Content(buffer[..]), delimiter)| < left.Length
    requires delimiter in Content(buffer[..]) ==>
               |After(Content(buffer[..]), delimiter)| < right.Length
    modifies left, right
    ensures r == 1 || r == 0
    ensures r == 1 <==> delimiter in old(Content(buffer[..]))
    ensures left[..] == Terminate(Before(old(Content(buffer[..])), delimiter), old(left[..]))
    ensures Content(left[..]) == Before(old(Content(buffer[..])), delimiter)
    ensures r == 1 ==> right[..] == Terminate(After(old(Content(buffer[..])), delimiter), old(right[..]))
    ensures r == 1 ==> Content(right[..]) == After(old(Content(buffer[..])), delimiter)
    ensures r == 0 ==> right[..] == old(right[..])
  {
    ghost var b0 := buffer[..];
    ghost var text := Content(b0);
    ghost var right0 := right[..];
    ghost var left0 := left[..];
    ghost var idx := IndexOf(text, delimiter);
    StopCell(b0, delimiter);
    SplitCells(b0, delimiter);
    var bufferIndex, found := CopyLeft(buffer, left, delimiter, idx);
    TerminateByCells(left[..], text[..idx], left0);
    if !found {
      return 0;
    }
    var splitIndex := bufferIndex + 1;
    assert buffer[..] == b0;
    CopyRight(buffer, right, splitIndex, |text|);
    return 1;
  }

  /** The cells of a terminated buffer that hold the two halves of its text. */
  lemma SplitCells(b: seq<char>, d: char)
    requires NUL in b && d != NUL
    ensures var t := Content(b); var i := IndexOf(t, d);
            && i <= |t| < |b| && b[|t|] == NUL
            && Before(t, d) == t[..i] && NUL !in Before(t, d)
            && (d in t ==> After(t, d) == b[i + 1..|t|] && NUL !in After(t, d))
  {
    var t := Content(b);
    var i := IndexOf(t, d);
    TextEnds(b);
    NotInSlice(t, 0, NUL);
    assert t[..i] == t[0..][..i];
    if d in t {
      assert t == b[..|t|];
      NotInSlice(t, i + 1, NUL);
    }
  }

  /**
   * The first loop of splitString: copies `buffer` into `left` up to the
   * first `delimiter` or NUL, which lies at `idx`, and puts a NUL in its
   * place; returns where it stopped and whether it stopped at the delimiter.
   */
  method CopyLeft(buffer: array<char>, left: array<char>, delimiter: char, ghost idx: nat)
    returns (bufferIndex: nat, found: bool)
    requires left != buffer && idx < buffer.Length && idx < left.Length
    requires forall k :: 0 <= k < idx ==> buffer[k] != delimiter && buffer[k] != NUL
    requires buffer[idx] == delimiter || buffer[idx] == NUL
    modifies left
    ensures bufferIndex == idx
    ensures found <==> buffer[idx] == delimiter
    ensures forall k :: 0 <= k < idx ==> left[k] == buffer[k]
    ensures left[idx] == NUL
    ensures forall k :: idx < k < left.Length ==> left[k] == old(left[k])
  {
    bufferIndex := 0;
    while true
      invariant 0 <= bufferIndex <= idx
      invariant forall k :: 0 <= k < bufferIndex ==> left[k] == buffer[k]
      invariant forall k :: bufferIndex <= k < left.Length ==> left[k] == old(left[k])
      modifies left
      decreases idx - bufferIndex
    {
      if buffer[bufferIndex] == delimiter {
        left[bufferIndex] := NUL;
        return bufferIndex, true;
      }
      if buffer[bufferIndex] == NUL {
        left[bufferIndex] := NUL;
        return bufferIndex, false;
      }
      left[bufferIndex] := buffer[bufferIndex];
      bufferIndex := bufferIndex + 1;
    }
  }

  /**
   * Where the first loop of splitString stops: every cell before the
   * first `d` of the text is a text character other than `d` and NUL, and
   * the cell there holds `d` exactly when the text contains it, else NUL.
   */
  lemma StopCell(b: seq<char>, d: char)
    requires NUL in b && d != NUL
    ensures var t := Content(b); var i := IndexOf(t, d);
            && i < |b|
            && (forall k :: 0 <= k < i ==> b[k] == t[k] && b[k] != d && b[k] != NUL)
            && (b[i] == d <==> d in t)
            && (b[i] != d ==> b[i] == NUL)
  {
    var t := Content(b);
    var i := IndexOf(t, d);
    TextEnds(b);
    assert forall k :: 0 <= k < i ==> t[..i][k] == t[k];
  }

  /** A character absent from `s` is absent from each of its suffixes. */
  lemma NotInSlice(s: seq<char>, i: nat, c: char)
    requires i <= |s| && c !in s
    ensures c !in s[i..]
  {
    assert forall k :: 0 <= k < |s| - i ==> s[i..][k] == s[i + k];
  }

  /**
   * The second loop of splitString: copies the cells of `buffer` from
   * `splitIndex` up to its NUL at `n`, and that NUL, to the front of
   * `right`.  Each cell is read before any write can reach it, so `right`
   * may be `buffer`.
   */
  method CopyRight(buffer: array<char>, right: array<char>, splitIndex: nat, ghost n: nat)
    requires splitIndex <= n < buffer.Length && buffer[n] == NUL
    requires NUL !in buffer[splitIndex..n]
    requires n - splitIndex < right.Length
    modifies right
    ensures right[..] == Terminate(old(buffer[splitIndex..n]), old(right[..]))
  {
    ghost var b0 := buffer[..];
    ghost var r0 := right[..];
    assert forall k :: splitIndex <= k < n ==> b0[k] == buffer[splitIndex..n][k - splitIndex];
    var bufferIndex := splitIndex;
    while true
      invariant splitIndex <= bufferIndex <= n
      invariant forall k :: bufferIndex <= k < buffer.Length ==> buffer[k] == b0[k]
      invariant forall k :: 0 <= k < bufferIndex - splitIndex ==> right[k] == b0[splitIndex + k]
      invariant forall k :: bufferIndex - splitIndex <= k < right.Length ==> right[k] == r0[k]
      modifies right
      decreases n - bufferIndex
    {
      if buffer[bufferIndex] == NUL {
        right[bufferIndex - splitIndex] := NUL;
        TerminateByCells(right[..], b0[splitIndex..n], r0);
        return;
      }
      right[bufferIndex - splitIndex] := buffer[bufferIndex];
      bufferIndex := bufferIndex + 1;
    }
  }

  // ---------------------------------------------------------------------
  // copyString

  /**
   * copyString: a NULL pointer is returned as is; otherwise a fresh buffer
   * holding exactly the text and its NUL.
   */
  method CopyString(str: array?<char>) returns (copy: array?<char>)
    requires str != null ==> NUL in str[..]
    ensures str == null <==> copy == null
    ensures str != null ==>
              && fresh(copy)
              && copy[..] == Content(str[..]) + [NUL]
              && Content(copy[..]) == Content(str[..])
  {
    if str == null {
      return str;
    }
    ghost var text := Content(str[..]);

    var stringLength := 0;
    while true
      invariant stringLength <= |text|
      decreases |text| - stringLength
    {
      var c := str[stringLength];
      stringLength := stringLength + 1;
      if c != NUL {
        continue;
      } else {
        break;
      }
    }
    assert stringLength == |text| + 1;

    copy := new char[stringLength];
    var index := 0;
    while index < stringLength
      invariant 0 <= index <= stringLength
      invariant copy[..index] == str[..index]
    {
      copy[index] := str[index];
      index := index + 1;
    }
    assert copy[..] == str[..stringLength] == text + [NUL];
    ContentOfTerminated(text, []);
  }

  // ---------------------------------------------------------------------
  // stringToInt

  /**
   * The number stringToInt's digit loop builds from `s`: spaces are
   * skipped, every other character `c` shifts the total one decimal place
   * and adds `c - '0'` (nothing checks that `c` is a digit).
   */
  function Accumulate(s: seq<char>): int
  {
    if s == [] then 0
    else if s[|s| - 1] == ' ' then Accumulate(s[..|s| - 1])
    else Accumulate(s[..|s| - 1]) * 10 + (s[|s| - 1] as int - '0' as int)
  }

  /** The value stringToInt gives the text `s`: one leading sign, then `Accumulate`. */
  function ToInt(s: seq<char>): int
  {
    if |s| > 0 && s[0] == '-' then -Accumulate(s[1..])
    else if |s| > 0 && s[0] == '+' then Accumulate(s[1..])
    else Accumulate(s)
  }

  /** stringToInt over a NUL-terminated buffer. */
  method StringToInt(str: array<char>) returns (r: int)
    requires NUL in str[..]
    ensures r == ToInt(Content(str[..]))
  {
    ghost var b := str[..];
    ghost var text := Content(b);
    TextEnds(b);
    var integer := 0;
    var sign := 1;
    var p := 0;
    if str[p] == '-' {
      sign := -1;
      p := p + 1;
    } else if str[p] == '+' {
      p := p + 1;
    }
    ghost var start := p;

    while str[p] != NUL
      invariant start <= p <= |text|
      invariant integer == Accumulate(text[start..p])
      decreases |text| - p
    {
      AccumulateStep(text, start, p);
      if str[p] == ' ' {
        p := p + 1;
        continue;
      }
      integer := integer * 10 + (str[p] as int - '0' as int);
      p := p + 1;
    }
    assert str[p] == b[p];
    assert p == |text|;
    assert text[start..p] == text[start..];
    r := integer * sign;
  }

  /** The digit loop's total after one more character. */
  lemma AccumulateStep(s: seq<char>, start: nat, p: nat)
    requires start <= p < |s|
    ensures Accumulate(s[start..p + 1])
            == if s[p] == ' ' then Accumulate(s[start..p])
               else Accumulate(s[start..p]) * 10 + (s[p] as int - '0' as int)
  {
    assert s[start..p + 1][..p - start] == s[start..p];
  }

  /** 10 to the power `n`. */
  function Pow10(n: nat): (r: nat)
    ensures r >= 1
  {
    if n == 0 then 1 else 10 * Pow10(n - 1)
  }

  /** Positional value of a string of digits: digit k from the right weighs 10^k. */
  function DecimalValue(d: seq<char>): int
  {
    if d == [] then 0
    else (d[0] as int - '0' as int) * Pow10(|d| - 1) + DecimalValue(d[1..])
  }

  /** `s` with its spaces removed. */
  function RemoveSpaces(s: seq<char>): (r: seq<char>)
    ensures ' ' !in r && |r| <= |s|
  {
    if s == [] then []
    else (if s[0] == ' ' then [] else [s[0]]) + RemoveSpaces(s[1..])
  }

  lemma {:induction false} RemoveSpacesSnoc(s: seq<char>, c: char)
    ensures RemoveSpaces(s + [c]) == RemoveSpaces(s) + (if c == ' ' then [] else [c])
    decreases |s|
  {
    if s == [] {
      assert RemoveSpaces([c]) == (if c == ' ' then [] else [c]) + RemoveSpaces([]);
    } else {
      assert (s + [c])[1..] == s[1..] + [c];
      RemoveSpacesSnoc(s[1..], c);
    }
  }

  lemma {:induction false} DecimalValueSnoc(d: seq<char>, c: char)
    ensures DecimalValue(d + [c]) == DecimalValue(d) * 10 + (c as int - '0' as int)
    decreases |d|
  {
    if d == [] {
      assert DecimalValue([c]) == (c as int - '0' as int) * Pow10(0) + DecimalValue([]);
    } else {
      assert (d + [c])[1..] == d[1..] + [c];
      DecimalValueSnoc(d[1..], c);
      var a, p, rest := d[0] as int - '0' as int, Pow10(|d| - 1), DecimalValue(d[1..]);
      assert Pow10(|d|) == 10 * p;
      assert a * (10 * p) == (a * p) * 10;
      assert DecimalValue(d + [c]) == a * (10 * p) + rest * 10 + (c as int - '0' as int);
    }
  }

  /**
   * stringToInt reads the digits of `s`, spaces anywhere ignored, as an
   * ordinary decimal numeral.
   */
  lemma {:induction false} AccumulateIsDecimal(s: seq<char>)
    ensures Accumulate(s) == DecimalValue(RemoveSpaces(s))
    decreases |s|
  {
    if s != [] {
      var init, c := s[..|s| - 1], s[|s| - 1];
      assert s == init + [c];
      assert s[..|s| - 1] == init;
      AccumulateIsDecimal(init);
      RemoveSpacesSnoc(init, c);
      if c == ' ' {
        assert RemoveSpaces(s) == RemoveSpaces(init);
        assert Accumulate(s) == Accumulate(init);
      } else {
        DecimalValueSnoc(RemoveSpaces(init), c);
        assert Accumulate(s) == Accumulate(init) * 10 + (c as int - '0' as int);
      }
    }
  }

  /** A signed numeral: the sign applies to the decimal value of its digits. */
  lemma SignedNumeral(sign: char, digits: seq<char>)
    requires sign == '-' || sign == '+'
    ensures ToInt([sign] + digits) ==
              (if sign == '-' then -1 else 1) * DecimalValue(RemoveSpaces(digits))
  {
    assert ([sign] + digits)[1..] == digits;
    AccumulateIsDecimal(digits);
  }

  // ---------------------------------------------------------------------
  // stripString

  /**
   * The text stripString leaves: one leading space dropped, then cut at
   * the first newline.
   */
  function Strip(s: seq<char>): (r: seq<char>)
    ensures '\n' !in r
    ensures (s == [] || s[0] != ' ') && '\n' !in s ==> r == s
    ensures |r| <= |s|
  {
    var t := if |s| > 0 && s[0] == ' ' then s[1..] else s;
    Before(t, '\n')
  }

  /** A terminated buffer holds its NUL right after its text. */
  lemma TextEnds(b: seq<char>)
    requires NUL in b
    ensures |Content(b)| < |b| && b[|Content(b)|] == NUL
    ensures forall k :: 0 <= k < |Content(b)| ==> b[k] == Content(b)[k] && b[k] != NUL
  {
    var p :| 0 <= p < |b| && b[p] == NUL;
    assert forall k :: 0 <= k < |Content(b)| ==> Content(b)[k] == b[k];
  }

  /** `b` after the first `n` cells and the NUL at `n` move one cell left. */
  function Shifted(b: seq<char>, n: nat): (r: seq<char>)
    requires n < |b|
    ensures |r| == |b|
  {
    b[1..n + 1] + b[n..]
  }

  /** `b` with a NUL over the first newline among its first `n` cells. */
  function Cut(b: seq<char>, n: nat): (r: seq<char>)
    requires n <= |b|
    ensures |r| == |b|
  {
    var q := IndexOf(b[..n], '\n');
    if q < n then b[q := NUL] else b
  }

  /** The whole buffer stripString leaves: shifted left when it starts with a space, then cut. */
  function StripBuffer(b: seq<char>): (r: seq<char>)
    requires NUL in b
    ensures |r| == |b|
  {
    TextEnds(b);
    var n := |Content(b)|;
    if b[0] == ' ' then Cut(Shifted(b, n), n - 1) else Cut(b, n)
  }

  /** Cutting a terminated text at its first newline leaves the text before it. */
  lemma CutContent(t: seq<char>, tail: seq<char>)
    requires NUL !in t
    ensures Content(Cut(t + [NUL] + tail, |t|)) == Before(t, '\n')
  {
    var c := t + [NUL] + tail;
    assert c[..|t|] == t;
    var q := IndexOf(t, '\n');
    if q < |t| {
      assert c[q := NUL] == t[..q] + [NUL] + c[q + 1..];
      assert NUL !in t[..q] by {
        assert forall k :: 0 <= k < q ==> t[..q][k] == t[k];
      }
      ContentOfTerminated(t[..q], c[q + 1..]);
    } else {
      ContentOfTerminated(t, tail);
    }
  }

  /** A terminated buffer is its text, the NUL, and whatever follows. */
  lemma Decompose(b: seq<char>)
    requires NUL in b
    ensures |Content(b)| < |b| && b == Content(b) + [NUL] + b[|Content(b)| + 1..]
  {
    TextEnds(b);
    var n := |Content(b)|;
    assert b[..n] == Content(b);
    assert b == b[..n] + [b[n]] + b[n + 1..];
  }

  /** Shifting a buffer whose text starts at cell 0 drops the text's first character. */
  lemma ShiftedText(b: seq<char>, text: seq<char>, rest: seq<char>)
    requires 0 < |text| && b == text + [NUL] + rest
    ensures Shifted(b, |text|) == text[1..] + [NUL] + b[|text|..]
  {
    var n := |text|;
    assert b[1..n + 1] == text[1..] + [NUL];
  }

  /** The buffer stripString leaves holds the stripped text. */
  lemma StripBufferContent(b: seq<char>)
    requires NUL in b
    ensures Content(StripBuffer(b)) == Strip(Content(b))
  {
    var text := Content(b);
    Decompose(b);
    var n := |text|;
    var rest := b[n + 1..];
    if b[0] == ' ' {
      assert text[0] == ' ';
      var t := text[1..];
      ShiftedText(b, text, rest);
      NotInSlice(text, 1, NUL);
      CutContent(t, b[n..]);
      assert StripBuffer(b) == Cut(t + [NUL] + b[n..], |t|);
      assert Strip(text) == Before(t, '\n');
    } else {
      CutContent(text, rest);
      assert StripBuffer(b) == Cut(text + [NUL] + rest, |text|);
      assert Strip(text) == Before(text, '\n');
    }
  }

  /** stripString, in place. */
  method StripString(str: array<char>)
    requires NUL in str[..]
    modifies str
    ensures str[..] == StripBuffer(old(str[..]))
    ensures Content(str[..]) == Strip(old(Content(str[..])))
  {
    ghost var b := str[..];
    TextEnds(b);
    ghost var n := |Content(b)|;
    ghost var m := n;
    if str[0] == ' ' {
      ShiftLeft(str, n);
      m := n - 1;
    }
    CutAtNewline(str, m);
    StripBufferContent(b);
  }

  /** The shift of stripString: every cell of the text, and its NUL at `n`, moves one cell left. */
  method ShiftLeft(str: array<char>, ghost n: nat)
    requires 0 < n < str.Length && str[n] == NUL
    requires forall k :: 0 <= k < n ==> str[k] != NUL
    modifies str
    ensures str[..] == Shifted(old(str[..]), n)
    ensures str[n - 1] == NUL && forall k :: 0 <= k < n - 1 ==> str[k] != NUL
  {
    ghost var b := str[..];
    var index := 0;
    while str[index] != NUL
      invariant 0 <= index <= n
      invariant forall k :: 0 <= k < index ==> str[k] == b[k + 1]
      invariant forall k :: index <= k < str.Length ==> str[k] == b[k]
      decreases n - index
    {
      str[index] := str[index + 1];
      index := index + 1;
    }
    ShiftedPointwise(str[..], b, n);
  }

  /** A buffer that agrees cell by cell with `Shifted(b, n)` is it. */
  lemma ShiftedPointwise(s: seq<char>, b: seq<char>, n: nat)
    requires n < |b| && |s| == |b|
    requires forall k :: 0 <= k < n ==> s[k] == b[k + 1]
    requires forall k :: n <= k < |s| ==> s[k] == b[k]
    ensures s == Shifted(b, n)
  {
    assert s[..n] == b[1..n + 1];
    assert s[n..] == b[n..];
    assert s == s[..n] + s[n..];
  }

  /** The cut of stripString: a NUL replaces the first newline before the NUL at `n`. */
  method CutAtNewline(str: array<char>, ghost n: nat)
    requires n < str.Length && str[n] == NUL
    requires forall k :: 0 <= k < n ==> str[k] != NUL
    modifies str
    ensures str[..] == Cut(old(str[..]), n)
  {
    ghost var b := str[..];
    var index := 0;
    while str[index] != NUL
      invariant 0 <= index <= n
      invariant forall k :: 0 <= k < index ==> str[k] != '\n'
      decreases n - index
    {
      if str[index] == '\n' {
        assert IndexOf(b[..n], '\n') == index by {
          assert forall k :: 0 <= k < index ==> b[..n][..index][k] == b[k];
        }
        str[index] := NUL;
        return;
      }
      index := index + 1;
    }
    assert IndexOf(b[..n], '\n') == n by {
      assert forall k :: 0 <= k < n ==> b[..n][k] == b[k];
    }
  }
}
