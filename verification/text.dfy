/**
 * The few Python string operations the parser depends on:
 * str.split() with no argument, str.replace of one character,
 * str.startswith of one character and int() of a token.
 */
module Text {
  import opened Outcomes

  /** The characters str.isspace() accepts, which str.split() splits on. */
  const Whitespace: set<char> := {
    ' ', '\t', '\n', '\U{b}', '\U{c}', '\r', '\U{1c}', '\U{1d}', '\U{1e}', '\U{1f}',
    '\U{85}', '\U{a0}', '\U{1680}',
    '\U{2000}', '\U{2001}', '\U{2002}', '\U{2003}', '\U{2004}', '\U{2005}',
    '\U{2006}', '\U{2007}', '\U{2008}', '\U{2009}', '\U{200a}',
    '\U{2028}', '\U{2029}', '\U{202f}', '\U{205f}', '\U{3000}'}

  predicate IsSpace(c: char) {
    c in Whitespace
  }

  /** A field str.split() can return: non-empty, free of whitespace. */
  predicate IsWord(w: string) {
    |w| > 0 && forall i :: 0 <= i < |w| ==> !IsSpace(w[i])
  }

  /** Length of the run of non-space characters at the start of s. */
  function WordLen(s: string): (n: nat)
    ensures n <= |s|
  {
    if s == [] || IsSpace(s[0]) then 0 else 1 + WordLen(s[1..])
  }

  /** The run WordLen measures is space-free, and it is maximal. */
  lemma {:induction false} WordLenRun(s: string)
    ensures forall i :: 0 <= i < WordLen(s) ==> !IsSpace(s[i])
    ensures WordLen(s) < |s| ==> IsSpace(s[WordLen(s)])
    decreases |s|
  {
    if s != [] && !IsSpace(s[0]) {
      WordLenRun(s[1..]);
      assert forall i :: 1 <= i < WordLen(s) ==> s[i] == s[1..][i - 1];
    }
  }

  /** s.split(): the maximal runs of non-space characters, in order. */
  function Words(s: string): seq<string>
    decreases |s|
  {
    if s == [] then []
    else if IsSpace(s[0]) then Words(s[1..])
    else
      var n := WordLen(s);
      [s[..n]] + Words(s[n..])
  }

  /** split() returns only non-empty fields that hold no whitespace. */
  lemma {:induction false} WordsAreWords(s: string)
    ensures forall i :: 0 <= i < |Words(s)| ==> IsWord(Words(s)[i])
    decreases |s|
  {
    if s != [] {
      if IsSpace(s[0]) {
        WordsAreWords(s[1..]);
      } else {
        var n := WordLen(s);
        WordLenRun(s);
        WordsAreWords(s[n..]);
        var ws := Words(s);
        assert ws == [s[..n]] + Words(s[n..]);
        forall i | 0 <= i < |ws|
          ensures IsWord(ws[i])
        {
          if i > 0 {
            assert ws[i] == Words(s[n..])[i - 1];
          }
        }
      }
    }
  }

  /** " ".join(ws) */
  function Join(ws: seq<string>): string
  {
    if ws == [] then []
    else if |ws| == 1 then ws[0]
    else ws[0] + " " + Join(ws[1..])
  }

  lemma {:induction false} WordLenOfRun(w: string, rest: string)
    requires forall i :: 0 <= i < |w| ==> !IsSpace(w[i])
    requires rest == [] || IsSpace(rest[0])
    ensures WordLen(w + rest) == |w|
  {
    if w == [] {
      assert w + rest == rest;
    } else {
      assert (w + rest)[1..] == w[1..] + rest;
      WordLenOfRun(w[1..], rest);
    }
  }

  /** A word followed by a space (or nothing) splits off as the first field. */
  lemma WordsOfWord(w: string, rest: string)
    requires IsWord(w)
    requires rest == [] || IsSpace(rest[0])
    ensures Words(w + rest) == [w] + Words(rest)
  {
    var s := w + rest;
    WordLenOfRun(w, rest);
    assert s[..|w|] == w;
    assert s[|w|..] == rest;
  }

  /** split() inverts " ".join() on words: the field-count checks see exactly the fields written. */
  lemma {:induction false} WordsOfJoin(ws: seq<string>)
    requires forall i :: 0 <= i < |ws| ==> IsWord(ws[i])
    ensures Words(Join(ws)) == ws
  {
    if ws == [] {
    } else if |ws| == 1 {
      WordsOfWord(ws[0], []);
      assert ws[0] + [] == ws[0];
    } else {
      var tail := Join(ws[1..]);
      WordsOfJoin(ws[1..]);
      assert ws[0] + " " + tail == ws[0] + (" " + tail);
      WordsOfWord(ws[0], " " + tail);
      assert (" " + tail)[1..] == tail;
    }
  }

  /** s.replace(c, d) for single characters c and d. */
  function Replace(s: string, c: char, d: char): (r: string)
    ensures |r| == |s|
    ensures forall i :: 0 <= i < |s| ==> r[i] == (if s[i] == c then d else s[i])
  {
    if s == [] then [] else [if s[0] == c then d else s[0]] + Replace(s[1..], c, d)
  }

  /** After the rewrite no c is left, and rewriting again changes nothing. */
  lemma ReplaceRemoves(s: string, c: char, d: char)
    requires c != d
    ensures c !in Replace(s, c, d)
    ensures Replace(Replace(s, c, d), c, d) == Replace(s, c, d)
  {
    var r := Replace(s, c, d);
    assert forall i :: 0 <= i < |r| ==> r[i] != c;
  }

  /** s.startswith(c) for a single character c. */
  predicate StartsWith(s: string, c: char) {
    |s| > 0 && s[0] == c
  }

  predicate IsDigit(c: char) {
    '0' <= c <= '9'
  }

  predicate IsDigits(s: string) {
    |s| > 0 && forall i :: 0 <= i < |s| ==> IsDigit(s[i])
  }

  /** The value of a decimal digit string, most significant digit first. */
  function DigitsValue(s: string): nat
    requires forall i :: 0 <= i < |s| ==> IsDigit(s[i])
  {
    if s == [] then 0 else DigitsValue(s[..|s| - 1]) * 10 + DigitValue(s[|s| - 1])
  }

  function DigitValue(c: char): nat
    requires IsDigit(c)
  {
    c as int - '0' as int
  }

  /** int(tok) for a token without surrounding whitespace: an optional sign, then decimal digits. */
  function ParseInt(tok: string): Option<int>
  {
    if |tok| > 0 && tok[0] == '-' && IsDigits(tok[1..]) then Some(0 - DigitsValue(tok[1..]) as int)
    else if |tok| > 0 && tok[0] == '+' && IsDigits(tok[1..]) then Some(DigitsValue(tok[1..]))
    else if IsDigits(tok) then Some(DigitsValue(tok))
    else None
  }

  function Digit(n: nat): char
    requires n < 10
  {
    ('0' as int + n) as char
  }

  /** str(n) for a non-negative n. */
  function NatToString(n: nat): (s: string)
    ensures IsDigits(s)
  {
    if n < 10 then [Digit(n)] else NatToString(n / 10) + [Digit(n % 10)]
  }

  /** str(n) */
  function IntToString(n: int): string
  {
    if n < 0 then "-" + NatToString(-n) else NatToString(n)
  }

  lemma {:induction false} DigitsValueOfNatToString(n: nat)
    ensures DigitsValue(NatToString(n)) == n
  {
    if n >= 10 {
      var s := NatToString(n);
      assert s[..|s| - 1] == NatToString(n / 10);
      DigitsValueOfNatToString(n / 10);
    }
  }

  /** int() reads back every integer that str() writes. */
  lemma IntRoundTrip(n: int)
    ensures ParseInt(IntToString(n)) == Some(n)
  {
    if n < 0 {
      var s := NatToString(-n);
      assert ("-" + s)[1..] == s;
      DigitsValueOfNatToString(-n);
    } else {
      DigitsValueOfNatToString(n);
    }
  }

  /** int() rejects a token holding a decimal point, such as "3.0". */
  lemma ParseIntRejectsPoint(tok: string, k: nat)
    requires k < |tok| && tok[k] == '.'
    ensures ParseInt(tok) == None
  {
    if k > 0 {
      assert tok[1..][k - 1] == '.';
    }
  }
}
