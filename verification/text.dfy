/** The JavaScript string operations the modelled handlers rely on:
    `String.prototype.trim`, `split(' ')`, `join(' ')` and the index scans
    behind the brace-span regular expression. Strings are sequences of
    Unicode scalar values; the UTF-16 representation of JavaScript is not
    modelled. */
module Text {
  import opened Wrappers

  /** A code point removed by `String.prototype.trim`: the ECMAScript
      WhiteSpace code points (TAB, VT, FF, ZWNBSP and every space separator
      of category Zs) and the LineTerminator code points (LF, CR, LS, PS). */
  predicate IsJsWhitespace(c: char) {
    || c == '\t' || c == '\U{000B}' || c == '\U{000C}' || c == '\U{FEFF}'
    || c == ' ' || c == '\U{00A0}' || c == '\U{1680}'
    || ('\U{2000}' <= c <= '\U{200A}')
    || c == '\U{202F}' || c == '\U{205F}' || c == '\U{3000}'
    || c == '\n' || c == '\r' || c == '\U{2028}' || c == '\U{2029}'
  }

  /** Every character of `s` is one that `trim` removes. */
  predicate IsBlank(s: string) {
    forall i :: 0 <= i < |s| ==> IsJsWhitespace(s[i])
  }

  /** `s` with its leading whitespace removed. */
  function TrimStart(s: string): (r: string)
    ensures |r| <= |s| && r == s[|s| - |r|..]
    ensures forall i :: 0 <= i < |s| - |r| ==> IsJsWhitespace(s[i])
    ensures r == [] || !IsJsWhitespace(r[0])
    decreases |s|
  {
    if |s| > 0 && IsJsWhitespace(s[0]) then TrimStart(s[1..]) else s
  }

  /** `s` with its trailing whitespace removed. */
  function TrimEnd(s: string): (r: string)
    ensures |r| <= |s| && r == s[..|r|]
    ensures forall i :: |r| <= i < |s| ==> IsJsWhitespace(s[i])
    ensures r == [] || !IsJsWhitespace(r[|r| - 1])
    decreases |s|
  {
    if |s| > 0 && IsJsWhitespace(s[|s| - 1]) then TrimEnd(s[..|s| - 1]) else s
  }

  /** `String.prototype.trim`: the trimmed string is empty exactly when
      every character of `s` is whitespace, and otherwise it neither starts
      nor ends with whitespace. */
  function Trim(s: string): (r: string)
    ensures r == [] <==> IsBlank(s)
    ensures r != [] ==> !IsJsWhitespace(r[0]) && !IsJsWhitespace(r[|r| - 1])
  {
    TrimEnd(TrimStart(s))
  }

  /** `s.split(' ')`: the pieces between single spaces, in order. Two
      adjacent spaces give an empty piece, and the empty string gives one
      empty piece, as in JavaScript. */
  function Split(s: string): (r: seq<string>)
    ensures |r| >= 1
    ensures forall i :: 0 <= i < |r| ==> ' ' !in r[i]
    decreases |s|
  {
    if s == [] then [""]
    else
      var rest := Split(s[1..]);
      if s[0] == ' ' then [""] + rest
      else [[s[0]] + rest[0]] + rest[1..]
  }

  /** `pieces.join(' ')`. */
  function Join(pieces: seq<string>): string
    decreases |pieces|
  {
    if |pieces| == 0 then ""
    else if |pieces| == 1 then pieces[0]
    else pieces[0] + " " + Join(pieces[1..])
  }

  /** Number of occurrences of `c` in `s`. */
  function Count(s: string, c: char): nat
    decreases |s|
  {
    if s == [] then 0 else (if s[0] == c then 1 else 0) + Count(s[1..], c)
  }

  /** Joining the pieces of a split with a space gives back the string. */
  lemma {:induction false} JoinSplit(s: string)
    ensures Join(Split(s)) == s
    decreases |s|
  {
    if s != [] {
      var rest := Split(s[1..]);
      JoinSplit(s[1..]);
      if s[0] == ' ' {
        assert Split(s) == [""] + rest;
        assert (["" ] + rest)[1..] == rest;
        assert Join(Split(s)) == "" + " " + Join(rest);
      } else {
        var head := [s[0]] + rest[0];
        assert Split(s) == [head] + rest[1..];
        if |rest| == 1 {
          assert Join(Split(s)) == head;
          assert Join(rest) == rest[0];
        } else {
          assert ([head] + rest[1..])[1..] == rest[1..];
          assert Join(Split(s)) == head + " " + Join(rest[1..]);
          assert Join(rest) == rest[0] + " " + Join(rest[1..]);
        }
        assert s == [s[0]] + s[1..];
      }
    }
  }

  /** A string without a space splits into itself alone. */
  lemma {:induction false} SplitNoSpace(a: string)
    requires ' ' !in a
    ensures Split(a) == [a]
    decreases |a|
  {
    if a != [] {
      assert ' ' !in a[1..] by {
        forall i | 0 <= i < |a[1..]| ensures a[1..][i] != ' ' {
          assert a[1..][i] == a[i + 1];
        }
      }
      SplitNoSpace(a[1..]);
      assert a == [a[0]] + a[1..];
    }
  }

  /** Splitting a space-free word followed by a space and more text yields
      the word, then the split of the rest. */
  lemma {:induction false} SplitAfterWord(a: string, b: string)
    requires ' ' !in a
    ensures Split(a + " " + b) == [a] + Split(b)
    decreases |a|
  {
    var s := a + " " + b;
    if a == [] {
      assert s == " " + b;
      assert s[1..] == b;
    } else {
      assert s[1..] == a[1..] + " " + b;
      assert ' ' !in a[1..] by {
        forall i | 0 <= i < |a[1..]| ensures a[1..][i] != ' ' {
          assert a[1..][i] == a[i + 1];
        }
      }
      SplitAfterWord(a[1..], b);
      var rest := Split(s[1..]);
      assert rest == [a[1..]] + Split(b);
      assert [s[0]] + rest[0] == a;
      assert rest[1..] == Split(b);
    }
  }

  /** The converse round trip: a non-empty list of space-free pieces is
      recovered by splitting its join. */
  lemma {:induction false} SplitJoin(pieces: seq<string>)
    requires |pieces| >= 1
    requires forall i :: 0 <= i < |pieces| ==> ' ' !in pieces[i]
    ensures Split(Join(pieces)) == pieces
    decreases |pieces|
  {
    if |pieces| == 1 {
      SplitNoSpace(pieces[0]);
    } else {
      SplitJoin(pieces[1..]);
      SplitAfterWord(pieces[0], Join(pieces[1..]));
      assert pieces == [pieces[0]] + pieces[1..];
    }
  }

  /** A split has one more piece than the string has spaces. */
  lemma {:induction false} SplitLength(s: string)
    ensures |Split(s)| == Count(s, ' ') + 1
    decreases |s|
  {
    if s != [] {
      SplitLength(s[1..]);
    }
  }

  /** `s.split(' ')[0]`: the text before the first space, or the whole
      string when it has none. */
  function FirstWord(s: string): (w: string)
    ensures |w| <= |s| && w == s[..|w|]
    ensures ' ' !in w
    ensures |w| == |s| || s[|w|] == ' '
  {
    FirstWordIsPrefix(s);
    Split(s)[0]
  }

  lemma {:induction false} FirstWordIsPrefix(s: string)
    ensures |Split(s)[0]| <= |s| && Split(s)[0] == s[..|Split(s)[0]|]
    ensures |Split(s)[0]| == |s| || s[|Split(s)[0]|] == ' '
    decreases |s|
  {
    if s != [] && s[0] != ' ' {
      FirstWordIsPrefix(s[1..]);
    }
  }

  /** Position of the first occurrence of `c` in `s`, if any. */
  function FirstIndexOf(s: string, c: char): (r: Option<nat>)
    ensures r.Some? ==> r.value < |s| && s[r.value] == c
    ensures r.Some? ==> forall j :: 0 <= j < r.value ==> s[j] != c
    ensures r.None? ==> forall j :: 0 <= j < |s| ==> s[j] != c
    decreases |s|
  {
    if s == [] then None
    else if s[0] == c then Some(0)
    else match FirstIndexOf(s[1..], c)
      case None => None
      case Some(k) => Some(k + 1)
  }

  /** Position of the last occurrence of `c` in `s`, if any. */
  function LastIndexOf(s: string, c: char): (r: Option<nat>)
    ensures r.Some? ==> r.value < |s| && s[r.value] == c
    ensures r.Some? ==> forall j :: r.value < j < |s| ==> s[j] != c
    ensures r.None? ==> forall j :: 0 <= j < |s| ==> s[j] != c
    decreases |s|
  {
    if s == [] then None
    else if s[|s| - 1] == c then Some(|s| - 1)
    else LastIndexOf(s[..|s| - 1], c)
  }
}
