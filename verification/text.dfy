/**
 The Python string operations the extraction script applies to a code
 and a name: `strip()`, `replace('.', '')`, `isdigit()`, `count('.')`
 and `split('.')`.
 */
module Text {

  /** Python's `str.isspace` for one character. */
  predicate IsSpace(c: char)
  {
    || c == ' ' || c == '\t' || c == '\n' || c == '\r'
    || c == '\U{0B}' || c == '\U{0C}'
    || ('\U{1C}' <= c <= '\U{1F}')
    || c == '\U{85}' || c == '\U{A0}' || c == '\U{1680}'
    || ('\U{2000}' <= c <= '\U{200A}')
    || c == '\U{2028}' || c == '\U{2029}' || c == '\U{202F}' || c == '\U{205F}' || c == '\U{3000}'
  }

  /** Removes leading whitespace. */
  function TrimStart(s: string): (r: string)
    ensures |r| <= |s|
    ensures r == s[|s| - |r|..]
    ensures forall k :: 0 <= k < |s| - |r| ==> IsSpace(s[k])
    ensures r == [] || !IsSpace(r[0])
  {
    if |s| > 0 && IsSpace(s[0]) then TrimStart(s[1..]) else s
  }

  /** Removes trailing whitespace. */
  function TrimEnd(s: string): (r: string)
    ensures |r| <= |s|
    ensures r == s[..|r|]
    ensures forall k :: |r| <= k < |s| ==> IsSpace(s[k])
    ensures r == [] || !IsSpace(r[|r| - 1])
  {
    if |s| > 0 && IsSpace(s[|s| - 1]) then TrimEnd(s[..|s| - 1]) else s
  }

  /** Python's `str.strip()`. */
  function Strip(s: string): (r: string)
    ensures |r| <= |s|
    ensures r == [] || (!IsSpace(r[0]) && !IsSpace(r[|r| - 1]))
    ensures forall k :: 0 <= k < |r| ==> r[k] in s
  {
    TrimEnd(TrimStart(s))
  }

  /** Python's `str.count('.')`. */
  function CountDots(s: string): (n: nat)
    ensures n <= |s|
    ensures n == 0 <==> '.' !in s
  {
    if |s| == 0 then 0
    else (if s[0] == '.' then 1 else 0) + CountDots(s[1..])
  }

  /** Python's `str.replace('.', '')`. */
  function RemoveDots(s: string): (r: string)
    ensures forall c :: c in r <==> c in s && c != '.'
    ensures |r| + CountDots(s) == |s|
  {
    if |s| == 0 then []
    else if s[0] == '.' then RemoveDots(s[1..])
    else [s[0]] + RemoveDots(s[1..])
  }

  predicate IsDigit(c: char)
  {
    '0' <= c <= '9'
  }

  /** Python's `str.isdigit()`, restricted to ASCII digits: false on the empty string. */
  predicate IsDigits(s: string)
  {
    |s| > 0 && forall i :: 0 <= i < |s| ==> IsDigit(s[i])
  }

  /** Python's `str.split('.')`: the pieces between dots, empty pieces kept. */
  function Split(s: string): (parts: seq<string>)
    ensures |parts| == CountDots(s) + 1
    ensures forall i :: 0 <= i < |parts| ==> '.' !in parts[i]
    ensures Join(parts) == s
    decreases |s|
  {
    if '.' !in s then [s]
    else
      var r := DropLastSegment(s);
      var tail := s[|r| + 1..];
      var init := Split(r);
      AroundLastDot(s);
      SplitSnoc(init, r, tail);
      init + [tail]
  }

  /** Adding a dot-free last segment to the pieces of a string gives the pieces of the longer string. */
  lemma SplitSnoc(init: seq<string>, r: string, tail: string)
    requires '.' !in tail
    requires |init| == CountDots(r) + 1
    requires forall i :: 0 <= i < |init| ==> '.' !in init[i]
    requires Join(init) == r
    ensures |init + [tail]| == CountDots(r + "." + tail) + 1
    ensures forall i :: 0 <= i < |init + [tail]| ==> '.' !in (init + [tail])[i]
    ensures Join(init + [tail]) == r + "." + tail
  {
    JoinSnoc(init, tail);
    CountDotsAppend(r + ".", tail);
    CountDotsAppend(r, ".");
    assert CountDots(tail) == 0;
    assert forall i :: 0 <= i < |init| ==> (init + [tail])[i] == init[i];
  }

  /** Joining one more piece appends a dot and the piece. */
  lemma JoinSnoc(init: seq<string>, tail: string)
    requires |init| > 0
    ensures Join(init + [tail]) == Join(init) + "." + tail
  {
    assert (init + [tail])[..|init|] == init;
  }

  /** Python's `'.'.join(parts)`. */
  function Join(parts: seq<string>): string
    requires |parts| > 0
  {
    if |parts| == 1 then parts[0] else Join(parts[..|parts| - 1]) + "." + parts[|parts| - 1]
  }

  /** The code with its final dot-segment (and the dot before it) removed. */
  function DropLastSegment(s: string): (r: string)
    requires '.' in s
    ensures |r| < |s| && r == s[..|r|] && s[|r|] == '.'
    ensures '.' !in s[|r| + 1..]
    decreases |s|
  {
    if s[|s| - 1] == '.' then s[..|s| - 1]
    else
      assert s == s[..|s| - 1] + [s[|s| - 1]];
      var r := DropLastSegment(s[..|s| - 1]);
      assert s[|r| + 1..] == s[..|s| - 1][|r| + 1..] + [s[|s| - 1]];
      r
  }

  // ---------------------------------------------------------------------
  // Properties.

  lemma {:induction false} CountDotsAppend(a: string, b: string)
    ensures CountDots(a + b) == CountDots(a) + CountDots(b)
  {
    if |a| == 0 {
      assert a + b == b;
    } else {
      assert (a + b)[1..] == a[1..] + b;
      CountDotsAppend(a[1..], b);
    }
  }

  /** A code is its parent key, a dot and its last segment. */
  lemma AroundLastDot(s: string)
    requires '.' in s
    ensures s == DropLastSegment(s) + "." + s[|DropLastSegment(s)| + 1..]
  {
    var r := DropLastSegment(s);
    assert s == s[..|r|] + [s[|r|]] + s[|r| + 1..];
  }

  /** Removing dots works piecewise: the kept characters stay in order, each as often as in the input. */
  lemma {:induction false} RemoveDotsAppend(a: string, b: string)
    ensures RemoveDots(a + b) == RemoveDots(a) + RemoveDots(b)
  {
    if |a| == 0 {
      assert a + b == b;
    } else {
      assert (a + b)[1..] == a[1..] + b;
      RemoveDotsAppend(a[1..], b);
    }
  }

  /** Removing the last segment removes exactly one dot. */
  lemma DropLastSegmentDots(s: string)
    requires '.' in s
    ensures CountDots(DropLastSegment(s)) + 1 == CountDots(s)
  {
    var r := DropLastSegment(s);
    var tail := s[|r| + 1..];
    AroundLastDot(s);
    CountDotsAppend(r + ".", tail);
    CountDotsAppend(r, ".");
  }

  /** `Join` on one, two and three pieces. */
  lemma JoinSmall(xs: seq<string>)
    requires 1 <= |xs| <= 3
    ensures |xs| == 1 ==> Join(xs) == xs[0]
    ensures |xs| == 2 ==> Join(xs) == xs[0] + "." + xs[1]
    ensures |xs| == 3 ==> Join(xs) == xs[0] + "." + xs[1] + "." + xs[2]
  {
    if |xs| == 3 {
      assert xs[..2][..1] == [xs[0]];
    } else if |xs| == 2 {
      assert xs[..1] == [xs[0]];
    }
  }

  /** All pieces of a split code but the last are the pieces of its parent, and join back to it. */
  lemma SplitPrefixIsParent(s: string)
    requires '.' in s
    ensures Split(s)[..|Split(s)| - 1] == Split(DropLastSegment(s))
    ensures Join(Split(s)[..|Split(s)| - 1]) == DropLastSegment(s)
  {
  }

  /** What the script's digit test accepts: digits and dots only, with at least one digit. */
  lemma ValidCodeChars(s: string)
    ensures IsDigits(RemoveDots(s)) <==>
              (exists i :: 0 <= i < |s| && IsDigit(s[i]))
              && forall i :: 0 <= i < |s| ==> IsDigit(s[i]) || s[i] == '.'
  {
    var t := RemoveDots(s);
    if IsDigits(t) {
      assert t[0] in s;
      forall i | 0 <= i < |s|
        ensures IsDigit(s[i]) || s[i] == '.'
      {
        if s[i] != '.' {
          assert s[i] in t;
        }
      }
    }
    if (exists i :: 0 <= i < |s| && IsDigit(s[i]))
       && forall i :: 0 <= i < |s| ==> IsDigit(s[i]) || s[i] == '.' {
      var i :| 0 <= i < |s| && IsDigit(s[i]);
      assert s[i] in t;
      forall j | 0 <= j < |t|
        ensures IsDigit(t[j])
      {
        assert t[j] in s;
      }
    }
  }

  /** `strip()` removes whitespace only: what it drops on either side is all whitespace. */
  lemma StripDropsOnlySpace(s: string)
    ensures var r := Strip(s);
            exists i :: 0 <= i <= |s| - |r| && r == s[i..][..|r|]
                        && (forall k :: 0 <= k < i ==> IsSpace(s[k]))
                        && (forall k :: i + |r| <= k < |s| ==> IsSpace(s[k]))
  {
    var t := TrimStart(s);
    var r := TrimEnd(t);
    var i := |s| - |t|;
    assert r == s[i..][..|r|];
    forall k | i + |r| <= k < |s|
      ensures IsSpace(s[k])
    {
      assert s[k] == t[k - i];
    }
  }

  /** Stripping twice is stripping once. */
  lemma StripIdempotent(s: string)
    ensures Strip(Strip(s)) == Strip(s)
  {
    var r := Strip(s);
    assert TrimStart(r) == r;
    assert TrimEnd(r) == r;
  }
}
