/** The JavaScript string built-ins the front end relies on, over `seq<char>`.
    Case mapping is ASCII only. */
module JsText {
  import opened Wrappers

  function LowerChar(c: char): char
  {
    if 'A' <= c <= 'Z' then (c as int - 'A' as int + 'a' as int) as char else c
  }

  /** `String.prototype.toLowerCase`, restricted to ASCII letters. */
  function ToLower(s: string): (r: string)
    ensures |r| == |s|
    ensures forall i :: 0 <= i < |s| ==> r[i] == LowerChar(s[i])
  {
    if s == [] then [] else [LowerChar(s[0])] + ToLower(s[1..])
  }

  /** `t` occurs in `s` at position `i`. */
  ghost predicate OccursAt(s: string, t: string, i: int)
  {
    0 <= i && i + |t| <= |s| && s[i..i + |t|] == t
  }

  /** `String.prototype.includes`: true exactly when `t` occurs somewhere in `s`. */
  function Includes(s: string, t: string): (r: bool)
    ensures r <==> exists i :: OccursAt(s, t, i)
    decreases |s|
  {
    if |s| < |t| then false
    else if s[..|t|] == t then
      assert OccursAt(s, t, 0);
      true
    else
      var r := Includes(s[1..], t);
      OccursShift(s, t);
      r
  }

  /** Once `t` is not a prefix of `s`, it occurs in `s` exactly when it occurs in `s[1..]`. */
  lemma OccursShift(s: string, t: string)
    requires |t| <= |s| && s[..|t|] != t
    ensures s != []
    ensures (exists i :: OccursAt(s, t, i)) <==> (exists i :: OccursAt(s[1..], t, i))
  {
    if exists i :: OccursAt(s[1..], t, i) {
      var i :| OccursAt(s[1..], t, i);
      assert s[1..][i..i + |t|] == s[i + 1..i + 1 + |t|];
      assert OccursAt(s, t, i + 1);
    }
    if exists i :: OccursAt(s, t, i) {
      var i :| OccursAt(s, t, i);
      assert i != 0;
      assert forall k {:trigger s[i + k]} :: 0 <= k < |t| ==> s[1..][i - 1 + k] == s[i + k];
      assert s[1..][i - 1..i - 1 + |t|] == s[i..i + |t|];
      assert OccursAt(s[1..], t, i - 1);
    }
  }

  /** The characters `String.prototype.trim` removes: the ECMAScript
      WhiteSpace and LineTerminator code points. */
  predicate IsWhitespace(c: char)
  {
    c == '\t' || c == '\n' || c == '\U{000B}' || c == '\U{000C}' || c == '\r' || c == ' '
    || c == '\U{00A0}' || c == '\U{1680}' || ('\U{2000}' <= c <= '\U{200A}')
    || c == '\U{2028}' || c == '\U{2029}' || c == '\U{202F}' || c == '\U{205F}'
    || c == '\U{3000}' || c == '\U{FEFF}'
  }

  /** Drops the leading whitespace: what is left is a suffix of `s` that is
      empty or starts with a non-whitespace character, and everything dropped
      is whitespace. */
  function TrimStart(s: string): (r: string)
    ensures |r| <= |s| && r == s[|s| - |r|..]
    ensures forall i :: 0 <= i < |s| - |r| ==> IsWhitespace(s[i])
    ensures r != [] ==> !IsWhitespace(r[0])
  {
    if s != [] && IsWhitespace(s[0]) then TrimStart(s[1..]) else s
  }

  /** Drops the trailing whitespace: what is left is a prefix of `s` that is
      empty or ends with a non-whitespace character, and everything dropped
      is whitespace. */
  function TrimEnd(s: string): (r: string)
    ensures |r| <= |s| && r == s[..|r|]
    ensures forall i :: |r| <= i < |s| ==> IsWhitespace(s[i])
    ensures r != [] ==> !IsWhitespace(r[|r| - 1])
  {
    if s != [] && IsWhitespace(s[|s| - 1]) then TrimEnd(s[..|s| - 1]) else s
  }

  /** `String.prototype.trim`. */
  function Trim(s: string): (r: string)
    ensures |r| <= |s|
    ensures r != [] ==> !IsWhitespace(r[0]) && !IsWhitespace(r[|r| - 1])
    ensures exists a ::
              && 0 <= a <= |s| - |r| && s[a..][..|r|] == r
              && (forall i :: 0 <= i < a ==> IsWhitespace(s[i]))
              && (forall i :: a + |r| <= i < |s| ==> IsWhitespace(s[i]))
  {
    var t := TrimStart(s);
    var r := TrimEnd(t);
    var a := |s| - |t|;
    assert s[a..][..|r|] == r;
    r
  }

  /** Trailing whitespace of `b` never reaches back into `a` when `a` ends
      with a non-whitespace character. */
  lemma {:induction false} TrimEndAppend(a: string, b: string)
    requires a != [] && !IsWhitespace(a[|a| - 1])
    ensures TrimEnd(a + b) == a + TrimEnd(b)
    decreases |b|
  {
    if b == [] {
      assert a + b == a;
    } else if IsWhitespace(b[|b| - 1]) {
      assert (a + b)[..|a + b| - 1] == a + b[..|b| - 1];
      TrimEndAppend(a, b[..|b| - 1]);
    }
  }

  /** Trimming a line break, a text that starts and ends with visible
      characters, and a tail, removes the break and the tail's trailing whitespace. */
  lemma TrimAround(head: string, tail: string)
    requires head != [] && !IsWhitespace(head[0]) && !IsWhitespace(head[|head| - 1])
    ensures Trim("\n" + head + tail) == head + TrimEnd(tail)
  {
    var ht := head + tail;
    assert "\n" + head + tail == "\n" + ht;
    assert ("\n" + ht)[1..] == ht;
    assert ht[0] == head[0];
    assert TrimStart("\n" + ht) == ht;
    TrimEndAppend(head, tail);
  }

  /** `Array.prototype.join`. */
  function Join(parts: seq<string>, sep: string): (r: string)
    ensures parts == [] ==> r == []
    ensures |parts| == 1 ==> r == parts[0]
  {
    if parts == [] then []
    else if |parts| == 1 then parts[0]
    else parts[0] + sep + Join(parts[1..], sep)
  }

  /** Index of the first `c` in `s`, if any. */
  function IndexOf(s: string, c: char): (r: Option<nat>)
    ensures r.None? <==> c !in s
    ensures r.Some? ==> r.value < |s| && s[r.value] == c && c !in s[..r.value]
  {
    if s == [] then None
    else if s[0] == c then Some(0)
    else
      var k := IndexOf(s[1..], c);
      if k.None? then None
      else
        assert s[..k.value + 1] == [s[0]] + s[1..][..k.value];
        Some(k.value + 1)
  }

  /** `s[i]` is the first comma of `s` and `s[j]`, if any, the next one. */
  ghost predicate IsSecondField(s: string, i: int, j: int)
  {
    0 <= i < j <= |s| && ',' !in s[..i] && s[i] == ',' && (j == |s| || s[j] == ',')
  }

  /** `s.split(',')[1]`: the second comma-separated field, or None
      (`undefined`) when `s` holds no comma. */
  function SecondField(s: string): (r: Option<string>)
    ensures r.None? <==> ',' !in s
    ensures r.Some? ==> ',' !in r.value
    ensures r.Some? ==> exists i, j :: IsSecondField(s, i, j) && s[i + 1..j] == r.value
  {
    match IndexOf(s, ',')
    case None => None
    case Some(i) =>
      var rest := s[i + 1..];
      match IndexOf(rest, ',')
      case None =>
        assert IsSecondField(s, i, |s|);
        Some(rest)
      case Some(k) =>
        assert s[i + 1..i + 1 + k] == rest[..k];
        assert IsSecondField(s, i, i + 1 + k);
        Some(rest[..k])
  }
}
