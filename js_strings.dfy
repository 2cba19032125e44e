/**
 * The JavaScript string built-ins the bot relies on, over strings of UTF-16
 * code units (the representation JavaScript strings have, lone surrogates
 * included).
 */
module JsStrings {

  import opened Wrappers

  /** One UTF-16 code unit. */
  newtype CodeUnit = x: int | 0 <= x < 0x1_0000

  /** A JavaScript string value. */
  type JsString = seq<CodeUnit>

  const Space: JsString := [0x20]

  /**
   * The JavaScript value of a string literal written in the source. Every
   * literal of the bot is plain ASCII, one code unit per character; a
   * character outside the Basic Multilingual Plane (two code units in
   * UTF-16) never occurs in them and is not encoded here.
   */
  function Literal(s: string): (r: JsString)
    ensures |r| == |s|
    ensures forall i :: 0 <= i < |s| && s[i] as int < 0x1_0000 ==> r[i] as int == s[i] as int
  {
    seq(|s|, i requires 0 <= i < |s| => (s[i] as int % 0x1_0000) as CodeUnit)
  }

  /** JavaScript truthiness of a possibly undefined string: defined and not empty. */
  predicate Truthy(s: Option<JsString>)
  {
    s.Some? && s.value != []
  }

  /** A template-literal substitution `${s}`: `undefined` is rendered as the word "undefined". */
  function Interpolate(s: Option<JsString>): (r: JsString)
    ensures s.Some? ==> r == s.value
    ensures s.None? ==> r == Literal("undefined")
  {
    match s
    case Some(v) => v
    case None => Literal("undefined")
  }

  /** The clamping step of `String.prototype.substring`: an index is forced into `[0, len]`. */
  function Clamp(i: int, len: nat): (r: nat)
    ensures r <= len
    ensures 0 <= i <= len ==> r == i
    ensures i < 0 ==> r == 0
    ensures i > len ==> r == len
  {
    if i < 0 then 0 else if i > len then len else i
  }

  /**
   * `s.substring(a, b)`: both indices are clamped to `[0, |s|]`, then swapped
   * when the first is the larger.
   */
  function Substring(s: JsString, a: int, b: int): (r: JsString)
    ensures 0 <= a <= b <= |s| ==> r == s[a..b]
    ensures 0 <= b <= a <= |s| ==> r == s[b..a]
    ensures |r| <= |s|
  {
    var x, y := Clamp(a, |s|), Clamp(b, |s|);
    if x <= y then s[x..y] else s[y..x]
  }

  /** `s.substring(a)`: the end defaults to the length of the string. */
  function SubstringFrom(s: JsString, a: int): (r: JsString)
    ensures 0 <= a <= |s| ==> r == s[a..]
    ensures a > |s| ==> r == []
    ensures a < 0 ==> r == s
  {
    Substring(s, a, |s|)
  }

  /** `substring` is symmetric in its two indices. */
  lemma SubstringSymmetric(s: JsString, a: int, b: int)
    ensures Substring(s, a, b) == Substring(s, b, a)
  {
  }

  /** Splitting a string at any index with `substring(0, n)` and `substring(n)` loses nothing. */
  lemma SubstringSplit(s: JsString, n: int)
    ensures Substring(s, 0, n) + SubstringFrom(s, n) == s
    ensures Substring(s, 0, n) == s[..Clamp(n, |s|)]
  {
    var k := Clamp(n, |s|);
    assert s[..k] + s[k..] == s;
  }

  /** `s.slice(start)` with one argument: a negative start counts back from the end. */
  function Slice(s: JsString, start: int): (r: JsString)
    ensures 0 <= start <= |s| ==> r == s[start..]
    ensures start > |s| ==> r == []
    ensures -|s| <= start < 0 ==> r == s[|s| + start..]
    ensures start < -|s| ==> r == s
  {
    if start < 0 then
      (if |s| + start < 0 then s else s[|s| + start..])
    else if start > |s| then []
    else s[start..]
  }

  /** `s.startsWith(prefix)`. */
  predicate StartsWith(s: JsString, prefix: JsString)
  {
    |prefix| <= |s| && s[..|prefix|] == prefix
  }

  /** `s?.startsWith(prefix)` on a possibly undefined string, read as a condition. */
  predicate MaybeStartsWith(s: Option<JsString>, prefix: JsString)
  {
    s.Some? && StartsWith(s.value, prefix)
  }

  /**
   * `parts.join(sep)`: the parts in order with `sep` between each
   * neighbouring pair.
   */
  function Join(parts: seq<JsString>, sep: JsString): (r: JsString)
    ensures |parts| == 1 ==> r == parts[0]
    ensures |parts| == 0 ==> r == []
  {
    if |parts| == 0 then []
    else if |parts| == 1 then parts[0]
    else
      var rest := Join(parts[1..], sep);
      parts[0] + sep + rest
  }

  /** Joining a part in front of a non-empty list puts the separator after it. */
  lemma JoinCons(head: JsString, tail: seq<JsString>, sep: JsString)
    requires tail != []
    ensures Join([head] + tail, sep) == head + sep + Join(tail, sep)
  {
    assert ([head] + tail)[1..] == tail;
  }

  /** Joining five parts puts the separator between each neighbouring pair, in order. */
  lemma JoinFive(a: JsString, b: JsString, c: JsString, d: JsString, e: JsString, sep: JsString)
    ensures Join([a, b, c, d, e], sep) == a + sep + b + sep + c + sep + d + sep + e
  {
    JoinCons(d, [e], sep);
    assert [d] + [e] == [d, e];
    JoinCons(c, [d, e], sep);
    assert [c] + [d, e] == [c, d, e];
    JoinCons(b, [c, d, e], sep);
    assert [b] + [c, d, e] == [b, c, d, e];
    JoinCons(a, [b, c, d, e], sep);
    assert [a] + [b, c, d, e] == [a, b, c, d, e];
  }

  /** Joining one more part adds the separator and that part at the end. */
  lemma {:induction false} JoinSnoc(parts: seq<JsString>, last: JsString, sep: JsString)
    requires parts != []
    ensures Join(parts + [last], sep) == Join(parts, sep) + sep + last
  {
    if |parts| == 1 {
      assert (parts + [last])[1..] == [last];
    } else {
      assert (parts + [last])[1..] == parts[1..] + [last];
      JoinSnoc(parts[1..], last, sep);
    }
  }

  /**
   * The characters `String.prototype.trim` removes: the ECMAScript
   * WhiteSpace and LineTerminator code points (space separators of Unicode
   * category Zs included).
   */
  predicate IsWhiteSpace(c: CodeUnit)
  {
    c == 0x09 || c == 0x0A || c == 0x0B || c == 0x0C || c == 0x0D || c == 0x20
    || c == 0xA0 || c == 0x1680 || (0x2000 <= c <= 0x200A) || c == 0x2028
    || c == 0x2029 || c == 0x202F || c == 0x205F || c == 0x3000 || c == 0xFEFF
  }

  /** Removes leading white space: the result is the longest suffix not starting with it. */
  function TrimStart(s: JsString): (r: JsString)
    ensures |r| <= |s| && r == s[|s| - |r|..]
    ensures forall i :: 0 <= i < |s| - |r| ==> IsWhiteSpace(s[i])
    ensures r != [] ==> !IsWhiteSpace(r[0])
  {
    if s != [] && IsWhiteSpace(s[0]) then TrimStart(s[1..]) else s
  }

  /** Removes trailing white space: the result is the longest prefix not ending with it. */
  function TrimEnd(s: JsString): (r: JsString)
    ensures |r| <= |s| && r == s[..|r|]
    ensures forall i :: |r| <= i < |s| ==> IsWhiteSpace(s[i])
    ensures r != [] ==> !IsWhiteSpace(r[|r| - 1])
  {
    if s != [] && IsWhiteSpace(s[|s| - 1]) then TrimEnd(s[..|s| - 1]) else s
  }

  /** `s.trim()`: no longer than `s`, with no white space left at either end. */
  function Trim(s: JsString): (r: JsString)
    ensures |r| <= |s|
    ensures r != [] ==> !IsWhiteSpace(r[0]) && !IsWhiteSpace(r[|r| - 1])
  {
    TrimEnd(TrimStart(s))
  }

  /**
   * What `trim` returns: a contiguous piece of the input with white space
   * only outside it, and no white space at either of its ends.
   */
  lemma TrimIsCore(s: JsString)
    ensures exists i, j ::
      && 0 <= i <= j <= |s| && Trim(s) == s[i..j]
      && (forall k :: 0 <= k < i ==> IsWhiteSpace(s[k]))
      && (forall k :: j <= k < |s| ==> IsWhiteSpace(s[k]))
  {
    var t := TrimStart(s);
    var i := |s| - |t|;
    var u := TrimEnd(t);
    var j := i + |u|;
    assert Trim(s) == s[i..j] by {
      assert t == s[i..];
      assert u == t[..|u|];
    }
    assert forall k :: 0 <= k < i ==> IsWhiteSpace(s[k]);
    assert forall k :: j <= k < |s| ==> IsWhiteSpace(s[k]) by {
      forall k | j <= k < |s| ensures IsWhiteSpace(s[k]) {
        assert s[k] == t[k - i];
      }
    }
  }

  /** Leading white space makes no difference to `trim`. */
  lemma {:induction false} TrimStartIgnoresLeadingSpace(w: JsString, s: JsString)
    requires forall i :: 0 <= i < |w| ==> IsWhiteSpace(w[i])
    ensures TrimStart(w + s) == TrimStart(s)
  {
    if w != [] {
      var ws := w + s;
      assert ws[0] == w[0] && IsWhiteSpace(ws[0]);
      assert TrimStart(ws) == TrimStart(ws[1..]);
      assert ws[1..] == w[1..] + s;
      TrimStartIgnoresLeadingSpace(w[1..], s);
    } else {
      assert w + s == s;
    }
  }
}
