/** The few operations of Go's `strings`, `strconv` and `fmt` packages that
    the validator's decisions depend on, over strings as sequences of
    characters. */
module GoStrings {

  /** `strings.HasPrefix`. */
  predicate HasPrefix(s: string, prefix: string)
  {
    |prefix| <= |s| && s[..|prefix|] == prefix
  }

  /** Go's two-result index `v, ok := m[key]` into a `map[string]string`:
      the stored value and true, or the empty string and false. */
  function Lookup(m: map<string, string>, key: string): (r: (string, bool))
    ensures r.1 <==> key in m
    ensures r.1 ==> r.0 == m[key]
    ensures !r.1 ==> r.0 == ""
  {
    if key in m then (m[key], true) else ("", false)
  }

  /** `strings.Split(s, sep)` for a one-character separator: the pieces of
      `s` between consecutive occurrences of `sep`. The empty string splits
      into one empty piece, as in Go. */
  function Split(s: string, sep: char): (parts: seq<string>)
    ensures |parts| >= 1
    ensures forall i :: 0 <= i < |parts| ==> sep !in parts[i]
    decreases |s|
  {
    if s == [] then [""]
    else
      var rest := Split(s[1..], sep);
      if s[0] == sep then [""] + rest
      else [[s[0]] + rest[0]] + rest[1..]
  }

  /** `strings.Join(parts, sep)`. */
  function Join(parts: seq<string>, sep: string): string
  {
    if |parts| == 0 then ""
    else if |parts| == 1 then parts[0]
    else parts[0] + sep + Join(parts[1..], sep)
  }

  lemma {:induction false} JoinConsChar(c: char, first: string, tail: seq<string>, sep: string)
    ensures Join([[c] + first] + tail, sep) == [c] + Join([first] + tail, sep)
  {
    if |tail| == 0 {
      assert [[c] + first] + tail == [[c] + first];
      assert [first] + tail == [first];
    } else {
      assert ([[c] + first] + tail)[1..] == tail;
      assert ([first] + tail)[1..] == tail;
    }
  }

  /** Joining the pieces with the separator gives back the split string. */
  lemma {:induction false} JoinSplit(s: string, sep: char)
    ensures Join(Split(s, sep), [sep]) == s
    decreases |s|
  {
    if s != [] {
      var rest := Split(s[1..], sep);
      JoinSplit(s[1..], sep);
      if s[0] == sep {
        assert ([""] + rest)[1..] == rest;
      } else {
        JoinConsChar(s[0], rest[0], rest[1..], [sep]);
        assert [rest[0]] + rest[1..] == rest;
      }
    }
  }

  /** Splitting a string that starts with a separator-free piece `a`. */
  lemma {:induction false} SplitAfterPiece(a: string, t: string, sep: char)
    requires sep !in a
    ensures Split(a + t, sep) == [a + Split(t, sep)[0]] + Split(t, sep)[1..]
    decreases |a|
  {
    if a == [] {
      assert a + t == t;
      assert a + Split(t, sep)[0] == Split(t, sep)[0];
      assert [Split(t, sep)[0]] + Split(t, sep)[1..] == Split(t, sep);
    } else {
      assert (a + t)[0] == a[0];
      assert (a + t)[1..] == a[1..] + t;
      SplitAfterPiece(a[1..], t, sep);
      assert [a[0]] + (a[1..] + Split(t, sep)[0]) == a + Split(t, sep)[0];
    }
  }

  /** Splitting the join of separator-free pieces gives back the pieces. */
  lemma {:induction false} SplitJoin(parts: seq<string>, sep: char)
    requires |parts| >= 1
    requires forall i :: 0 <= i < |parts| ==> sep !in parts[i]
    ensures Split(Join(parts, [sep]), sep) == parts
    decreases |parts|
  {
    if |parts| == 1 {
      SplitAfterPiece(parts[0], "", sep);
      assert parts[0] + "" == parts[0];
    } else {
      var j := Join(parts[1..], [sep]);
      SplitJoin(parts[1..], sep);
      assert Join(parts, [sep]) == parts[0] + ([sep] + j);
      SplitAfterPiece(parts[0], [sep] + j, sep);
      assert ([sep] + j)[1..] == j;
      assert Split([sep] + j, sep) == [""] + parts[1..];
      assert parts[0] + "" == parts[0];
      assert [parts[0]] + parts[1..] == parts;
    }
  }

  /** ASCII upper-case letters mapped to lower case; every other character
      is left alone. */
  function ToLowerAscii(c: char): (l: char)
    ensures 'A' <= c <= 'Z' ==> l as int == c as int + 32
    ensures !('A' <= c <= 'Z') ==> l == c
  {
    if 'A' <= c <= 'Z' then (c as int + 32) as char else c
  }

  function Fold(s: string): (t: string)
    ensures |t| == |s|
    ensures forall i :: 0 <= i < |s| ==> t[i] == ToLowerAscii(s[i])
  {
    if s == [] then [] else [ToLowerAscii(s[0])] + Fold(s[1..])
  }

  /** `strings.EqualFold` restricted to ASCII case: the two strings are
      equal character by character once letters are folded to lower case. */
  predicate EqualFold(a: string, b: string)
    ensures EqualFold(a, b) <==>
      |a| == |b| && forall i :: 0 <= i < |a| ==> ToLowerAscii(a[i]) == ToLowerAscii(b[i])
  {
    var fa, fb := Fold(a), Fold(b);
    assert |a| == |b| && (forall i :: 0 <= i < |a| ==> ToLowerAscii(a[i]) == ToLowerAscii(b[i])) ==> fa == fb;
    fa == fb
  }

  /** One character as it appears inside a Go double-quoted literal. */
  function EscapeChar(c: char): (e: string)
    ensures |e| >= 1
    ensures (c == '"' || c == '\\') <==> e[0] == '\\'
    ensures e[|e| - 1] == c
  {
    if c == '"' || c == '\\' then ['\\', c] else [c]
  }

  function Escape(s: string): (e: string)
    ensures |s| <= |e| <= 2 * |s|
  {
    if s == [] then [] else EscapeChar(s[0]) + Escape(s[1..])
  }

  /** The `%q` verb of `fmt` applied to a string: a double-quoted literal. */
  function Quote(s: string): (q: string)
    ensures |q| >= 2 && q[0] == '"' && q[|q| - 1] == '"'
  {
    "\"" + Escape(s) + "\""
  }

  /** Distinct strings are escaped differently. */
  lemma {:induction false} EscapeInjective(a: string, b: string)
    requires Escape(a) == Escape(b)
    ensures a == b
    decreases |a|
  {
    if a != [] && b != [] {
      var ea, eb := EscapeChar(a[0]), EscapeChar(b[0]);
      assert Escape(a) == ea + Escape(a[1..]);
      assert Escape(b) == eb + Escape(b[1..]);
      assert Escape(a)[0] == ea[0] && Escape(b)[0] == eb[0];
      assert |ea| == |eb| by {
        assert (a[0] == '"' || a[0] == '\\') <==> (b[0] == '"' || b[0] == '\\');
      }
      assert Escape(a)[..|ea|] == ea && Escape(b)[..|eb|] == eb;
      assert a[0] == b[0] by { assert ea[|ea| - 1] == eb[|eb| - 1]; }
      assert Escape(a)[|ea|..] == Escape(a[1..]);
      assert Escape(b)[|eb|..] == Escape(b[1..]);
      EscapeInjective(a[1..], b[1..]);
      assert a == [a[0]] + a[1..] && b == [b[0]] + b[1..];
    }
  }

  /** A quoted string names exactly one string. */
  lemma QuoteInjective(a: string, b: string)
    requires Quote(a) == Quote(b)
    ensures a == b
  {
    assert Escape(a) == Quote(a)[1..|Quote(a)| - 1];
    assert Escape(b) == Quote(b)[1..|Quote(b)| - 1];
    EscapeInjective(a, b);
  }

  /** The `%v` verb of `fmt` applied to a slice of strings: the elements
      separated by single spaces, in square brackets. */
  function FormatList(xs: seq<string>): (s: string)
    ensures |s| >= 2 && s[0] == '[' && s[|s| - 1] == ']'
  {
    "[" + Join(xs, " ") + "]"
  }

  /** When no element contains a space, the elements are read back by
      splitting what lies between the brackets at the spaces. */
  lemma FormatListReadBack(xs: seq<string>)
    requires |xs| >= 1
    requires forall i :: 0 <= i < |xs| ==> ' ' !in xs[i]
    ensures var s := FormatList(xs); Split(s[1..|s| - 1], ' ') == xs
  {
    var s := FormatList(xs);
    assert s[1..|s| - 1] == Join(xs, [' ']);
    SplitJoin(xs, ' ');
  }
}
