/** The few Python string operations the handlers rely on: ASCII
    `str.lower`, `sep.join(parts)`, `s.split(sep)` for a one-character
    separator, and `repr` of a list of strings as an f-string prints it. */
module PyText {

  function LowerChar(c: char): char
  {
    if 'A' <= c <= 'Z' then (c as int + 32) as char else c
  }

  /** `s.lower()` on ASCII letters. */
  function Lower(s: string): (r: string)
    ensures |r| == |s|
    ensures forall i :: 0 <= i < |s| ==> r[i] == LowerChar(s[i])
  {
    seq(|s|, i requires 0 <= i < |s| => LowerChar(s[i]))
  }

  /** `sep.join(parts)`. */
  function Join(sep: string, parts: seq<string>): string
  {
    if |parts| == 0 then ""
    else if |parts| == 1 then parts[0]
    else parts[0] + sep + Join(sep, parts[1..])
  }

  /** `sub` occurs in `s` starting at index `i`. */
  predicate OccursAt(s: string, sub: string, i: int)
  {
    0 <= i && i + |sub| <= |s| && s[i..i + |sub|] == sub
  }

  /** Python's `sub in s`. */
  predicate Contains(s: string, sub: string)
  {
    exists i :: 0 <= i <= |s| && OccursAt(s, sub, i)
  }

  lemma OccursShift(pre: string, s: string, post: string, sub: string, i: int)
    requires OccursAt(s, sub, i)
    ensures OccursAt(pre + s + post, sub, |pre| + i)
  {
    assert (pre + s + post)[|pre| + i..|pre| + i + |sub|] == s[i..i + |sub|];
  }

  /** Every joined part can be found in the joined string. */
  lemma {:induction false} JoinContainsEach(sep: string, parts: seq<string>, k: nat)
    requires k < |parts|
    ensures Contains(Join(sep, parts), parts[k])
  {
    if |parts| == 1 {
      OccursShift("", parts[0], "", parts[0], 0);
    } else if k == 0 {
      OccursShift("", parts[0], sep + Join(sep, parts[1..]), parts[0], 0);
      assert "" + parts[0] + (sep + Join(sep, parts[1..])) == Join(sep, parts);
    } else {
      JoinContainsEach(sep, parts[1..], k - 1);
      var i :| OccursAt(Join(sep, parts[1..]), parts[k], i);
      OccursShift(parts[0] + sep, Join(sep, parts[1..]), "", parts[k], i);
      assert parts[0] + sep + Join(sep, parts[1..]) + "" == Join(sep, parts);
    }
  }

  /** `s.split(sep)` for a one-character separator: the pieces between the
      separators, so that an empty string gives `[""]` and joining the pieces
      back with the separator gives the string again. */
  function Split(s: string, sep: char): (parts: seq<string>)
    ensures |parts| >= 1
    ensures forall k :: 0 <= k < |parts| ==> sep !in parts[k]
    ensures Join([sep], parts) == s
    decreases |s|
  {
    if |s| == 0 then [""]
    else
      var rest := Split(s[1..], sep);
      if s[0] == sep then
        assert Join([sep], [""] + rest) == [sep] + Join([sep], rest) by {
          if |rest| == 1 {
            assert ([""] + rest)[1..] == rest;
          } else {
            assert ([""] + rest)[1..] == rest;
          }
        }
        [""] + rest
      else
        var head := [s[0]] + rest[0];
        assert Join([sep], [head] + rest[1..]) == [s[0]] + Join([sep], rest) by {
          if |rest| == 1 {
          } else {
            assert ([head] + rest[1..])[1..] == rest[1..];
            assert Join([sep], rest) == rest[0] + [sep] + Join([sep], rest[1..]);
          }
        }
        [head] + rest[1..]
  }

  /** Position of the first occurrence of `c` in `s`. */
  function IndexOf(s: string, c: char): nat
    requires c in s
  {
    if s[0] == c then 0 else 1 + IndexOf(s[1..], c)
  }

  lemma {:induction false} IndexOfSeparated(a: string, x: string, sep: char)
    requires sep !in a
    ensures sep in a + [sep] + x && IndexOf(a + [sep] + x, sep) == |a|
  {
    assert (a + [sep] + x)[|a|] == sep;
    if a != [] {
      IndexOfSeparated(a[1..], x, sep);
      assert (a + [sep] + x)[1..] == a[1..] + [sep] + x;
    }
  }

  /** Two strings without the separator, each followed by it, can only be
      equal prefixes of the same string if they are equal. */
  lemma SeparatedPrefix(a: string, b: string, x: string, y: string, sep: char)
    requires sep !in a && sep !in b
    requires a + [sep] + x == b + [sep] + y
    ensures a == b && x == y
  {
    var s := a + [sep] + x;
    IndexOfSeparated(a, x, sep);
    IndexOfSeparated(b, y, sep);
    assert a == s[..|a|];
    assert b == s[..|b|];
    assert x == s[|a| + 1..];
    assert y == s[|b| + 1..];
  }

  /** A separator-free string is never a separator-free prefix followed by
      the separator. */
  lemma NoSeparatorInside(a: string, b: string, y: string, sep: char)
    requires sep !in a
    ensures a != b + [sep] + y
  {
  }

  /** Joining separator-free parts loses nothing: different lists give
      different strings. */
  lemma {:induction false} JoinInjective(p: seq<string>, q: seq<string>, sep: char)
    requires |p| >= 1 && |q| >= 1
    requires forall k :: 0 <= k < |p| ==> sep !in p[k]
    requires forall k :: 0 <= k < |q| ==> sep !in q[k]
    requires Join([sep], p) == Join([sep], q)
    ensures p == q
  {
    if |p| == 1 && |q| == 1 {
    } else if |p| == 1 {
      NoSeparatorInside(p[0], q[0], Join([sep], q[1..]), sep);
    } else if |q| == 1 {
      NoSeparatorInside(q[0], p[0], Join([sep], p[1..]), sep);
    } else {
      SeparatedPrefix(p[0], q[0], Join([sep], p[1..]), Join([sep], q[1..]), sep);
      JoinInjective(p[1..], q[1..], sep);
      assert p == [p[0]] + p[1..];
      assert q == [q[0]] + q[1..];
    }
  }

  /** Splitting a joined list of separator-free parts gives the list back. */
  lemma SplitJoin(parts: seq<string>, sep: char)
    requires |parts| >= 1
    requires forall k :: 0 <= k < |parts| ==> sep !in parts[k]
    ensures Split(Join([sep], parts), sep) == parts
  {
    JoinInjective(Split(Join([sep], parts), sep), parts, sep);
  }

  /** The quote character Python's `repr` picks for a string. */
  function QuoteFor(s: string): char
  {
    if '\'' in s && '"' !in s then '"' else '\''
  }

  function EscapeChar(c: char, q: char): string
  {
    if c == q || c == '\\' then ['\\', c]
    else if c == '\n' then "\\n"
    else if c == '\r' then "\\r"
    else if c == '\t' then "\\t"
    else [c]
  }

  function Escape(s: string, q: char): string
  {
    if s == [] then "" else EscapeChar(s[0], q) + Escape(s[1..], q)
  }

  /** `repr(s)` of a string: the escaped text between two copies of the
      quote character `repr` picks. */
  function StrRepr(s: string): (r: string)
    ensures |r| >= 2 && r[0] == QuoteFor(s) && r[|r| - 1] == QuoteFor(s)
  {
    var q := QuoteFor(s);
    [q] + Escape(s, q) + [q]
  }

  /** `repr` of each item, in order. */
  function StrReprs(items: seq<string>): (r: seq<string>)
    ensures |r| == |items|
    ensures forall k :: 0 <= k < |items| ==> r[k] == StrRepr(items[k])
  {
    if items == [] then [] else [StrRepr(items[0])] + StrReprs(items[1..])
  }

  /** How an f-string prints a list of strings: `['a', 'b']`, the items'
      `repr`s joined with ", " between brackets. */
  function ListRepr(items: seq<string>): (r: string)
    ensures |r| >= 2 && r[0] == '[' && r[|r| - 1] == ']'
  {
    "[" + Join(", ", StrReprs(items)) + "]"
  }
}
