/** The few JavaScript string built-ins the core relies on. */
module Strings {

  predicate StartsWith(s: string, prefix: string) {
    |prefix| <= |s| && s[..|prefix|] == prefix
  }

  /** A character JavaScript stores in one UTF-16 code unit. */
  predicate InBasicPlane(c: char) {
    c as int < 0x1_0000
  }

  /** `s.length` in JavaScript, which is what Mongoose's `maxlength` measures:
      UTF-16 code units, two for a character beyond U+FFFF. It equals the
      number of characters exactly when every character is in the basic plane. */
  function Utf16Length(s: string): (n: nat)
    ensures |s| <= n <= 2 * |s|
    ensures n == |s| <==> forall i :: 0 <= i < |s| ==> InBasicPlane(s[i])
  {
    if s == [] then 0
    else (if InBasicPlane(s[0]) then 1 else 2) + Utf16Length(s[1..])
  }

  /** `s.split(sep)` for a one-character separator: every occurrence of `sep`
      ends a field, so there is always at least one field and none holds `sep`. */
  function Split(s: string, sep: char): (parts: seq<string>)
    ensures |parts| >= 1
    ensures forall i :: 0 <= i < |parts| ==> sep !in parts[i]
  {
    if s == [] then [[]]
    else
      var rest := Split(s[1..], sep);
      if s[0] == sep then [[]] + rest
      else [[s[0]] + rest[0]] + rest[1..]
  }

  /** `parts.join(sep)` */
  function Join(parts: seq<string>, sep: char): string {
    if |parts| == 0 then []
    else if |parts| == 1 then parts[0]
    else parts[0] + [sep] + Join(parts[1..], sep)
  }

  /** `s` with every `from` character replaced by `to`. */
  function Replace(s: string, from: char, to: char): string {
    if s == [] then [] else [if s[0] == from then to else s[0]] + Replace(s[1..], from, to)
  }

  lemma {:induction false} JoinOfSplit(s: string, sep: char, glue: char)
    ensures Join(Split(s, sep), glue) == Replace(s, sep, glue)
  {
    if s != [] {
      var rest := Split(s[1..], sep);
      JoinOfSplit(s[1..], sep, glue);
      if s[0] == sep {
        JoinEmptyHead(rest, glue);
      } else {
        JoinExtendHead(s[0], rest, glue);
      }
    }
  }

  lemma JoinEmptyHead(parts: seq<string>, glue: char)
    requires |parts| >= 1
    ensures Join([[]] + parts, glue) == [glue] + Join(parts, glue)
  {
    assert ([[]] + parts)[1..] == parts;
  }

  lemma JoinExtendHead(c: char, parts: seq<string>, glue: char)
    requires |parts| >= 1
    ensures Join([[c] + parts[0]] + parts[1..], glue) == [c] + Join(parts, glue)
  {
    var q := [[c] + parts[0]] + parts[1..];
    if |parts| > 1 {
      assert q[1..] == parts[1..];
    }
  }

  /** A string without the separator is a single field. */
  lemma {:induction false} SplitWithoutSeparator(s: string, sep: char)
    requires sep !in s
    ensures Split(s, sep) == [s]
  {
    if s != [] {
      SplitWithoutSeparator(s[1..], sep);
      assert [s[0]] + s[1..] == s;
    }
  }

  /** A separator-free prefix followed by the separator ends the first field. */
  lemma {:induction false} SplitAfterPrefix(a: string, sep: char, b: string)
    requires sep !in a
    ensures Split(a + [sep] + b, sep) == [a] + Split(b, sep)
  {
    if a == [] {
      assert [] + [sep] + b == [sep] + b;
      assert ([sep] + b)[1..] == b;
    } else {
      var s := a + [sep] + b;
      assert s[0] == a[0] && s[1..] == a[1..] + [sep] + b;
      SplitAfterPrefix(a[1..], sep, b);
      assert [a[0]] + a[1..] == a;
    }
  }
}
