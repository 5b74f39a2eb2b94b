/** String and path helpers shared by the host adapters: the small pieces of
    Python's `os.path`, `pathlib` and `str` behaviour that the adapters rely
    on, stated for POSIX paths. */
module Common {

  datatype Option<+T> = None | Some(value: T)

  datatype Result<+T, +E> = Ok(value: T) | Err(error: E)

  /** `s` ends with `suffix` (Python's `str.endswith`). */
  predicate EndsWith(s: string, suffix: string) {
    |suffix| <= |s| && s[|s| - |suffix|..] == suffix
  }

  /** `s` starts with `prefix` (Python's `str.startswith`). */
  predicate StartsWith(s: string, prefix: string) {
    |prefix| <= |s| && s[..|prefix|] == prefix
  }

  /** `sub` occurs somewhere in `s` (Python's `sub in s`). */
  predicate Contains(s: string, sub: string)
    decreases |s|
  {
    StartsWith(s, sub) || (s != [] && Contains(s[1..], sub))
  }

  /** Python's `os.path.basename` on POSIX: everything after the last `/`. */
  function Basename(p: string): string
  {
    if p == [] then []
    else if p[|p| - 1] == '/' then []
    else Basename(p[..|p| - 1]) + [p[|p| - 1]]
  }

  /** The basename is the longest tail of the path that holds no `/`: it
      ends the path, and what precedes it, if anything, is a `/`. */
  lemma {:induction false} BasenameIsLastComponent(p: string)
    ensures '/' !in Basename(p)
    ensures EndsWith(p, Basename(p))
    ensures |Basename(p)| < |p| ==> p[|p| - |Basename(p)| - 1] == '/'
    decreases |p|
  {
    if p != [] && p[|p| - 1] != '/' {
      var init := p[..|p| - 1];
      BasenameIsLastComponent(init);
      var b := Basename(init);
      assert p[|p| - |b| - 1..] == b + [p[|p| - 1]];
    }
  }

  /** Appending separator-free text extends the basename by that text. */
  lemma {:induction false} BasenameAppend(p: string, name: string)
    requires '/' !in name
    ensures Basename(p + name) == Basename(p) + name
    decreases |name|
  {
    if name == [] {
      assert p + name == p;
    } else {
      var init, last := name[..|name| - 1], name[|name| - 1];
      assert last in name;
      var full := p + name;
      assert full[..|full| - 1] == p + init;
      assert full[|full| - 1] == last;
      assert Basename(full) == Basename(p + init) + [last];
      BasenameAppend(p, init);
      assert init + [last] == name;
    }
  }

  /** A name without a separator is its own basename, and any directory in
      front of it, however deep, leaves the basename unchanged. */
  lemma BasenameAfterDirectory(dir: string, name: string)
    requires '/' !in name
    ensures Basename(name) == name
    ensures Basename(dir + "/" + name) == name
  {
    BasenameAppend([], name);
    assert [] + name == name;
    BasenameAppend(dir + "/", name);
  }

  /** Python's `s.rfind(c)`: the last position of `c` in `s`, or -1. */
  function LastIndex(s: string, c: char): (i: int)
    ensures -1 <= i < |s|
    ensures i >= 0 ==> s[i] == c && forall k :: i < k < |s| ==> s[k] != c
    ensures i == -1 ==> c !in s
  {
    if s == [] then -1
    else if s[|s| - 1] == c then |s| - 1
    else LastIndex(s[..|s| - 1], c)
  }

  /** Python's `os.path.join(a, b)` on POSIX, for two components. */
  function PathJoin(a: string, b: string): string
  {
    if StartsWith(b, "/") then b
    else if a == [] || EndsWith(a, "/") then a + b
    else a + "/" + b
  }

  /** Python's `str.split(sep)` with a one-character separator: the pieces
      between separators, in order, always at least one. */
  function Split(s: string, sep: char): (parts: seq<string>)
    ensures |parts| >= 1
    ensures forall k :: 0 <= k < |parts| ==> sep !in parts[k]
  {
    if s == [] then [[]]
    else
      var rest := Split(s[1..], sep);
      if s[0] == sep then [[]] + rest
      else [[s[0]] + rest[0]] + rest[1..]
  }

  /** Python's `sep.join(parts)`, the inverse of `Split`. */
  function JoinWith(parts: seq<string>, sep: char): string
    requires |parts| >= 1
  {
    if |parts| == 1 then parts[0] else parts[0] + [sep] + JoinWith(parts[1..], sep)
  }

  /** Splitting loses nothing: joining the pieces back gives the string. */
  lemma {:induction false} JoinSplit(s: string, sep: char)
    ensures JoinWith(Split(s, sep), sep) == s
  {
    if s != [] {
      var rest := Split(s[1..], sep);
      JoinSplit(s[1..], sep);
      if s[0] != sep {
        if |rest| == 1 {
          assert Split(s, sep) == [[s[0]] + rest[0]];
        } else {
          assert Split(s, sep)[1..] == rest[1..];
          assert [s[0]] + rest[0] + [sep] + JoinWith(rest[1..], sep) == [s[0]] + (rest[0] + [sep] + JoinWith(rest[1..], sep));
        }
      } else {
        assert Split(s, sep)[1..] == rest;
      }
    }
  }

  /** Python's `<=` on strings: lexicographic by character code. */
  predicate StrLe(a: string, b: string) {
    a == [] || (b != [] && (a[0] < b[0] || (a[0] == b[0] && StrLe(a[1..], b[1..]))))
  }

  lemma {:induction false} StrLeTotal(a: string, b: string)
    ensures StrLe(a, b) || StrLe(b, a)
  {
    if a != [] && b != [] && a[0] == b[0] {
      StrLeTotal(a[1..], b[1..]);
    }
  }

  lemma {:induction false} StrLeTransitive(a: string, b: string, c: string)
    requires StrLe(a, b) && StrLe(b, c)
    ensures StrLe(a, c)
  {
    if a != [] && b != [] && c != [] && a[0] == b[0] && b[0] == c[0] {
      StrLeTransitive(a[1..], b[1..], c[1..]);
    }
  }

  /** An ASCII decimal digit (Python's `str.isdigit` on ASCII). */
  predicate IsDigit(c: char) {
    '0' <= c <= '9'
  }

  /** The decimal spelling of a natural number, as Python's `str(n)`. */
  function NatToString(n: nat): string {
    var d := [(('0' as int) + n % 10) as char];
    if n < 10 then d else NatToString(n / 10) + d
  }

  /** The number a string of decimal digits spells, as Python's `int(s)`. */
  function DigitsValue(s: string): int {
    if s == [] then 0 else DigitsValue(s[..|s| - 1]) * 10 + (s[|s| - 1] as int - '0' as int)
  }

  /** `str(n)` is a non-empty string of digits without a leading zero, and
      reading it back gives `n`. */
  lemma {:induction false} NatToStringSpec(n: nat)
    ensures var s := NatToString(n);
      && |s| >= 1
      && (forall k :: 0 <= k < |s| ==> IsDigit(s[k]))
      && (n >= 10 ==> s[0] != '0')
      && DigitsValue(s) == n
    decreases n
  {
    var s := NatToString(n);
    var d := [(('0' as int) + n % 10) as char];
    if n < 10 {
      assert s == d;
      assert s[..0] == [];
    } else {
      var front := NatToString(n / 10);
      NatToStringSpec(n / 10);
      assert s == front + d;
      assert s[..|s| - 1] == front;
      assert DigitsValue(s) == (n / 10) * 10 + n % 10;
      assert s[0] == front[0];
      if n / 10 < 10 {
        assert front == [(('0' as int) + (n / 10) % 10) as char];
      }
    }
  }

  function Pow2(k: nat): nat {
    if k == 0 then 1 else 2 * Pow2(k - 1)
  }
}
