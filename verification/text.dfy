/** The few operations on Python strings the system relies on: `sep in s`,
    `s.split(sep)`, `s.split(sep, 1)`, `s.lower()`, `s.strip() == ''` and
    `s.startswith(p)`, written out with the same semantics. */
module Text {

  import opened Wrappers

  /** `sep` occurs in `s` starting at position `j`. */
  predicate IsAt(s: string, sep: string, j: int)
  {
    0 <= j && j + |sep| <= |s| && s[j..j + |sep|] == sep
  }

  /** Position of the first occurrence of `sep` in `s` at or after `from`, or -1. */
  function FindFrom(s: string, sep: string, from: nat): (i: int)
    ensures i == -1 || (from <= i && IsAt(s, sep, i))
    ensures forall j :: from <= j && (i < 0 || j < i) ==> !IsAt(s, sep, j)
    decreases |s| - from
  {
    if from + |sep| > |s| then -1
    else if s[from..from + |sep|] == sep then from
    else FindFrom(s, sep, from + 1)
  }

  /** `s.find(sep)`. */
  function Find(s: string, sep: string): (i: int)
    ensures i == -1 || IsAt(s, sep, i)
    ensures forall j :: 0 <= j && (i < 0 || j < i) ==> !IsAt(s, sep, j)
  {
    FindFrom(s, sep, 0)
  }

  /** `sep in s`. */
  predicate Occurs(s: string, sep: string)
  {
    Find(s, sep) >= 0
  }

  /** `s.split(sep)` for a non-empty separator: the pieces between the
      non-overlapping occurrences of `sep`, scanning from the left. */
  function SplitAll(s: string, sep: string): (parts: seq<string>)
    requires |sep| > 0
    ensures |parts| >= 1
    ensures |parts| == 1 <==> !Occurs(s, sep)
    decreases |s|
  {
    var i := Find(s, sep);
    if i < 0 then [s]
    else [s[..i]] + SplitAll(s[i + |sep|..], sep)
  }

  /** `s.split(sep, 1)`: the text before the first `sep` and, when `sep`
      occurs, the text after it. */
  function SplitFirst(s: string, sep: string): (r: (string, Option<string>))
    requires |sep| > 0
    ensures r.1.None? <==> !Occurs(s, sep)
    ensures r.1.None? ==> r.0 == s
    ensures r.1.Some? ==> s == r.0 + sep + r.1.value && !Occurs(r.0, sep)
  {
    var i := Find(s, sep);
    if i < 0 then (s, None)
    else
      assert s == s[..i] + sep + s[i + |sep|..];
      assert Find(s[..i], sep) < 0 by {
        forall j | 0 <= j && IsAt(s[..i], sep, j) ensures false {
          assert IsAt(s, sep, j);
        }
      }
      (s[..i], Some(s[i + |sep|..]))
  }

  /** A name holding a single separator splits into the text on either side
      of it: `"author__name".split("__") == ["author", "name"]`. The text
      before the separator must not end in the separator's first character,
      or the first occurrence would start one position earlier. */
  lemma {:induction false} SplitAtSingleSeparator(a: string, b: string)
    requires !Occurs(a + "_", "__")
    requires !Occurs(b, "__")
    ensures SplitAll(a + "__" + b, "__") == [a, b]
  {
    var s := a + "__" + b;
    assert IsAt(s, "__", |a|);
    forall j | 0 <= j < |a| ensures !IsAt(s, "__", j) {
      if IsAt(s, "__", j) {
        assert (a + "_")[j..j + 2] == s[j..j + 2];
        assert IsAt(a + "_", "__", j);
      }
    }
    assert Find(s, "__") == |a|;
    assert s[|a| + 2..] == b;
    assert s[..|a|] == a;
  }

  /** A second separator after the first one leaves at least three pieces,
      which is what makes a two-way unpacking of the split fail. */
  lemma {:induction false} SplitWithTwoSeparators(s: string)
    requires Occurs(s, "__")
    requires Occurs(s[Find(s, "__") + 2..], "__")
    ensures |SplitAll(s, "__")| >= 3
  {
    var i := Find(s, "__");
    assert SplitAll(s, "__") == [s[..i]] + SplitAll(s[i + 2..], "__");
  }

  function LowerChar(c: char): char
  {
    if 'A' <= c <= 'Z' then (c as int + 32) as char else c
  }

  /** `s.lower()` on ASCII letters: each capital becomes its small letter,
      every other character stays, and no capital is left. */
  function Lower(s: string): (r: string)
    ensures |r| == |s|
    ensures forall i :: 0 <= i < |s| && 'A' <= s[i] <= 'Z' ==> r[i] as int - s[i] as int == 'a' as int - 'A' as int
    ensures forall i :: 0 <= i < |s| && !('A' <= s[i] <= 'Z') ==> r[i] == s[i]
    ensures forall i :: 0 <= i < |r| ==> !('A' <= r[i] <= 'Z')
  {
    seq(|s|, i requires 0 <= i < |s| => LowerChar(s[i]))
  }

  /** Whitespace as `str.strip()` removes it (ASCII only). */
  predicate IsSpace(c: char)
  {
    c == ' ' || c == '\t' || c == '\n' || c == '\r' || c as int == 11 || c as int == 12
  }

  /** `s.strip() == ''`: the string is empty or all whitespace. */
  predicate IsBlank(s: string)
  {
    forall i :: 0 <= i < |s| ==> IsSpace(s[i])
  }

  /** `s.startswith(p)`. */
  predicate StartsWith(s: string, p: string)
  {
    |p| <= |s| && s[..|p|] == p
  }
}
