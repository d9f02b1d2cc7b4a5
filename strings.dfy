/**
 * The few Python string operations the recipe relies on: `str.lower`,
 * `str.replace` of one character, `sep.join(list)` and the `%s` rendering
 * of `None`; plus `Split`, Python's `s.split(sep)` with a one-character
 * separator: it cuts at every separator and keeps empty pieces. For words
 * that hold no shell-special character, splitting at single spaces agrees
 * with the word splitting a shell applies to a command line.
 */
module Strings {
  import opened Wrappers

  /** ASCII lower-casing of one character. */
  function LowerChar(c: char): (r: char)
    ensures 'A' <= c <= 'Z' ==> 'a' <= r <= 'z' && r as int - c as int == 32
    ensures !('A' <= c <= 'Z') ==> r == c
  {
    if 'A' <= c <= 'Z' then (c as int + 32) as char else c
  }

  predicate IsUpper(c: char)
  {
    'A' <= c <= 'Z'
  }

  /** `s.lower()` for ASCII text. */
  function Lower(s: string): (r: string)
    ensures |r| == |s|
  {
    if s == [] then [] else [LowerChar(s[0])] + Lower(s[1..])
  }

  /** `Lower` works character by character and leaves no upper-case letter. */
  lemma {:induction false} LowerChars(s: string)
    ensures forall i :: 0 <= i < |s| ==> Lower(s)[i] == LowerChar(s[i])
    ensures forall i :: 0 <= i < |s| ==> !IsUpper(Lower(s)[i])
  {
    if s != [] {
      LowerChars(s[1..]);
      assert Lower(s) == [LowerChar(s[0])] + Lower(s[1..]);
    }
  }

  /** Replaces every occurrence of `old_` by `new_`, as `s.replace(old_, new_)` does for one character. */
  function ReplaceChar(s: string, old_: char, new_: char): (r: string)
    ensures |r| == |s|
    ensures forall i :: 0 <= i < |s| ==> r[i] == (if s[i] == old_ then new_ else s[i])
    ensures old_ != new_ ==> old_ !in r
  {
    if s == [] then [] else [if s[0] == old_ then new_ else s[0]] + ReplaceChar(s[1..], old_, new_)
  }

  /** The position of the first `c` in `s`. */
  function IndexOf(s: string, c: char): (i: nat)
    requires c in s
    ensures i < |s| && s[i] == c
    ensures c !in s[..i]
  {
    if s[0] == c then 0
    else
      var j := IndexOf(s[1..], c);
      assert s[..j + 1] == [s[0]] + s[1..][..j];
      j + 1
  }

  /** `sep.join(xs)`. */
  function Join(xs: seq<string>, sep: char): (r: string)
    ensures |xs| == 1 ==> r == xs[0]
  {
    if |xs| == 0 then ""
    else if |xs| == 1 then xs[0]
    else xs[0] + [sep] + Join(xs[1..], sep)
  }

  /** `s.split(sep)`: the pieces between the separators, empty pieces included. */
  function Split(s: string, sep: char): (r: seq<string>)
    ensures |r| >= 1
    decreases |s|
  {
    if sep in s then
      var i := IndexOf(s, sep);
      [s[..i]] + Split(s[i + 1..], sep)
    else [s]
  }

  /** Words are what `Join` can glue together and `Split` take apart again. */
  predicate AreWords(xs: seq<string>, sep: char)
  {
    forall k :: 0 <= k < |xs| ==> sep !in xs[k]
  }

  /** The first occurrence is the only one with no earlier occurrence. */
  lemma IndexOfIsFirst(s: string, c: char, n: nat)
    requires n < |s| && s[n] == c && c !in s[..n]
    ensures IndexOf(s, c) == n
  {
  }

  /** Splitting a joined list of separator-free words gives back the list. */
  lemma {:induction false} SplitJoin(xs: seq<string>, sep: char)
    requires |xs| >= 1 && AreWords(xs, sep)
    ensures Split(Join(xs, sep), sep) == xs
  {
    if |xs| > 1 {
      var t := Join(xs[1..], sep);
      var s := Join(xs, sep);
      var n := |xs[0]|;
      assert s == xs[0] + [sep] + t;
      assert s[..n] == xs[0] && s[n] == sep && s[n + 1..] == t;
      IndexOfIsFirst(s, sep, n);
      SplitJoin(xs[1..], sep);
      assert Split(s, sep) == [xs[0]] + xs[1..];
    }
  }

  /** Joining the pieces of a split string gives back the string. */
  lemma {:induction false} JoinSplit(s: string, sep: char)
    ensures Join(Split(s, sep), sep) == s
    decreases |s|
  {
    if sep in s {
      var i := IndexOf(s, sep);
      var rest := Split(s[i + 1..], sep);
      JoinSplit(s[i + 1..], sep);
      assert Split(s, sep) == [s[..i]] + rest;
      assert ([s[..i]] + rest)[1..] == rest;
      calc {
        Join([s[..i]] + rest, sep);
        s[..i] + [sep] + Join(rest, sep);
        s[..i] + [sep] + s[i + 1..];
        s;
      }
    }
  }

  /** What `"%s" % v` prints for a value that may be `None`. */
  function PyStr(v: Option<string>): (r: string)
    ensures v.Some? ==> r == v.value
    ensures v.None? ==> r == "None"
  {
    match v
    case Some(x) => x
    case None => "None"
  }
}
