/** The string operations `input_parser` applies to a command line. */
module Commands {

  /** The number of space characters in `s`. */
  function Spaces(s: string): nat {
    if s == [] then 0 else (if s[0] == ' ' then 1 else 0) + Spaces(s[1..])
  }

  /** `s.split(" ")`: the pieces between single spaces, empty pieces
      included, so a string with k spaces has k + 1 pieces. */
  function Split(s: string): (parts: seq<string>)
    ensures |parts| >= 1
  {
    if s == [] then [[]]
    else
      var rest := Split(s[1..]);
      if s[0] == ' ' then [[]] + rest else [[s[0]] + rest[0]] + rest[1..]
  }

  /** `" ".join(parts)`. */
  function Join(parts: seq<string>): string
    requires |parts| >= 1
  {
    if |parts| == 1 then parts[0] else parts[0] + " " + Join(parts[1..])
  }

  /** Splitting yields one more piece than there are spaces. */
  lemma {:induction false} SplitCount(s: string)
    ensures |Split(s)| == Spaces(s) + 1
  {
    if s != [] {
      SplitCount(s[1..]);
    }
  }

  /** No piece holds a space. */
  lemma {:induction false} SplitHasNoSpaces(s: string)
    ensures forall k | 0 <= k < |Split(s)| :: ' ' !in Split(s)[k]
  {
    if s != [] {
      SplitHasNoSpaces(s[1..]);
    }
  }

  /** Joining the pieces with single spaces gives the string back. */
  lemma {:induction false} JoinSplit(s: string)
    ensures Join(Split(s)) == s
  {
    if s != [] {
      var rest := Split(s[1..]);
      JoinSplit(s[1..]);
      if s[0] == ' ' {
        assert ([[]] + rest)[1..] == rest;
      } else {
        var parts := [[s[0]] + rest[0]] + rest[1..];
        if |rest| > 1 {
          assert parts[1..] == rest[1..];
        }
      }
    }
  }

  /** Splitting a join of space-free pieces gives the pieces back. */
  lemma {:induction false} SplitJoin(parts: seq<string>)
    requires |parts| >= 1
    requires forall k | 0 <= k < |parts| :: ' ' !in parts[k]
    ensures Split(Join(parts)) == parts
  {
    if |parts| == 1 {
      SplitWord(parts[0], []);
      assert parts[0] + [] == parts[0];
      assert Split([]) == [[]];
      assert [parts[0]] == parts;
    } else {
      var j := Join(parts[1..]);
      SplitJoin(parts[1..]);
      SplitWord(parts[0], " " + j);
      assert (" " + j)[1..] == j;
      assert Split(" " + j) == [[]] + parts[1..];
      assert Join(parts) == parts[0] + (" " + j);
      assert Split(" " + j)[0] == [] && Split(" " + j)[1..] == parts[1..];
      assert parts[0] + [] == parts[0];
      assert [parts[0]] + parts[1..] == parts;
    }
  }

  /** A space-free word in front of a string that is empty or starts with a
      space joins the first piece. */
  lemma {:induction false} SplitWord(w: string, t: string)
    requires ' ' !in w
    requires t == [] || t[0] == ' '
    ensures Split(w + t) == [w + Split(t)[0]] + Split(t)[1..]
  {
    var st := Split(t);
    if w == [] {
      assert w + t == t;
      assert st == [st[0]] + st[1..];
    } else {
      SplitWord(w[1..], t);
      var r := Split(w[1..] + t);
      assert r == [w[1..] + st[0]] + st[1..];
      assert (w + t)[1..] == w[1..] + t;
      assert (w + t)[0] == w[0];
      assert Split(w + t) == [[w[0]] + r[0]] + r[1..];
      assert r[1..] == st[1..];
      assert [w[0]] + (w[1..] + st[0]) == w + st[0];
    }
  }

  /** Lower-cases one character (ASCII letters only). */
  function LowerChar(c: char): char {
    if 'A' <= c <= 'Z' then (c as int + 32) as char else c
  }

  /** The upper-case form of one character (ASCII letters only). */
  function UpperChar(c: char): char {
    if 'a' <= c <= 'z' then (c as int - 32) as char else c
  }

  /** `s.lower()` on ASCII text: the result has no upper-case letter, each
      upper-case letter becomes its lower-case form, and every other
      character comes through unchanged. */
  function Lower(s: string): (r: string)
    ensures |r| == |s|
    ensures forall k | 0 <= k < |r| :: !('A' <= r[k] <= 'Z')
    ensures forall k | 0 <= k < |s| :: !('A' <= s[k] <= 'Z') ==> r[k] == s[k]
    ensures forall k | 0 <= k < |s| :: 'A' <= s[k] <= 'Z' ==> UpperChar(r[k]) == s[k]
  {
    seq(|s|, k requires 0 <= k < |s| => LowerChar(s[k]))
  }

  /** Comparing `s.lower()` with a word that has no upper-case letter is a
      case-insensitive match: each character of `s` is the word's character
      or its upper-case form. */
  lemma LowerMatchesWord(s: string, w: string)
    requires forall k | 0 <= k < |w| :: !('A' <= w[k] <= 'Z')
    ensures Lower(s) == w <==>
      |s| == |w| && forall k | 0 <= k < |s| :: s[k] == w[k] || s[k] == UpperChar(w[k])
  {
    var r := Lower(s);
    if |s| == |w| && forall k | 0 <= k < |s| :: s[k] == w[k] || s[k] == UpperChar(w[k]) {
      forall k | 0 <= k < |s|
        ensures r[k] == w[k]
      {
        if s[k] != w[k] {
          assert s[k] == UpperChar(w[k]);
        }
      }
    }
  }
}
