/**
 * String helpers the control layer relies on: Python's `str.split(sep)` for a
 * one-character separator, its inverse `sep.join(parts)`, the substring test
 * `t in s`, and the last component of a path (`pathlib.Path(p).name`).
 */
module Text {

  /** `s.split(sep)`: the pieces between separators, empty pieces kept, never an empty list. */
  function Split(s: string, sep: char): (parts: seq<string>)
    ensures |parts| >= 1
    decreases |s|
  {
    if s == [] then [""]
    else
      var rest := Split(s[1..], sep);
      if s[0] == sep then [""] + rest
      else [[s[0]] + rest[0]] + rest[1..]
  }

  /** `sep.join(parts)`. */
  function Join(parts: seq<string>, sep: char): string
    decreases |parts|
  {
    if |parts| == 0 then ""
    else if |parts| == 1 then parts[0]
    else parts[0] + [sep] + Join(parts[1..], sep)
  }

  /** There is one piece more than there are separators in the string. */
  lemma {:induction false} SplitCount(s: string, sep: char)
    ensures |Split(s, sep)| == multiset(s)[sep] + 1
  {
    if s != [] {
      SplitCount(s[1..], sep);
      assert s == [s[0]] + s[1..];
      assert multiset(s) == multiset{s[0]} + multiset(s[1..]);
    }
  }

  /** Joining the pieces with the separator gives the string back. */
  lemma {:induction false} JoinSplit(s: string, sep: char)
    ensures Join(Split(s, sep), sep) == s
  {
    if s != [] {
      var rest := Split(s[1..], sep);
      JoinSplit(s[1..], sep);
      if s[0] == sep {
        assert ([""] + rest)[1..] == rest;
      } else {
        var parts := [[s[0]] + rest[0]] + rest[1..];
        if |rest| > 1 {
          assert parts[1..] == rest[1..];
        }
      }
    }
  }

  /** No piece contains the separator. */
  lemma {:induction false} SplitPiecesFree(s: string, sep: char)
    ensures forall i :: 0 <= i < |Split(s, sep)| ==> sep !in Split(s, sep)[i]
  {
    if s != [] {
      SplitPiecesFree(s[1..], sep);
      var rest := Split(s[1..], sep);
      if s[0] == sep {
        assert forall i :: 1 <= i < |rest| + 1 ==> ([""] + rest)[i] == rest[i - 1];
      } else {
        var parts := [[s[0]] + rest[0]] + rest[1..];
        assert forall i :: 1 <= i < |parts| ==> parts[i] == rest[i];
      }
    }
  }

  /**
   * The first piece is the text before the first separator: it holds no
   * separator, and when the string holds one, the string goes on with it.
   */
  lemma SplitHead(s: string, sep: char)
    ensures sep !in Split(s, sep)[0]
    ensures sep !in s <==> |Split(s, sep)| == 1
    ensures sep !in s ==> Split(s, sep) == [s]
    ensures sep in s ==> |Split(s, sep)[0]| < |s| && s[..|Split(s, sep)[0]|] == Split(s, sep)[0]
                         && s[|Split(s, sep)[0]|] == sep
  {
    var parts := Split(s, sep);
    SplitPiecesFree(s, sep);
    SplitCount(s, sep);
    JoinSplit(s, sep);
    if |parts| == 1 {
      assert Join(parts, sep) == parts[0];
    } else {
      assert s == parts[0] + [sep] + Join(parts[1..], sep);
      assert sep in s by { assert s[|parts[0]|] == sep; }
    }
  }

  /** Text free of the separator, followed by the separator, is exactly the first piece. */
  lemma {:induction false} SplitPrefix(p: string, s: string, sep: char)
    requires sep !in p
    ensures Split(p + [sep] + s, sep)[0] == p
    decreases |p|
  {
    var u := p + [sep] + s;
    if p == [] {
      assert u[1..] == s;
    } else {
      assert u[1..] == p[1..] + [sep] + s;
      SplitPrefix(p[1..], s, sep);
      assert p == [p[0]] + p[1..];
    }
  }

  /** Splitting what follows the first separator gives the remaining pieces. */
  lemma SplitTail(s: string, sep: char)
    requires sep in s
    ensures |Split(s, sep)| >= 2
    ensures Split(Join(Split(s, sep)[1..], sep), sep) == Split(s, sep)[1..]
  {
    SplitHead(s, sep);
    var parts := Split(s, sep);
    var k := |parts[0]|;
    SplitAfter(s, sep, k);
    JoinSplit(s, sep);
    assert s == parts[0] + [sep] + Join(parts[1..], sep);
    assert s[k + 1..] == Join(parts[1..], sep);
  }

  /** When the first piece has length k, the pieces after it are the pieces of s[k+1..]. */
  lemma {:induction false} SplitAfter(s: string, sep: char, k: nat)
    requires k < |s| && k == |Split(s, sep)[0]| && s[k] == sep
    ensures Split(s, sep)[1..] == Split(s[k + 1..], sep)
    decreases k
  {
    var rest := Split(s[1..], sep);
    if k == 0 {
      assert Split(s, sep) == [""] + rest;
    } else {
      assert s[0] != sep;
      assert Split(s, sep) == [[s[0]] + rest[0]] + rest[1..];
      SplitAfter(s[1..], sep, k - 1);
      assert s[1..][k..] == s[k + 1..];
    }
  }

  /** `t in s` for strings: `t` occurs in `s` as a contiguous substring. */
  function Contains(s: string, t: string): bool
    decreases |s|
  {
    if |t| > |s| then false
    else s[..|t|] == t || (s != [] && Contains(s[1..], t))
  }

  /** `t` occurs in `s` starting at index `i`. */
  predicate At(s: string, t: string, i: nat)
    requires i + |t| <= |s|
  {
    s[i..i + |t|] == t
  }

  /** `Contains` is Python's substring test: `t` occurs at some index of `s`. */
  lemma {:induction false} ContainsIff(s: string, t: string)
    ensures Contains(s, t) <==> exists i: nat :: i + |t| <= |s| && At(s, t, i)
    decreases |s|
  {
    if |t| <= |s| {
      if s != [] {
        ContainsIff(s[1..], t);
        if Contains(s[1..], t) {
          var j: nat :| j + |t| <= |s[1..]| && At(s[1..], t, j);
          assert s[1..][j..j + |t|] == s[j + 1..j + 1 + |t|];
          assert At(s, t, j + 1);
        }
      }
      if s[..|t|] == t {
        assert At(s, t, 0);
      }
      if exists i: nat :: i + |t| <= |s| && At(s, t, i) {
        var i: nat :| i + |t| <= |s| && At(s, t, i);
        if i > 0 {
          assert s[1..][i - 1..i - 1 + |t|] == s[i..i + |t|];
          assert At(s[1..], t, i - 1);
        }
      }
    }
  }

  /** `pathlib.Path(p).name`, for a path written without a trailing separator. */
  function Basename(path: string): (name: string)
    ensures '/' !in name
  {
    var parts := Split(path, '/');
    SplitPiecesFree(path, '/');
    parts[|parts| - 1]
  }
}
