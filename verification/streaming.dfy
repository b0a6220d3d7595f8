/** cmdwasm/streaming/main.go: the worker that reverses each line of its
    input.

    A line is the sequence of its runes (`[]rune(s)`); the UTF-8 decoding
    and encoding around it are not modelled. */
module Streaming {

  /** The runes of s in the opposite order. */
  function Reversed(s: seq<char>): (r: seq<char>)
  {
    seq(|s|, i requires 0 <= i < |s| => s[|s| - 1 - i])
  }

  /** The `reverse` closure's loop: swaps runes i and j, walking inwards. */
  method Reverse(runes: array<char>)
    modifies runes
    ensures runes[..] == Reversed(old(runes[..]))
  {
    var n := runes.Length;
    var i, j := 0, n - 1;
    while i < j
      invariant 0 <= i <= j + 1 <= n && j == n - 1 - i
      invariant forall k :: 0 <= k < i ==> runes[k] == old(runes[n - 1 - k])
      invariant forall k :: j < k < n ==> runes[k] == old(runes[n - 1 - k])
      invariant forall k :: i <= k <= j ==> runes[k] == old(runes[k])
    {
      runes[i], runes[j] := runes[j], runes[i];
      i, j := i + 1, j - 1;
    }
  }

  /** `reverse(s)`: runes out, reversed in place, back to a string. */
  method ReverseString(s: seq<char>) returns (r: seq<char>)
    ensures r == Reversed(s)
  {
    var runes := new char[|s|](i requires 0 <= i < |s| => s[i]);
    assert runes[..] == s;
    Reverse(runes);
    r := runes[..];
  }

  /** The rune count is kept, and rune i of the result is rune len-1-i of
      the input. */
  lemma ReversedIndex(s: seq<char>)
    ensures |Reversed(s)| == |s|
    ensures forall i :: 0 <= i < |s| ==> Reversed(s)[i] == s[|s| - 1 - i]
  {
  }

  /** Reversing twice gives back the string. */
  lemma ReversedTwice(s: seq<char>)
    ensures Reversed(Reversed(s)) == s
  {
    var r := Reversed(s);
    assert forall i :: 0 <= i < |s| ==> Reversed(r)[i] == r[|s| - 1 - i] == s[i];
  }

  /** Empty and one-rune strings are their own reversal. */
  lemma ReversedShort(s: seq<char>)
    requires |s| <= 1
    ensures Reversed(s) == s
  {
  }

  /** Reversal turns a concatenation around. */
  lemma ReversedConcat(a: seq<char>, b: seq<char>)
    ensures Reversed(a + b) == Reversed(b) + Reversed(a)
  {
    var l, r := Reversed(a + b), Reversed(b) + Reversed(a);
    assert |l| == |r|;
    forall i | 0 <= i < |l|
      ensures l[i] == r[i]
    {
      if i < |b| {
        assert l[i] == (a + b)[|a| + |b| - 1 - i] == b[|b| - 1 - i];
      } else {
        assert l[i] == (a + b)[|a| + |b| - 1 - i] == a[|a| - 1 - (i - |b|)];
      }
    }
  }

  /** What the worker writes for its input lines: each one reversed and
      followed by a newline. */
  function Output(lines: seq<seq<char>>): seq<char>
  {
    if lines == [] then [] else Output(lines[..|lines| - 1]) + Reversed(lines[|lines| - 1]) + "\n"
  }

  /** The output of a run of lines is the outputs of its parts, one after
      the other. */
  lemma {:induction false} OutputAppend(xs: seq<seq<char>>, ys: seq<seq<char>>)
    ensures Output(xs + ys) == Output(xs) + Output(ys)
    decreases |ys|
  {
    if ys == [] {
      assert xs + ys == xs;
    } else {
      var init, last := ys[..|ys| - 1], ys[|ys| - 1];
      assert (xs + ys)[..|xs + ys| - 1] == xs + init;
      assert (xs + ys)[|xs + ys| - 1] == last;
      OutputAppend(xs, init);
      calc {
        Output(xs + ys);
        Output(xs + init) + Reversed(last) + "\n";
        Output(xs) + Output(init) + Reversed(last) + "\n";
        Output(xs) + (Output(init) + Reversed(last) + "\n");
        Output(xs) + Output(ys);
      }
    }
  }

  /** `reverseWorker` on the lines the scanner yields: reverses each line,
      writes it with a newline, in order. */
  method ReverseWorker(lines: seq<seq<char>>) returns (out: seq<char>)
    ensures out == Output(lines)
  {
    out := [];
    var k := 0;
    while k < |lines|
      invariant 0 <= k <= |lines|
      invariant out == Output(lines[..k])
    {
      var reversed := ReverseString(lines[k]);
      assert lines[..k + 1][..k] == lines[..k];
      out := out + (reversed + "\n");
      k := k + 1;
    }
    assert lines[..|lines|] == lines;
  }

  /** Each output line is the reversed input line and a newline; fed a
      line the worker has reversed, it writes the original line back. */
  lemma OutputOfOne(line: seq<char>)
    ensures Output([line]) == Reversed(line) + "\n"
    ensures Output([Reversed(line)]) == line + "\n"
  {
    ReversedTwice(line);
    assert [line][..0] == [];
    assert [Reversed(line)][..0] == [];
    assert Output([Reversed(line)]) == Output([]) + Reversed(Reversed(line)) + "\n";
  }
}
