/**
  `hashColor`: the display colour of a process, a checksum of its id.
  An id is a sequence of Unicode scalar values. For ids inside the Basic
  Multilingual Plane, such as the `P1`, `P2`, ... the page builds, each `char`
  is the one UTF-16 code unit `charCodeAt` reads.
*/
module Colors {

  /** Sum of the character codes of `s`. */
  function CharCodeSum(s: string): nat {
    if s == [] then 0 else CharCodeSum(s[..|s| - 1]) + s[|s| - 1] as nat
  }

  /** The colour index of a process: always one of 1..6. */
  function HashColor(id: string): (r: int)
    ensures 1 <= r <= 6
  {
    CharCodeSum(id) % 6 + 1
  }

  /** The loop of `hashColor`: add up the character codes, then reduce. */
  method ComputeHashColor(id: string) returns (color: int)
    ensures color == HashColor(id)
  {
    var sum := 0;
    for i := 0 to |id|
      invariant sum == CharCodeSum(id[..i])
    {
      assert id[..i + 1][..i] == id[..i];
      sum := sum + id[i] as nat;
    }
    assert id[..|id|] == id;
    color := sum % 6 + 1;
  }

  lemma {:induction false} CharCodeSumAppend(a: string, b: string)
    ensures CharCodeSum(a + b) == CharCodeSum(a) + CharCodeSum(b)
    decreases |b|
  {
    if b == [] {
      assert a + b == a;
    } else {
      assert (a + b)[..|a + b| - 1] == a + b[..|b| - 1];
      CharCodeSumAppend(a, b[..|b| - 1]);
    }
  }

  /** Taking out the character at `j` takes its code out of the sum. */
  lemma CharCodeSumRemove(b: string, j: nat)
    requires j < |b|
    ensures CharCodeSum(b) == CharCodeSum(b[..j] + b[j + 1..]) + b[j] as nat
  {
    var left, right := b[..j], b[j + 1..];
    var withC := left + [b[j]];
    assert withC[..|withC| - 1] == left;
    assert CharCodeSum(withC) == CharCodeSum(left) + b[j] as nat;
    assert b[..j + 1] == withC;
    assert b == b[..j + 1] + right;
    CharCodeSumAppend(withC, right);
    CharCodeSumAppend(left, right);
  }

  /** The sum depends only on which character codes occur, not on their order. */
  lemma {:induction false} CharCodeSumPermutation(a: string, b: string)
    requires multiset(a) == multiset(b)
    ensures CharCodeSum(a) == CharCodeSum(b)
    decreases |a|
  {
    if a == [] {
      assert |b| == |multiset(b)| == 0;
    } else {
      var init, c := a[..|a| - 1], a[|a| - 1];
      assert a == init + [c];
      assert multiset(init) == multiset(a) - multiset{c};
      assert c in multiset(b);
      var j :| 0 <= j < |b| && b[j] == c;
      var rest := b[..j] + b[j + 1..];
      assert b[..j + 1] == b[..j] + [c];
      assert b == b[..j + 1] + b[j + 1..];
      assert multiset(b) == multiset(b[..j]) + multiset{c} + multiset(b[j + 1..]);
      assert multiset(rest) == multiset(b) - multiset{c};
      CharCodeSumPermutation(init, rest);
      CharCodeSumRemove(b, j);
    }
  }

  /** Ids made of the same characters in any order share a colour
      (`P12` and `P21`, for one). */
  lemma HashColorPermutation(a: string, b: string)
    requires multiset(a) == multiset(b)
    ensures HashColor(a) == HashColor(b)
  {
    CharCodeSumPermutation(a, b);
  }
}
