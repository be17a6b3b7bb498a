/** Math.random as an oracle.

    Every place in the repository that needs randomness calls Math.random(),
    which returns a number in [0, 1), and turns it into a choice among n
    options with Math.floor(Math.random() * n). Here the draws are inputs:
    a caller supplies the values Math.random() would have returned, in order.
    The distribution is not modelled; only the range of a draw is. */
module RandomDraw {

  /** A value Math.random() can return. */
  predicate IsDraw(r: real) {
    0.0 <= r < 1.0
  }

  predicate AllDraws(rs: seq<real>) {
    forall i :: 0 <= i < |rs| ==> IsDraw(rs[i])
  }

  /** Math.floor(r * n): the option among n that the draw r selects. */
  function Index(r: real, n: nat): (k: int)
    requires IsDraw(r) && n > 0
    ensures 0 <= k < n
  {
    IndexBounds(r, n);
    (r * n as real).Floor
  }

  /** Scaling a draw by n lands in [0, n), so its floor is a valid index. */
  lemma IndexBounds(r: real, n: nat)
    requires IsDraw(r) && n > 0
    ensures 0 <= (r * n as real).Floor < n
  {
    var x := r * n as real;
    assert 0.0 <= x;
    assert x < n as real;
    assert x.Floor as real <= x < x.Floor as real + 1.0;
  }

  /** The characters picked by `chars.charAt(Math.floor(Math.random() * chars.length))`
      for each draw of `draws`, in order. */
  function Picked(chars: string, draws: seq<real>): (s: string)
    requires |chars| > 0 && AllDraws(draws)
  {
    seq(|draws|, i requires 0 <= i < |draws| => chars[Index(draws[i], |chars|)])
  }

  /** Every picked character comes from the alphabet, one per draw. */
  lemma PickedFromAlphabet(chars: string, draws: seq<real>)
    requires |chars| > 0 && AllDraws(draws)
    ensures |Picked(chars, draws)| == |draws|
    ensures forall i :: 0 <= i < |draws| ==> Picked(chars, draws)[i] in chars
  {
    forall i | 0 <= i < |draws|
      ensures Picked(chars, draws)[i] in chars
    {
      var k := Index(draws[i], |chars|);
      assert Picked(chars, draws)[i] == chars[k];
    }
  }

  /** The loop `for (i = 0; i < length; i++) name += chars.charAt(...)`:
      appends one picked character per draw, consuming the first `length` draws. */
  method PickString(chars: string, draws: seq<real>, length: nat) returns (name: string)
    requires |chars| > 0 && length <= |draws| && AllDraws(draws)
    ensures name == Picked(chars, draws[..length])
    ensures |name| == length
    ensures forall i :: 0 <= i < |name| ==> name[i] in chars
  {
    name := "";
    var i := 0;
    while i < length
      invariant 0 <= i <= length
      invariant name == Picked(chars, draws[..i])
    {
      name := name + [chars[Index(draws[i], |chars|)]];
      i := i + 1;
    }
    assert draws[..length][..length] == draws[..length];
    PickedFromAlphabet(chars, draws[..length]);
  }
}
