/** The value stack of the reverse-Polish evaluator: a LIFO of numbers whose
    top is the last element of the sequence. */
module ValueStack {
  import opened Optional

  /** pushToValStack */
  function Push(st: seq<real>, v: real): (r: seq<real>)
    ensures |r| == |st| + 1 && r[|st|] == v && r[..|st|] == st
  {
    st + [v]
  }

  /** popFromValStack: the top value and the rest of the stack, or None on an
      empty stack (which the caller sees as an unchanged stack). */
  function Pop(st: seq<real>): (r: Option<(real, seq<real>)>)
    ensures r.None? <==> |st| == 0
    ensures r.Some? ==> Push(r.value.1, r.value.0) == st
  {
    if |st| == 0 then None else Some((st[|st| - 1], st[..|st| - 1]))
  }

  /** Pushes `vs` from left to right. */
  function PushAll(st: seq<real>, vs: seq<real>): seq<real>
    decreases |vs|
  {
    if |vs| == 0 then st else PushAll(Push(st, vs[0]), vs[1..])
  }

  /** Pops `n` values, collecting them in the order they come off the stack. */
  function PopMany(st: seq<real>, n: nat): Option<(seq<real>, seq<real>)>
    decreases n
  {
    if n == 0 then Some(([], st))
    else match Pop(st)
      case None => None
      case Some((v, rest)) =>
        match PopMany(rest, n - 1)
        case None => None
        case Some((vs, bottom)) => Some(([v] + vs, bottom))
  }

  function Reverse(vs: seq<real>): (r: seq<real>)
    ensures |r| == |vs|
    ensures forall i :: 0 <= i < |vs| ==> r[i] == vs[|vs| - 1 - i]
    decreases |vs|
  {
    if |vs| == 0 then [] else Reverse(vs[1..]) + [vs[0]]
  }

  lemma {:induction false} PushAllAppends(st: seq<real>, vs: seq<real>)
    ensures PushAll(st, vs) == st + vs
    decreases |vs|
  {
    if |vs| > 0 {
      PushAllAppends(Push(st, vs[0]), vs[1..]);
      assert st + [vs[0]] + vs[1..] == st + vs;
    }
  }

  lemma {:induction false} PopManyTakesTop(bottom: seq<real>, vs: seq<real>)
    ensures PopMany(bottom + vs, |vs|) == Some((Reverse(vs), bottom))
    decreases |vs|
  {
    if |vs| > 0 {
      var st := bottom + vs;
      var last := vs[|vs| - 1];
      var init := vs[..|vs| - 1];
      assert st[..|st| - 1] == bottom + init;
      assert Pop(st) == Some((last, bottom + init));
      PopManyTakesTop(bottom, init);
      assert PopMany(bottom + init, |vs| - 1) == Some((Reverse(init), bottom));
      var r := [last] + Reverse(init);
      assert PopMany(st, |vs|) == Some((r, bottom));
      assert forall i :: 0 <= i < |vs| ==> r[i] == Reverse(vs)[i];
      assert Reverse(vs) == r;
    } else {
      assert bottom + vs == bottom;
    }
  }

  /** Pushing N values and popping N returns them in reverse order and leaves
      the stack as it was. */
  lemma PushThenPopReverses(st: seq<real>, vs: seq<real>)
    ensures PopMany(PushAll(st, vs), |vs|) == Some((Reverse(vs), st))
  {
    PushAllAppends(st, vs);
    PopManyTakesTop(st, vs);
  }

  /** Popping an empty stack fails. */
  lemma PopEmptyFails(n: nat)
    requires n > 0
    ensures PopMany([], n) == None
  {
  }
}
