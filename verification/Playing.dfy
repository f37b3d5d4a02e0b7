/** Playing a list of steps on any of the machines. */
module Playing {
  import opened Common

  /** The state after the steps, if each is enabled where it is taken; `move` is None where a step is not. */
  ghost function Play<S, T>(move: (S, T) -> Option<S>, s: S, steps: seq<T>): Option<S>
    decreases |steps|
  {
    if steps == [] then Some(s)
    else
      match move(s, steps[0])
      case None => None
      case Some(t) => Play(move, t, steps[1..])
  }

  lemma PlayFirst<S, T>(move: (S, T) -> Option<S>, s: S, step: T, rest: seq<T>)
    requires move(s, step).Some?
    ensures Play(move, s, [step] + rest) == Play(move, move(s, step).value, rest)
  {
    assert ([step] + rest)[1..] == rest;
  }

  lemma {:induction false} PlayOn<S, T>(move: (S, T) -> Option<S>, s: S, a: seq<T>, b: seq<T>)
    requires Play(move, s, a).Some?
    ensures Play(move, s, a + b) == Play(move, Play(move, s, a).value, b)
    decreases |a|
  {
    if a == [] {
      assert a + b == b;
    } else {
      assert (a + b)[0] == a[0] && (a + b)[1..] == a[1..] + b;
      PlayOn(move, move(s, a[0]).value, a[1..], b);
    }
  }
}
