/** Small shared vocabulary: an optional value, real-number helpers and the
    cooldown gate that attacks, skills, spawn buttons and snapshots all use. */
module Common {

  datatype Option<T> = None | Some(value: T)

  function Abs(r: real): (a: real)
    ensures a >= 0.0
    ensures a == r || a == -r
  {
    if r < 0.0 then -r else r
  }

  function Max(a: real, b: real): (m: real)
    ensures m >= a && m >= b
    ensures m == a || m == b
  {
    if a >= b then a else b
  }

  function Min(a: real, b: real): (m: real)
    ensures m <= a && m <= b
    ensures m == a || m == b
  {
    if a <= b then a else b
  }

  /** No element occurs twice. The game's hero and enemy lists never hold
      a unit twice; the operations that walk them rely on it. */
  predicate Distinct<T(==)>(s: seq<T>)
  {
    forall i, j :: 0 <= i < j < |s| ==> s[i] != s[j]
  }

  /** The cooldown gate: an action last performed at `last` may be performed
      again at `now` once `duration` has elapsed. Callers record the new
      `last` only when they actually perform the action. */
  predicate Ready(now: real, last: real, duration: real)
  {
    now - last >= duration
  }
}

/** The screen dimensions the game lays its lane out on. */
module Screen {
  const Width: int := 800
  const Height: int := 400
}
