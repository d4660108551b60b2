/** The toggle of one option letter in a list of selected letters, written the same way
    on two pages: `xs.includes(v) ? xs.filter(x => x !== v) : [...xs, v]`. */
module Selection {

  /** `xs.filter(x => x !== v)`: every occurrence of v dropped, the rest kept in order. */
  function RemoveAll(xs: seq<string>, v: string): (r: seq<string>)
    ensures v !in r
    ensures forall w | w != v :: w in r <==> w in xs
    ensures |r| <= |xs|
  {
    if xs == [] then [] else (if xs[0] == v then [] else [xs[0]]) + RemoveAll(xs[1..], v)
  }

  /** Removing a value that is absent leaves the list as it was. */
  lemma {:induction false} RemoveAbsent(xs: seq<string>, v: string)
    requires v !in xs
    ensures RemoveAll(xs, v) == xs
  {
    if xs != [] {
      RemoveAbsent(xs[1..], v);
    }
  }

  /** Removing all occurrences distributes over concatenation. */
  lemma {:induction false} RemoveAllAppend(xs: seq<string>, ys: seq<string>, v: string)
    ensures RemoveAll(xs + ys, v) == RemoveAll(xs, v) + RemoveAll(ys, v)
  {
    if xs != [] {
      var head := if xs[0] == v then [] else [xs[0]];
      assert (xs + ys)[0] == xs[0] && (xs + ys)[1..] == xs[1..] + ys;
      RemoveAllAppend(xs[1..], ys, v);
      calc {
        RemoveAll(xs + ys, v);
        head + RemoveAll(xs[1..] + ys, v);
        head + (RemoveAll(xs[1..], v) + RemoveAll(ys, v));
        (head + RemoveAll(xs[1..], v)) + RemoveAll(ys, v);
      }
    } else {
      assert xs + ys == ys;
    }
  }

  function Toggle(xs: seq<string>, v: string): (r: seq<string>)
    ensures v in r <==> v !in xs
    ensures forall w | w != v :: w in r <==> w in xs
    ensures v !in xs ==> r == xs + [v]
  {
    if v in xs then RemoveAll(xs, v) else xs + [v]
  }

  /** Toggling a value twice restores which values are selected; when the value was not
      selected, it restores the list itself. */
  lemma {:induction false} ToggleTwice(xs: seq<string>, v: string)
    ensures forall w :: w in Toggle(Toggle(xs, v), v) <==> w in xs
    ensures v !in xs ==> Toggle(Toggle(xs, v), v) == xs
  {
    if v !in xs {
      RemoveAllAppend(xs, [v], v);
      RemoveAbsent(xs, v);
      assert RemoveAll([v], v) == [];
    }
  }
}
