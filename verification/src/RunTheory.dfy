// Runs of any transition system, and induction over them.
module RunTheory {

  ghost predicate IsRun<S, E>(init: S, next: (S, E, S) -> bool, ws: seq<S>, es: seq<E>) {
    && |ws| == |es| + 1
    && ws[0] == init
    && forall i {:trigger es[i]} :: 0 <= i < |es| ==> next(ws[i], es[i], ws[i + 1])
  }

  ghost predicate Preserves<S(!new), E(!new)>(next: (S, E, S) -> bool, inv: S -> bool) {
    forall w, e, v :: inv(w) && next(w, e, v) ==> inv(v)
  }

  // An invariant that holds initially and is kept by every step holds in every state.
  lemma {:induction false} Invariant<S(!new), E(!new)>(init: S, next: (S, E, S) -> bool, inv: S -> bool, ws: seq<S>, es: seq<E>, i: nat)
    requires IsRun(init, next, ws, es) && inv(init) && Preserves(next, inv) && i < |ws|
    ensures inv(ws[i])
    decreases i
  {
    if i > 0 {
      Invariant(init, next, inv, ws, es, i - 1);
      var e := es[i - 1];
      assert next(ws[i - 1], e, ws[i]);
    }
  }

  ghost predicate Orders<S(!new), E(!new)>(next: (S, E, S) -> bool, inv: S -> bool, rel: (S, S) -> bool) {
    && (forall w :: rel(w, w))
    && (forall u, v, w :: rel(u, v) && rel(v, w) ==> rel(u, w))
    && (forall w, e, v :: inv(w) && next(w, e, v) ==> rel(w, v))
  }

  // A preorder that every step respects holds between any two states of a run.
  lemma {:induction false} Monotone<S(!new), E(!new)>(init: S, next: (S, E, S) -> bool, inv: S -> bool, rel: (S, S) -> bool,
                                          ws: seq<S>, es: seq<E>, i: nat, j: nat)
    requires IsRun(init, next, ws, es) && inv(init) && Preserves(next, inv) && Orders(next, inv, rel)
    requires i <= j < |ws|
    ensures rel(ws[i], ws[j])
    decreases j
  {
    if i < j {
      Monotone(init, next, inv, rel, ws, es, i, j - 1);
      Invariant(init, next, inv, ws, es, j - 1);
      var e := es[j - 1];
      assert next(ws[j - 1], e, ws[j]);
      assert rel(ws[j - 1], ws[j]);
    }
  }

  // A run of a system is a run of every system that allows its steps.
  lemma Weaken<S(!new), E(!new)>(init: S, next: (S, E, S) -> bool, next': (S, E, S) -> bool, ws: seq<S>, es: seq<E>)
    requires IsRun(init, next, ws, es) && forall w, e, v :: next(w, e, v) ==> next'(w, e, v)
    ensures IsRun(init, next', ws, es)
  {
  }
}
