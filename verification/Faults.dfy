/** Which of a procedure's numbered calls fail. */
module Faults {

  /** Works: the call has its effect. Breaks: it has none and reports an error. Stops: it reports an error although
      it has had its effect or, for a recursive removal, part of it. */
  datatype Fate = Works | Breaks | Stops

  /** The fate of the i-th call; calls beyond the list work. */
  function At(fates: seq<Fate>, i: nat): Fate {
    if i < |fates| then fates[i] else Works
  }

  predicate Faultless(fates: seq<Fate>) {
    forall i | 0 <= i < |fates| :: fates[i] == Works
  }

  lemma WorksIn(fates: seq<Fate>, i: nat)
    ensures Faultless(fates) ==> At(fates, i) == Works
  {
  }
}
