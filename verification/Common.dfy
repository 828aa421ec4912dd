/** What several modules need. */
module Common {

  datatype Option<T> = None | Some(value: T)

  /** configMAX_PRIORITIES */
  const MAX_PRIORITIES: nat := 5

  lemma MulMono(a: nat, b: nat, z: nat)
    ensures a <= b ==> a * z <= b * z
    ensures a < b && z > 0 ==> a * z < b * z
  {
  }

  lemma {:induction false} SubsetCount<T>(a: set<T>, b: set<T>)
    requires a <= b
    ensures |a| <= |b|
  {
    if a != {} {
      var x :| x in a;
      SubsetCount(a - {x}, b - {x});
    }
  }
}
