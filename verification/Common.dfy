/** Result types and finite-set facts shared by the models. */
module Common {

  datatype Option<+T> = None | Some(value: T) {
    function GetOr(default: T): T {
      if Some? then value else default
    }
  }

  datatype Result<+T> = Ok(value: T) | Error(reason: string)

  /** The strict-majority quorum of a fixed voting membership. */
  predicate Majority<T(==)>(members: set<T>, part: set<T>) {
    part <= members && 2 * |part| > |members|
  }

  lemma MajoritiesMeet<T>(members: set<T>, a: set<T>, b: set<T>) returns (x: T)
    requires Majority(members, a) && Majority(members, b)
    ensures x in a && x in b
  {
    if a * b == {} {
      assert |a + b| == |a| + |b|;
      SubsetIsNoLarger(a + b, members);
      assert false;
    }
    x :| x in a * b;
  }

  lemma {:induction false} SubsetIsNoLarger<T>(a: set<T>, b: set<T>)
    requires a <= b
    ensures |a| <= |b|
  {
    if x :| x in a {
      SubsetIsNoLarger(a - {x}, b - {x});
    }
  }
}
