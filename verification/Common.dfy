/** Types shared by the pallet models. */
module Common {
  datatype Option<+T> = None | Some(value: T)

  type Account = nat

  ghost predicate Distinct(xs: seq<Account>) {
    forall i, j :: 0 <= i < j < |xs| ==> xs[i] != xs[j]
  }
}
