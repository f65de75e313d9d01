/** Shared value types. */
module Common {
  datatype Option<+T> = None | Some(value: T)

  lemma TimesMonotone(a: nat, b: nat, c: nat)
    requires a <= b
    ensures a * c <= b * c
  {
  }
}
