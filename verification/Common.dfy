/** Values that several components share. */
module Common {

  datatype Option<+T> = None | Some(value: T)

  type AccountId = string

  /** The status of an account. */
  datatype Standing = Active | Frozen | Closed | Dormant

  /** The side of a leg, and of a general ledger account. */
  datatype Side = Debit | Credit
}
