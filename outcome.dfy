/** Optional values and the error outcomes of the billing operations. */
module Outcome {

  datatype Option<+T> = None | Some(value: T)

  /** The ways an operation of the billing engine can fail. A failed
      operation leaves the record store as it was, except an investor
      update refused with `IntegrityError`: the records its pre-save
      handler stored before the refusal stay. */
  datatype Error =
    | NotFound              // a primary key that names no record
    | IntegrityError        // a foreign key that names no record, or a duplicate email
    | NotValidated          // sending a cashcall that is not validated
    | NoValidatedCashcalls  // send-all with an empty queue
    | NoMembershipBill      // deactivating an investor who has no membership bill
    | IncomparableDueDate   // `overdue` on a sent cashcall that has no due date

  datatype Result<+T> = Ok(value: T) | Err(error: Error)
}
