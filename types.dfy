/** The two input record shapes of the reservation service, and an explicit
    Option for JavaScript's `null`/`undefined`. */
module Types {

  /** `None` stands for `null` or `undefined`. */
  datatype Option<T> = None | Some(value: T)

  /** A product attached to a reservation. `name` is optional in the data:
      a missing or `null` name is `None`. */
  datatype ProductAssignment = ProductAssignment(
    id: int,
    name: Option<string>,
    reservation_uuid: string)

  /** A charge for one product assignment; `special_product_assignment_id`
      refers to `ProductAssignment.id`. Amounts are whole units (cents). */
  datatype ProductCharge = ProductCharge(
    special_product_assignment_id: int,
    active: bool,
    amount: int)
}
