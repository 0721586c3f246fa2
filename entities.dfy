/** The four tables of the laundry backend, one record per row.
    Money (balances, costs, transaction amounts) is held in integer cents. */
module Entities {

  /** A row of the users table; the balance may be negative (a transaction has no floor). */
  datatype User = User(id: nat, name: string, netid: string, balance: int)

  /** A row of the dorms table; `name` is the row's `dorm` column. */
  datatype Dorm = Dorm(id: nat, name: string)

  /** A washer or dryer in a dorm, with the per-use cost fixed when it was created. */
  datatype Laundry = Laundry(id: nat, dormId: nat, number: int, laundryType: string, cost: int)

  /** One recorded use of a machine by a user. */
  datatype LaundryTime = LaundryTime(id: nat, laundryId: nat, userId: nat, duration: int)
}
