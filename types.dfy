/** Values shared by the front-end components: optional values, outcomes with an
    error, the wallet account and the catalog entry. */
module Types {

  /** JavaScript's `null`/`undefined` versus a present value. */
  datatype Option<+T> = None | Some(value: T)

  /** A completed step or the error it threw. */
  datatype Result<+R, +E> = Success(value: R) | Failure(error: E)

  /** An account handed out by the browser-extension wallet bridge; only its
      address is read by the front end. */
  datatype Account = Account(address: string)

  /** A catalog entry as far as the rent flow reads it: price per day in DOT
      (the catalog holds whole numbers). The display-only fields (icon,
      description, rating, rentals, creator, features) are not modelled. */
  datatype Agent = Agent(id: nat, name: string, price: nat)

  function Min(a: int, b: int): (m: int)
    ensures m <= a && m <= b && (m == a || m == b)
  {
    if a <= b then a else b
  }
}
