/**
 * The hello-anchor program: one instruction, `set_data`, that stores a
 * record in an account if its `data` field is below 100.
 */
module HelloAnchor {
  import opened AnchorTypes

  datatype MyError = DataTooLarge

  /** The record kept in the account. */
  datatype MyAccount = MyAccount(data: u64, age: u8)

  /** `set_data` stores a record only when its `data` is below this bound. */
  const DataBound: u64 := 100

  /** The account holding a `MyAccount`, overwritten in place. */
  class Account {
    var inner: MyAccount

    constructor (initial: MyAccount)
      ensures inner == initial
    {
      inner := initial;
    }
  }

  /** What `set_data` does to the stored record `stored` when asked to store `data`. */
  function SetDataResult(stored: MyAccount, data: MyAccount): (res: (MyAccount, ProgramResult<MyError>))
    ensures res.1 == Ok <==> data.data < DataBound
    ensures res.1 != Ok ==> res.1 == Err(DataTooLarge) && res.0 == stored
    ensures res.1 == Ok ==> res.0 == data
  {
    if data.data < DataBound then (data, Ok) else (stored, Err(DataTooLarge))
  }

  /** `set_data`: check the bound, then replace the whole stored record. */
  method SetData(account: Account, data: MyAccount) returns (result: ProgramResult<MyError>)
    modifies account
    ensures (account.inner, result) == SetDataResult(old(account.inner), data)
  {
    if !(data.data < DataBound) {
      return Err(DataTooLarge);
    }
    account.inner := data;
    return Ok;
  }

  /** `age` is never looked at: whether a record is accepted depends on `data` alone. */
  lemma AgeIsNotValidated(stored: MyAccount, data: MyAccount, age: u8)
    ensures SetDataResult(stored, data.(age := age)).1 == SetDataResult(stored, data).1
    ensures SetDataResult(stored, data.(age := age)).1 == Ok ==>
              SetDataResult(stored, data.(age := age)).0.age == age
  {
  }

  /** The bound is exclusive: 99 is stored, 100 is refused. */
  lemma BoundIsExclusive(stored: MyAccount, age: u8)
    ensures SetDataResult(stored, MyAccount(99, age)) == (MyAccount(99, age), Ok)
    ensures SetDataResult(stored, MyAccount(100, age)) == (stored, Err(DataTooLarge))
  {
  }

  /** Storing the same record twice leaves the same account as storing it once. */
  lemma SetDataIdempotent(stored: MyAccount, data: MyAccount)
    ensures SetDataResult(SetDataResult(stored, data).0, data) == SetDataResult(stored, data)
  {
  }
}
