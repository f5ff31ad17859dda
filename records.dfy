/** The records the two state managers keep and persist, and the device-local key-value
    store they write through to. */
module Records {
  import opened Common
  import opened Calendar

  /** A catalog instrument. Money is exact `real` here. */
  datatype Stock = Stock(symbol: string, name: string, price: real, change: real, changePercent: real)

  /** A holding: quantity held, average acquisition price, last observed price. */
  datatype Position = Position(symbol: string, quantity: int, avgPrice: real, currentPrice: real)

  datatype TradeKind = Buy | Sell

  /** One completed trade. `id` and `timestamp` (milliseconds) come from the clock. */
  datatype Transaction = Transaction(
    id: string, symbol: string, kind: TradeKind, quantity: int, price: real, timestamp: int)

  /** The session's user record. The optional fields are `None` when the key is absent.
      `dateOfBirth` is `None` when absent or empty; `age` is `None` when absent or `NaN`. */
  datatype User = User(
    id: string,
    email: string,
    name: string,
    aadhaarNumber: Option<string>,
    panNumber: Option<string>,
    nationality: Option<string>,
    mobileNumber: Option<string>,
    dateOfBirth: Option<Date>,
    age: Option<int>)

  /** The entries of `localStorage` the core reads and writes, one field per key; `None` is
      a missing key. Values are kept as records: serialisation is not modelled. */
  class LocalStore {
    var user: Option<User>
    var portfolio: Option<seq<Position>>
    var transactions: Option<seq<Transaction>>

    /** A store holding the given entries, as left by an earlier visit. */
    constructor (user: Option<User>, portfolio: Option<seq<Position>>, transactions: Option<seq<Transaction>>)
      ensures this.user == user && this.portfolio == portfolio && this.transactions == transactions
    {
      this.user := user;
      this.portfolio := portfolio;
      this.transactions := transactions;
    }
  }
}
