/**
 * The documents of the hosted database that both the claim function and the
 * browser client read and write. Money is an exact `real` (euros), times are
 * integer milliseconds since the epoch, and a falsy or absent string field is
 * `""` (see module Js).
 */
module Documents {
  import opened Wrappers

  /** A document of the `members` collection; `id` is its `$id`. */
  datatype Member = Member(
    id: string,
    name: string,
    balance: real,
    totalCoffees: int,
    appwriteUid: string)  // the linked identity, "" while unlinked

  /** The `type` field of a log document. */
  datatype LogType = Coffee | Expense | Beans | TopUp

  /** A document of the append-only `logs` collection. */
  datatype LogEntry = LogEntry(
    kind: LogType,
    amount: real,
    userId: string,
    userName: string,
    message: string,
    fileId: Option<string>,  // uploaded receipt, `null` when none
    timestamp: int)

  /** The `main` document of the `global_config` collection. */
  datatype Config = Config(
    groupFunds: real,
    gramsPerCup: real,
    pricePerCup: real,
    pricePerGram: real)

  /** No two members share an `$id`, as the database guarantees for a listing. */
  ghost predicate UniqueIds(ms: seq<Member>) {
    forall i, j | 0 <= i < j < |ms| :: ms[i].id != ms[j].id
  }

  /** The timestamp as a sort key. */
  function TimeKey(e: LogEntry): real {
    e.timestamp as real
  }
}
