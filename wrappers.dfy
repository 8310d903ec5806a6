/** Small value types shared by every hook: optional values and the two
    shapes of reply the hosted database gives back to a query. */
module Wrappers {

  datatype Option<+T> = None | Some(value: T) {
    /** The value, or `default` when absent (JavaScript's `x ?? default`). */
    function GetOr(default: T): T {
      match this
      case Some(v) => v
      case None => default
    }
  }

  /** Reply to a query that returns rows: `{ data, error }`. `data` may be
      null even without an error, which the hooks treat as no rows. */
  datatype Reply<+T> = Answered(data: Option<seq<T>>) | Rejected(message: string) {
    /** The rows, with a null `data` read as `[]` (`data || []`). */
    function Rows(): seq<T>
      requires Answered?
    {
      data.GetOr([])
    }
  }

  /** Reply to a write whose rows are not read back (a delete, an update or an
      insert without `.select()`): only the error matters. */
  datatype Ack = Acked | Refused(message: string)

  /** The message thrown when `supabase.auth.getUser()` gives no user. */
  const NaoAutenticado: string := "Usuário não autenticado"
}
