/** Small value wrappers shared by every module of the model. */
module Wrappers {

  /** Python's `None`-or-value, used wherever the source returns `Optional[...]`. */
  datatype Option<+T> = None | Some(value: T)
  {
    function GetOr(default: T): T {
      match this
      case Some(v) => v
      case None => default
    }
  }

  /** One key of a JSON object or dict as `dict.get` sees it: the key is missing, it holds
      JSON `null` (Python `None`, `NoneValue`), or it holds a value. `d.get(k, dflt)` returns `dflt`
      only in the first case. */
  datatype Field<+T> = Absent | NoneValue | Present(value: T)
  {
    /** `d.get(k)` without a default: both a missing key and `None` read as `None`. */
    function AsOption(): Option<T> {
      match this
      case Present(v) => Some(v)
      case _ => None
    }
  }
}
