/** The `{value, expires}` entries both API clients cache. */
module Caches {
  import opened Results

  /** `value` may be `null`; `expires` is in milliseconds since the epoch. */
  datatype Cache = Cache(value: Option<string>, expires: int)
}
