/** An optional value, standing in for PHP's nullable values (`?int`, `$a['k'] ?? null`). */
module Wrappers {
  datatype Option<+T> = None | Some(value: T)
}
