// What several components share.
module Common {
  datatype Option<+T> = None | Some(value: T)

  // the largest integer that every reader of JSON represents exactly
  const MAXIMUM_SAFE_INTEGER := 9007199254740991

  // an effect that may fail, unless the process runs undisturbed
  method Attempted(reliable: bool) returns (ok: bool)
    ensures reliable ==> ok
  {
    ok := *;
    if reliable {
      ok := true;
    }
  }
}
