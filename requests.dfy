/** Query arguments of a request (`request.args`) and Python's truthiness of
    an optional string. */
module Requests {
  import opened Wrappers

  type Args = map<string, string>

  /** `request.args.get(key)`: None when the argument is absent. */
  function Arg(args: Args, key: string): Option<string> {
    if key in args then Some(args[key]) else None
  }

  /** `request.args.get(key, default)`. */
  function ArgOr(args: Args, key: string, default: string): string {
    if key in args then args[key] else default
  }

  /** `if value:` for a value that is None or a string. */
  predicate Truthy(value: Option<string>) {
    value.Some? && value.value != ""
  }
}
