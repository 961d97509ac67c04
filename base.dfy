/** Value types shared by every part of the model: optional values, results, the ways a request
    handler can fail, and the process environment the handlers read their configuration from. */
module Base {

  datatype Option<+T> = None | Some(value: T)

  datatype Result<+T, +E> = Ok(value: T) | Err(error: E)

  /** How a handler ends when it does not succeed: an HTTPException it raises (status code and
      detail text, exactly as written in the source), or a Python exception it does not catch,
      which the web framework answers with a 500 response. */
  datatype Failure = Http(status: int, detail: string) | Uncaught(exception: string)

  /** Python truthiness of an optional string: None and the empty string are falsy. */
  predicate Truthy(s: Option<string>)
  {
    s.Some? && s.value != ""
  }

  /** The process environment, as `os.environ`. */
  type Env = map<string, string>

  /** `os.environ.get(name, default)`. */
  function Getenv(env: Env, name: string, default: string): string
  {
    if name in env then env[name] else default
  }

  /** `d.get(key)` on a dictionary of strings. */
  function Get(d: map<string, string>, key: string): Option<string>
  {
    if key in d then Some(d[key]) else None
  }
}
