/**
 * The values an event carries: the open traits/properties mapping
 * (`map[string]interface{}` in the source) and the process environment.
 */
module Values {
  import opened Wrappers

  /** A JSON-compatible value as the decoder produces it. Numbers are integers here. */
  datatype Value = Null | Str(s: string) | Num(n: int) | Bool(b: bool)

  /** A traits or properties mapping. */
  type Props = map<string, Value>

  /** The environment variables, as read by `os.Getenv`. */
  type Env = map<string, string>

  /** `os.Getenv`: an unset variable reads as the empty string. */
  function Getenv(env: Env, key: string): string
  {
    if key in env then env[key] else ""
  }

  /** Go's `m[key] == nil`: the key is absent or holds JSON null. */
  predicate IsNil(p: Props, key: string)
  {
    key !in p || p[key] == Null
  }

  /** The type assertion `v.(string)`: None where Go would panic. */
  function AsString(v: Value): Option<string>
  {
    if v.Str? then Some(v.s) else None
  }

  /**
   * `after` is `before` with the keys in `removed` deleted and then every
   * entry of `added` written: what in-place map assignments and deletes leave.
   */
  ghost predicate Updated(before: Props, after: Props, added: Props, removed: set<string>)
  {
    && after.Keys == (before.Keys - removed) + added.Keys
    && (forall k :: k in added ==> after[k] == added[k])
    && (forall k :: k in before && k !in removed && k !in added ==> after[k] == before[k])
  }
}
