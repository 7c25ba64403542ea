/**
 * Scopes. An environment is one map of bindings plus, optionally, the
 * environment it encloses; the source copies environments by value, so a
 * datatype is the whole story. `Define` is the in-place insert written as
 * the new value of the environment: the interpreter assigns it back to its
 * `environment` field.
 */
module Environments {
  import opened Wrappers
  import opened Callables
  import opened Values

  datatype Env = Env(values: map<string, Value>, enclosing: Option<Env>)

  /** The outermost scope, holding the four built-in functions. */
  function Global(): Env {
    Env(map["pi" := Function(Pi), "sin" := Function(Sin),
            "factors" := Function(Factors), "plot" := Function(Plot)], None)
  }

  /** A new, empty scope around a copy of `enclosing`. */
  function FromEnclosing(enclosing: Env): Env {
    Env(map[], Some(enclosing))
  }

  /** Inserts (or replaces) a binding in the innermost scope only. */
  function Define(env: Env, name: string, value: Value): Env {
    env.(values := env.values[name := value])
  }

  /** The innermost binding of `name`, searching outwards. */
  function Get(env: Env, name: string): Option<Value> {
    if name in env.values then Some(env.values[name])
    else match env.enclosing
      case None => None
      case Some(outer) => Get(outer, name)
  }

  /**
   * The bindings visible from `env` as one map: the enclosing chain's,
   * overridden by the innermost scope's.
   */
  function Visible(env: Env): map<string, Value> {
    match env.enclosing
    case None => env.values
    case Some(outer) => Visible(outer) + env.values
  }

  /** Lookup agrees with the flattened view of the whole chain. */
  lemma {:induction false} GetVisible(env: Env, name: string)
    ensures Get(env, name).Some? <==> name in Visible(env)
    ensures Get(env, name).Some? ==> Get(env, name).value == Visible(env)[name]
  {
    match env.enclosing
    case None =>
    case Some(outer) => GetVisible(outer, name);
  }

  /** After `Define(n, v)`, `n` reads back as `v`. */
  lemma GetDefined(env: Env, name: string, value: Value)
    ensures Get(Define(env, name, value), name) == Some(value)
  {
  }

  /** `Define(n, v)` leaves every other name's lookup unchanged. */
  lemma GetOther(env: Env, name: string, value: Value, other: string)
    requires other != name
    ensures Get(Define(env, name, value), other) == Get(env, other)
  {
  }

  /**
   * `Define` writes only the innermost scope: the enclosing chain stays as
   * it was, so the new binding shadows any binding of the name further out.
   */
  lemma DefineShadows(env: Env, name: string, value: Value)
    requires env.enclosing.Some?
    ensures Define(env, name, value).enclosing == env.enclosing
    ensures Get(Define(env, name, value).enclosing.value, name) == Get(env.enclosing.value, name)
    ensures Visible(Define(env, name, value)) == Visible(env)[name := value]
  {
  }

  /** An innermost binding wins; otherwise the enclosing scope answers; with none, nothing does. */
  lemma GetCases(env: Env, name: string)
    ensures name in env.values ==> Get(env, name) == Some(env.values[name])
    ensures name !in env.values && env.enclosing.Some? ==> Get(env, name) == Get(env.enclosing.value, name)
    ensures name !in env.values && env.enclosing.None? ==> Get(env, name) == None
  {
  }

  /** A fresh scope answers every lookup exactly as the scope it encloses. */
  lemma FromEnclosingTransparent(env: Env, name: string)
    ensures Get(FromEnclosing(env), name) == Get(env, name)
    ensures Visible(FromEnclosing(env)) == Visible(env)
  {
  }

  /** The global scope binds exactly the four built-ins and has no enclosing scope. */
  lemma GlobalBindings(name: string)
    ensures Global().enclosing.None?
    ensures Get(Global(), "pi") == Some(Function(Pi))
    ensures Get(Global(), "sin") == Some(Function(Sin))
    ensures Get(Global(), "factors") == Some(Function(Factors))
    ensures Get(Global(), "plot") == Some(Function(Plot))
    ensures Get(Global(), name).Some? <==> name in {"pi", "sin", "factors", "plot"}
  {
  }
}
