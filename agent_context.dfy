/** The in-memory key/value store agents share between steps. */
module AgentContext {
  import opened JsonValue

  class Context {
    var store: Object

    constructor()
      ensures store == map[]
    {
      store := map[];
    }

    /** Stores `value` under `key`; every other key keeps its value. */
    method Set(key: string, value: Value)
      modifies this
      ensures store == old(store)[key := value]
      ensures forall k :: k in old(store) && k != key ==> k in store && store[k] == old(store)[k]
    {
      store := store[key := value];
    }

    /** The value stored under `key`, or `default` (`None` unless given) when the key is absent. */
    function Get(key: string, default: Value := Null): (v: Value)
      reads this
      ensures key in store ==> v == store[key]
      ensures key !in store ==> v == default
    {
      if key in store then store[key] else default
    }

    /** A copy of the store: a fresh value, so later changes to either side do not reach the other. */
    function ToDict(): (d: Object)
      reads this
      ensures d == store
    {
      store
    }

    /** After `Set(k, v)`, `Get(k)` gives `v` whatever the default. */
    method SetThenGet(key: string, value: Value, default: Value) returns (got: Value)
      modifies this
      ensures got == value && Get(key, default) == value
    {
      Set(key, value);
      got := Get(key, default);
    }
  }
}
