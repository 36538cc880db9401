/** The types the composition core shares with the rest of the crate: values,
    providers (an external capability, given here as a record of what it holds
    and how its loads will turn out), reload errors and change tokens. */
module Config {

  datatype Option<+T> = None | Some(value: T) {
    /** `unwrap_or_default` with the default made explicit. */
    function GetOr(default: T): (v: T) {
      match this
      case Some(v) => v
      case None => default
    }
  }

  datatype Result<+T, +E> = Ok(value: T) | Err(error: E)

  /** `Result<(), E>`: success carries nothing. */
  datatype Outcome<+E> = Pass | Fail(error: E)

  /** A configuration value is a string; `Value::default()` is the empty one. */
  type Value = string

  const DefaultValue: Value := ""

  /** The error a provider's `load` reports; its content is the provider's own. */
  datatype LoadFailure = LoadFailure(message: string)

  /** A change token handed out by a provider. */
  type TokenId = nat

  /** What one call of a provider's `load` does: whether it reports an error, and
      the data, child keys and change token the provider has afterwards (a
      provider that fails still answers `reload_token`). */
  datatype LoadStep = LoadStep(
    failure: Option<LoadFailure>,
    data: map<string, Value>,
    childKeys: Option<string> -> seq<string>,
    token: TokenId)

  /** A configuration provider as the core sees it. `data` is what `get` answers
      for each key it has, `childKeys(parent)` is what `child_keys` appends for
      that parent, `token` is what `reload_token` returns, and `script(n)` is what
      the provider's load number `n` (counting from zero) will do. */
  datatype Provider = Provider(
    name: string,
    data: map<string, Value>,
    childKeys: Option<string> -> seq<string>,
    token: TokenId,
    script: nat -> LoadStep,
    loads: nat)
  {
    /** `ConfigurationProvider::get`. */
    function Get(key: string): (r: Option<Value>)
      ensures r.Some? <==> key in data
      ensures r.Some? ==> r.value == data[key]
    {
      if key in data then Some(data[key]) else None
    }

    /** What the next call of `load` will do. */
    function NextLoad(): (step: LoadStep) {
      script(loads)
    }

    /** Whether the next call of `load` returns an error. */
    predicate Fails() {
      NextLoad().failure.Some?
    }

    /** The provider after one call of `load`: it keeps its name and its script,
        has been loaded once more, and holds what that load produced. */
    function Loaded(): (q: Provider)
      ensures q.name == name && q.script == script && q.loads == loads + 1
      ensures q.data == NextLoad().data && q.childKeys == NextLoad().childKeys
      ensures q.token == NextLoad().token
    {
      var step := NextLoad();
      this.(data := step.data, childKeys := step.childKeys, token := step.token, loads := loads + 1)
    }
  }

  /** `ReloadError`: the providers that failed to load, named, in registration
      order; or the provider list could not be borrowed exclusively, with the
      advisory number of other holders. */
  datatype ReloadError =
    | Provider(errors: seq<(string, LoadFailure)>)
    | Borrowed(count: Option<nat>)

  /** A composite change token: its identity and the provider tokens it watches. */
  datatype Composite = Composite(id: nat, parts: seq<TokenId>)

  /** The composite tokens made so far (ids below `nextId`) and the ones notified,
      in the order `notify` was called on them. */
  class TokenLog {
    var nextId: nat
    var notified: seq<nat>

    ghost predicate Valid()
      reads this
    {
      forall k :: 0 <= k < |notified| ==> notified[k] < nextId
    }

    constructor ()
      ensures Valid() && nextId == 0 && notified == []
    {
      nextId, notified := 0, [];
    }

    /** `CompositeChangeToken::new`: a token never handed out or notified before. */
    method Compose(parts: seq<TokenId>) returns (t: Composite)
      requires Valid()
      modifies this
      ensures Valid()
      ensures t == Composite(old(nextId), parts) && t.id !in notified
      ensures nextId == old(nextId) + 1 && notified == old(notified)
    {
      t := Composite(nextId, parts);
      nextId := nextId + 1;
    }

    /** `notify` on a token. */
    method Notify(t: Composite)
      requires Valid() && t.id < nextId
      modifies this
      ensures Valid()
      ensures notified == old(notified) + [t.id] && nextId == old(nextId)
    {
      notified := notified + [t.id];
    }
  }
}
