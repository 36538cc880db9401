/** What the root computes from its ordered provider list, as functions of that
    list: the override lookup, the child-key fold, and what one load pass over
    every provider yields. Each comes with a lemma that states it independently
    of how it is computed. */
module Composition {
  import opened Config

  // ---------------------------------------------------------------------------
  // Override lookup (`DefaultConfigurationRoot::get`)

  /** Providers are asked from the last registered to the first; the first that
      has the key answers. */
  function Lookup(ps: seq<Provider>, key: string): (r: Option<Value>)
  {
    if ps == [] then None
    else if key in ps[|ps| - 1].data then Some(ps[|ps| - 1].data[key])
    else Lookup(ps[..|ps| - 1], key)
  }

  /** Provider `i` is the last one registered that has `key`. */
  ghost predicate Wins(ps: seq<Provider>, key: string, i: int)
  {
    && 0 <= i < |ps|
    && key in ps[i].data
    && forall j :: i < j < |ps| ==> key !in ps[j].data
  }

  /** `r` is the override-merged answer for `key`: nothing when no provider has
      the key, otherwise the value of the last-registered provider that has it. */
  ghost predicate IsOverride(ps: seq<Provider>, key: string, r: Option<Value>)
  {
    && (r.None? <==> forall i :: 0 <= i < |ps| ==> key !in ps[i].data)
    && forall i :: Wins(ps, key, i) ==> r == Some(ps[i].data[key])
  }

  lemma {:induction false} LookupIsOverride(ps: seq<Provider>, key: string)
    ensures IsOverride(ps, key, Lookup(ps, key))
  {
    if ps != [] {
      var init := ps[..|ps| - 1];
      LookupIsOverride(init, key);
      if key !in ps[|ps| - 1].data {
        forall i | Wins(ps, key, i) ensures Wins(init, key, i) {}
      }
    }
  }

  /** A later provider that has the key hides everything registered before it;
      one that lacks it changes nothing. */
  lemma {:induction false} LookupAppend(lower: seq<Provider>, upper: seq<Provider>, key: string)
    ensures Lookup(upper, key).Some? ==> Lookup(lower + upper, key) == Lookup(upper, key)
    ensures Lookup(upper, key).None? ==> Lookup(lower + upper, key) == Lookup(lower, key)
  {
    if upper == [] {
      assert lower + upper == lower;
    } else {
      var all := lower + upper;
      assert all[|all| - 1] == upper[|upper| - 1];
      assert all[..|all| - 1] == lower + upper[..|upper| - 1];
      LookupAppend(lower, upper[..|upper| - 1], key);
    }
  }

  /** Providers below the winning index do not affect the result. */
  lemma LookupBelowWinner(ps: seq<Provider>, lower: seq<Provider>, key: string, i: int)
    requires Wins(ps, key, i)
    ensures Lookup(lower + ps[i..], key) == Lookup(ps, key) == Some(ps[i].data[key])
  {
    LookupIsOverride(ps, key);
    var upper := ps[i..];
    assert Wins(upper, key, 0);
    LookupIsOverride(upper, key);
    LookupAppend(lower, upper, key);
  }

  // ---------------------------------------------------------------------------
  // Child keys (`children` on the root and on a section)

  /** The vector the fold builds: every provider, in registration order, appends
      its child keys under `parent`; nothing is deduplicated. */
  function ChildKeys(ps: seq<Provider>, parent: Option<string>): (keys: seq<string>)
  {
    if ps == [] then [] else ChildKeys(ps[..|ps| - 1], parent) + ps[|ps| - 1].childKeys(parent)
  }

  /** Some provider emitted `k` as a child key of `parent`. */
  ghost predicate Emitted(ps: seq<Provider>, parent: Option<string>, k: string)
  {
    exists i :: 0 <= i < |ps| && k in ps[i].childKeys(parent)
  }

  lemma {:induction false} ChildKeysAreEmitted(ps: seq<Provider>, parent: Option<string>)
    ensures forall k :: k in ChildKeys(ps, parent) <==> Emitted(ps, parent, k)
  {
    if ps != [] {
      var init := ps[..|ps| - 1];
      ChildKeysAreEmitted(init, parent);
      forall k | Emitted(ps, parent, k) ensures k in ChildKeys(ps, parent) {
        var i :| 0 <= i < |ps| && k in ps[i].childKeys(parent);
        if i < |ps| - 1 {
          assert init[i] == ps[i];
        }
      }
      forall k | k in ChildKeys(ps, parent) ensures Emitted(ps, parent, k) {
        if k in ChildKeys(init, parent) {
          var i :| 0 <= i < |init| && k in init[i].childKeys(parent);
          assert ps[i] == init[i];
        }
      }
    }
  }

  // ---------------------------------------------------------------------------
  // One load pass (`new` and the unborrowed branch of `reload`)

  /** Every provider after its `load` call. */
  function LoadEach(ps: seq<Provider>): (loaded: seq<Provider>)
  {
    if ps == [] then [] else LoadEach(ps[..|ps| - 1]) + [ps[|ps| - 1].Loaded()]
  }

  /** The token captured from every provider right after its `load`, whether or
      not that load failed. */
  function Tokens(ps: seq<Provider>): (tokens: seq<TokenId>)
  {
    if ps == [] then [] else Tokens(ps[..|ps| - 1]) + [ps[|ps| - 1].Loaded().token]
  }

  /** The `(name, error)` pair a provider's load contributes, if it fails. */
  function FailureOf(p: Provider): (errors: seq<(string, LoadFailure)>)
  {
    match p.NextLoad().failure
    case None => []
    case Some(e) => [(p.name, e)]
  }

  /** The errors collected over the whole pass, in registration order. */
  function Failures(ps: seq<Provider>): (errors: seq<(string, LoadFailure)>)
  {
    if ps == [] then [] else Failures(ps[..|ps| - 1]) + FailureOf(ps[|ps| - 1])
  }

  /** Every provider is loaded exactly once, in place, and one token is captured
      per provider from the provider as it is after its load. */
  lemma {:induction false} LoadEachAt(ps: seq<Provider>)
    ensures |LoadEach(ps)| == |ps| && |Tokens(ps)| == |ps|
    ensures forall k :: 0 <= k < |ps| ==> LoadEach(ps)[k] == ps[k].Loaded()
    ensures forall k :: 0 <= k < |ps| ==> Tokens(ps)[k] == LoadEach(ps)[k].token
    ensures forall k :: 0 <= k < |ps| ==> LoadEach(ps)[k].loads == ps[k].loads + 1
  {
    if ps != [] {
      var init := ps[..|ps| - 1];
      LoadEachAt(init);
      forall k | 0 <= k < |init| ensures ps[k] == init[k] {}
    }
  }

  /** `idx` lists, in increasing order, exactly the providers whose load fails,
      and `errors[m]` is the name and error of provider `idx[m]`. */
  ghost predicate IndexesFailures(ps: seq<Provider>, idx: seq<int>, errors: seq<(string, LoadFailure)>)
  {
    && |idx| == |errors|
    && (forall m :: 0 <= m < |idx| ==>
          0 <= idx[m] < |ps| && ps[idx[m]].Fails()
          && errors[m] == (ps[idx[m]].name, ps[idx[m]].NextLoad().failure.value))
    && (forall m, n :: 0 <= m < n < |idx| ==> idx[m] < idx[n])
    && (forall i :: 0 <= i < |ps| && ps[i].Fails() ==> i in idx)
  }

  /** `errors` reports exactly the providers whose load failed, each once, with
      its name and error, in registration order. */
  ghost predicate ReportsFailures(ps: seq<Provider>, errors: seq<(string, LoadFailure)>)
  {
    exists idx :: IndexesFailures(ps, idx, errors)
  }

  /** The indices of the failing providers, in order. */
  function FailingIndices(ps: seq<Provider>): (idx: seq<int>)
  {
    if ps == [] then []
    else FailingIndices(ps[..|ps| - 1]) + (if ps[|ps| - 1].Fails() then [|ps| - 1] else [])
  }

  lemma {:induction false} FailingIndicesWitness(ps: seq<Provider>)
    ensures IndexesFailures(ps, FailingIndices(ps), Failures(ps))
  {
    if ps != [] {
      var init := ps[..|ps| - 1];
      FailingIndicesWitness(init);
      forall k | 0 <= k < |init| ensures ps[k] == init[k] {}
    }
  }

  /** The error list of a load pass names every failing provider, in order, and
      nothing else; in particular it is empty exactly when no load failed. */
  lemma FailuresReported(ps: seq<Provider>)
    ensures ReportsFailures(ps, Failures(ps))
    ensures Failures(ps) == [] <==> forall i :: 0 <= i < |ps| ==> !ps[i].Fails()
  {
    var idx := FailingIndices(ps);
    FailingIndicesWitness(ps);
    if Failures(ps) != [] {
      assert ps[idx[0]].Fails();
    }
  }
}
