/** `DefaultConfigurationRoot`: the ordered provider list behind a shared,
    borrow-checked cell, and the composite token currently in effect. */
module Roots {
  import opened Config
  import opened Composition
  import opened ProviderIteration
  import opened Sections

  class Root {
    const list: ProviderList
    const log: TokenLog
    var token: Composite

    /** The current token was made by the log. It may already have been
        notified: a clone of this root that reloaded first notifies the token the
        two share. */
    ghost predicate Valid()
      reads this, log
    {
      log.Valid() && token.id < log.nextId
    }

    constructor Make(list: ProviderList, log: TokenLog, token: Composite)
      requires log.Valid() && token.id < log.nextId
      ensures Valid() && this.list == list && this.log == log && this.token == token
    {
      this.list, this.log, this.token := list, log, token;
    }

    /** `DefaultConfigurationRoot::new`: loads every provider once, in order,
        collecting the errors without stopping and capturing every provider's
        token; the root exists only if no load failed. */
    static method New(ps: seq<Provider>, log: TokenLog) returns (r: Result<Root, ReloadError>)
      requires log.Valid()
      modifies log
      ensures log.Valid() && log.notified == old(log.notified)
      ensures Failures(ps) == [] ==>
        && r.Ok? && fresh(r.value) && fresh(r.value.list) && r.value.Valid()
        && r.value.token.id !in log.notified
        && r.value.log == log
        && r.value.list.providers == LoadEach(ps)
        && r.value.list.readers == 0 && r.value.list.handles == 0
        && r.value.token == Composite(old(log.nextId), Tokens(ps))
      ensures Failures(ps) != [] ==>
        r == Err(ReloadError.Provider(Failures(ps))) && log.nextId == old(log.nextId)
    {
      var loaded: seq<Provider> := [];
      var errors: seq<(string, LoadFailure)> := [];
      var tokens: seq<TokenId> := [];
      for i := 0 to |ps|
        invariant loaded == LoadEach(ps[..i])
        invariant errors == Failures(ps[..i])
        invariant tokens == Tokens(ps[..i])
      {
        assert ps[..i + 1][..i] == ps[..i];
        var result := ps[i].NextLoad().failure;
        var provider := ps[i].Loaded();
        if result.Some? {
          errors := errors + [(provider.name, result.value)];
        }
        tokens := tokens + [provider.token];
        loaded := loaded + [provider];
      }
      assert ps[..|ps|] == ps;
      if errors == [] {
        var composite := log.Compose(tokens);
        var shared := new ProviderList(loaded);
        var root := new Root.Make(shared, log, composite);
        r := Ok(root);
      } else {
        r := Err(ReloadError.Provider(errors));
      }
    }

    /** `reload`. If any shared borrow of the provider list is outstanding it
        fails at once with the advisory holder count and touches nothing.
        Otherwise it loads every provider in place, in order, without stopping
        at a failure, captures every provider's token, makes the composite of
        those tokens the current one, notifies the previous token once more
        (exactly once, unless a clone sharing it already did), and reports the
        failures, if any. */
    method Reload() returns (r: Outcome<ReloadError>)
      requires Valid()
      modifies this`token, list`providers, log
      ensures Valid()
      ensures old(list.readers) > 0 ==>
        && r == Fail(ReloadError.Borrowed(Some(list.handles)))
        && list.providers == old(list.providers) && token == old(token)
        && log.notified == old(log.notified) && log.nextId == old(log.nextId)
      ensures old(list.readers) == 0 ==>
        && list.providers == LoadEach(old(list.providers))
        && token == Composite(old(log.nextId), Tokens(old(list.providers)))
        && token != old(token)
        && log.notified == old(log.notified) + [old(token).id]
        && r == (if Failures(old(list.providers)) == [] then Pass
                 else Fail(ReloadError.Provider(Failures(old(list.providers)))))
      ensures old(list.readers) == 0 ==> token.id !in log.notified
      ensures multiset(log.notified)[old(token).id]
           == multiset(old(log.notified))[old(token).id] + (if old(list.readers) == 0 then 1 else 0)
    {
      var borrowed := list.handles;
      if list.readers == 0 {
        var errors, tokens := LoadInPlace(list);
        var composite := log.Compose(tokens);
        var previous := token;
        token := composite;
        log.Notify(previous);
        r := if errors == [] then Pass else Fail(ReloadError.Provider(errors));
      } else {
        r := Fail(ReloadError.Borrowed(Some(borrowed)));
      }
    }

    /** `get`: asks the providers from the last registered to the first and
        answers with the first value found. The shared borrow it takes is
        released before it returns. */
    method Get(key: string) returns (r: Option<Value>)
      ensures r == Lookup(list.providers, key)
      ensures IsOverride(list.providers, key, r)
    {
      var ps := list.providers;
      var i := |ps|;
      assert ps[..i] == ps;
      while i > 0
        invariant 0 <= i <= |ps|
        invariant Lookup(ps[..i], key) == Lookup(ps, key)
      {
        assert ps[..i][..i - 1] == ps[..i - 1];
        i := i - 1;
        var value := ps[i].Get(key);
        if value.Some? {
          LookupIsOverride(ps, key);
          return value;
        }
      }
      LookupIsOverride(ps, key);
      return None;
    }

    /** What a section or iterator made now holds of this root. */
    function Handle(): (h: RootHandle)
      reads this
    {
      RootHandle(list, token)
    }

    /** `section`: a section bound to a clone of this root at `key`; it never
        fails, whether or not any provider has data there. */
    function Section(key: string): (s: Section)
      reads this
      ensures s.root.list == list && s.root.token == token && s.path == key
    {
      SectionAt(Handle(), key)
    }

    /** `children`: one section per distinct top-level child key (exact string
        equality) that any provider emits for no parent, each made by `section`. */
    function Children(): (r: map<string, Section>)
      reads this, list
      ensures forall k :: k in r <==> Emitted(list.providers, None, k)
      ensures forall k :: k in r ==> r[k] == Section(k)
    {
      ChildKeysAreEmitted(list.providers, None);
      map k | k in ChildKeys(list.providers, None) :: Section(k)
    }

    /** `reload_token`: the composite token currently in effect. */
    function ReloadToken(): (t: Composite)
      reads this
    {
      token
    }

    /** `clone` (the derived `Clone`): another root sharing the provider list
        and holding the same token. */
    method Clone() returns (c: Root)
      requires Valid()
      ensures fresh(c) && c.Valid()
      ensures c.list == list && c.log == log && c.token == token
    {
      c := new Root.Make(list, log, token);
    }

    /** `providers`: a cursor over the list, holding a shared borrow of it. */
    method Providers() returns (it: ProviderIter)
      modifies list`readers
      ensures fresh(it) && it.Valid() && it.list == list && it.items == list.providers
      ensures it.head == 0 && it.tail == |list.providers|
      ensures list.readers == old(list.readers) + 1
    {
      it := new ProviderIter(list);
    }
  }

  /** The loop `reload` runs while it holds the exclusive borrow: every provider
      of the list is loaded in place, in registration order; a failure is
      recorded with the provider's name and the loop goes on; the token of every
      provider is captured after its load. */
  method LoadInPlace(list: ProviderList) returns (errors: seq<(string, LoadFailure)>, tokens: seq<TokenId>)
    modifies list`providers
    ensures list.providers == LoadEach(old(list.providers))
    ensures errors == Failures(old(list.providers)) && tokens == Tokens(old(list.providers))
  {
    ghost var ps := list.providers;
    errors, tokens := [], [];
    var i := 0;
    while i < |list.providers|
      invariant 0 <= i <= |ps| == |list.providers|
      invariant forall k :: 0 <= k < i ==> list.providers[k] == ps[k].Loaded()
      invariant forall k :: i <= k < |ps| ==> list.providers[k] == ps[k]
      invariant errors == Failures(ps[..i])
      invariant tokens == Tokens(ps[..i])
    {
      assert ps[..i + 1][..i] == ps[..i];
      var provider := list.providers[i];
      var result := provider.NextLoad().failure;
      provider := provider.Loaded();
      list.providers := list.providers[i := provider];
      if result.Some? {
        errors := errors + [(provider.name, result.value)];
      }
      tokens := tokens + [provider.token];
      i := i + 1;
    }
    assert ps[..i] == ps;
    LoadEachAt(ps);
  }

  /** A section reads through the root: its values are the root's values at the
      combined path, its children are found under its own path, its key is
      taken from the path it was made at, and a section made by the root's
      `section` carries the root's current token. */
  lemma SectionDelegates(root: Root, path: string, combine: seq<string> -> string,
                         sectionKey: string -> string, key: string)
    ensures root.Section(path).Get(combine, key) == Lookup(root.list.providers, combine([path, key]))
    ensures root.Section(path).Section(combine, key) == root.Section(combine([path, key]))
    ensures root.Section(path).Value() == Lookup(root.list.providers, path).GetOr(DefaultValue)
    ensures root.Section(path).Key(sectionKey) == sectionKey(path)
    ensures root.Section(path).ReloadToken() == root.ReloadToken()
  {
  }

  /** A section keeps the token its root had when the section was made: after a
      reload that went ahead, the section's token is the one just notified, not
      the root's new one; after a refused reload the two still agree. */
  method SectionTokenAfterReload(root: Root, key: string) returns (s: Section, r: Outcome<ReloadError>)
    requires root.Valid()
    modifies root`token, root.list`providers, root.log
    ensures s.ReloadToken() == old(root.ReloadToken())
    ensures old(root.list.readers) == 0 ==>
      s.ReloadToken() != root.ReloadToken() && s.ReloadToken().id in root.log.notified
    ensures old(root.list.readers) > 0 ==> s.ReloadToken() == root.ReloadToken()
  {
    s := root.Section(key);
    r := root.Reload();
  }

  /** While a cursor from `providers` is alive a reload is refused and changes
      nothing; once the cursor is dropped the reload goes ahead. The cursor is
      taken through a clone: one taken from `root` itself would hold a borrow of
      `root` that its `reload` cannot be called under. */
  method ReloadWhileIterating(root: Root) returns (refused: Outcome<ReloadError>, accepted: Outcome<ReloadError>)
    requires root.Valid() && root.list.readers == 0
    modifies root`token, root.list, root.log
    ensures refused.Fail? && refused.error.Borrowed?
    ensures root.list.providers == LoadEach(old(root.list.providers))
    ensures accepted == (if Failures(old(root.list.providers)) == [] then Pass
                         else Fail(ReloadError.Provider(Failures(old(root.list.providers)))))
    ensures root.log.notified == old(root.log.notified) + [old(root.token).id]
  {
    var other := root.Clone();
    var it := other.Providers();
    refused := root.Reload();
    root.list.Release();
    accepted := root.Reload();
  }

  /** Two clones of one root that both reload, one after the other, both go
      ahead: the token they shared is notified twice, and each ends with a
      token of its own that nothing has notified. */
  method ClonesReloadInTurn(root: Root) returns (first: Outcome<ReloadError>, second: Outcome<ReloadError>)
    requires root.Valid() && root.list.readers == 0
    modifies root`token, root.list`providers, root.log
    ensures root.list.providers == LoadEach(LoadEach(old(root.list.providers)))
    ensures multiset(root.log.notified)[old(root.token).id]
         == multiset(old(root.log.notified))[old(root.token).id] + 2
    ensures root.token.id !in root.log.notified
  {
    var other := root.Clone();
    first := other.Reload();
    second := root.Reload();
  }
}
