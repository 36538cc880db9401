/** `DefaultConfigurationBuilder`: collects configuration sources in order and
    builds a root from the providers they produce. */
module Builders {
  import opened Config
  import opened Composition
  import opened Roots

  /** A configuration source, given by the provider its `build` produces. */
  datatype Source = Source(provider: Provider)

  /** The providers the sources build, one per source, in order. */
  function BuildAll(sources: seq<Source>): (ps: seq<Provider>)
    ensures |ps| == |sources| && forall i :: 0 <= i < |sources| ==> ps[i] == sources[i].provider
  {
    seq(|sources|, i requires 0 <= i < |sources| => sources[i].provider)
  }

  class Builder {
    var sources: seq<Source>

    constructor ()
      ensures sources == []
    {
      sources := [];
    }

    /** `add`: the source goes at the end; the ones before it are unchanged. */
    method Add(source: Source)
      modifies this
      ensures sources == old(sources) + [source]
    {
      sources := sources + [source];
    }

    /** `build`: a root over the sources' providers, each loaded once, in the
        order the sources were added; the error of a failing initial load is
        passed on as it is. */
    method Build(log: TokenLog) returns (r: Result<Root, ReloadError>)
      requires log.Valid()
      modifies log
      ensures log.Valid() && log.notified == old(log.notified)
      ensures Failures(BuildAll(sources)) == [] ==>
        && r.Ok? && fresh(r.value) && fresh(r.value.list) && r.value.Valid()
        && r.value.log == log && r.value.token.id !in log.notified
        && r.value.list.readers == 0
        && |r.value.list.providers| == |sources|
        && (forall i :: 0 <= i < |sources| ==> r.value.list.providers[i] == sources[i].provider.Loaded())
        && r.value.token == Composite(old(log.nextId), Tokens(BuildAll(sources)))
      ensures Failures(BuildAll(sources)) != [] ==>
        r == Err(ReloadError.Provider(Failures(BuildAll(sources))))
    {
      var ps := BuildAll(sources);
      LoadEachAt(ps);
      r := Root.New(ps, log);
    }
  }
}
