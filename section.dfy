/** `DefaultConfigurationSection`: a path-scoped view that stores no data and
    turns every read into a read of the root it came from. The path helpers
    `ConfigurationPath::combine` and `section_key` are not part of this model;
    the members that use them take them as parameters. */
module Sections {
  import opened Config
  import opened Composition
  import opened ProviderIteration

  /** What a section holds of its root: the root is cloned into it, so the clone
      shares the provider vector and has a copy of the root's token handle as it
      was when the section was made. */
  datatype RootHandle = RootHandle(list: ProviderList, token: Composite)

  datatype Section = SectionAt(root: RootHandle, path: string)
  {
    /** The full path of `key` below this section. */
    function Subkey(combine: seq<string> -> string, key: string): (k: string)
    {
      combine([path, key])
    }

    /** `get`: the root's override-merged value at the combined path. */
    function Get(combine: seq<string> -> string, key: string): (r: Option<Value>)
      reads root.list
      ensures IsOverride(root.list.providers, Subkey(combine, key), r)
    {
      LookupIsOverride(root.list.providers, Subkey(combine, key));
      Lookup(root.list.providers, Subkey(combine, key))
    }

    /** `section`: the section the root makes for the combined path. */
    function Section(combine: seq<string> -> string, key: string): (s: Section)
      ensures s.root == root && s.path == Subkey(combine, key)
    {
      SectionAt(root, Subkey(combine, key))
    }

    /** `children`: one section per distinct child key (exact string equality)
        that any provider emits under this section's path, each made by
        `section`. The map stands for the vector built from the `HashSet`,
        whose order is unspecified. */
    function Children(combine: seq<string> -> string): (r: map<string, Section>)
      reads root.list
      ensures forall k :: k in r <==> Emitted(root.list.providers, Some(path), k)
      ensures forall k :: k in r ==> r[k] == Section(combine, k)
    {
      ChildKeysAreEmitted(root.list.providers, Some(path));
      map k | k in ChildKeys(root.list.providers, Some(path)) :: Section(combine, k)
    }

    /** `reload_token`: the token of the root clone this section holds. */
    function ReloadToken(): (t: Composite)
    {
      root.token
    }

    /** `key`: the last segment of the path. */
    function Key(sectionKey: string -> string): (k: string)
    {
      sectionKey(path)
    }

    /** `value`: the root's value at this section's own path, or the default
        value when no provider has it; it never fails. */
    function Value(): (v: Value)
      reads root.list
      ensures (forall i :: 0 <= i < |root.list.providers| ==> path !in root.list.providers[i].data) ==> v == DefaultValue
      ensures forall i :: Wins(root.list.providers, path, i) ==> v == root.list.providers[i].data[path]
    {
      LookupIsOverride(root.list.providers, path);
      Lookup(root.list.providers, path).GetOr(DefaultValue)
    }
  }
}
