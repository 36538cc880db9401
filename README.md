# Layered configuration composition, modelled in Dafny

This project models the composition core of a layered configuration library: `src/default.rs`. A
root owns an ordered list of providers. Each provider is one source of key/value data that can
be loaded independently of the others. The root answers lookups by override-merging the
providers, with the later-registered provider winning. It hands out path-scoped sections and
collects child keys across providers. It reloads every provider while publishing a fresh
composite change token and notifying the previous one. A builder collects sources and builds
the root from them.

Layout, one module per file:

- `config.dfy` (`Config`) holds the types the core shares with the rest of the crate:
  - a `Value` is a string, and its default is `""`;
  - `Provider` is a record of what a provider answers (`get`, `child_keys`, `reload_token`, `name`) and a script of what each of its `load` calls will do;
  - `ReloadError`;
  - composite tokens, given as ids, and a `TokenLog` of the tokens made and notified.
- `composition.dfy` (`Composition`) holds functions of the provider list and the lemmas that characterise them:
  - `Lookup`, the override lookup;
  - `ChildKeys`, the child-key fold;
  - `LoadEach`, `Tokens` and `Failures`, for one load pass.
- `provider_iter.dfy` (`ProviderIteration`) holds:
  - the shared provider vector `ProviderList` (the `Rc<RefCell<Vec<..>>>`), with an explicit count of outstanding shared borrows;
  - the `ProviderIter` cursor, modelled as written;
  - the consumers that drain it;
  - the findings below.
- `section.dfy` (`Sections`) holds `Section` and the `RootHandle` it keeps of its root.
- `root.dfy` (`Roots`) holds the `Root` class: `new`, `reload`, `get`, `section`, `children`, `reload_token` and `providers`.
- `builder.dfy` (`Builders`) holds the builder.

Supplied from outside the model:

- A provider's behaviour is data. Its `load` results come from its script, indexed by how many times it has been loaded.
- `ConfigurationPath::combine` and `section_key` are passed as function parameters to the members that use them. Nothing is assumed about either.
- A provider's `child_keys` is given as the list it appends for a parent. The model takes it to append only, and to append the same list whatever `earlier_keys` already holds. The real signature hands the provider the whole `&mut Vec<String>`, and `Composition.ChildKeysAreEmitted` relies on this reading.

Points where the code behaves differently from what a reader of its API might expect, modelled as the code does it:

- **Section tokens.** A section holds a clone of its root. The clone shares the provider vector but copies the token handle at the moment the section is made. So `section.reload_token()` is the root's current token only until the root reloads. After that it is the token that was just notified, and it stays that fired token. One might expect a section to report the root's current token at all times. `Roots.SectionTokenAfterReload` states what the code does.
- **Case sensitivity.** Keys are not compared case-insensitively in this file. Lookups are whatever the provider's `get` answers. Child keys are deduplicated by exact string equality in a `HashSet<String>`.
- **Borrowed count.** The count in `ReloadError::Borrowed` is computed from the reference counts of the shared vector (`strong_count - 1 + weak_count`). It is not the number of outstanding borrows. It is modelled as the field `ProviderList.handles`. Whether `reload` goes ahead depends on the borrow count instead, modelled as `ProviderList.readers`.
- **Clones that reload.** A root is `Clone`, and a clone shares the provider vector and the token handle. When two clones reload in turn, both go ahead, and the token they shared is notified twice. `Roots.Root.Valid` therefore allows a current token that has already been notified, and `Roots.ClonesReloadInTurn` shows the double notification.
- **Failed construction.** When an initial load fails, `new` returns the error and no root. No composite token is made in that case.

`Section.Subkey` (src/default.rs:250-252) is used by the members below. `Section.Key` models `key` as `section_key` of the section's path (src/default.rs:295-297). With `section_key` a parameter, the only thing to state about it is that the key comes from the path the section was made at, and `Roots.SectionDelegates` states that. So are `Root.ReloadToken` and `Section.ReloadToken` (src/default.rs:191-193, 278-280). They carry no contract of their own; what they mean is stated by `Roots.SectionDelegates` and `Roots.SectionTokenAfterReload`.

## Model

| member | source | states |
|---|---|---|
| `Composition.LookupIsOverride` | src/default.rs:161-169 | lookup answers None exactly when no provider has the key; otherwise it answers the value of the last-registered provider that has it |
| `Composition.LookupAppend` | src/default.rs:161-169 | providers registered later that have the key hide all earlier ones; later providers without the key leave the earlier answer unchanged |
| `Composition.LookupBelowWinner` | src/default.rs:161-169 | replacing everything below the winning provider by anything leaves the answer unchanged |
| `Roots.Root.Get` | src/default.rs:161-169 | the reverse loop with early return yields the override-merged value (None iff no provider has the key, else the last holder's value) |
| `Composition.ChildKeysAreEmitted` | src/default.rs:179-183 | a key is in the folded child-key vector iff some provider emitted it for that parent |
| `Roots.Root.Children` | src/default.rs:178-189 | exactly one section per distinct child key any provider emits with parent None, each the root's section for that key |
| `Sections.Section.Children` | src/default.rs:264-276 | exactly one section per distinct child key any provider emits with parent Some(path), each the section's own `section` for that key |
| `Composition.LoadEachAt` | src/default.rs:97-105 | a load pass loads every provider exactly once (load count +1, in place, same order) and captures one token per provider, taken after its load, failed or not |
| `Composition.FailuresReported` | src/default.rs:100-102 | the error list names exactly the failing providers, each once with its name and error, in registration order; it is empty iff no load failed |
| `Roots.Root.New` | src/default.rs:93-115 | no failure: a fresh root over the loaded providers with a new composite of the captured tokens; any failure: `Provider(errors)` and no token made |
| `Roots.LoadInPlace` | src/default.rs:126-134 | the in-place loop loads every provider in order without stopping at failures and returns the error list and the captured tokens |
| `Roots.Root.Reload` | src/default.rs:119-149 | borrowed: `Borrowed(Some(n))`, providers, token and notification log unchanged; else every provider loaded, the new token is the composite of the fresh tokens, the old token is notified once more (its notification count rises by exactly one), the new token has never been notified, `Ok` iff no errors, else `Provider(errors)` |
| `Roots.ReloadWhileIterating` | src/default.rs:120-122 | with a live provider cursor taken through a clone, reload is refused; after dropping it reload goes ahead and notifies the old token once |
| `Roots.Root.Clone` | src/default.rs:81-85 | a new root sharing the provider list, the token log and the current token |
| `Roots.ClonesReloadInTurn` | src/default.rs:119-149 | two clones reloading in turn both go ahead: the providers are loaded twice, the shared token is notified twice, and the last token is not notified |
| `Roots.Root.Section` | src/default.rs:171-176 | a section bound to a clone of this root (same shared list, current token) at exactly the given key, never failing |
| `Roots.Root.Providers` | src/default.rs:151-153 | a cursor over the current list from both ends, holding one more shared borrow |
| `Roots.SectionDelegates` | src/default.rs:250-305 | a section's get and section read the root at combine([path, key]); its value is the root's value at its path or the default; its key is section_key of the path it was made at; a new section's token is the root's current one |
| `Roots.SectionTokenAfterReload` | src/default.rs:278-280 | a section keeps the token of the root clone it holds: after a reload that went ahead its token is the one just notified, not the root's new one |
| `Sections.Section.Get` | src/default.rs:256-258 | the override-merged value of the root at combine([path, key]) |
| `Sections.Section.Section` | src/default.rs:260-262 | the section at combine([path, key]) on the same root handle |
| `Sections.Section.Value` | src/default.rs:303-305 | the default value when no provider has the path, otherwise the last holder's value; never fails |
| `ProviderIteration.ProviderList.constructor` | src/default.rs:110 | a fresh shared vector holding the providers with no borrow outstanding |
| `ProviderIteration.ProviderList.Release` | src/default.rs:162-166 | dropping a borrow (an item or a cursor) lowers the borrow count by one, nothing else changes |
| `ProviderIteration.ProviderIter.constructor` | src/default.rs:18-24 | the cursor starts with head 0 and tail the number of providers and takes a shared borrow |
| `ProviderIteration.ProviderIter.Next` | src/default.rs:50-58 | yields index head and advances it while head is below the number of providers (not tail), else None; tail untouched; an item takes a borrow |
| `ProviderIteration.ProviderIter.NextBack` | src/default.rs:68-75 | yields index tail-1 and lowers tail while tail is positive, else None; head untouched |
| `ProviderIteration.ProviderIter.Len` | src/default.rs:61-65 | always the number of providers |
| `ProviderIteration.DrainForward` | src/default.rs:179-183 | successive next calls yield head, head+1, ..., len-1, then None, and the items' borrows are all released |
| `ProviderIteration.DrainBackward` | src/default.rs:162-166 | successive next_back calls yield tail-1 down to 0, then None |
| `ProviderIteration.MixedDirectionsYieldTwice` | src/default.rs:50-58 | over one provider, next then next_back both yield index 0 |
| `ProviderIteration.LenAfterExhaustion` | src/default.rs:61-65 | over one provider, after next yields 0 and then None, len is still 1 |
| `ProviderIteration.ProviderIter.NextMeeting` | src/default.rs:50-58 | corrected next: stops at tail, yields only indices not yet taken from either end, and lowers the remaining count by one per item |
| `ProviderIteration.ProviderIter.NextBackMeeting` | src/default.rs:68-75 | corrected next_back with the same stop |
| `ProviderIteration.ProviderIter.Remaining` | src/default.rs:61-65 | corrected len: zero exactly when the two ends have met, never more than the number of providers |
| `ProviderIteration.MixedDirectionsMeet` | src/default.rs:50-58 | with the corrected cursor over one provider, next yields 0 and next_back then yields None |
| `ProviderIteration.RemainingAfterExhaustion` | src/default.rs:61-65 | with the corrected cursor over one provider, the remaining count is 0 once next is exhausted |
| `Config.Provider.Loaded` | src/default.rs:98 | a load keeps the provider's name and script, counts one more load, and installs the data, child keys and token that load produces |
| `Config.Provider.Get` | src/default.rs:163 | a provider has a value for a key exactly when its data holds that key |
| `Config.TokenLog.Compose` | src/default.rs:136 | a new composite token over the captured tokens, never handed out or notified before |
| `Config.TokenLog.Notify` | src/default.rs:139 | notifying records the token once in the notification log |
| `Roots.Root.Make` | src/default.rs:108-111 | a root over the shared list whose token was made by the token log |
| `Builders.BuildAll` | src/default.rs:360 | one provider per source, in source order |
| `Builders.Builder.constructor` | src/default.rs:340-342 | a builder with no sources |
| `Builders.Builder.Add` | src/default.rs:354-356 | the source is appended and the earlier sources are unchanged |
| `Builders.Builder.Build` | src/default.rs:358-362 | the root's providers correspond one to one, in order, to the sources, each loaded once; the root uses the given token log, its token is new and un-notified, no borrow is outstanding, and no token is notified; a failing initial load's `Provider` error is propagated |

## Findings

| source | as written | input that shows it | evidently intended | confidence | as-written member | corrected member |
|---|---|---|---|---|---|---|
| src/default.rs:50-58 | `next` compares `head` with `items.len()`, not with `tail` | a cursor over one provider: `next()` and then `next_back()` both return that provider | `next` stops at `tail` (and `next_back` at `head`). A double-ended iterator must not hand out an item from both ends | medium, not executed | `ProviderIteration.MixedDirectionsYieldTwice` | `ProviderIteration.ProviderIter.NextMeeting` |
| src/default.rs:61-65 | `len` returns `items.len()` | a cursor over one provider: after `next()` has returned it and then `None`, `len()` is 1 | `len` is the number of items not yet handed out (`tail - head`), as an exact-size iterator must report | medium, not executed | `ProviderIteration.LenAfterExhaustion` | `ProviderIteration.ProviderIter.Remaining` |

Within this file the cursor is only consumed from one end at a time. `children` folds forward and `get` goes backward. On that use the as-written and the corrected cursors agree, so the rest of the model reads the provider list directly.

## Left out

- Change-token internals are not part of this model. That covers `CompositeChangeToken`'s firing when a child fires, callback registration and `SharedChangeToken`. Tokens are ids. A composite records the provider tokens it was made from, and `TokenLog` records which composites were notified, in order.
- `ConfigurationIterator` and `iter_relative` (src/default.rs:195-200, 286-291) are not part of this model.
- `Debug`, `AsRef`, `Borrow` and `Deref` impls, `as_config` and `as_section` are trait plumbing with no behaviour of their own.
- `Item::name()` returns a Rust type name, which is a reflection detail.
- The builder's `properties` bag, and the way a source uses it in `build`, are external. A `Source` is given by the provider it builds.
- Reference counting is not tracked. `Roots.Root.Clone` makes a new root, but cloning or dropping a root or a section does not change `ProviderList.handles`. The environment supplies that number, and it is advisory.
- `Roots.Root.Get`: the shared borrow `get` takes for its loop is not counted, because it is released before `get` returns.
- `Roots.Root.Children` and `Sections.Section.Children`: the fold's borrow is not counted, for the same reason. The order of the result vector is not modelled either: it comes from a `HashSet`, so it is unspecified, and the result is given as a map from key to section.
- `ConfigurationPath::combine` and `section_key` are not part of this model. They are parameters, and nothing about paths is proved that would depend on them.
- A provider's own effects during `load` (files, environment, watchers) are not modelled. Only the data, child keys, token and error that the load leaves behind are.
- Concurrency is out of scope: there are no threads, and no change-token callback runs during `notify`. `reload` notifies the old token while it still holds the exclusive borrow of the provider vector (src/default.rs:122-145). A callback that read the configuration then, through a clone or a section (`get`, `children` or `providers`), or that reloaded it, would panic on the borrow. The model does not capture that.
