# Materialist materializer, modelled in Dafny

This project models the core of the Materialist materializer (`lib/materialist/materializer.rb`).
A class that includes `Materialist::Materializer` declares a mapping tree with a small DSL:
- `materialize key, as: alias` copies one remote field;
- `link key do ... end` follows a hyperlink and maps fields of the linked resource;
- `use_model`, `after_upsert` and `after_destroy` set the record options.

At event time, `perform(url, action)` works in one of two ways:
- **upsert**: fetch the root resource, flatten the tree against the resource graph into one attribute hash, and save it into the record keyed by `source_url`;
- **destroy**: remove the record keyed by `source_url`.

When the upsert or destroy takes effect, it then runs the configured hook, if any. A failure, or a destroy that finds no record, runs no hook.

Modules, one per part of the source:

- `Ruby` (`ruby.dfy`): `Option` stands for a value that may be `nil`, and `Result` for a call that may raise.
- `MappingTree` (`mapping_tree.dfy`): `FieldMapping` and `LinkMapping` as the two-case `Node` datatype. Paths address the children arrays inside a tree. `Replace` models an in-place append to one of those shared arrays.
- `Dsl` (`dsl.dfy`): the builder state of the declaring class, which holds the root mapping, the scope stack and the options.
  - The scope stack holds paths, so appending to the top scope changes the tree, as Ruby's shared arrays do.
  - DSL calls are `Command`s, run one at a time by `Step` and in sequence by `Run`.
  - A class body with its nested `link` blocks is a `Decl` tree. `Emit` gives the calls such a body makes, and `Tree` gives the mapping it is meant to declare.
- `Resources` (`resources.dfy`): the resource graph `map<Url, Resource>`; a URL that is not in the map is not found. Also holds `resource_at` and the exceptions that can escape the engine.
- `Flatten` (`flatten.dfy`): `build_attributes` as a pure fold (`Build`, `Fold`, `Apply`) and as the source's `inject` loop (`BuildAttributes`). It also holds the laws of flattening.
- `Materializer` (`materializer.dfy`): `perform`, `upsert`, `destroy`, `upsert_record` and `attributes`. They work over a `State`, which is a store `map<Url, Attrs>` plus a log of hook runs.
- `Scenarios` (`scenarios.dfy`): worked examples with concrete resources.

Points where the code's behaviour is easy to misread, which the model follows as written:

- Upsert merges the flattened attributes over the record's current attributes. The code calls `update_attributes`, which assigns only the keys it is given. So an attribute that flattening no longer produces keeps its old value. For example, a field under a link that has gone away is kept, not cleared; the record is not reset to the flattened mapping.
- `link` has no `ensure`. If the block raises, the pushed scope stays on the stack rather than being restored. The model states `link`'s contract for normal return only.
- Keys are not checked for being non-empty, because the code does not check them.

## Model

| member | source | states |
|---|---|---|
| Dsl.Top | lib/materialist/materializer.rb:47 | No contract of its own: it names `stack.last`, the current insertion scope, which `Dsl.Append` and `Dsl.Step` describe. |
| Dsl.Append | lib/materialist/materializer.rb:46-53 | `stack.last << node` appends the node to the children array the top scope names and to nothing else; the stack and the options are unchanged, and every stack entry still names a scope, so an append never detaches a link another entry points into. |
| Dsl.Step | lib/materialist/materializer.rb:46-68 | `materialize` appends `Field(key, alias)` to the top scope only, with the key as the alias when `as:` is omitted; stack and options unchanged. `link` appends an empty `Link` to the top scope and pushes exactly that link's children. The pop restores the shorter stack. `use_model`, `after_upsert` and `after_destroy` each overwrite one option, leaving the tree and stack alone. Every call keeps the stack valid, and only a pop of the root alone fails. |
| Dsl.Run | lib/materialist/materializer.rb:44-69 | Any sequence of DSL calls keeps the root at the bottom of the stack, with every stack entry naming a children array of the tree. |
| Dsl.RunAppend | lib/materialist/materializer.rb:44-69 | Running calls one after the other is running their concatenation. |
| Dsl.LinkRuns | lib/materialist/materializer.rb:50-56 | `link key do body end` appends `Link(key, Tree(body))` to the current scope and changes no other part of the tree. Every declaration in the block lands in that link's children. On normal return the stack is exactly as before. |
| Dsl.Emit | lib/materialist/materializer.rb:50-56 | No contract of its own. It defines the calls a class body makes, in order: each `link` pushes its scope, runs its block, then pops. `Dsl.EmitBalanced` and `Dsl.EmitRuns` state what that order does. |
| Dsl.EmitBalanced | lib/materialist/materializer.rb:50-56 | Every declaration block, however deeply its links nest, pops exactly as many scopes as it pushes. |
| Dsl.EmitRuns | lib/materialist/materializer.rb:44-56 | From any valid builder state, a declaration block appends its declared tree to the current scope and nothing else. The stack returns unchanged, and each option takes its last written value. |
| Dsl.Declare | lib/materialist/materializer.rb:11-13 | A class body run from the freshly included state (root mapping `[]`, stack `[root]`) leaves the stack at `[root]`. The root mapping is exactly the declared tree, with each declaration under its enclosing link. |
| Resources.ResourceAt | lib/materialist/materializer.rb:141-145 | A found URL gives its resource. A missing URL gives nil when `allow_nil` is set, and raises not-found for that URL otherwise. |
| Flatten.Build | lib/materialist/materializer.rb:124-139 | A nil resource flattens to `{}`. The keys of any result are aliases declared in the tree. |
| Flatten.Fold | lib/materialist/materializer.rb:127-138 | The fold only adds keys that are aliases declared in the nodes. Any accumulated key that no node declares keeps its value. |
| Flatten.Apply | lib/materialist/materializer.rb:128-137 | One node's step adds only aliases declared under that node and keeps every other accumulated value. |
| Flatten.FoldOverrides | lib/materialist/materializer.rb:127-133 | Folding from any hash gives that hash overridden by the fold from `{}`. |
| Flatten.BuildAppend | lib/materialist/materializer.rb:127-133 | Flattening the siblings `xs + ys` is the right-biased merge of flattening `xs` and flattening `ys`. |
| Flatten.LaterSiblingsWin | lib/materialist/materializer.rb:127-133 | On an alias produced by both, the later siblings' value wins, whether fields or link subtrees produce it. Any other alias keeps the earlier siblings' value, and no new key appears. |
| Resources.Lookup | lib/materialist/materializer.rb:130 | `resource.body[key]` gives the field's value when the body has the key, and nil rather than an error when it does not. |
| Flatten.LastFieldSetsAlias | lib/materialist/materializer.rb:130 | A field node sets `result[as]` to `body[key]`. When the body has no such key, the value is null, not an error. |
| Flatten.AbsentLinkSkipped | lib/materialist/materializer.rb:132-134 | A link node whose key is not in `_links` leaves the result unchanged, whatever its children are. |
| Flatten.NotFoundLinkSkipped | lib/materialist/materializer.rb:124-145 | A link whose target is not found is fetched as nil, without raising, and contributes `{}`. |
| Flatten.KeysAreReachable | lib/materialist/materializer.rb:124-139 | The keys of the flattened hash are exactly the aliases of the fields reached through links that are present and resolve. |
| Flatten.FoldIsLocal | lib/materialist/materializer.rb:124-139 | Flattening is deterministic and reads the graph only at the URLs it follows: two graphs that agree there give the same attributes. |
| Flatten.BuildAttributes | lib/materialist/materializer.rb:124-139 | The `inject` loop, which recurses into each present link, computes the same hash as the fold. |
| Materializer.ModelClass | lib/materialist/materializer.rb:116-118 | Fetching the model class raises when `use_model` was never called, and yields the declared class otherwise. |
| Materializer.Attributes | lib/materialist/materializer.rb:120-122 | The root is fetched without tolerating not-found. A missing root raises not-found for its URL, and a found root gives its flattened attributes. |
| Materializer.FindOrInitialize | lib/materialist/materializer.rb:98 | `find_or_initialize_by(source_url: url)` seen through the record's attributes: an existing record's stored attributes, or no attributes for a freshly initialized record. |
| Materializer.HookRun | lib/materialist/materializer.rb:81 | A hook is run exactly once, with the record, when its name is configured, and not at all otherwise. |
| Materializer.UpsertRecord | lib/materialist/materializer.rb:97-102 | There are three failures, in the source's order: no model class, a missing root, and a merged record that fails validation. With a model class and a found root, it succeeds exactly when the merged record is valid. The saved record is the flattened attributes merged over the record's existing ones, so old values survive for keys flattening did not produce. The store maps `url` to that record and nothing else changes. |
| Materializer.Upsert | lib/materialist/materializer.rb:79-83 | A failure, such as a not-found root, leaves the store and the log unchanged. With a model class and a found root, upsert succeeds exactly when the merged record is valid. On success the store maps `url` to the flattened attributes merged over the old ones, other records are unchanged, the saved record is returned, and the after-upsert hook runs once if configured. Otherwise it raises record-invalid with nothing changed. |
| Materializer.Destroy | lib/materialist/materializer.rb:85-91 | Without a model class it raises and changes nothing. With a model class and no record for `url`, destroy returns nil and changes nothing, running no hook. Otherwise it removes only that key and returns the removed record, or raises when `destroy!` refuses. It runs the after-destroy hook once when configured. |
| Materializer.Perform | lib/materialist/materializer.rb:38-41 | Gives the outcome of every case. A delete event behaves as destroy: nil and no change when there is no record; otherwise the record is removed and returned and the after-destroy hook runs once, or `destroy!` refuses and nothing changes. A delete never fails with not-found. Any other event behaves as upsert: not-found for a missing root, otherwise success exactly when the merged record is valid, with the saved record and one after-upsert hook run. A missing model class fails either way, and any failure changes nothing. |
| Materializer.UpsertIdempotent | lib/materialist/materializer.rb:97-101 | Upserting again from resources that flatten to the same attributes leaves the store and the returned record as they were. Only the hook runs again. |
| Materializer.DestroyIdempotent | lib/materialist/materializer.rb:85-91 | A second destroy is a no-op that returns nil and runs no hook. |
| Materializer.UpsertThenDestroy | lib/materialist/materializer.rb:79-91 | Absent, then upserted, then destroyed: the store is back to where it started, and the destroyed record is the one the upsert saved. |
| Materializer.DeleteIgnoresGraph | lib/materialist/materializer.rb:38-41 | A delete event fetches nothing: its outcome does not depend on the resource graph. This holds by construction, because the destroy path is modelled without a graph parameter. |
| Scenarios.WidgetDeclares | lib/materialist/materializer.rb:44-56 | A renamed field followed by a link with one renamed child field builds the two-node tree with the nested child. The stack is back to `[root]`. |
| Scenarios.WidgetWithOwner | lib/materialist/materializer.rb:124-139 | With the owner link present and resolving, the result is `{full_name: "Widget", owner_id: 42}`. |
| Scenarios.WidgetWithoutOwner | lib/materialist/materializer.rb:132-134 | Without the owner link, the result is `{full_name: "Widget"}`, with no `owner_id` key. |
| Scenarios.UpsertOfMissingRoot | lib/materialist/materializer.rb:141-144 | Upserting a URL whose root is not found raises not-found, and no record is created or changed. |
| Scenarios.DeleteRunsHookOnce | lib/materialist/materializer.rb:85-91 | Deleting an existing record removes it and runs the after-destroy hook exactly once, with the deleted record. |

## Left out

- The HTTP client (`api_client`, `Routemaster::APIClient`, `enable_caching`) is replaced by a lookup in a `map<Url, Resource>`. A missing URL is not-found. Other transport and decoding errors, which the code lets propagate, are not modelled.
- The HATEOAS response object is a pair: a body map and a links map. Its `_links` entry is kept apart from the body fields. Ruby symbol and string keys are not told apart in the body and links lookups, since the response gives indifferent access. JSON numbers are integers; floats are not modelled.
- A resource whose body has no `_links` entry makes any link node raise at line 132 (`nil.include?`); the model gives every resource a links map and treats such a resource as having no links, so the link is skipped.
- Attribute names in the flattened hash are plain strings. The hash starts as a plain `{}` (line 127), where the aliases `:x` and `"x"` are two keys; the model merges them into one.
- The resource graph is fixed for the length of one `perform`. With `enable_caching: false` (line 142) each link is fetched afresh, so two links to the same URL could see different resources within one call; the model reads both from the same map.
- ActiveRecord is reduced to a map from `source_url` to attributes. `save!` validation and `destroy!` refusal are given as predicates of a `Persistence` value.
  - Validations that look at other records, unknown-attribute errors, and an alias named `source_url` rewriting the key column are not modelled.
  - `update_attributes` followed by `save!` is one step: it commits when the merged attributes are valid, and otherwise raises with the store unchanged.
- `classify.constantize` (the name of the model class resolving to a class) is not modelled. Only whether `use_model` was called matters.
- The `self.included` metaprogramming and `instance_variable_set` are modelled by the `Dsl.Fresh` state. Dynamic dispatch of hooks by name (`instance.send`) becomes a log entry with the hook's name and record. What a hook does, including raising, is not modelled.
- Dsl.LinkRuns: states the contract for normal return only. A block that raises is not modelled, because the code has no `ensure` and leaves the pushed scope on the stack in that case.
- The `else result` branch of the `case` in `build_attributes` cannot be reached, because the node kinds are a closed two-case datatype. Likewise, `m.mapping || []` never sees nil.
- Concurrent `perform` calls and event delivery are not handled in this file.
