# ActiveScaffold class-level bookkeeping, modelled in Dafny

ActiveScaffold adds CRUD scaffolds to Rails controllers. Calling
`active_scaffold` in a controller class sets up some per-class state, and a
few class methods read or update it. This project models the parts of
`lib/active_scaffold.rb`'s `ClassMethods` that are list, cache and search
logic, and proves what they do:

- **View paths** (`view_paths.dfy`, module `ViewPaths`). A class keeps three
  lists: override directories, custom paths and frontend view directories.
  `@active_scaffold_paths` caches their concatenation. `PathRegistry` is a
  class with those four fields. `Setup` is the path part of
  `active_scaffold`. `AddPath` and `AddOverridePath` clear the cache and then
  append or prepend. `Paths` is `active_scaffold_paths`. Every list and the
  cache is nil (`None`) until `active_scaffold` has run.
- **Configuration inheritance** (`inheritance.dfy`, module `Inheritance`). A
  class hierarchy is a sequence of levels: the receiver, its superclass, and
  so on. Each level records whether the class responds to the scaffold class
  methods, plus its own `@active_scaffold_config` and
  `@active_scaffold_config_block`. Past the end of the sequence the
  superclass is nil. `ActiveScaffoldConfig` and `UsesActiveScaffold` are the
  recursive lookup. `SuperclassesBlocks` is the `while` loop that collects
  the ancestors' blocks, drops the nils and reverses them.
- **Controller lookup** (`controller_lookup.dfy`, module `ControllerLookup`).
  `active_scaffold_controller_for` is a method with the Ruby method's nested
  loops, proved equal to the function `ControllerSearch`. The lemmas state
  the search order, that the first existing candidate alone decides, and the
  error message. The inflector is four given string functions. `constantize`
  is a map from constant names to controller classes. A controller class has
  a name and an optional config holding its model and enabled actions.
- **Association links** (`association_links.dfy`, module
  `AssociationLinks`). `Column` is a class whose `link` and
  `actionsForAssociationLinks` change in place. `LinkForAssociation` prunes
  a singular association's link actions against its target's actions.
  `LinksForAssociations` runs over the columns and gives a link to each
  column that has none and autolinks.

`wrappers.dfy` holds the `Option` type that stands for Ruby's nil. Action
names (Ruby symbols) are strings. A model class is identified by its name.

## Model

| member | source | states |
|---|---|---|
| `ViewPaths.FrontendList` | lib/active_scaffold.rb:180-186 | the frontends list ends with the default frontend's views; it has a second, earlier entry, the configured frontend's views, exactly when the frontend is not `default` |
| `ViewPaths.Uniq` | lib/active_scaffold.rb:179 | `uniq!` leaves a duplicate-free list with exactly the elements of its input |
| `ViewPaths.UniqKeepsFirstOccurrenceOrder` | lib/active_scaffold.rb:179 | the kept entries appear in the order of their first occurrences in the input |
| `ViewPaths.UniqOfDistinct` | lib/active_scaffold.rb:179 | a list without repetitions is left unchanged |
| `ViewPaths.Joined` | lib/active_scaffold.rb:276-279 | the concatenation is as long as the three lists together: the overrides, then the custom paths, then the frontends |
| `ViewPaths.NilContributesNothing` | lib/active_scaffold.rb:276-279 | a nil list contributes to the concatenation exactly what an empty one does |
| `ViewPaths.AddPathPlacement` | lib/active_scaffold.rb:262-281 | after appending a custom path, the rebuilt list is the old one with the new path spliced in directly before the first frontend path; all other entries keep their order |
| `ViewPaths.OverridePlacement` | lib/active_scaffold.rb:267-281 | after prepending an override path, the rebuilt list is the new path followed by the old list |
| `ViewPaths.PathRegistry.Setup` | lib/active_scaffold.rb:174-187 | overrides become the duplicate-free found directories, frontends the frontend list, custom paths empty; the cache is not touched (`active_scaffold` then calls `active_scaffold_paths`, which is `Paths` after `Setup`) |
| `ViewPaths.PathRegistry.AddPath` | lib/active_scaffold.rb:262-265 | the cache is cleared; the path is appended to the custom paths, or, while they are nil, the call raises after clearing the cache; the other lists do not change |
| `ViewPaths.PathRegistry.AddOverridePath` | lib/active_scaffold.rb:267-270 | the cache is cleared; the path goes in front of the overrides, or the call raises while they are nil; the other lists do not change |
| `ViewPaths.PathRegistry.Paths` | lib/active_scaffold.rb:272-281 | a filled cache is returned as it is; otherwise overrides, then custom paths, then frontends are concatenated and cached; a second call returns the identical list |
| `Inheritance.Reach` | lib/active_scaffold.rb:298-300 | the ancestors in front of the returned index all respond to the scaffold class methods, and the class at that index does not or the chain has ended |
| `Inheritance.ActiveScaffoldConfig` | lib/active_scaffold.rb:283-289 | the result is the class's own config when set; otherwise it is the config of the nearest responding ancestor that has one; it is nil exactly when no class in that run has one |
| `Inheritance.UsesActiveScaffold` | lib/active_scaffold.rb:346-348 | true exactly when the class or one of its responding ancestors has a config |
| `Inheritance.Origins` | lib/active_scaffold.rb:295-303 | the levels whose blocks are collected lie strictly between the receiver and the first non-responding ancestor |
| `Inheritance.OriginsHaveBlocks` | lib/active_scaffold.rb:302 | every collected level has a non-nil block (`compact`) |
| `Inheritance.OriginsDescend` | lib/active_scaffold.rb:302 | the collected levels run from the farthest ancestor to the nearest (`reverse`), each once |
| `Inheritance.OriginsComplete` | lib/active_scaffold.rb:298-299 | every responding strict ancestor with a block is collected |
| `Inheritance.Compact` | lib/active_scaffold.rb:302 | `compact` never yields more entries than it is given |
| `Inheritance.CompactKeepsValues` | lib/active_scaffold.rb:302 | `compact` keeps exactly the values of the non-nil entries |
| `Inheritance.Reversed` | lib/active_scaffold.rb:302 | `reverse`: the element at each position comes from the mirrored position |
| `Inheritance.CompactReversedIsOrigins` | lib/active_scaffold.rb:298-302 | compacting and reversing the blocks collected nearest-first gives, position by position, the blocks of the collected levels |
| `Inheritance.SuperclassesBlocks` | lib/active_scaffold.rb:295-303 | the result holds each non-nil block of the responding strict ancestors, farthest ancestor first, and never the receiver's own block |
| `ControllerLookup.Namespace` | lib/active_scaffold.rb:323 | a top-level controller searches under `::`; a controller one level down searches under its module followed by `::` |
| `ControllerLookup.JoinAppend` | lib/active_scaffold.rb:323 | `join` of a list with one more part is the old string, the separator and the new part |
| `ControllerLookup.NamespaceOfNested` | lib/active_scaffold.rb:323 | each further enclosing module adds its name and `::` to the namespace |
| `ControllerLookup.NamespaceExample` | lib/active_scaffold.rb:323 | `Admin::Shop::UsersController` searches under `Admin::Shop::` |
| `ControllerLookup.Candidates` | lib/active_scaffold.rb:325-328 | the top-level candidates are the camelized plural name, then the camelized singular name, each followed by `Controller`; the two candidates tried before them are the same names with the current namespace in front |
| `ControllerLookup.FirstPresent` | lib/active_scaffold.rb:325-337 | the candidates before the returned position do not exist; the one at it does, unless all were tried |
| `ControllerLookup.ControllerSearch` | lib/active_scaffold.rb:322-344 | a controller that is returned uses the scaffold, for the requested model, and is one of the existing candidates |
| `ControllerLookup.FirstExistingDecides` | lib/active_scaffold.rb:338-340 | the first existing candidate is returned when it uses the scaffold for the model; otherwise `ControllerNotFound` is raised for the missing scaffold or for the wrong model |
| `ControllerLookup.FirstExistingMessages` | lib/active_scaffold.rb:338-339 | the raised text is "X missing ActiveScaffold" for a first existing controller without the scaffold, and "ActiveScaffold on X is not for M model." for one configured for another model |
| `ControllerLookup.LaterCandidatesNotTried` | lib/active_scaffold.rb:328-340 | what exists after the first existing candidate cannot change the result |
| `ControllerLookup.NoCandidateExists` | lib/active_scaffold.rb:343 | when no candidate exists, `ControllerNotFound` lists all four candidates in search order |
| `ControllerLookup.CouldNotFindOnlyWhenNoneExists` | lib/active_scaffold.rb:325-343 | the "could not find" error is raised exactly when none of the candidates exists |
| `ControllerLookup.JoinFour` | lib/active_scaffold.rb:343 | `join` puts the separator between each neighbouring pair of four names |
| `ControllerLookup.CouldNotFindMessage` | lib/active_scaffold.rb:343 | the message is "Could not find " followed by the tried names joined by " or " |
| `ControllerLookup.ActiveScaffoldControllerFor` | lib/active_scaffold.rb:322-344 | the nested loops try the current namespace before the top level and the plural name before the singular one; they return or raise on the first existing constant, so the result equals `ControllerSearch` |
| `AssociationLinks.AssociationTarget` | lib/active_scaffold.rb:230-234 | a polymorphic association targets `:polymorph`; any other association has a target exactly when the controller lookup succeeds, and the target carries the found controller's enabled actions |
| `AssociationLinks.Pruned` | lib/active_scaffold.rb:245-249 | `new` stays exactly when the target can create, `edit` exactly when it can update, `show` exactly when it can show; every other entry stays and nothing is added |
| `AssociationLinks.PolymorphPrunesNothing` | lib/active_scaffold.rb:245-246 | pruning against the create, update and show actions taken for `:polymorph` removes nothing |
| `AssociationLinks.OnlySingularWithTargetIsPruned` | lib/active_scaffold.rb:236-243 | a plural association, or one whose controller is not found, keeps its link actions |
| `AssociationLinks.AssociationLink` | lib/active_scaffold.rb:236-251 | a link is made exactly when there is a target; it is the index link exactly for a plural association |
| `AssociationLinks.LinksAfter` | lib/active_scaffold.rb:240-249 | a singular, non-polymorphic association whose controller is found has its link actions pruned against that controller's enabled actions; a plural association, one without a target, or a polymorphic one keeps them all |
| `AssociationLinks.LinkForAssociation` | lib/active_scaffold.rb:229-253 | the returned link is nil without a target, the index link for a plural association and the `:none` link otherwise; only a singular association with a target has its link actions pruned |
| `AssociationLinks.LinksForAssociations` | lib/active_scaffold.rb:220-227 | with both `list` and `nested` enabled, each column that has no link and autolinks gets the computed link and its pruned actions; every other column, and every column when either action is missing, is left as it was |

## Left out

- The Rails version check, `require`, `autoload` and `active_scaffold_autoload_subdir`: these only load code.
- `install_assets_from`, `delete_stale_assets`, `copy_files`, `root` and the install initializer: these are file-system I/O.
- Scanning the view paths for `active_scaffold_overrides` directories with `File.exists?` is file-system I/O. `Setup` takes the directories found as its input and keeps only the `uniq!` step.
- `ViewPaths.FrontendViews`: `File.join` is modelled as concatenation with "/" separators. Its collapsing of repeated slashes is not modelled.
- `ViewPaths.PathRegistry.Paths`: the Ruby method returns the cached array object itself, so a caller that mutates the result also mutates the cache. The model returns a value, so it does not capture this aliasing.
- The rest of `active_scaffold` is framework reflection and is not modelled: the bridges, the `model_id` derivation, building `Config::Core`, applying the config blocks, `_configure_sti`, `_load_action_columns`, the module inclusion, `append_view_path` and the STI create links. `Config::Core` is not part of this model.
- `handle_user_settings`, `active_scaffold_session_storage`, `js_framework`, `set_defaults` and the instance-level delegators: these depend on the framework's session, params and configuration objects.
- `active_scaffold_config_for` and `link_for_association_as_scope`: both build framework configuration or `ActionLink` objects, with no list or search logic of their own.
- In `link_for_association`, building and `reverse_merge!`-ing the link options and the `ActionLink` objects is left out. A link is reduced to its kind: the nested `index` link or the `:none` link.
- `ControllerLookup.ActiveScaffoldControllerFor`: a `NameError` for a constant name counts as "constant absent". The Ruby method's check of the error message text, and the re-raise of other `NameError`s, are not modelled.
- `ControllerLookup.Namespace`: the controller's name is taken already split at `::`. Whether `::FooController` and `FooController` name the same constant is up to the given constant map.
- The inflector (`underscore`, `pluralize`, `singularize`, `camelize`) and `constantize` are library calls. They are given as uninterpreted inputs.
- `AssociationLinks.LinksForAssociations` requires the columns to be distinct objects. This only simplifies the frame proof: in `links_for_associations` a second visit to the same column changes nothing, because either its link is already set or it had no target and nothing was pruned.
- `Inheritance.Level`: one flag, `respondsToScaffold`, stands for both `respond_to? :active_scaffold_config` and `respond_to? :active_scaffold_superclasses_blocks`. The two checks agree for every class that extends `ClassMethods`, so the model merges them.
- A column's `actions_for_association_links` is modelled as a set. Ruby's `delete` works on a list, so the order of its entries and any repeated entries are not captured.
- `autolink?`, `polymorphic_association?` and `plural_association?`, and the column's association class, are taken as fixed attributes of a column. How these are derived is not part of this model.
- The hooks that include the modules into `ActionController::Base` and `ActiveRecord::Base`, and the I18n load path: framework set-up.
