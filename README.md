# Class-name memoiser, workspace query-cache rules and ConfirmDialog props

A Dafny model of three small pieces of the web console's frontend:

- **`makeClassNames`** (`site/src/hooks/emotion.ts`): a hook factory. Each call
  site keeps a one-entry cache of theme, inputs and computed class names.
  Each render compares the active theme by reference and the primitive
  inputs by value (two NaNs count as equal). It recomputes every class name
  when either differs. `emotion.dfy` holds the model:
  - the `!==` and `Number.isNaN` rules on a `Primitive` datatype that has an
    explicit `NaN`;
  - the comparison loop and the style-filling loop, written as methods;
  - the call-site cache, written as the class `ClassNamesHook` whose
    invariant `Valid()` says the cached styles are always the configuration
    applied to the cached theme and inputs.
- **Workspace query helpers** (`site/src/api/queries/workspaces.ts`):
  - the query keys;
  - the newest-build-wins rule that writes a returned build into the cached
    workspace;
  - the favourite toggle and the dormancy-clearing `activate`, which
    overwrite the cached workspace;
  - the choice between a template version id and a template lookup in
    `autoCreateWorkspace`.

  The query cache is the class `QueryClient`: a map from key to workspace,
  plus the list of keys invalidated so far. `workspaces.dfy` holds the model.
- **`ConfirmDialog`** (`site/src/components/ConfirmDialog/ConfirmDialog.tsx`):
  the per-type defaults table, the fallbacks for `type`, `hideCancel`,
  `confirmText`, `onCancel` and `onConfirm`, and the choice between the info
  and error palette. `confirm_dialog.dfy` holds the model.
  `wrappers.dfy` holds the shared `Option` type (an omitted property).

Modelling choices:

- The theme is an opaque type compared with `==`, standing for reference
  equality.
- The `css` producer and each configuration function are arbitrary Dafny
  functions of the argument object `{ css, theme, ...hookInput }`.
- API requests are `ApiCall` values that the operations return. The
  server's answer is a parameter: the looked-up template id, the updated
  workspace, or whether the request succeeded.
- `workspaceBuildsKey` lives in `site/src/api/queries/workspaceBuilds.ts`,
  which is not part of this model. It is passed in as a function.
- Timestamps are integers.

**The render that schedules `setCache`.** When `useClassNames` sees a change,
it calls `setCache` (emotion.ts:105), but that same pass still returns the
*old* `cache.styles` (line 108). `ClassNamesHook.Render` models that pass
exactly as written. A state update during render makes React throw that
pass away and render the component again at once. That second pass gets
the same theme and the same inputs, because React requires a render to be
pure. Inputs computed afresh on each pass (from `Date.now()`, say) would
schedule `setCache` again on every pass; the model does not cover that.
`ClassNamesHook.UseClassNames` models what the component finally sees. It
proves that the second pass finds nothing changed. So the committed styles
always belong to the active theme, and the cache is replaced wholesale or
not at all.

**Which keys are compared.** The comparison walks the keys of the cached
snapshot (emotion.ts:75, called with `cache.inputs` first at line 102), not
those of the new inputs. A key that appears only in the new inputs never
triggers a recomputation (`KeysOnlyInNewInputsIgnored`). The styles then stay
those computed from the cached inputs. Those inputs read the same as the new
ones only when the new ones add no key (`UnchangedInputsReadAlike`).

## Model

| member | source | states |
|---|---|---|
| `Emotion.StrictEquals` | site/src/hooks/emotion.ts:83 | `a === b` on primitives holds exactly when the two are the same value and not NaN; it is false across types and for NaN against anything |
| `Emotion.ValueChanged` | site/src/hooks/emotion.ts:76-85 | one key reports a change exactly when the cached and new values differ: NaN against NaN is unchanged, NaN against any non-NaN is changed |
| `Emotion.DidInputsChangeByValue` | site/src/hooks/emotion.ts:71-89 | reports a change exactly when some key of the cached record holds a value different from the new record's value under that key (a missing key reads `undefined`, for names that `Object.prototype` does not define); the loop may stop at the first such key |
| `Emotion.NoChangeAgainstCopy` | site/src/hooks/emotion.ts:75-88 | a snapshot compared with itself, or with any record that reads the same under every key, reports no change in either direction |
| `Emotion.KeysOnlyInNewInputsIgnored` | site/src/hooks/emotion.ts:75-102 | adding or changing a key that the cached snapshot lacks never changes whether a change is reported |
| `Emotion.UnchangedInputsReadAlike` | site/src/hooks/emotion.ts:75-88 | when no change is reported and the new inputs have no key of their own, every property reads the same in both records |
| `Emotion.CssArgument` | site/src/hooks/emotion.ts:65 | the argument object has the keys `css`, `theme` and the input keys; every input key carries its input, and `css` and `theme` carry the producer and the theme unless an input of that name shadows them |
| `Emotion.ComputeNewStyles` | site/src/hooks/emotion.ts:57-69 | the result has exactly the configuration's keys, each mapped to that key's function applied to `{ css, theme, ...hookInput }` |
| `Emotion.ClassNamesHook.FreshCache` | site/src/hooks/emotion.ts:93-97 | `computeNewCacheValue()` builds the triple of the given theme, the given inputs and the styles computed from them, so it satisfies the cache invariant |
| `Emotion.ClassNamesHook.Make` | site/src/hooks/emotion.ts:46-54 | a new hook keeps the configuration, has no cache yet and satisfies the invariant |
| `Emotion.ClassNamesHook.Render` | site/src/hooks/emotion.ts:91-108 | one pass as written: the first use builds the cache and schedules nothing; later a re-render is scheduled exactly when the theme reference differs or an input changed, and then the whole triple is replaced with a fresh one; otherwise the cache is untouched; the pass returns the styles cached before it; the invariant is kept |
| `Emotion.ClassNamesHook.UseClassNames` | site/src/hooks/emotion.ts:91-109 | the committed styles are the cached styles, computed for the active theme from cached inputs that the new inputs do not change; an unchanged theme and unchanged inputs leave the cache untouched; otherwise theme, inputs and styles are replaced together by a fresh triple; the invariant is kept |
| `Workspaces.WorkspaceKeyInjective` | site/src/api/queries/workspaces.ts:19-24 | the key `workspaceByOwnerAndNameKey` builds (`WorkspaceByOwnerAndNameKey`): two owner/name keys are equal exactly when owner and name are equal |
| `Workspaces.WorkspaceByOwnerAndName` | site/src/api/queries/workspaces.ts:26-34 | the query's key is the owner/name key, and its request fetches that same owner and name with deleted workspaces included |
| `Workspaces.WorkspacesKeyKeepsOnlyQueryAndLimit` | site/src/api/queries/workspaces.ts:94-97 | the key `workspacesKey` builds (`WorkspacesKey`): two requests share a workspaces key exactly when they agree on `q` and `limit`; an omitted config gives the key of the empty request |
| `Workspaces.WorkspacesKeyDistinctFromWorkspaceKey` | site/src/api/queries/workspaces.ts:94-97 | the workspaces list key never equals a single workspace's key |
| `Workspaces.WorkspacesQuery` | site/src/api/queries/workspaces.ts:99-108 | the query key is `workspacesKey(config)`, and the request sends exactly the `q` and `limit` recorded in that key |
| `Workspaces.AutoCreateWorkspaceCalls` | site/src/api/queries/workspaces.ts:72-86 | with a truthy `versionId`, one create request carrying `template_version_id`; otherwise a template lookup by organisation and name first, then, when the lookup answers, a create carrying the looked-up `template_id`, and when it fails, nothing more; the create always goes to the given organisation as user `"me"` with `defaultName` and the default build parameters |
| `Workspaces.VersionIdSkipsTemplateLookup` | site/src/api/queries/workspaces.ts:72-80 | with a truthy `versionId` the requests do not depend on what a template lookup would return, failure included |
| `Workspaces.WithNewestBuild` | site/src/api/queries/workspaces.ts:248-257 | the cached workspace takes the new build only when it is strictly newer; otherwise the workspace is unchanged; all other fields are always kept; the cached build's timestamp never decreases and ends at least the new one's |
| `Workspaces.ArrivalOrderIrrelevant` | site/src/api/queries/workspaces.ts:248-257 | two builds with different timestamps leave the same cached workspace whichever arrives first |
| `Workspaces.NewestBuildIdempotent` | site/src/api/queries/workspaces.ts:252-257 | delivering the same build a second time changes nothing |
| `Workspaces.UpdateWorkspaceBuild` | site/src/api/queries/workspaces.ts:238-262 | only the build's owner/name entry is written, and only when the build is strictly newer, replacing just `latest_build`; the builds key of `build.workspace_id` is invalidated in every case |
| `Workspaces.FavoriteRequest` | site/src/api/queries/workspaces.ts:269-275 | a favourite is unfavourited (delete) and anything else favourited (put), for the workspace's id |
| `Workspaces.Toggled` | site/src/api/queries/workspaces.ts:277-280 | the cached workspace is the given one with `favorite` negated and every other field kept |
| `Workspaces.ToggleFavoriteTwice` | site/src/api/queries/workspaces.ts:269-280 | toggling twice restores the workspace, and the second toggle sends the opposite request for the same id |
| `Workspaces.ToggleFavorite` | site/src/api/queries/workspaces.ts:264-289 | sends the delete or put request; on success writes the toggled workspace under its owner/name key and invalidates that key; on failure changes nothing |
| `Workspaces.Activate` | site/src/api/queries/workspaces.ts:224-236 | asks to clear dormancy for the workspace's id; on success the returned workspace overwrites the entry under the original workspace's owner/name key; nothing is invalidated |
| `ConfirmDialog.DefaultsMatchDocumentation` | site/src/components/ConfirmDialog/ConfirmDialog.tsx:13-32 | the defaults table `CONFIRM_DIALOG_DEFAULTS` (`Defaults`) hides cancel exactly for `"info"`, as documented; `"delete"` confirms with "Delete" and `"info"` with "OK", both truthy |
| `ConfirmDialog.DialogColours` | site/src/components/ConfirmDialog/ConfirmDialog.tsx:50-58 | background and text come from `confirmDialog.info` for an info dialog and from `confirmDialog.error` for any other type |
| `ConfirmDialog.Render` | site/src/components/ConfirmDialog/ConfirmDialog.tsx:85-127 | an omitted type is `"info"`; cancel handler is `onClose` exactly when the documented cancel rule shows cancel, else absent; confirm handler is `onConfirm` when given, else `onClose`; confirm text is the supplied one unless falsy, else the type's default, so it is always truthy; `open` defaults to false; the description block renders exactly when the description is truthy; colours follow `DialogColours` |
| `ConfirmDialog.OmittedTypeIsInfo` | site/src/components/ConfirmDialog/ConfirmDialog.tsx:95 | a dialog with no type renders exactly like one with type `"info"` |
| `ConfirmDialog.ExplicitHideCancelWins` | site/src/components/ConfirmDialog/ConfirmDialog.tsx:101-103 | an explicit `hideCancel` decides cancel visibility whatever the type |

## Left out

- Emotion's `css` template producer, `useTheme` and `useState` are left out. The producer is folded into the configuration functions. The theme is a parameter. The state is the class field `cache`.
- The hook returns styles as values, so it cannot show that an unchanged cache hands back the *same object*. The model shows that the cache is left untouched.
- Numbers are reals, the two infinities and NaN. `-0` is the same value as `0`, which `===` also treats as equal, but a configuration function could tell them apart.
- `for…in` walks keys in the object's property order. The loops here take keys in any order; neither result depends on the order.
- The example hook built at emotion.ts:117-129 is left out. It is a usage sample with `theme.spacing`, which is not modelled.
- Emotion.DidInputsChangeByValue: reads a key missing from the new inputs as `undefined`. The source reads `inputs2[key]`, which for a name that `Object.prototype` defines (`valueOf`, `toString`, `constructor`, `hasOwnProperty`, …) gives the inherited function. So cached `{ valueOf: undefined }` against new `{}` is a change in the source and no change in the model.
- A configuration function that throws is left out. Each `ClassNameFunction` is total. In the source the exception leaves the render, and the cache stays as it was.
- Non-primitive hook inputs are left out. The hook's typing forbids them.
- Network calls, `async`/`await` ordering and retries are not modelled. The requests are returned as values. The answers are parameters.
- An invalidation is only recorded as a key. React Query's refetching is not modelled.
- Parsing `updated_at` with `new Date(…)` is left out. Timestamps are integers, so an unparsable date cannot occur.
- Workspaces.UpdateWorkspaceBuild: requires that the owner/name entry is cached, because the source casts `getQueryData` to `Workspace` without a check.
- `createWorkspace`, `updateDeadline`, `changeVersion`, `updateWorkspace`, `deleteWorkspace`, `stopWorkspace`, `startWorkspace` and `cancelBuild` are left out. They pass requests straight to the API client. Their success handlers are `updateWorkspaceBuild` or a single invalidation, except `updateDeadline`, which has no success handler at all.
- The `["workspaces"]` invalidation after `autoCreateWorkspace` succeeds is left out. It is a prefix invalidation of React Query.
- `ConfirmDialog` markup, `makeStyles`, `theme.spacing` and the `fade` alpha blending of the description colour (floating point) are left out. The static colour constants in `site/src/theme/palettes.ts` are a parameter.
- A React node is modelled only as far as JavaScript truthiness tells nodes apart.
- A falsy number given as the description (`0` or NaN) makes `{description && …}` render the text "0" or "NaN" in place of the description block. The model records only that the block is not rendered.
- Inputs and theme are treated as immutable snapshots. The source keeps the caller's `hookInputs` object and the theme object by reference in the cache (emotion.ts:94-95, 105). If a caller changes that input object or the theme in place and renders again, the source compares the object with itself, sees no change and keeps stale styles, so its cache invariant no longer holds. For the inputs the model stores values, so it recomputes in that case, and `Valid()` always holds. The theme is an opaque identity with no contents, so the model cannot express a change to the theme's contents at all.
