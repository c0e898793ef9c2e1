# make-real `lib` core in Dafny

This is a model of three pieces of the make-real app's `lib` folder. Each is
stated in Dafny and proved against its contract.

- **Preview compositor** (`compositePreviewScreenshots`). The canvas
  screenshot has blank placeholders where the live `preview` shapes are. The
  compositor fills each placeholder with a snapshot of that preview's iframe,
  then draws the non-preview shapes on top as a transparent overlay. The
  result is encoded as a JPEG data URL.
  - The scale is derived from the base image width and the padded selection
    width.
  - Each preview's page rectangle is mapped into pixel space.
  - Captures are failure-isolated: a missing iframe or body, or a snapshot
    that throws, skips only that preview.
  - Three layers are drawn in order onto a canvas the size of the base image:
    the base, then the scaled captures, then the overlay, which is optional.
  - The capture draws are not failure-isolated. A snapshot canvas with zero
    width or height makes `drawImage` throw, and the whole compositor then
    rejects.
  - The output canvas is a class whose state is its size and an ordered log of
    `drawImage` commands.
- **Settings** (`PROVIDERS`, the default `models` table,
  `applySettingsMigrations`).
  - Each provider's key validator is a prefix check.
  - The default table maps each provider to the first model it lists.
  - The migration builds a merged settings record. It then runs a chain of
    `version < n` blocks, each overwriting model ids.
  - `version` is `Option<int>`, with JavaScript's comparison semantics:
    `!version` holds for undefined and for 0, while `undefined < n` is false.
    So an undefined version runs only the first block.
  - The `models` object is a class instance. The record takes the caller's
    object by reference, so the migration also rewrites the caller's `models`.
    The contract states this.
- **Link upload** (`uploadLink`).
  - Arguments are either strings or something else, since a server action
    gets whatever the client sent.
  - Whether `POSTGRES_URL` is set is a boolean parameter.
  - The `links` table is a class holding a sequence of rows.

External calls become inputs:
- Loading the base image is an `Option<Bitmap>`.
- The document's iframes are a map from element id to what the iframe holds
  and what its snapshot yields.
- The overlay render is an outcome datatype.
- The selection bounds are a `Box`.

Files:
- `wrappers.dfy`: `Option` and `Result`.
- `strings.dfy`: `startsWith`.
- `capture_preview.dfy`, `settings.dfy`, `upload_link.dfy`: one module per
  source file.

On these points the model follows the code:
- Captures run one after another, in preview order, not concurrently.
- Layer 2 draws captures in capture-list order.
- The overlay is drawn to the canvas's width and height, whatever the
  overlay's own size.
- A base image with zero width or height encodes as `data:,`. That is what
  `toDataURL` returns for a canvas with no pixels.

## Model

| member | source | states |
|---|---|---|
| CapturePreview.CompositePreviewScreenshots | app/lib/capturePreview.ts:12-100 | No preview in the selection: the result is the given URL, unchanged. Base image fails to load: the failure reaches the caller. A capture whose snapshot canvas has no pixels: the call fails. Otherwise: the canvas encoded as "image/jpeg" at quality 0.85, with the base image's width and height, holding exactly the base draw, one draw per capture of the capture list, and the overlay draw when there is one |
| CapturePreview.Previews | app/lib/capturePreview.ts:23 | Holds exactly the selected shapes of type "preview", and is no longer than the selection |
| CapturePreview.NonPreviews | app/lib/capturePreview.ts:75 | Holds exactly the selected shapes not of type "preview" |
| CapturePreview.PreviewsPartitionSelection | app/lib/capturePreview.ts:75 | The filters of lines 23 and 75 split the selection: their lengths add up to its length, and their multisets add up to its multiset |
| CapturePreview.Scale | app/lib/capturePreview.ts:38 | The pixels per page unit: the base image width divided by the padded selection width. Its properties are stated by ScaleRecoversImageWidth |
| CapturePreview.MapRect | app/lib/capturePreview.ts:52-57 | A preview's page rectangle in pixel space: its offset from the padded selection corner and its size, each times the scale. Its properties are stated by MapRectPreservesOffsets and PaddedSelectionCoversImage |
| CapturePreview.FrameElementId | app/lib/capturePreview.ts:45 | The element id of a preview's iframe: "iframe-1-" followed by the shape id |
| CapturePreview.Attempt | app/lib/capturePreview.ts:44-61 | One capture: no snapshot when the iframe or its body is missing or the snapshot call throws, otherwise the snapshot. Its use in the loop is stated by CapturesFollowSucceededPreviews |
| CapturePreview.ScaleRecoversImageWidth | app/lib/capturePreview.ts:38 | The scale times the padded selection width is the image width. The scale is strictly positive when the image width and the selection width are positive and the padding is non-negative |
| CapturePreview.PaddedSelectionCoversImage | app/lib/capturePreview.ts:38-56 | The padded selection box maps to a rectangle at the pixel origin, exactly as wide as the base image, so the derived scale and the rectangle mapping agree |
| CapturePreview.MapRectPreservesOffsets | app/lib/capturePreview.ts:53-54 | The pixel offset between two mapped shapes is their page offset times the scale |
| CapturePreview.MapRectAtScaleOne | app/lib/capturePreview.ts:52-57 | Bounds (0,0,200,100), padding 10, width 220: the scale is 1, and region (50,20,30,30) maps to (60,30,30,30) |
| CapturePreview.MapRectAtScaleTwo | app/lib/capturePreview.ts:52-57 | The same bounds and padding with width 440: the scale is 2, and the region maps to (120,60,60,60) |
| CapturePreview.CapturePreviewRects | app/lib/capturePreview.ts:43-62 | The capture loop returns the capture list: one entry, in order, per preview whose iframe and body exist and whose snapshot succeeds |
| CapturePreview.SucceededIndices | app/lib/capturePreview.ts:43-62 | The positions of the successful previews: strictly increasing, all in range, and including every preview whose capture succeeds |
| CapturePreview.CapturesFollowSucceededPreviews | app/lib/capturePreview.ts:43-62 | Entry k of the capture list is the successful preview at position k, with its mapped rectangle and its snapshot. So the list is an order-preserving subsequence of the previews, with no duplicates and no failed preview |
| CapturePreview.AllFailedCapturesAreEmpty | app/lib/capturePreview.ts:43-62 | If every capture fails, the capture list is empty, and nothing aborts |
| CapturePreview.DrawCaptures | app/lib/capturePreview.ts:68-72 | The layer-2 loop succeeds exactly when every capture's snapshot canvas has pixels. It then has appended the draws of the capture list to the canvas log |
| CapturePreview.CapturesDrawableIffSnapshotsHavePixels | app/lib/capturePreview.ts:43-72 | The capture draws all succeed exactly when every preview whose capture succeeded yielded a snapshot with pixels. One empty snapshot makes the whole layer fail |
| CapturePreview.OverlayDraws | app/lib/capturePreview.ts:76-93 | The overlay layer: one draw stretched over the whole canvas when there are non-preview shapes and their render loaded, and none after a throw, a missing blob or a failed load. Its properties are stated by CompositeLayerOrder |
| CapturePreview.CaptureDrawsInOrder | app/lib/capturePreview.ts:68-72 | One draw per capture entry, in list order. Each copies the whole snapshot (0,0,srcW,srcH) into the entry's mapped rectangle |
| CapturePreview.CompositeLayerOrder | app/lib/capturePreview.ts:64-92 | The first draw is the base, unscaled, at (0,0). Then come the capture draws in order. Then at most one overlay draw, stretched to (0,0,width,height). The overlay draw is present exactly when non-preview shapes exist and their render was loaded |
| CapturePreview.Canvas.constructor | app/lib/capturePreview.ts:28 | A new canvas is 300 by 150 and blank |
| CapturePreview.Canvas.SetWidth | app/lib/capturePreview.ts:29 | Sets the width, keeps the height, and clears the canvas |
| CapturePreview.Canvas.SetHeight | app/lib/capturePreview.ts:30 | Sets the height, keeps the width, and clears the canvas |
| CapturePreview.Canvas.DrawImage | app/lib/capturePreview.ts:65 | Appends exactly one draw command, and nothing else changes |
| CapturePreview.Canvas.DrawFromCanvas | app/lib/capturePreview.ts:71 | Drawing from a source canvas succeeds exactly when the source has pixels, and then appends exactly one draw command. Otherwise it throws and the log is unchanged |
| Settings.ProviderTableIsWellFormed | app/lib/settings.tsx:4-59 | The table has four providers with distinct ids, each listing at least one model. Only Qwen has a server default. Every provider id has an empty default key |
| Settings.Validate | app/lib/settings.tsx:18-56 | A provider's validator: the key starts with that provider's prefix. Its properties are stated by ValidatorsAcceptTheirPrefix and GoogleKeysAreNotSkKeys |
| Settings.ValidatorsAcceptTheirPrefix | app/lib/settings.tsx:18-56 | The OpenAI, Anthropic and Qwen validators accept exactly the keys starting with "sk-". The Google validator accepts exactly those starting with "AIza" |
| Settings.GoogleKeysAreNotSkKeys | app/lib/settings.tsx:48 | No key passes both the Google validator and the OpenAI one |
| Settings.ModelEntries | app/lib/settings.tsx:63 | Entry i is provider i's id paired with its first model |
| Settings.FromEntries | app/lib/settings.tsx:63 | `Object.fromEntries`: the entries are written in order, so a later entry for a key wins. Its properties are stated by FromEntriesFindsEachEntry |
| Settings.FromEntriesFindsEachEntry | app/lib/settings.tsx:63 | When keys are distinct, `Object.fromEntries` maps each key to its entry's value, and has no other keys |
| Settings.DefaultModels | app/lib/settings.tsx:83 | The default `models` table, built from the provider table. Its properties are stated by DefaultModelsAreFirstListed |
| Settings.DefaultModelsAreFirstListed | app/lib/settings.tsx:63 | The default table maps every provider id to that provider's first listed model, and has only the four provider ids as keys |
| Settings.Falsy | app/lib/settings.tsx:95 | JavaScript's `!version`: true for an undefined version and for 0, false for any other number |
| Settings.Below | app/lib/settings.tsx:95-147 | JavaScript's `version < n`: false for an undefined version, since it compares as NaN. For a number, the usual comparison |
| Settings.UpgradeModels | app/lib/settings.tsx:95-149 | The chain of `version < n` model writes yields `MigratedModels`, the closed form. Undefined version: the three writes of the first block. Version below 11: "gpt-5" and "gemini-3-pro-preview". Below 13: "claude-sonnet-4-6". Below 14: "qwen3.5-plus". Nothing else changes |
| Settings.ApplySettingsMigrations | app/lib/settings.tsx:78-152 | The result's `models` is the caller's own object when there was one. That object now holds the migrated table. Otherwise `models` is a fresh default table, migrated. The stored provider is kept, with "qwen" when there is none. Missing provider keys are filled with "". All prompts are reset to the prompt constant |
| Settings.ResetPromptsAreStable | app/lib/settings.tsx:136-141 | The `version < 12` prompt writes leave the reset prompts as they are |
| Settings.CurrentModelsAreUntouched | app/lib/settings.tsx:95-149 | For a version of at least 14, the `models` table is returned unchanged |
| Settings.MigrationIsIdempotent | app/lib/settings.tsx:76-149 | Migrating a migrated table again at `MIGRATION_VERSION` changes nothing |
| Settings.MigratedModelsByVersion | app/lib/settings.tsx:131-149 | For a numeric version below 11: openai is "gpt-5" and google is "gemini-3-pro-preview". Below 13: anthropic is "claude-sonnet-4-6". Below 14: qwen is "qwen3.5-plus". At or above those bounds, existing entries are kept |
| Settings.UndefinedVersionRunsFirstBlockOnly | app/lib/settings.tsx:95-149 | An undefined version gets only the models the first block writes, and qwen is untouched. So the result differs from that for version 0 |
| Settings.MigrationWritesOnlyProviderModels | app/lib/settings.tsx:95-149 | Entries other than the four provider ids are neither added, removed nor changed, for any version |
| Settings.MergedKeysKeepStoredKeys | app/lib/settings.tsx:84 | Every stored key is kept. A missing provider key becomes "". The key set is the stored keys plus the four provider ids. Merging twice equals merging once |
| Settings.ModelTable.constructor | app/lib/settings.tsx:83 | A new models object holds the given table |
| UploadLink.StripShapePrefix | app/lib/uploadLink.tsx:16 | An id starting with "shape:" loses exactly that one prefix. Any other id is unchanged. The stored id is always a suffix of the input |
| UploadLink.StripShapePrefixOnce | app/lib/uploadLink.tsx:16 | "shape:shape:x" is stored as "shape:x", and "shape:abc" as "abc" |
| UploadLink.StripShapePrefixInvertsPrefixing | app/lib/uploadLink.tsx:16 | Stripping "shape:" + id gives back id |
| UploadLink.LinksTable.Insert | app/lib/uploadLink.tsx:17 | Appends exactly the given row |
| UploadLink.Upload | app/lib/uploadLink.tsx:3-19 | The checks run in order: an id that is not a string starting with "shape:", then html that is not a string, each raises its error with no row written. No database: false, with no row written. The result is true exactly when all checks pass and a database is configured. In that case exactly one row is appended: the prefix-stripped id and the html unchanged |

## Left out

- CapturePreview.Scale: the model requires `bounds.width + 2 * padding` to be non-zero. In JavaScript a zero divisor gives Infinity or NaN, and the draws then carry non-finite coordinates. That path is not modelled.
- CapturePreview.CompositePreviewScreenshots: it carries the same non-zero requirement when there is a preview and the base image loads.
- Browser and library calls are represented by the outcomes they produce:
  - `loadImage` and `blobToDataUrl`;
  - the DOM snapshot library (`snapdom.toCanvas`);
  - the editor's export (`editor.toImage`) and its `getSelectionPageBounds`.
- The selection bounds are always a box. The editor returning no bounds is not modelled.
- Pixels, alpha blending, clipping and JPEG bytes are not modelled. The canvas records draw commands only.
- Geometry uses exact `real` arithmetic. Floating-point rounding is not modelled.
- `async`/`await` scheduling is not modelled. The captures run sequentially in the source, and so they do here.
- The tldraw `atom` holding the initial settings (app/lib/settings.tsx:61-72) is not modelled. Its default `models` expression and its key and prompt constants are.
- The providers' help URLs and their `prompt` fields are not modelled. The prompt constant is a placeholder string that stands for it, and its text is not modelled. Each provider's `hasServerDefault` flag is modelled.
- `canvas.toDataURL` is modelled by `Encode`, which records the canvas's size and its draws. No JPEG encoding is modelled.
- Settings.ApplySettingsMigrations: it takes `version` as an integer or undefined. A non-integer or NaN version is not modelled.
- Settings.ApplySettingsMigrations: stored fields other than `provider`, `models`, `keys` and `prompts` are not modelled. The source copies them through.
- Settings.ApplySettingsMigrations: it runs the prompt block (`version < 12`) after the model blocks rather than between them. That block only writes the record's own fresh `prompts` object, so nothing can tell the difference.
- Settings.ApplySettingsMigrations: the model writes are collected in one table value and stored into the shared `models` object once. Nothing runs between those writes, so no reader sees an intermediate state.
- UploadLink.Upload: the Postgres connection, `process.env` and the dynamic import are not modelled. Neither is a failing insert, which would throw in the source. The table is a sequence of rows.
