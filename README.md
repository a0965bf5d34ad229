# QuillDock core, modelled in Dafny

QuillDock is a browser extension that captures screenshots: the visible tab, a dragged selection, or a full page stitched from scrolled tiles. It keeps the captures in an IndexedDB store. A review page then arranges them in one EditorJS workspace document, with notes and captions, and exports them through print templates. This project models the logic of that pipeline and proves what it promises:

- **Background worker** (`background.js`): the scroll positions along an axis, the canvas-size guard, the tile loop of full-page stitching and its clip rectangles, the selection crop, tab validation, and the try/finally sequencing of `captureFullPage` and `withExtensionUiHidden`. Modules `Geometry`, `Raster` and `Background`.
- **Content script** (`content_script.js`): the area-selection task (rectangle normalisation, the 8-pixel minimum, the single-shot `finish`), the handler that cancels an earlier selection when a new one starts, the hide/restore flags of the sidebar, the rule for which capture stays selected, and the annotation shape list. Modules `AreaSelection` and `Sidebar`.
- **Capture store** (`db.js`): a class over a map from id to record, with create, get, sorted listing, update by merge, delete, clear and reorder. Module `Db`.
- **Review workspace** (`src/review/App.jsx`, `review.js`): drag and up/down reordering, hidden-id normalisation, attached captures, the export order, the `[capture-id:…]` caption marker, syncing the document with the capture list, extracting the overview and the per-capture notes, HTML escaping and `{{KEY}}` substitution. Modules `ListOps`, `Ordering`, `Workspace`, `CaptureMarker`, `WorkspaceSync`, `WorkspaceNotes`, `Html` and `TemplateTokens`.
- **Editor data** (`src/review/editorjs-utils.js`, `src/review/templates.js`, `src/review/EditorJsField.jsx`): text to paragraph blocks and back, nested-list flattening, template ids and capture-type labels, the image tool's marker parsing, its data normalisation and its save/validate. Modules `Json`, `Text`, `EditorData`, `Templates` and `ImageBlock`.

JavaScript's dynamic values are the `Json.Value` datatype, with the language's truthiness and the property lookup and spread of objects. The index properties of strings and arrays are not modelled (see "## Left out"). `devicePixelRatio` is a `real`, and `Math.round(v)` is `Floor(v + 0.5)`.

Everything outside the program is a parameter:

- The browser calls (`tabs.get`, `captureVisibleTab`, `scripting.executeScript`, `tabs.sendMessage`) are methods of a scripted `Background.Host`. Its `failing` map says which call fails, and with which message. Its `render` function gives the page's pixels. It keeps a log of the calls made.
- The data-URL codec is the host's `encode` function.
- The clock (`Date.now`) and `crypto.randomUUID` are arguments of the store's methods.
- `JSON.parse` is the `parse` argument of `NormalizeEditorData`, where `None` means it throws.
- `formatDateTime` is the `dateText` argument of the workspace sync.
- EditorJS's `blocks.delete` outcome is the `deleted` argument of the image tool's remove handler.

## Model

| member | source | states |
|---|---|---|
| AreaSelection.NormalizeRect | content_script.js:1610-1623 | the rectangle has non-negative sides and the two drag points at opposite corners; its ratio is `devicePixelRatio`, or 1 when the window reports none |
| AreaSelection.NormalizeRectSymmetric | content_script.js:1610-1623 | dragging from either corner selects the same rectangle |
| AreaSelection.NormalizeRectContains | content_script.js:1610-1623 | both drag points lie inside the selected rectangle |
| AreaSelection.ReleaseReply | content_script.js:1689-1704 | releasing cancels with "Selection is too small." exactly when the width or the height is below 8 CSS pixels, and otherwise answers the normalized rectangle |
| AreaSelection.AcceptedSelectionCrops | content_script.js:1697-1703 | every rectangle the overlay accepts passes the background's crop-size check |
| AreaSelection.CancelReply | content_script.js:1657-1663 | a cancellation carrying the given message, or "Selection canceled." when the message is empty |
| AreaSelection.SelectionTask.constructor | content_script.js:1560-1603 | a fresh task has no drag, is not done, has its overlay attached and no result yet |
| AreaSelection.SelectionTask.Finish | content_script.js:1647-1655 | the first call detaches the overlay and settles with the result; later calls change nothing |
| AreaSelection.SelectionTask.CancelWithMessage | content_script.js:1657-1663 | finishes with the cancellation for the message |
| AreaSelection.SelectionTask.Cancel | content_script.js:1718-1721 | finishes with "Selection restarted." |
| AreaSelection.SelectionTask.KeyDown | content_script.js:1665-1670 | Escape cancels with "Selection canceled."; other keys, or a finished task, change nothing |
| AreaSelection.SelectionTask.PointerDown | content_script.js:1672-1677 | the drag starts (or restarts) at the pressed point |
| AreaSelection.SelectionTask.PointerMove | content_script.js:1679-1687 | the drag's latest point moves; before any press nothing changes |
| AreaSelection.SelectionTask.PointerUp | content_script.js:1689-1704 | before any press nothing changes; otherwise the release point becomes the latest point and the task finishes with `ReleaseReply` of the drag at the ratio the window reports at release (also content_script.js:1611-1622) |
| AreaSelection.SelectionTask.PointerCancel | content_script.js:1706-1709 | finishes with "Selection canceled." |
| AreaSelection.Settle | content_script.js:1647-1655 | the finished task loses its overlay, the others keep theirs, and its `.finally` is queued |
| AreaSelection.Start | content_script.js:82-88 | the previous active task loses its overlay and a new open task becomes active |
| AreaSelection.RunFinallyAsWritten | content_script.js:98-100 | the queued `.finally` runs and clears the active task, whichever task it holds |
| AreaSelection.RunFinally | content_script.js:98-100 | the queued `.finally` clears the active task only while it still holds the task that finished |
| AreaSelection.StepAsWritten | content_script.js:77-103 | one request, finish or microtask turn of the handler as written keeps the state well formed |
| AreaSelection.Step | content_script.js:77-103 | the same step with the guarded `.finally` keeps the state well formed |
| AreaSelection.RunAsWritten | content_script.js:77-103 | any sequence of steps as written keeps the state well formed |
| AreaSelection.Run | content_script.js:77-103 | any sequence of guarded steps keeps the state well formed |
| AreaSelection.AsWrittenLeavesTwoOverlays | content_script.js:82-100 | request, request, `.finally`, request as written leaves two overlays on the page |
| AreaSelection.StartClosesEarlier | content_script.js:82-88 | after a request no earlier task still has an overlay |
| AreaSelection.StepKeepsSingleOverlay | content_script.js:77-103 | with the guarded `.finally`, only the active task can have an overlay after any step |
| AreaSelection.RunKeepsSingleOverlay | content_script.js:77-103 | with the guarded `.finally`, no sequence of steps ever leaves two overlays |
| AreaSelection.SelectionHandler.constructor | content_script.js:15 | the handler starts with no task |
| AreaSelection.SelectionHandler.StartAreaSelection | content_script.js:82-103 | a request is a `Step` on `Request`; the new task is the only open one |
| AreaSelection.SelectionHandler.TaskFinished | content_script.js:90-97 | a task finishing is a `Step` on `Finished` |
| AreaSelection.SelectionHandler.RunPendingFinally | content_script.js:98-100 | a microtask turn is a `Step` on `Microtask` |
| Background.Host.SendMessage | background.js:125 | `chrome.tabs.sendMessage` is logged, leaves the scroll alone, and fails with its scripted error or answers the page's selection reply |
| Background.Host.GetTab | background.js:203 | `chrome.tabs.get` is logged and answers the tab, no tab for an unknown id, or its scripted error |
| Background.Host.ExecuteScript | background.js:374-396 | `chrome.scripting.executeScript` is logged, answers the page metrics at the scroll offset before the call, and a successful `scrollTo` moves the scroll offset |
| Background.Host.CaptureVisibleTab | background.js:232-240 | `chrome.tabs.captureVisibleTab` is logged and answers the viewport frame at the current scroll offset, or its scripted error |
| Background.CheckTabId | background.js:199-201 | the tab id is accepted exactly when it is a non-zero number, otherwise "No active tab detected." |
| Background.CheckTab | background.js:204-212 | a tab is accepted exactly when it exists, has a url and the url is not a browser page; the two rejections carry their own messages |
| Background.RestrictedPagesRejected | background.js:208-210 | every `chrome://`, `edge://` and `about:` url is rejected with "Chrome internal pages cannot be captured." |
| Background.GetValidTab | background.js:198-213 | `chrome.tabs.get` is called only for a usable tab id, and the outcome is `ValidTab` of the id, the call's failure and the browser's tabs |
| Background.Save | background.js:135-140 | `Saved`: a fresh id stores the record built from the tab (title defaulting to "Untitled Page", empty note) and answers with it; a taken id fails with the store's constraint error and stores nothing |
| Background.CaptureVisibleData | background.js:232-240 | one capture call; any failure becomes "Failed to capture screenshot. Make sure this tab is a standard webpage." |
| Background.CaptureVisible | background.js:131-143 | `VisibleCaptured`: the tab check's error, then "Failed to capture screenshot. Make sure this tab is a standard webpage." when the capture call fails, otherwise the viewport at the current scroll offset saved as a "visible" capture; no UI message and no scroll |
| Background.RequestAreaSelection | background.js:215-230 | the calls are `AreaCalls` and the answer `AreaReply`: the request is sent once, only a "Receiving end does not exist" failure injects the content script and asks again, any other failure becomes "Unable to start area selection on this page.", and a failed injection or second request answers its own error; nothing scrolls or captures |
| Background.CaptureSelection | background.js:145-168 | `SelectionCaptured`: the tab check's error, the request's error, a cancellation with `selection?.error` or "Area selection was canceled." when no area was selected, otherwise the stored end of the capture; nothing is stored on any failure |
| Background.StoreSelection | background.js:157-167 | `SelectionStored`: the capture's fixed message when the capture call fails, the crop's error when the selection is too small, otherwise the frame cropped to the selection saved as a "selection" capture |
| Background.SelectionShowsSelectedArea | background.js:335-359 | for a selection inside the viewport the stored crop has the selected size and shows, pixel for pixel, the page under the selection |
| Background.RowTraceStep | background.js:297-302 | each tile of a row adds a scroll call and a capture call to the trace |
| Background.RowTracePrefix | background.js:297-302 | the calls for the first tiles of a row are a prefix of the row's calls |
| Background.GridTraceStep | background.js:296-329 | each row adds its row trace to the grid trace |
| Background.GridTracePrefix | background.js:296-329 | the calls for the first rows are a prefix of the grid's calls |
| Background.PartialRowPrefix | background.js:296-329 | finished rows followed by part of the next row are a prefix of the grid's calls |
| Background.FailedRowAppended | background.js:296-329 | a row that fails part way leaves the calls made so far a prefix of the grid's calls |
| Background.RowsKept | background.js:313-323 | drawing that keeps every correct pixel keeps earlier rows painted |
| Background.RowAdded | background.js:296-329 | a fully painted row on a canvas whose first `i` rows are painted leaves `i + 1` rows painted, on a canvas of the same size |
| Background.CaptureTile | background.js:298-323 | scroll, then capture; a failed scroll stops before the capture; a captured frame is drawn at the tile's device position with the tile's clipped size |
| Background.TileDrawn | background.js:313-323 | drawing the next tile keeps every correct pixel and paints that tile too |
| Background.TileFailed | background.js:297-302 | a tile that fails after the tiles before it leaves a proper prefix of the row's calls |
| Background.StitchRow | background.js:297-328 | the calls made are a prefix of the row's scroll/capture calls; on success all of them, none failed, and every tile of the row is painted; on failure the last call is the first one that failed and the error is its own (a failed capture gives the fixed capture message) |
| Background.StitchPageGrid | background.js:286-333 | the calls made are a prefix of the grid's calls; on success they are all of them, none failed, and the canvas has the page's device size with every tile painted; on failure the last call is the first one that failed, with its error |
| Background.StitchNextRow | background.js:296-329 | one more row of the grid: on success the trace and the painted rows grow by that row with no failing call; on failure the calls are still a prefix of the grid's calls and stop at the first failing one, with its error |
| Background.RowTraceNoMessage | background.js:297-302 | the row's calls never include a message to the page |
| Background.GridTraceNoMessage | background.js:296-329 | the grid's calls never include a message to the page |
| Background.StitchAndRestore | background.js:176-186 | the tile calls (a prefix of the grid's calls) are always followed by the scroll back to the original offset, which restores it unless that call fails; the loop's error is that of its first failing call, and on success no tile call failed |
| Background.BeginFullPage | background.js:171-174 | it goes on exactly when the tab is valid, the metrics are read and the canvas is within limits; otherwise its error is `BeginError`, the first of the tab check's, the metrics script's and the bounds check's; nothing scrolls or captures before that |
| Background.FullPageLog | background.js:170-196 | the full-page log splits into the calls before the tiles, the tile calls and the final scroll back, none of them a UI message |
| Background.CaptureFullPage | background.js:170-196 | `FullPageCaptured`: a capture that fails its checks answers `BeginError`, stores nothing and never scrolls; once in the loop, the original scroll offset is requested back by the last call; with no failing tile call the stitched canvas (the page itself at a whole-number ratio) is saved as a "fullpage" capture, otherwise the first failing tile call's error is answered and nothing is stored |
| Background.StitchAndSave | background.js:179-195 | past the checks: the tile loop and its restore scroll, then the save once the loop finished (`StitchedCaptured`) |
| Background.SaveStitched | background.js:188-195 | a finished tile loop's canvas, the page itself at a whole-number ratio, saved as a "fullpage" capture |
| Background.FullPageDone | background.js:170-196 | a stored full-page capture passed the checks, made every tile call of the grid, and added exactly the record of the stitched canvas |
| Background.FullPageUnsaved | background.js:170-196 | a full-page capture that is not stored leaves the records as they were |
| Background.TilesFailedCaptured | background.js:180-186 | a tile loop that stopped at a failing call answers that call's error and stores nothing |
| Background.TilesDoneCaptured | background.js:180-195 | a tile loop that made every call without failure saves the stitched image |
| Background.SendTabMessageSafe | background.js:119-129 | nothing is sent without a tab id; a failed delivery is ignored |
| Background.WithExtensionUiHidden | background.js:109-117 | with a tab id, the capture's calls come after the hide message and before the restore message, which is sent even when the capture fails; the outcome is that of the capture of the requested kind started right after the hide message (`VisibleCaptured`, `SelectionCaptured` or `FullPageCaptured`) |
| Db.Normalize | db.js:31-44 | a normalized record keeps id, order and both times, turns a missing note into "" and a falsy `noteBlocks` into `null` |
| Db.Denormalize | db.js:171-175 | writing a handed-out record back keeps its id, and normalizing it gives the same record exactly when its `noteBlocks` is `null` whenever falsy |
| Db.Merge | db.js:121-125 | each property of the merged record is the update's when the update carries it and the current record's otherwise, and the update time is always the new one; an empty update changes only the update time |
| Db.InsertByOrder | db.js:98 | inserting into a listing adds exactly that record |
| Db.InsertByOrderSorted | db.js:98 | inserting into a listing sorted by (order, createdAt) keeps it sorted |
| Db.SortForListing | db.js:96-98 | the listing is a permutation of the scanned records sorted by order, ties by creation time |
| Db.ListsPermutation | db.js:96-98 | any permutation of a complete duplicate-free listing of the store is again one |
| Db.CaptureStore.constructor | db.js:7-29 | a freshly opened store is empty |
| Db.CaptureStore.Create | db.js:46-70 | a new id stores a record whose creation time, update time and order are all `now`, with no blocks, and answers it normalized; an existing id is refused with the constraint error and changes nothing |
| Db.CaptureStore.Get | db.js:72-85 | the normalized record for a stored id, `null` for any other id |
| Db.CaptureStore.ScanAll | db.js:93 | `getAll` yields every stored record exactly once, normalized |
| Db.CaptureStore.GetAll | db.js:87-103 | every stored record exactly once, normalized, sorted by order and then creation time |
| Db.CaptureStore.UpdateAsWritten | db.js:105-132 | as written: an unknown id fails with "Capture with id … not found." and changes nothing; otherwise the merged record is put under the id it carries |
| Db.CaptureStore.Update | db.js:105-132 | an unknown id fails and changes nothing; otherwise that record alone is replaced by the merge under its own key and answered normalized |
| Db.CaptureStore.Delete | db.js:134-145 | that id is gone and every other record is untouched, whether or not the id was stored |
| Db.CaptureStore.Clear | db.js:147-158 | the store is empty |
| Db.CaptureStore.Reorder | db.js:160-192 | the store after the puts of every stored, listed id with its new order and update time, in the listed order |
| Db.CaptureStore.PutReordered | db.js:179-191 | the puts of the reorder, one per listed id present in the index, leave exactly the reordered store |
| Db.IndexById | db.js:162 | the index has exactly the stored ids, each mapped to its normalized record |
| Db.Reordered | db.js:164-187 | a reorder neither adds nor removes keys |
| Db.ReorderedStep | db.js:164-187 | each listed id that is stored is put once with `order = now + index`; an id that is not stored is skipped |
| Db.ReorderedAt | db.js:164-187 | after a reorder a stored listed id holds the order and time of its position and every other record is unchanged |
| Db.ReorderRanksListedIds | db.js:164-187 | with a clock that never runs backwards, stored listed ids get strictly increasing orders in the listed order |
| Db.ListingRespectsOrder | db.js:96-98 | in a listing a record with a smaller order comes first |
| Db.ReorderThenList | db.js:87-103 | listing after a reorder shows the stored listed ids in the order they were given (also db.js:160-192) |
| Db.UpdateTouchesOnlyItsRecord | db.js:105-132 | the corrected update keeps every key, keeps each record under its own id, changes only that record and sets its update time |
| Db.UpdateAsWrittenDuplicates | db.js:121-127 | as written, an update carrying `id: "b"` for record "a" leaves "a" unchanged and adds a second record "b" |
| Json.Update | src/review/editorjs-utils.js:3-8 | setting a property by spread gives that key the new value and leaves every other key as it was |
| Json.Put | src/review/editorjs-utils.js:3-8 | `{ ...v, key: val }` is an object whose `key` is `val` and whose other keys read as in `v` |
| Json.TextOr | src/review/editorjs-utils.js:132 | `String(v \|\| "")` of a string is that string and of a falsy value the empty string |
| EditorData.Block | src/review/editorjs-utils.js:36-41 | a block is an object carrying the given `type` and `data` |
| EditorData.FirstBreak | src/review/editorjs-utils.js:33 | the first run of two or more newlines at or after a position, with none before it |
| EditorData.RunEnd | src/review/editorjs-utils.js:33 | the end of a run of newlines: every character up to it is a newline and the next is not |
| EditorData.SplitOnBlankLines | src/review/editorjs-utils.js:33 | `split(/\n{2,}/)` yields at least one piece and no piece holds a blank-line break |
| EditorData.SplitWithoutBreak | src/review/editorjs-utils.js:33 | text with no blank-line break splits into itself alone |
| EditorData.SplitAtBreak | src/review/editorjs-utils.js:33 | a whole run of two or more newlines between two pieces splits exactly there, the run being dropped |
| EditorData.NonEmptyTrimmed | src/review/editorjs-utils.js:34-35 | trimming and dropping empty pieces leaves only non-empty trimmed paragraphs, never more than there were pieces |
| EditorData.TextToEditorData | src/review/editorjs-utils.js:26-44 | blank text gives `{ blocks: [] }`; otherwise one paragraph block per non-blank paragraph, in order, holding that paragraph HTML-escaped |
| EditorData.ParagraphBlocks | src/review/editorjs-utils.js:36-41 | one paragraph block per paragraph, each holding the escaped paragraph in an object `data` |
| EditorData.FirstPartNotBlank | src/review/editorjs-utils.js:27-35 | trimmed non-empty text always yields a non-blank first paragraph |
| EditorData.TextToEditorDataBlank | src/review/editorjs-utils.js:26-44 | the text gives no blocks exactly when it is all whitespace |
| EditorData.NormalizeBlock | src/review/editorjs-utils.js:5-8 | a copied block keeps every property but `data`, which becomes an object and is kept when it already was one |
| EditorData.NormalizeDocument | src/review/editorjs-utils.js:2-10 | the copied document keeps every property but `blocks`, and its blocks are the copies of the original blocks, in order |
| EditorData.NormalizeEditorData | src/review/editorjs-utils.js:1-24 | a document is copied; non-empty text that fails to parse becomes paragraphs of itself; anything else becomes paragraphs of the fallback; the result is always a document whose blocks have object `data` |
| EditorData.NormalizeKeepsBlockTypes | src/review/editorjs-utils.js:2-10 | normalizing a document keeps its number of blocks and each block's type |
| EditorData.NormalizeIdempotent | src/review/editorjs-utils.js:1-24 | normalizing a normalized document gives it back unchanged |
| EditorData.NormalizeBlockTwice | src/review/editorjs-utils.js:5-8 | copying a block whose `data` is already an object changes nothing |
| EditorData.Kept | src/review/editorjs-utils.js:104-107 | a string item contributes its stripped text, and nothing exactly when that text is empty |
| EditorData.KeptClean | src/review/editorjs-utils.js:104-107 | what a string item contributes is non-empty, trimmed and tag-free |
| EditorData.FlattenItem | src/review/editorjs-utils.js:102-125 | a string item contributes its stripped text; a value that is neither a string nor an object contributes nothing |
| EditorData.FlattenItemClean | src/review/editorjs-utils.js:102-125 | every line a nested list item contributes is non-empty, trimmed and tag-free |
| EditorData.FlattenFromClean | src/review/editorjs-utils.js:122-124 | every line the children of an item contribute is non-empty, trimmed and tag-free |
| EditorData.FlattenFromSuffix | src/review/editorjs-utils.js:122-124 | what the remaining children contribute depends only on those children |
| EditorData.FlattenFromConcat | src/review/editorjs-utils.js:122-124 | walking a list that is two lists back to back gives the first list's lines then the second's |
| EditorData.FlattenItemsConcat | src/review/editorjs-utils.js:127 | flattening two item lists back to back gives the first's lines then the second's |
| EditorData.FlattenNodePreOrder | src/review/editorjs-utils.js:115-124 | an item with `content` and nested `items` contributes its own text first, then its children's, depth first |
| EditorData.Walk | src/review/editorjs-utils.js:102-125 | `walk(value)` appends exactly the item's flattened lines to what was already pushed |
| EditorData.WalkObject | src/review/editorjs-utils.js:115-124 | the object case of `walk` appends the item's own text and then its children's lines |
| EditorData.WalkAll | src/review/editorjs-utils.js:123 | walking every child in turn appends the children's flattened lines |
| EditorData.FlattenListItems | src/review/editorjs-utils.js:99-129 | the output is the depth-first, pre-order list of every non-empty stripped text in the items |
| EditorData.ChecklistTextsClean | src/review/editorjs-utils.js:78-80 | every kept checklist line is non-empty, trimmed and tag-free |
| EditorData.ListTextsClean | src/review/editorjs-utils.js:73 | every flattened list line is non-empty, trimmed and tag-free |
| EditorData.CheckTextsClean | src/review/editorjs-utils.js:77-80 | every checklist line, whatever `items` holds, is non-empty, trimmed and tag-free |
| EditorData.JoinClean | src/review/editorjs-utils.js:73-81 | lines that are all non-empty and trimmed join into trimmed text |
| EditorData.TextOfData | src/review/editorjs-utils.js:69 | the text of a paragraph, header or quote is trimmed, tag-free and single-spaced |
| EditorData.ListText | src/review/editorjs-utils.js:72-74 | the text of a list block is trimmed |
| EditorData.ChecklistText | src/review/editorjs-utils.js:76-82 | the text of a checklist block is trimmed |
| EditorData.GetBlockPlainText | src/review/editorjs-utils.js:60-97 | a non-object gives ""; a delimiter gives "---"; a paragraph, header or quote gives tag-free single-spaced text; every block's text is trimmed |
| EditorData.BlockTexts | src/review/editorjs-utils.js:50-51 | one trimmed text per block, in order |
| EditorData.BlockTextsConcat | src/review/editorjs-utils.js:50-51 | the texts of two block lists back to back are the first's texts then the second's |
| EditorData.LinesOfTrimmed | src/review/editorjs-utils.js:52-54 | every line kept from trimmed texts is non-empty and trimmed |
| EditorData.LinesOfStep | src/review/editorjs-utils.js:50-55 | one more block adds its text as a line exactly when the text is non-empty |
| EditorData.LinesOfConcat | src/review/editorjs-utils.js:50-55 | the lines of two text lists back to back are the first's lines then the second's |
| EditorData.LinesOfSkipsEmpty | src/review/editorjs-utils.js:52 | an empty text adds no line |
| EditorData.PlainTextIsJoin | src/review/editorjs-utils.js:46-58 | the plain text is the non-empty trimmed block texts joined by a blank line, the final trim changing nothing |
| EditorData.PlainTextSkipsBlank | src/review/editorjs-utils.js:52-54 | a block with no text changes nothing in the plain text |
| EditorData.EditorDataToPlainText | src/review/editorjs-utils.js:46-58 | the plain text of the blocks of the normalized data, with an empty fallback |
| EditorData.BlocksPlainText | src/review/editorjs-utils.js:48-57 | the loop over the blocks computes the plain text of those blocks |
| EditorData.PushLine | src/review/editorjs-utils.js:52-54 | a line is pushed exactly when the block's text is non-empty |
| Geometry.RoundNearest | background.js:274-275 | `Math.round` gives the integer within half a unit of the value |
| Geometry.RoundMonotone | background.js:274-275 | `Math.round` never decreases when its argument grows |
| Geometry.DeviceSum | background.js:304-311 | rounding an offset and a size separately loses at most one device pixel against rounding their sum |
| Geometry.DeviceWhole | background.js:307-311 | with a whole-number device pixel ratio the device size is the exact product |
| Geometry.Clamp | background.js:418-420 | `Math.min(Math.max(v, lo), hi)`: never above `hi`, the value itself inside the range, `lo` below it, `hi` above it |
| Geometry.Multiples | background.js:367 | the loop's values `0, viewport, 2 * viewport, …`, one per step |
| Geometry.Pushed | background.js:366-369 | the positions pushed by the loop, one per step |
| Geometry.LadderSplit | background.js:367-368 | a step is pushed unclamped exactly when it lies before the last full viewport |
| Geometry.PushedBelow | background.js:368 | a value above every pushed position so far is a new position |
| Geometry.DedupPushedBelow | background.js:366-371 | while no clamp is reached, the pushed positions are distinct multiples of the viewport |
| Geometry.DedupPushedTop | background.js:366-371 | the step that first reaches the clamp completes the offsets, ending at `total - viewport` |
| Geometry.DedupPushedAbove | background.js:366-371 | every later clamped step repeats the last offset and is dropped by the de-duplication |
| Geometry.DedupPushed | background.js:366-371 | the de-duplicated positions after any number of steps are duplicate-free |
| Geometry.BuildPositions | background.js:361-372 | the loop with `new Set` computes the axis offsets: `[0]` for a page that fits, otherwise the distinct clamped viewport steps in order |
| Geometry.LadderShape | background.js:361-372 | for a page longer than the viewport the offsets start at 0, end at `total - viewport`, stay in range, rise strictly, and neighbours are at most one viewport apart |
| Geometry.AxisPositionsStrictlyIncreasing | background.js:361-372 | the offsets never repeat and strictly rise |
| Geometry.CoveringOffset | background.js:361-372 | every CSS pixel of the page lies inside the viewport window of some offset |
| Geometry.PositionsExample | background.js:361-372 | a 1000-pixel page with a 400-pixel viewport is captured at 0, 400 and 600 |
| Geometry.MeasurePage | background.js:247-259 | the page size is the largest of the document's scroll size, the client size, the window size and, when there is a body, the body's scroll size: at least each of them and equal to one of them |
| Geometry.ValidateCanvasBounds | background.js:273-284 | "too large" exactly when an edge exceeds 32000 device pixels; "memory" exactly when both edges fit but the area exceeds 268000000 |
| Geometry.ValidatedCanvasFits | background.js:273-294 | a validated page's canvas has edges between 1 and 32000 and at most 268000000 pixels |
| Geometry.TileSpan | background.js:307-311 | a tile always spans at least one device pixel |
| Geometry.TileWithinPage | background.js:304-305 | each tile's CSS clip ends at or before the page edge and is one whole viewport when the page is longer |
| Geometry.TileSpanNearCanvas | background.js:304-311 | a tile starts on the canvas and ends at most one device pixel past it |
| Geometry.TileSpanInsideCanvas | background.js:304-311 | with a whole-number ratio a tile lands at `offset * k`, spans `size * k` and stays on the canvas |
| Geometry.CoveringTile | background.js:296-323 | with a whole-number ratio every canvas pixel of an axis is covered by some tile |
| Geometry.CoveringTileAt | background.js:304-311 | the tile whose CSS window holds a page pixel also covers that pixel's device pixels |
| Geometry.SpanCovers | background.js:307-311 | a device pixel of a CSS pixel inside a tile falls inside that tile's device span |
| Geometry.CropAxis | background.js:343-346 | with a bitmap of at least one pixel the clamped start and size stay inside the bitmap, the size at least 1 |
| Geometry.CropAxisExact | background.js:343-346 | a start and size already inside the bitmap are left as they are |
| Geometry.CropRect | background.js:335-346 | "Selection area is too small." exactly when there are no bounds or either side is under 4 CSS pixels; otherwise a rectangle inside the bitmap |
| Geometry.CropRectExact | background.js:335-346 | a selection whose device rectangle lies inside the bitmap is cropped to exactly that rectangle |
| Raster.Fill | background.js:291-294 | the white canvas has the given size and every pixel white |
| Raster.Blit | background.js:313-323 | `drawImage` keeps the canvas size, copies the source into the destination rectangle and leaves other pixels alone |
| Raster.Crop | background.js:348-351 | the cropped bitmap has the rectangle's size and shows the source pixels of that rectangle |
| Raster.Frame | background.js:232-240 | a captured frame is the viewport's device size and shows the page at the scroll offset |
| Raster.PageImage | background.js:286-333 | the page image at device size, pixel for pixel |
| Raster.DrawTilePaints | background.js:313-323 | drawing a tile copies the page's pixel into exactly the pixels the tile covers and keeps all others |
| Raster.DrawTileStep | background.js:313-323 | drawing a tile keeps every correct pixel and makes the tile's pixels correct |
| Raster.PaintedKept | background.js:296-329 | a painted tile stays painted under drawing that keeps correct pixels |
| Raster.AxisCoversWhole | background.js:304-323 | with a whole-number ratio, a pixel inside a tile's span is inside the captured frame's clip as well |
| Raster.StitchedIsPage | background.js:286-333 | with a whole-number ratio, a canvas on which every tile of the grid is drawn is exactly the page image |
| Text.TrimStart | src/review/editorjs-utils.js:27 | the trimmed-start text is what remains after a wholly white prefix, and starts with a non-white character when non-empty |
| Text.TrimStartSuffix | src/review/editorjs-utils.js:27 | the trimmed-start text is a suffix of the input |
| Text.TrimStartShorter | src/review/editorjs-utils.js:27 | text starting with white space gets strictly shorter |
| Text.TrimEnd | src/review/editorjs-utils.js:27 | the trimmed-end text is what remains before a wholly white suffix, and ends with a non-white character when non-empty |
| Text.TrimEndPrefix | src/review/editorjs-utils.js:27 | the trimmed-end text is a prefix of the input |
| Text.Trim | src/review/editorjs-utils.js:27 | `trim()` gives a slice of the input, with only white space cut on either side, that neither starts nor ends with white space |
| Text.TrimEmptyIffBlank | src/review/editorjs-utils.js:27-28 | trimming gives "" exactly when the text is all white space |
| Text.TrimOfTrimmed | src/review/editorjs-utils.js:57 | trimming text that is already trimmed changes nothing |
| Text.JoinTrimmed | src/review/editorjs-utils.js:57 | non-empty trimmed pieces join into trimmed text, empty exactly when there are no pieces |
| Html.ReplaceAllConcat | src/review/editorjs-utils.js:144-149 | replacing one character in two texts back to back is replacing it in each |
| Html.ReplaceAllAbsent | src/review/editorjs-utils.js:144-149 | replacing a character that does not occur changes nothing |
| Html.EscapeHtmlConcat | src/review/editorjs-utils.js:143-150 | escaping two texts back to back is escaping each |
| Html.EscapeHtmlChar | src/review/editorjs-utils.js:143-150 | one character escapes to its entity for `& < > " '` and to itself otherwise, `&` being replaced first so no entity is escaped twice |
| Html.EscapeHtmlIsPerCharacter | src/review/editorjs-utils.js:143-150 | the five chained `replaceAll` calls escape each character independently |
| Html.EscapeEachNoRawMarkup | src/review/editorjs-utils.js:143-150 | per-character escaping leaves no `<`, `>`, `"` or `'` |
| Html.EscapeEachAmpsBeginEntities | src/review/editorjs-utils.js:143-150 | every `&` of the per-character escaping begins one of the five entities |
| Html.EscapeHtmlNoRawMarkup | src/review/editorjs-utils.js:143-150 | escaped text holds no `<`, `>`, `"` or `'`, and every `&` begins an entity |
| Html.UnescapeChar | src/review/editorjs-utils.js:143-150 | decoding an escaped character gives that character back |
| Html.UnescapeEscapeEach | src/review/editorjs-utils.js:143-150 | decoding per-character escaped text gives the text back |
| Html.EscapeHtmlRoundTrip | src/review/editorjs-utils.js:143-150 | decoding the five entities undoes `escapeHtml` for every text |
| Html.IndexOfFrom | src/review/editorjs-utils.js:140 | the first occurrence of a character at or after a position, the end when there is none |
| Html.TagInSlice | src/review/editorjs-utils.js:140 | a tag inside a slice is a tag of the whole text |
| Html.NoTagSlice | src/review/editorjs-utils.js:140 | a slice of tag-free text is tag-free |
| Html.TagAfterCons | src/review/editorjs-utils.js:140 | a tag after a first character is a tag of the rest |
| Html.SingleSpacedSlice | src/review/editorjs-utils.js:140 | a slice of single-spaced text is single-spaced |
| Html.RemoveTagsKeepsNoNewChars | src/review/editorjs-utils.js:140 | removing `<[^>]+>` only deletes characters |
| Html.RemoveTagsNoTag | src/review/editorjs-utils.js:140 | after removing `<[^>]+>` no tag is left |
| Html.CollapseHead | src/review/editorjs-utils.js:140 | collapsing white space keeps a non-white first character |
| Html.CollapseKeepsNoNewChars | src/review/editorjs-utils.js:140 | collapsing white space adds no non-white character |
| Html.CollapseSingleSpaced | src/review/editorjs-utils.js:140 | after `replace(/\s+/g, " ")` no two white characters are adjacent and every white character is a space |
| Html.NoTagSuffix | src/review/editorjs-utils.js:140 | a suffix of tag-free text is tag-free |
| Html.CollapseNoTagWhitespaceStep | src/review/editorjs-utils.js:140 | a white run collapsed at the front keeps the text tag-free |
| Html.CollapseCons | src/review/editorjs-utils.js:140 | a non-white first character is kept and the rest is collapsed |
| Html.TagAtFrontOfCons | src/review/editorjs-utils.js:140 | a tag at the front is `<`, a character that is not `>`, and later a `>` |
| Html.CollapseNoTagAtFront | src/review/editorjs-utils.js:140 | collapsing cannot create a tag at the front |
| Html.CollapseNoTagCharStep | src/review/editorjs-utils.js:140 | a non-white character in front of tag-free collapsed text keeps it tag-free |
| Html.CollapseNoTag | src/review/editorjs-utils.js:140 | collapsing white space in tag-free text leaves it tag-free |
| Html.StripHtmlClean | src/review/editorjs-utils.js:131-141 | the stripped text holds no tag, no run of white space and no leading or trailing white space |
| CaptureMarker.FirstMatch | src/review/App.jsx:32 | the first position at or after `from` where `/\[capture-id:([^\]]+)\]/` matches, none when it matches nowhere there (also src/review/App.jsx:1776) |
| CaptureMarker.FindMarker | src/review/App.jsx:32 | `exec` finds the leftmost match: the text `[capture-id:` + id + `]` with a non-empty id free of `]`, and nothing exactly when the pattern matches nowhere (also src/review/App.jsx:1776) |
| CaptureMarker.ParseCaptureId | src/review/App.jsx:1774-1778 | a caption names a capture exactly when the pattern matches somewhere in it, and the id is non-empty and free of `]` |
| CaptureMarker.MarkerAtFront | src/review/App.jsx:1770-1776 | a caption that starts with a created marker matches at 0 with that id, whatever follows |
| CaptureMarker.ParseCreatedMarker | src/review/App.jsx:1770-1778 | parsing a created marker gives back its id, for every id without `]` |
| CaptureMarker.RemoveFirstMarker | src/review/App.jsx:1783 | `replace` with the non-global pattern removes exactly the first match, and changes nothing without one |
| CaptureMarker.BuildCaptureImageCaption | src/review/App.jsx:1780-1786 | the caption starts with the capture's marker, followed by nothing or by a space and the rest |
| CaptureMarker.BuildCaptionNamesCapture | src/review/App.jsx:1774-1786 | the caption built for a capture always parses back to that capture's id |
| CaptureMarker.ParseCaptureMarker | src/review/EditorJsField.jsx:7-24 | without a match: no marker, no id and the trimmed caption; with one: the first match's text, its id and the trimmed caption with that match removed |
| CaptureMarker.MarkerParsersAgree | src/review/EditorJsField.jsx:7-24 | the image tool and the workspace read the same capture id from every caption (also src/review/App.jsx:1774-1778) |
| CaptureMarker.EditorKeepsBuiltMarker | src/review/EditorJsField.jsx:7-24 | the image tool reads back exactly the capture's marker from a caption the workspace built, and the id from a bare marker (also src/review/App.jsx:1780-1786) |
| Templates.IdsOf | src/review/templates.js:5-60 | the ids of the template table, one per template, in order |
| Templates.Find | src/review/templates.js:71 | `find` by id gives a template that is in the table with that id, and something exactly when the id is listed |
| Templates.TemplateTablesWellFormed | src/review/templates.js:1-60 | both tables have distinct non-empty ids, both start with the default "classic" template, and the legacy page's table is the first four templates of the shared one (also review.js:10-36) |
| Templates.NormalizeTemplateId | src/review/templates.js:62-66 | a listed id is kept and any other id becomes the default (also review.js:613-619) |
| Templates.NormalizeTemplateIdIdempotent | src/review/templates.js:62-66 | normalizing twice is normalizing once, and the result is always a listed id |
| Templates.GetTemplateById | src/review/templates.js:68-74 | always a template of the table, the one with the normalized id |
| Templates.GetReviewTemplateById | review.js:621-623 | always a template of the legacy table: the one with that id when listed, else the first |
| Templates.ReviewTemplateOfNormalized | review.js:613-623 | looking up a normalized id finds the template with exactly that id |
| Templates.CaptureTypeLabelAsWritten | src/review/templates.js:76-84 | as written, the lookup yields an inherited `Object.prototype` member exactly for the inherited property names |
| Templates.CaptureTypeLabelAsWrittenInherits | src/review/templates.js:76-84 | as written, the capture type "toString" or "constructor" gets a function, not a label |
| Templates.CaptureTypeLabel | src/review/templates.js:76-84 | "Visible", "Selection" and "Full Page" for exactly the three capture kinds, "Capture" for anything else (also review.js:573-581, content_script.js:1540-1548) |
| Templates.CaptureTypeLabelAgrees | src/review/templates.js:76-84 | for every other capture type the lookup as written and the corrected lookup agree |
| TemplateTokens.SpaceEnd | src/review/App.jsx:2190 | the end of the `\s*` run starts no earlier than where it began |
| TemplateTokens.KeyEnd | src/review/App.jsx:2190 | the `[A-Z0-9_]+` run ends after only key characters |
| TemplateTokens.TokenAt | src/review/App.jsx:2190 | a token found at the front is `{{`, white space, a non-empty key of `[A-Z0-9_]` that is exactly the text between the two white-space runs, white space and `}}`, at least five characters long |
| TemplateTokens.LiteralChar | src/review/App.jsx:2189-2191 | a character that cannot open a token is copied through unchanged |
| TemplateTokens.NoTokensUnchanged | src/review/App.jsx:2189-2191 | a text with no `{{` comes back unchanged |
| TemplateTokens.SpaceEndRun | src/review/App.jsx:2190 | the white-space run ends exactly at the first non-white character |
| TemplateTokens.KeyEndRun | src/review/App.jsx:2190 | the key run ends exactly at the first character outside `[A-Z0-9_]` |
| TemplateTokens.ReplaceToken | src/review/App.jsx:2189-2191 | a token, with any padding inside its braces, becomes its variable's value or "" and the rest is replaced independently |
| TemplateTokens.UnknownKeyIsEmpty | src/review/App.jsx:2190 | a key without a variable is replaced by the empty string |
| Ordering.ReorderFromSidebarDrag | src/review/App.jsx:792-821 | no change exactly when an id is missing, they are equal or either is not listed; otherwise a permutation with the dragged id right before the target, or right after it for "after", the others keeping their order (also review.js:510-539) |
| Ordering.Moved | src/review/App.jsx:777-790 | no change exactly at the ends; otherwise the capture and its neighbour swap places and nothing else moves |
| Ordering.MoveByIndex | src/review/App.jsx:777-790 | the in-place swap on a copy of the ids gives the moved order (also review.js:472-508) |
| Ordering.MoveDownThenUp | src/review/App.jsx:777-790 | moving a capture down and then back up restores the order |
| Ordering.MovedCaptureShifts | src/review/App.jsx:777-790 | the moved capture ends up one place up or down |
| Sidebar.PrepareUi | content_script.js:1111-1120 | without a host, or when already hidden, nothing changes; otherwise the host is hidden and the open state is recorded |
| Sidebar.RestoreUi | content_script.js:1122-1132 | without a host, or when not hidden, nothing changes; otherwise the host is shown, the recorded open state is restored and the record cleared |
| Sidebar.PrepareIdempotent | content_script.js:1111-1120 | preparing twice is preparing once, so the first open state is the one kept |
| Sidebar.RestoreUndoesPrepare | content_script.js:1111-1132 | restoring after preparing gives back the sidebar exactly as it was |
| Sidebar.PrepareRestoreAtRest | content_script.js:1111-1132 | both keep "not hidden implies shown and nothing recorded" |
| Sidebar.InsertNewest | content_script.js:823-825 | inserting into the list adds exactly that capture |
| Sidebar.InsertNewestSorted | content_script.js:823-825 | inserting into a newest-first list keeps it newest first |
| Sidebar.SortNewestFirst | content_script.js:823-825 | the list is a permutation of the fetched captures, newest first |
| Sidebar.Ids | content_script.js:833 | the ids of the list, in order |
| Sidebar.SelectAfterRefresh | content_script.js:829-843 | none exactly for an empty list; else a listed requested id; else the current id while listed; else the newest capture |
| Sidebar.RefreshSelectionStable | content_script.js:829-843 | refreshing again without a request keeps the selection |
| Sidebar.SidebarState.constructor | content_script.js:1101-1109 | the sidebar starts closed, shown, with no captures and nothing selected |
| Sidebar.SidebarState.TogglePanel | content_script.js:1101-1109 | only the open state flips |
| Sidebar.SidebarState.PrepareUiForCapture | content_script.js:1111-1120 | the flags become the prepared ones; the list and the selection stay |
| Sidebar.SidebarState.RestoreUiAfterCapture | content_script.js:1122-1132 | the flags become the restored ones; the list and the selection stay |
| Sidebar.SidebarState.RefreshCaptures | content_script.js:821-847 | the list becomes the fetched captures newest first and the selection is chosen as after a refresh, always a listed id |
| Sidebar.ClickIsNotMeaningful | content_script.js:1471-1487 | a click that does not move keeps no pen, box or arrow |
| Sidebar.Extend | content_script.js:1209-1219 | a pen gains the point exactly when it has no point yet or the point is at least 1.2 from its last one, and keeps its points otherwise; a box or arrow moves its end; a label is unchanged (also content_script.js:1230-1240) |
| Sidebar.ExtendKeepsSpaced | content_script.js:1214 | a pen stroke whose points are each at least 1.2 from the one before stays so after a move or release to any point |
| Sidebar.PromptedLabel | content_script.js:1158-1174 | a text label is added exactly when the prompt reply is non-blank, holding the trimmed reply |
| Sidebar.TrimmedLabelMeaningful | content_script.js:1471-1474 | a label holding trimmed non-blank text is meaningful |
| Sidebar.AnnotationModal.constructor | content_script.js:1150-1153 | the modal starts closed, with no image, no shapes and nothing in progress |
| Sidebar.AnnotationModal.PointerDown | content_script.js:1150-1199 | ignored unless open with an image and not busy; the text tool adds its prompted label; other tools start a stroke held by that pointer |
| Sidebar.AnnotationModal.PointerMove | content_script.js:1201-1222 | only the pointer that started the stroke extends it; committed shapes never change |
| Sidebar.AnnotationModal.PointerUp | content_script.js:1224-1257 | the stroke's pointer finishes it, and it is kept exactly when it is meaningful; every committed shape stays meaningful |
| Sidebar.AnnotationModal.Undo | content_script.js:1259-1267 | unless empty or busy, the last shape is dropped and nothing else changes |
| Sidebar.AnnotationModal.Clear | content_script.js:1269-1278 | unless empty or busy, all shapes and the stroke in progress are dropped; the pointer id is kept |
| ImageBlock.NormalizeImageBlockData | src/review/EditorJsField.jsx:26-44 | the url is `data.file.url` when that is a string, else ""; the caption is `data.caption` when a string, else ""; the three flags are the truthiness of their properties |
| ImageBlock.NormalizeImageBlockDataFixed | src/review/EditorJsField.jsx:26-44 | normalizing data that is already in the normalized shape gives it back unchanged |
| ImageBlock.SavedData | src/review/EditorJsField.jsx:167-179 | the saved caption is the capture marker when there is one, else the caption; the url is the element's non-empty `src`, else the data's url; the flags are all off |
| ImageBlock.ValidateSaved | src/review/EditorJsField.jsx:181-183 | saved data validates exactly when its url is non-empty |
| ImageBlock.SaveKeepsCapture | src/review/EditorJsField.jsx:87-99 | the capture a block names is named again once the block is saved and loaded back (also src/review/EditorJsField.jsx:167-179) |
| ImageBlock.RemovedImageIsSavedAsWritten | src/review/EditorJsField.jsx:142-153 | as written, after "Remove Image" the element's `src` still wins, so the saved block keeps the image and validates (also src/review/EditorJsField.jsx:168) |
| ImageBlock.RemovedImageIsDropped | src/review/EditorJsField.jsx:142-153 | with the element's image dropped too, the saved block has no url and fails validation (also src/review/EditorJsField.jsx:181-183) |
| ImageBlock.WorkspaceImageTool.constructor | src/review/EditorJsField.jsx:87-99 | the data is normalized and the marker, capture id and visible caption are those parsed from its caption; no image is rendered yet |
| ImageBlock.WorkspaceImageTool.Render | src/review/EditorJsField.jsx:101-165 | the image element shows the data's url and the block is shown; nothing else changes |
| ImageBlock.WorkspaceImageTool.RemoveAsWritten | src/review/EditorJsField.jsx:142-153 | as written: when the editor deletes the block nothing changes; otherwise the url and visible caption are cleared and the block hidden, but the image element keeps its `src` |
| ImageBlock.WorkspaceImageTool.Remove | src/review/EditorJsField.jsx:142-153 | when the editor deletes the block nothing changes; otherwise the url and caption are cleared, the block hidden and the image dropped, so the block no longer validates |
| ImageBlock.WorkspaceImageTool.Save | src/review/EditorJsField.jsx:167-183 | the saved block validates exactly when the url it would carry is non-empty |
| Workspace.AllowedIds | src/review/App.jsx:1632 | the allowed set holds exactly the capture ids |
| Workspace.AllowedIdsEmpty | src/review/App.jsx:1632-1642 | the allowed set is empty exactly when there are no captures |
| Workspace.CaptureIds | src/review/App.jsx:1632 | the ids of the captures, in order |
| Workspace.CaptionId | src/review/App.jsx:1657-1662 | only an image block names a capture, and the one its caption's marker names |
| Workspace.HiddenIdsMembers | src/review/App.jsx:1631-1650 | an id is hidden exactly when some stored entry trims to it and survives; hidden ids are non-empty, trimmed, distinct and, while there are captures, ids of captures |
| Workspace.NormalizeHiddenCaptureIds | src/review/App.jsx:1631-1650 | the loop over the stored list with its insertion-ordered set computes the normalized hidden ids |
| Workspace.AttachedIdsMembers | src/review/App.jsx:1652-1668 | an id is attached exactly when some image block's caption names it |
| Workspace.CollectAttachedCaptureIds | src/review/App.jsx:1652-1668 | the set of ids named by the image blocks of the normalized workspace data |
| Workspace.CollectAttached | src/review/App.jsx:1656-1665 | the loop collects exactly the ids the image blocks name |
| Workspace.SetHidden | src/review/App.jsx:1674-1679 | `add` or `delete` on the insertion-ordered set changes only that id's membership and keeps it duplicate-free |
| Workspace.BuildHiddenCaptureIds | src/review/App.jsx:1670-1683 | a capture is hidden exactly when it is not attached; other ids stay as normalized; with captures present, the hidden ids are exactly the unattached captures |
| Workspace.ById | src/review/App.jsx:1714 | `new Map` has exactly the capture ids, each mapped to a capture with that id |
| Workspace.ByIdFindsEach | src/review/App.jsx:1714 | with distinct ids each capture is found under its own id |
| Workspace.ReferencedMembers | src/review/App.jsx:1719-1735 | the referenced ids are exactly the known, not hidden ids that some image block names |
| Workspace.ShownMembers | src/review/App.jsx:1737-1744 | the shown ids are exactly the capture ids that are not hidden |
| Workspace.ExportIdsProperties | src/review/App.jsx:1712-1749 | the export ids are distinct, never hidden and all captures; every shown capture is exported; the captures the document names come first, in block order |
| Workspace.BuildExportCapturesFromWorkspace | src/review/App.jsx:1712-1749 | the exported captures are those of the export ids, in that order, looked up by id |
| Workspace.ExportCaptures | src/review/App.jsx:1714-1748 | the two passes and the lookups give one capture per export id, in order |
| Workspace.ExportOrder | src/review/App.jsx:1716-1744 | the ids the two loops push are the export ids |
| Workspace.ExportIdsKnown | src/review/App.jsx:1729-1731 | every exported id is in the capture map, so `filter(Boolean)` drops nothing (also src/review/App.jsx:1746-1748) |
| Workspace.OrderReferenced | src/review/App.jsx:1719-1735 | the block loop pushes the referenced ids once each, and `seenIds` holds exactly what was pushed |
| Workspace.ReferencedStep | src/review/App.jsx:1719-1735 | one more block adds its id exactly when it is referenced and not yet seen |
| Workspace.ShownStep | src/review/App.jsx:1737-1744 | one more capture adds its id exactly when it is shown and not yet seen |
| WorkspaceSync.InitialBlocks | src/review/App.jsx:1751-1768 | the seed is two blocks, neither naming a capture |
| WorkspaceSync.ImageBlockCaption | src/review/App.jsx:1804-1813 | an image block laid out as a new capture image names whatever its caption names (also src/review/App.jsx:1657-1661) |
| WorkspaceSync.NonImageBlock | src/review/App.jsx:1657-1659 | a block that is not an image names no capture |
| WorkspaceSync.CaptureEditorBlocksCaption | src/review/App.jsx:1788-1821 | a capture gets three blocks, and only the middle image names a capture, its own |
| WorkspaceSync.RefreshedImageCaption | src/review/App.jsx:1855-1865 | a refreshed attached image still names its capture |
| WorkspaceSync.RefreshedImageFields | src/review/App.jsx:1855-1865 | refreshing keeps the block's type and sets the caption rebuilt around the capture's marker |
| WorkspaceSync.SyncWorkspaceBlocksWithCaptures | src/review/App.jsx:1823-1891 | the normalized document with its blocks replaced by the synced blocks, computed with the normalized hidden ids |
| WorkspaceSync.SyncBlocks | src/review/App.jsx:1836-1885 | the two loops compute the synced blocks: the kept blocks (or the seed when none), then three blocks per capture neither attached nor hidden |
| WorkspaceSync.KeepAttached | src/review/App.jsx:1840-1871 | the first loop keeps unmarked blocks, drops images of deleted or hidden captures, refreshes the others, and collects exactly the ids of the refreshed images |
| WorkspaceSync.KeepStep | src/review/App.jsx:1840-1871 | one more block adds its kept form, if any, and adds its id to the attached set exactly when it is a known, shown capture |
| WorkspaceSync.AppendedStep | src/review/App.jsx:1879-1885 | one more capture appends its three blocks exactly when neither attached nor hidden |
| WorkspaceSync.ChunkCaption | src/review/App.jsx:1879-1885 | an appended block that names a capture names the capture it was appended for, which was neither attached nor hidden |
| WorkspaceSync.OnlyMarker | src/review/App.jsx:1797-1820 | in a capture's three blocks the only named capture is the image's |
| WorkspaceSync.AppendedCaptions | src/review/App.jsx:1879-1885 | every appended image names a capture that is listed, not hidden and not attached |
| WorkspaceSync.AppendedHasCapture | src/review/App.jsx:1879-1885 | a capture neither attached nor hidden gets its image appended |
| WorkspaceSync.KeptCaption | src/review/App.jsx:1840-1871 | every kept image names a listed capture that is not hidden |
| WorkspaceSync.SyncDropsDeletedAndHidden | src/review/App.jsx:1840-1885 | after syncing, every image that names a capture names a listed capture that is not hidden |
| WorkspaceSync.SyncShowsEveryCapture | src/review/App.jsx:1840-1885 | after syncing, every capture that is not hidden has an image naming it |
| WorkspaceSync.SyncKeepsUnmarkedBlocks | src/review/App.jsx:1840-1871 | every block that names no capture is kept |
| WorkspaceSync.SyncSeedsEmptyDocument | src/review/App.jsx:1873-1877 | when nothing is kept, the synced document starts with the two overview blocks |
| WorkspaceNotes.NextCaptureImage | src/review/App.jsx:1898-1906 | the position found lies between the start position and the end of the blocks; that it is the next capture image, or the end when there is none, is NextCaptureImageFinds |
| WorkspaceNotes.NextCaptureImageFinds | src/review/App.jsx:1898-1906 | no block before the found position is a capture image, and the block there is one (also src/review/App.jsx:1928-1933) |
| WorkspaceNotes.NextCaptureImageSkips | src/review/App.jsx:1928-1933 | a block that is not a capture image does not end the section |
| WorkspaceNotes.NextCaptureImageStops | src/review/App.jsx:1931-1933 | a capture image, or the end, ends the section where it is |
| WorkspaceNotes.SingleBlockText | src/review/App.jsx:1910 | the plain text of a one-block document is that block's text |
| WorkspaceNotes.Markers | src/review/App.jsx:1917-1925 | the capture each block names, position by position |
| WorkspaceNotes.Notes | src/review/App.jsx:1927-1941 | the note each capture image would carry, position by position |
| WorkspaceNotes.ExtractWorkspaceSummaryAndNotes | src/review/App.jsx:1893-1949 | the overview is the text of the blocks before the first capture image; each capture named by an image gets the text of the blocks up to the next capture image, the last such image winning |
| WorkspaceNotes.ExtractFrom | src/review/App.jsx:1898-1948 | the three passes compute the overview and the notes of the blocks |
| WorkspaceNotes.CollectNotes | src/review/App.jsx:1916-1942 | the notes loop sets, image by image, the note of the capture each image names |
| WorkspaceNotes.NotesStep | src/review/App.jsx:1916-1942 | one more block sets its capture's note when it is a capture image and changes nothing otherwise |
| WorkspaceNotes.BlockPlainText | src/review/App.jsx:1910 | the text of one block is the plain text of a document holding only it (also src/review/App.jsx:1935) |
| WorkspaceNotes.SectionParts | src/review/App.jsx:1927-1939 | the inner loop collects the non-empty texts of the blocks up to the next capture image |
| WorkspaceNotes.NoteStep | src/review/App.jsx:1929-1938 | one step of the inner loop stops exactly at a capture image, and otherwise adds the block's text when non-empty |
| WorkspaceNotes.CollectParts | src/review/App.jsx:1908-1914 | the overview loop collects the non-empty texts of the blocks before the bound |
| WorkspaceNotes.AddPart | src/review/App.jsx:1910-1913 | one block adds its text exactly when it is non-empty |
| WorkspaceNotes.PartsPrefixStep | src/review/App.jsx:1910-1913 | the texts of one more block are the earlier texts plus that block's, when non-empty |
| WorkspaceNotes.NotesKeysAreAttached | src/review/App.jsx:1916-1942 | a capture gets a note exactly when some image block names it (also src/review/App.jsx:1652-1668) |
| WorkspaceNotes.LastImageDecides | src/review/App.jsx:1941 | when a capture is named by several images, the last one's section is its note |
| WorkspaceNotes.BlockTextIsBlockPlainText | src/review/App.jsx:1910 | the text of a block is the plain text of its normalized copy |
| WorkspaceNotes.PartsAreLines | src/review/App.jsx:1908-1913 | on normalized blocks the per-block texts are the lines `editorDataToPlainText` would join (also src/review/editorjs-utils.js:50-55) |
| WorkspaceNotes.SectionIsPlainText | src/review/App.jsx:1941 | joining a section's per-block texts gives the plain text of the section as one document (also src/review/editorjs-utils.js:46-58) |
| WorkspaceNotes.ExtractedBlocksNormalized | src/review/App.jsx:1894 | the blocks extraction works on are normalized |
| WorkspaceNotes.OverviewIsPlainText | src/review/App.jsx:1908-1914 | the overview is the plain text of the blocks before the first capture image (also src/review/App.jsx:1944) |
| WorkspaceNotes.NoteIsPlainText | src/review/App.jsx:1927-1941 | a note is the plain text of the blocks between its image and the next capture image |
| WorkspaceNotes.NoCaptureImages | src/review/App.jsx:1893-1949 | with no capture image the overview is all the text and there are no notes |
| ListOps.IndexOf | src/review/App.jsx:800-801 | `indexOf` gives -1 exactly when absent, otherwise the first position holding the value |
| ListOps.IndexOfNoDups | src/review/App.jsx:800-809 | in a duplicate-free list `indexOf` finds each element at its own position |
| ListOps.Dedup | background.js:371 | keeping first occurrences gives a duplicate-free list no longer than the input (also src/review/App.jsx:1649) |
| ListOps.DedupOfNoDups | background.js:371 | a duplicate-free list is unchanged by de-duplication |
| ListOps.DedupMembers | background.js:371 | de-duplication keeps exactly the elements of the input (also src/review/App.jsx:1649) |
| ListOps.DedupPrefix | src/review/App.jsx:1716-1744 | de-duplicating a longer list starts with the de-duplication of its prefix |
| ListOps.Swapped | src/review/App.jsx:786 | the destructuring swap exchanges the two cells, leaves the rest and permutes the list |
| ListOps.SwappedTwice | src/review/App.jsx:786 | swapping back restores the list |
| ListOps.RemoveAt | src/review/App.jsx:807 | `splice(i, 1)` removes exactly that element and shifts the rest down |
| ListOps.InsertAt | src/review/App.jsx:816 | `splice(i, 0, x)` puts `x` at `i` and shifts the rest up |
| ListOps.Without | src/review/App.jsx:807-817 | the list with every copy of a value removed no longer holds it |
| ListOps.WithoutMembers | src/review/App.jsx:807-817 | removing a value keeps exactly the other elements |
| ListOps.WithoutRemoveAt | src/review/App.jsx:807 | splicing a value out does not change the order of the others |
| ListOps.WithoutInsertAt | src/review/App.jsx:816 | splicing a value in does not change the order of the others |
| ListOps.WithoutNoDups | src/review/App.jsx:1675 | deleting from a duplicate-free list keeps it duplicate-free |
| ListOps.FilterMapMembers | src/review/App.jsx:1636-1647 | mapping and filtering keeps exactly the values some element maps to |
| ListOps.FlatMapMembers | src/review/App.jsx:1879-1885 | the concatenated chunks hold exactly the values some element's chunk holds |
| ListOps.FirstFrom | src/review/App.jsx:1898-1906 | the first position at or after `from` satisfying the test, none before it |
| ListOps.LastWinsKeys | src/review/App.jsx:1941 | after a run of `Map.set` calls the keys are exactly the keys set |
| ListOps.LastWinsLast | src/review/App.jsx:1941 | a key's value is the one from its last `set` |
| ListOps.ElemsMembers | src/review/App.jsx:1837 | the set of a list's elements holds exactly those elements |

## Left out

- Message routing (`chrome.runtime.onMessage`, `handleMessage`, `action.onClicked`, the content script's message switch): this is dispatch glue. The handlers it calls are modelled one by one.
- `sleep(220)`, `nextFrame`, debounced saves and `Promise.all`: their point is timing. The model runs each host call in program order.
- Image decoding and encoding (`OffscreenCanvas`, `createImageBitmap`, `convertToBlob`, `blobToDataUrl`): a capture is a pixel grid, and the data URL is the host's abstract `encode`. `drawImage` is a 1:1 blit onto a grid.
- `getPageMetrics` runs in the page. Its result is the host's fixed `page` measurements.
- Geometry.BuildPositions: requires a positive viewport when the page is longer than it. For any other viewport the source's loop never ends.
- Floating point: `devicePixelRatio` is an exact real, and so is the pen's point spacing (`distance(last, point) >= 1.2` is compared on squared distances, so no root is taken). `Math.atan2` for arrow heads and canvas styling are not modelled.
- Background.Host: the scroll offsets `scrollX`/`scrollY` are integers, while `window.scrollX`/`scrollY` (background.js:267-268) can be fractional under page zoom. The restore property does not depend on this: the offset read with the metrics is the one requested back.
- Json.SpreadFields: spreading a string or an array gives no fields, where JavaScript gives its index properties (`{..."hi"}` is `{0: "h", 1: "i"}`). `Json.Get` likewise reads `Null` from a string or array, where `"hi"[0]` and `.length` are defined. Only the saved JSON differs: no text, id or note the core reads comes from these fields.
- EditorData.NormalizeBlock: a block or `data` that is a non-empty string or an array is copied as `{}`, not as its index fields (src/review/editorjs-utils.js:7), by `Json.SpreadFields` above.
- WorkspaceSync.RefreshedImage: a string `data.file` is spread as `{}` before its `url` is set (src/review/App.jsx:1855-1865), by `Json.SpreadFields` above.
- The `DOMParser` branch of `stripHtml`: a DOM is out of scope. Only the regex fallback is modelled, and it is what `Html.StripHtml` states.
- Regular expressions: each pattern the core uses is written out as a function of its own. There is no general regex engine.
- `String(value)` on objects and arrays, and number-to-string conversion: a non-string is written out only for the cases the core reaches.
- Copying blocks (`{ ...block }`, `structuredClone`): a copy is the same value, since nothing in the model aliases.
- Html.EscapeHtml: models the string-input case. `String(value ?? "")` in src/review/App.jsx and `String(value || "")` in src/review/editorjs-utils.js differ only on non-string falsy input, which the core never passes.
- Ordering.ReorderFromSidebarDrag: the `insertIndex === -1` push branch of src/review/App.jsx:812-814 is not modelled. The target is still in the list after the removal, so that branch cannot run.
- The duplicates in `review.js` (`reorderFromSidebarDrag`, the move actions, `isMeaningfulShape`) are modelled once. The rows cite both places.
- CaptureMarker.BuildCaptureImageCaption: does not promise that the caption holds no second marker. The source removes only the first marker of the existing caption, so an existing caption with two markers keeps the second one.
- The `{{#SECTIONS}}` loop, `renderDocumentationTemplate`, `buildSectionTemplateVariables`, `injectExportSafetyStyles`, `serializeWorkspaceBlocks` and `normalizeCaptureForEditor` are not part of this model. `replaceTemplateTokens` is modelled with its variables as a `map`.
- `filter(Boolean)` is modelled only where the core uses it: it drops empty strings from lists of strings, and missing captures from the export lookup.
- EditorJS itself (`tryDeleteBlock`, rendering, event wiring): the remove handler takes the deletion's outcome as input. The image element's `src` is the tool's `imageSrc` field, and URL resolution by the browser is not modelled.
- The DOM parts of the image tool's `render` and of the sidebar are not modelled. Only the state they read and write is.
- JavaScript `Set`s are sequences without duplicates (`ListOps.NoDups`), so that their insertion order is kept.
- `openDb`, IndexedDB transactions and `request.onerror`: the store is one in-memory map, and every request succeeds except the missing-id cases that `db.js` rejects itself.
- Db.SortForListing, Sidebar.SortNewestFirst: are proved sorted and a permutation of the input. `Array.prototype.sort` is stable, so records that tie on every key keep the order they were fetched in; the model does not state that order of ties.
- EditorData.ListText: a list block whose `items` is truthy but not an array makes `flattenListItems` throw a TypeError (src/review/editorjs-utils.js:73 and 127). The model gives "" there, because the text conversion has no error path.
- Db.CaptureStore.Reorder: one clock reading per listed id gives both its `order` and its `updatedAt`. The source reads `Date.now()` twice for them (db.js:173-174), and the two readings may differ.
- `popup.js`, `src/review/storage.js`, `scripts/copy-extension-files.mjs` and `vite.config.js` are not part of this model. They are DOM handlers, storage I/O and build configuration.

## Findings

| source | as written | input that shows it | evidently intended | confidence | as-written member | corrected member |
|---|---|---|---|---|---|---|
| db.js:121-127 | the merged record `{...current, ...updates}` is put under its own `id`, which `updates` may override | `updateCapture("a", { id: "b" })` leaves "a" unchanged and adds a record "b" | an update changes only the record it names | not executed | Db.UpdateAsWrittenDuplicates | Db.UpdateTouchesOnlyItsRecord |
| content_script.js:82-100 | a cancelled task's `.finally` sets `activeSelectionTask = null` even after a newer task was stored there | start, start, run the first task's `.finally`, start: the second overlay is never removed, so two overlays are on the page | a task's `.finally` clears only its own task | not executed | AreaSelection.AsWrittenLeavesTwoOverlays | AreaSelection.RunKeepsSingleOverlay |
| src/review/templates.js:76-84 | `labels[captureType] \|\| "Capture"` also finds members of `Object.prototype` | `captureTypeLabel("toString")` gives a function, not "Capture" | any type other than the three kinds gives "Capture" | not executed | Templates.CaptureTypeLabelAsWrittenInherits | Templates.CaptureTypeLabel |
| src/review/EditorJsField.jsx:142-153 | "Remove Image" clears `data.file.url` but keeps the image element's `src`, which `save` prefers | add an image, remove it, save: the saved block still has the image's url and validates | after removal the block has no image and fails validation | not executed | ImageBlock.RemovedImageIsSavedAsWritten | ImageBlock.RemovedImageIsDropped |
