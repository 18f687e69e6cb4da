# QR generator: configuration store and preview controller

This project models the two stateful parts of a small QR-code generator web app.

- **The configuration store** (`client/src/pages/home.tsx`) holds a five-field record: content, size, error-correction level, pixel density and transparent background. It starts from fixed defaults. Every update replaces the record with `{ ...prev, ...updates }`.
- **The preview controller** (`client/src/components/qr-preview-panel.tsx`) reacts to each new configuration with `generateQRCode`. That function checks a guard (content that is not only white space, and a mounted canvas). It builds the encoder options, raises `isGenerating`, waits for the QR encoder, and on success recomputes the "File Size" label from the canvas's PNG data URL. It lowers `isGenerating` in `finally`. `downloadQR` checks the same guard, then either rejects with an alert or saves the canvas's PNG data URL as `qr-code-<timestamp>.png`.

Modules, one per concern:

- `Wrappers` (`wrappers.dfy`): the `Option` datatype.
- `QrConfig` (`config.dfy`): `Config`, `Partial` (one `Option` per key; `None` means the key is absent), a key-by-key view of both (`Get`, `Lookup`), the pure `Merge`, the validity domains taken from the configuration widgets, and the `ConfigStore` class whose `Update` replaces its `cfg` field.
- `JsText` (`jstext.dfy`): the JavaScript string operations the controller relies on. These are `trim` (with ECMAScript's white-space and line-terminator code points), `split`, and the decimal text of a non-negative integer in a template literal.
- `SizeEstimate` (`size_estimate.dfy`): the payload of a data URL (`split(',')[1]`), `Math.round` on exact reals, the integer form `(3L + 2048) / 4096` of the kilobyte estimate, and the label.
- `Preview` (`preview.dfy`): the encoder request, the colour meaning of its hex strings, the render guard, the download decision, the `PreviewPanel` class, and `ConfigChanged`. `ConfigChanged` is the effect that runs one generation after each merge.

The QR encoder is a parameter `encode: EncodeRequest -> EncodeOutcome`. An outcome is either `Drawn(pngDataUrl)` or `Failed(reason)`. `Drawn` carries the PNG data URL the canvas yields after drawing. The canvas is `Unmounted`, or `Mounted(pngDataUrl)` with its current PNG data URL. The panel keeps a log of the encoder calls it made (`encoderCalls`) and of what it passed to `console.error` (`consoleErrors`). This makes "the encoder is not called" and "the error is logged" statable. `Date.now()` is the parameter `now`.

Behaviour of the code worth noting:

- The size label rounds to the nearest kilobyte (`Math.round`). So "~< 1 KB" appears only below 512 estimated bytes (`SizeLabelBelowOne`). From 512 up to, but not including, 1536 estimated bytes the label reads "~1 KB".
- There is no generation counter or stale-result check. One generation is one atomic step.
- The colours are fixed: `#000000` on `#FFFFFF`, or on `#00000000` under transparency. The transparent background is transparent black.
- Download requires a mounted canvas, not one that has been drawn. A canvas that was never drawn is saved as it is (`DownloadQR` saves whatever `Mounted` holds).
- The canvas's `width` and `height` are bound to `config.size`. A size change resets the bitmap before the effect runs, so when that generation is skipped or fails the canvas is left blank at the new size (`Committed`). `blank(n)` is the parameter standing for the data URL of a blank n-by-n canvas.
- The effect of lines 15-17 also runs once at mount, with the default record and the canvas attached (`Mount`).

`Preview.ClearContentScenario` is a worked scenario rather than a contract. It clears the content, then tries to download, and checks that nothing is re-rendered, the canvas keeps its picture and the download is refused. `Preview.ResizeFailureScenario` changes the size while the encoder fails, and checks that the canvas is left blank at the new size.

## Model

| member | source | states |
|---|---|---|
| `QrConfig.Default` | client/src/pages/home.tsx:14-20 | the default record lies in the widget domains (size 256, density 8) |
| `QrConfig.Merge` | client/src/pages/home.tsx:25 | for every key: present in the partial gives the partial's value, absent keeps the previous value |
| `QrConfig.MergeKeepsAbsent` | client/src/pages/home.tsx:25 | a key absent from the partial is unchanged by the merge |
| `QrConfig.MergeSetsPresent` | client/src/pages/home.tsx:25 | a key present in the partial takes the partial's value |
| `QrConfig.MergeEmpty` | client/src/pages/home.tsx:25 | merging `{}` returns the previous record |
| `QrConfig.MergeOverlay` | client/src/pages/home.tsx:25 | two successive merges equal one merge with the overlaid partial `{ ...p, ...q }` |
| `QrConfig.MergeIdempotent` | client/src/pages/home.tsx:25 | merging the same partial twice equals merging it once |
| `QrConfig.MergeLastWriteWins` | client/src/pages/home.tsx:25 | a later partial covering every key of an earlier one erases the earlier one's effect |
| `QrConfig.MergeDisjointCommute` | client/src/pages/home.tsx:25 | merges of partials with no common key commute |
| `QrConfig.MergePreservesValid` | client/src/components/qr-configuration-panel.tsx:50-54 | a valid record merged with a valid partial stays valid: size in 256/512/1024/2048 and density in 4..12 (lines 150-152 of the same file); the level is one of L/M/Q/H by its type (lines 85-89) |
| `QrConfig.ConfigStore.constructor` | client/src/pages/home.tsx:14-20 | the store starts at content "https://example.com", size 256, level M, density 8, no transparency, and that record is valid |
| `QrConfig.ConfigStore.Update` | client/src/pages/home.tsx:24-26 | the store's record is replaced by the merge of the old record and the partial; validity is kept for valid partials |
| `JsText.TrimStart` | client/src/components/qr-preview-panel.tsx:20 | the result is a suffix of the input, everything dropped is white space, and the result does not start with white space |
| `JsText.TrimEnd` | client/src/components/qr-preview-panel.tsx:20 | the result is a prefix of the input, everything dropped is white space, and the result does not end with white space |
| `JsText.Trim` | client/src/components/qr-preview-panel.tsx:20 | the trimmed text neither starts nor ends with white space |
| `JsText.TrimEmptyIffAllWhiteSpace` | client/src/components/qr-preview-panel.tsx:20 | `!content.trim()` holds exactly when the content is empty or only white space |
| `JsText.TrimIsSlice` | client/src/components/qr-preview-panel.tsx:20 | the trimmed text is the slice of the input between leading and trailing white space |
| `JsText.TrimKeepsNonWhiteStart` | client/src/components/qr-preview-panel.tsx:20 | content starting with a non-white-space character passes the guard |
| `JsText.Split` | client/src/components/qr-preview-panel.tsx:40 | `split(',')` yields at least one piece and no piece holds a comma |
| `JsText.JoinSplit` | client/src/components/qr-preview-panel.tsx:40 | joining the pieces with the separator gives the original string |
| `JsText.SplitJoin` | client/src/components/qr-preview-panel.tsx:40 | splitting a join of separator-free pieces gives the pieces back |
| `JsText.NatToString` | client/src/components/qr-preview-panel.tsx:43 | the decimal text is non-empty digits with no leading zero except for 0 |
| `JsText.DecimalValueOfNatToString` | client/src/components/qr-preview-panel.tsx:58 | reading the decimal text back gives the number |
| `JsText.NatToStringInjective` | client/src/components/qr-preview-panel.tsx:58 | distinct numbers have distinct decimal texts |
| `SizeEstimate.Payload` | client/src/components/qr-preview-panel.tsx:40 | `dataURL.split(',')[1]` exists exactly when the URL has a comma, holds no comma, and is the text after the first comma up to the next comma or the end (by `IndexOf`/`TakeUntil`) |
| `SizeEstimate.PayloadOfEmptyDataUrl` | client/src/components/qr-preview-panel.tsx:39-40 | the pixel-less canvas URL `data:,` has the empty payload, and `a,bcd` has payload `bcd` |
| `JsText.SplitSecondPiece` | client/src/components/qr-preview-panel.tsx:40 | the second piece of a split starts right after the first separator and ends at the next separator or the end |
| `JsText.IndexOf` | client/src/components/qr-preview-panel.tsx:40 | the position of the first occurrence (or the length when absent): no occurrence before it |
| `SizeEstimate.PayloadOfPngDataUrl` | client/src/components/qr-preview-panel.tsx:39-40 | for `data:image/png;base64,<b>` with comma-free base64 text the payload is exactly `<b>` |
| `SizeEstimate.MathRound` | client/src/components/qr-preview-panel.tsx:42 | the result is the integer nearest to x, with halves rounded up |
| `SizeEstimate.SizeInKBIsRounded` | client/src/components/qr-preview-panel.tsx:41-42 | `(3L + 2048) / 4096` equals `Math.round((L * 3 / 4) / 1024)` exactly |
| `SizeEstimate.SizeInKBMonotonic` | client/src/components/qr-preview-panel.tsx:41-42 | a longer payload never gives a smaller kilobyte count |
| `SizeEstimate.SizeLabelBelowOne` | client/src/components/qr-preview-panel.tsx:43 | the label is "~< 1 KB" exactly when 3L < 2048 |
| `SizeEstimate.SizeLabelReadsBack` | client/src/components/qr-preview-panel.tsx:43 | otherwise the label is "~", the count in decimal, " KB", and the count reads back |
| `SizeEstimate.InitialFileSizeNeverComputed` | client/src/components/qr-preview-panel.tsx:13 | no computed label equals the initial "~2.1 KB" |
| `SizeEstimate.EstimateOvershootIsPadding` | client/src/components/qr-preview-panel.tsx:41 | for padded base64 text of n bytes, the 3/4 estimate (`SizeInBytes`, in reals as the source computes it) lies between n and n + 2 |
| `Preview.ShouldRenderIff` | client/src/components/qr-preview-panel.tsx:20-22 | the guard passes exactly when the canvas is mounted and some content character is not white space |
| `Preview.DefaultContentRenders` | client/src/components/qr-preview-panel.tsx:20-22 | the default content passes the guard once a canvas is mounted |
| `Preview.Committed` | client/src/components/qr-preview-panel.tsx:81-84 | resizing keeps a canvas mounted or unmounted; an unchanged size leaves it as it was; a new size gives a mounted canvas the blank picture of that size |
| `Preview.CommittedKeepsGuard` | client/src/components/qr-preview-panel.tsx:81-84 | resizing never changes whether generation or download goes ahead |
| `Preview.RenderRequest` | client/src/components/qr-preview-panel.tsx:27-35 | the encoder gets the content, width = size, margin 2, dark `#000000`, light `#00000000` or `#FFFFFF` by transparency, and the level |
| `Preview.RenderRequestDeterminesAllButDensity` | client/src/components/qr-preview-panel.tsx:27-35 | two configurations give the same request exactly when they agree on every key except pixel density |
| `Preview.ToggleTransparencyChangesOnlyLight` | client/src/components/qr-preview-panel.tsx:32 | toggling transparency through a merge changes only the light colour of the request |
| `Preview.RenderRequestColors` | client/src/components/qr-preview-panel.tsx:31-32 | as RGBA, dark is opaque black, and light is opaque white or alpha 0 under transparency |
| `Preview.FileNameRoundTrip` | client/src/components/qr-preview-panel.tsx:58 | the timestamp can be read back from `qr-code-<timestamp>.png` |
| `Preview.FileNameInjective` | client/src/components/qr-preview-panel.tsx:58 | different timestamps give different file names |
| `Preview.DownloadQR` | client/src/components/qr-preview-panel.tsx:51-61 | the alert "Please enter content to generate QR code" comes exactly when the guard fails; otherwise the canvas's PNG data URL is saved as `qr-code-<now>.png`, a name whose timestamp reads back as `now` |
| `Preview.PreviewPanel.constructor` | client/src/components/qr-preview-panel.tsx:12-13 | the panel starts not generating, with label "~2.1 KB", no encoder calls and no logged errors |
| `Preview.PreviewPanel.CallEncoder` | client/src/components/qr-preview-panel.tsx:27 | the encoder is called only while `isGenerating` is raised, and the call is logged |
| `Preview.PreviewPanel.GenerateQRCode` | client/src/components/qr-preview-panel.tsx:19-49 | a failed guard changes nothing and calls no encoder. Otherwise there is one encoder call with `RenderRequest(config)` and `isGenerating` ends false. On failure the label and canvas are kept and the error is logged. On success the canvas holds the new picture and the label is recomputed from the payload, or kept and a `PayloadMissing` error logged when the data URL has no comma |
| `Preview.PreviewPanel.CommitSize` | client/src/components/qr-preview-panel.tsx:81-84 | committing the width and height changes only the canvas, to `Committed` of the old canvas and the two sizes |
| `Preview.PreviewPanel.Download` | client/src/components/qr-preview-panel.tsx:51-61 | the handler returns the `DownloadQR` decision for the current canvas and changes no state, so it never calls the encoder |
| `Preview.ConfigChanged` | client/src/components/qr-preview-panel.tsx:15-17 | after a change the store holds the merged record and the canvas has been resized to its size. When the guard fails, nothing but that resize happens to the panel. When it passes, exactly one encoder call with the merged record is made, `isGenerating` ends false, and the canvas, label and error log follow the encoder's outcome as in `GenerateQRCode`; a failed encoder leaves the resized canvas |
| `Preview.Mount` | client/src/components/qr-preview-panel.tsx:15-17 | at mount the store holds the defaults and the effect makes exactly one encoder call, with the default record, leaving `isGenerating` false. A failed encoder leaves the attached picture, label "~2.1 KB" and one logged error. A drawn picture replaces the canvas, and the label is computed from its payload, or left at "~2.1 KB" with `PayloadMissing` logged |

## Left out

- The QR symbol encoder `QRCode.toCanvas` (ISO/IEC 18004 encoding, Reed–Solomon) is foreign. It is the function parameter `encode`, and a rejected promise is assumed to leave the canvas as it was.
- Canvas rasterisation and PNG encoding (`toDataURL`) are foreign. The data URL is an abstract string carried by the outcome and by the canvas value.
- Browser side effects (`alert`, `document.createElement`, `link.click`, `console.error`) are returned values or the `consoleErrors` log, not actions.
- `Date.now()` is a parameter.
- Overlapping asynchronous renders are not modelled. The `useEffect` of lines 15-17 has no stale-result check, and one generation is one atomic step, so `isGenerating` is never observed true between steps.
- Floating point: `SizeInKBIsRounded` uses exact reals. It agrees with JavaScript doubles as long as `3L` stays below 2^53.
- `JsText.NatToString`: does not model JavaScript's exponent notation for numbers of 10^21 and above, because neither a kilobyte count nor a millisecond timestamp gets that large.
- A partial holding an explicit `undefined` value (which `{ ...prev, ...updates }` would copy over the previous value) is not modelled. `None` means the key is absent, and the widgets never send `undefined`.
- `client/src/components/qr-configuration-panel.tsx` is used only for its value domains. Its handlers just emit one-field partials.
- Static markup is not modelled. This covers the header, feature cards, footer, the dimensions text and the hard-coded "Quick Stats".
