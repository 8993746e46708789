# dev-imgkit core, modelled in Dafny

dev-imgkit is a single-page image-asset manager. Users sign up or reset a password against an
identity service. They upload files into their own folder (`bucketId/`) of an object store,
list, search, filter, select and delete them, and open an image in an editor. The editor turns a
record of about twenty transformation knobs into a CDN path of the form
`/…/t_<token>_<token>…/<file>`.

This project models the logic of that application and proves properties of the model:

- `transform.dfy` (module `Transform`) covers the editor's parameter record, the default table and
  the encoder `convertParamsToUrl`.
  - The encoder is imperative: a chain of methods, each pushing the tokens of a few knobs onto the
    segment list, and a method that splices the joined segment into the path.
  - The encoder's 22 checks are written once. `Deviates(p, k)` holds each knob's
    `params.x !== default` test, and `Token(p, k)` holds the `key-value` string it pushes. The methods
    make each check through these two functions.
  - Each method is proved equal to a specification function, `Segments` / `SplicedPath`.
  - Lemmas prove the encoder's promises about that function:
    - only deviating knobs emit tokens, in the fixed knob order;
    - the defaults emit nothing;
    - the initial editor state encodes as `t_q-100`;
    - colours lose their first `#`;
    - the transform segment lands just before the file name.
  - The editor's field updates and the effects checkbox are modelled as pure record and list
    rebuilds.
- `numbers.dfy` (module `Numbers`) represents a JavaScript number as a canonical decimal. `!==` on
  numbers is then equality of values, and `Show` renders a number as a template literal does.
- `filetype.dfy` (module `FileType`) covers the extension extraction, the extension table and
  `getFileType`.
- `s3keys.dfy` (module `S3Keys`) covers the upload key and URL format, the listing projection and
  the key-prefix rule of the delete call.
- `assetcards.dfy` (module `AssetCards`) covers the card's file name, the size unit, the selection
  checkbox and the image-only gate of the editor.
- `deletemodal.dfy` (module `DeleteModal`) gives the keys sent for deletion and the files that
  remain.
- `dashboard.dfy` (module `Dashboard`) holds the dashboard page's functions: quota, new-file
  mapping, asset types, search and type filter. It also holds the page itself as `class Home`.
  - Its list state (`files`, `searched`, `selected`, `assetTypes`, the delete dialog and the
    editor's key) is updated in place by one method per handler.
  - After every change of the file list, `FilesChanged` runs what the page's effects run after one.
- `authrules.dfy` (module `AuthRules`) holds what the authentication pages share:
  - the field rules;
  - the email pattern, together with a direct decision procedure proved equivalent to it;
  - the outcome of an identity call;
  - the effect trace a handler leaves.
- `signup.dfy` (module `SignUp`) holds the sign-up page: the status check, the two-phase handler as
  `class SignUpPage`, and the one-way switch into verification.
- `resetpassword.dfy` (module `ResetPassword`) holds the reset page: its rules, the submit handler
  as `class ResetPasswordPage`, and the error mapping.
- `wrappers.dfy`, `seqs.dfy` and `strings.dfy` are shared helpers:
  - `Option`/`Result`, and JavaScript truthiness of a string (`Given`);
  - `filter`, and the distinct values of a `Set` in first-occurrence order;
  - `split`/`join`/`pop`/`indexOf`/`lastIndexOf`/`includes`/`toLowerCase`/`replace`.

Identity and storage calls are not modelled as behaviour. Each one is a parameter, an `Outcome`:
either a returned value or a thrown error with its name and message. A handler returns the trace
of effects it performs: calls, toasts, navigation, removing the stored email. The current time,
the upload timestamps and `nanoid(8)` are parameters too. URL parsing (`new URL(…).pathname`) is a
function parameter that either returns the path name or fails.

The model follows the code in three places a reader might not expect:

- With no deviating knob, the encoder does not return the input path unchanged. It returns `"/"`
  followed by the path's non-empty segments joined by `/`. Repeated and trailing slashes are
  therefore dropped.
- The encoder returns a path only, never the host.
- The effects are a list in insertion order, and duplicates are possible. They are not a set.

## Model

| member | source | states |
|---|---|---|
| Transform.EffectName | src/components/global-cmp/transformation-modal.tsx:21 | an effect's name is non-empty and has no comma, so a comma-joined list splits back into the names |
| Transform.EffectNamed | src/components/global-cmp/transformation-modal.tsx:21 | reading a name back gives an effect with exactly that name |
| Transform.EffectNameRoundTrip | src/components/global-cmp/transformation-modal.tsx:21 | naming an effect and reading the name back gives the same effect |
| Transform.EffectsTokenNames | src/components/global-cmp/transformation-modal.tsx:154 | the `e-` value, the effects joined with ",", splits back into the stored names in stored order |
| Transform.EffectNames | src/components/global-cmp/transformation-modal.tsx:154 | the names of the effects, one per effect, in stored order |
| Transform.RankInjective | src/components/global-cmp/transformation-modal.tsx:92-184 | the position of a knob in the order of checks identifies the knob |
| Transform.EffectsNonEmpty | src/components/global-cmp/transformation-modal.tsx:149-153 | the effects test (grayscale, negative or sepia included) holds iff the list is non-empty |
| Transform.DefaultsDeviateNowhere | src/components/global-cmp/transformation-modal.tsx:53-78 | no knob of the default table deviates from itself |
| Transform.NoDeviationIsDefaults | src/components/global-cmp/transformation-modal.tsx:53-78 | a record in which no knob deviates is the default table |
| Transform.AtDefaultSize | src/components/global-cmp/transformation-modal.tsx:53-63 | with no deviation, width, height, mode and blur are the defaults 800, 600, fit, 0 |
| Transform.AtDefaultOutput | src/components/global-cmp/transformation-modal.tsx:59-64 | with no deviation, format, quality, compression and brightness are the defaults |
| Transform.AtDefaultColour | src/components/global-cmp/transformation-modal.tsx:65-69 | with no deviation, contrast, saturation, hue, radius and rotate are the defaults |
| Transform.AtDefaultShape | src/components/global-cmp/transformation-modal.tsx:62-72 | with no deviation, flip is none, no effect is chosen, the border and its colour are the defaults |
| Transform.AtDefaultFinish | src/components/global-cmp/transformation-modal.tsx:73-77 | with no deviation, background, opacity, noise, median and threshold are the defaults |
| Transform.TokensFor | src/components/global-cmp/transformation-modal.tsx:92-184 | one token per listed knob, each the knob's own `key-value` token |
| Transform.PreviousRank | src/components/global-cmp/transformation-modal.tsx:92-184 | each knob but the first is checked right after its predecessor |
| Transform.KnobsUpToRanks | src/components/global-cmp/transformation-modal.tsx:92-184 | the knobs checked up to a knob are listed by their position, each once |
| Transform.AllKnobsChecked | src/components/global-cmp/transformation-modal.tsx:92-184 | every knob is checked before the encoder has finished |
| Transform.TokensForAppend | src/components/global-cmp/transformation-modal.tsx:92-184 | the tokens of two runs of knobs are the tokens of each, in that order |
| Transform.EmitExtends | src/components/global-cmp/transformation-modal.tsx:92-184 | one conditional push adds the knob's token exactly when the knob deviates |
| Transform.SegmentsSpec | src/components/global-cmp/transformation-modal.tsx:81-184 | the segments after any knob are "t" and then the tokens of the deviating knobs checked so far, in order |
| Transform.EncodedSegments | src/components/global-cmp/transformation-modal.tsx:81-184 | the finished segment list is "t" followed by the tokens of the emitted knobs |
| Transform.EmittedExactly | src/components/global-cmp/transformation-modal.tsx:92-184 | a knob emits a token iff it deviates from its default |
| Transform.EmittedInOrder | src/components/global-cmp/transformation-modal.tsx:92-184 | tokens come in the fixed order w, h, mode, blur, f, q, comp, bright, cont, sat, hue, r, rot, flip, e, b, bc, bg, op, noise, median, thr, whatever the edit history |
| Transform.NoTokensIffDefaults | src/components/global-cmp/transformation-modal.tsx:81-187 | the segment list is only the sentinel "t" iff the record is the default table |
| Transform.TaggedJoin | src/components/global-cmp/transformation-modal.tsx:187 | with at least one token, the transform string is "t_" and the tokens joined by "_" |
| Transform.TransformStringShape | src/components/global-cmp/transformation-modal.tsx:187 | any non-default record gives "t_" followed by its tokens joined by "_" |
| Transform.SingleDeviation | src/components/global-cmp/transformation-modal.tsx:92-187 | when exactly one knob deviates, the transform string is "t_" and that knob's one token |
| Transform.InitialDiffersOnlyInQuality | src/components/global-cmp/transformation-modal.tsx:207-232 | the editor's initial record is the default table with quality 100 instead of 80 |
| Transform.InitialDeviatesOnlyInQuality | src/components/global-cmp/transformation-modal.tsx:207-232 | quality is the only knob in which the initial record deviates |
| Transform.ShowHundred | src/components/global-cmp/transformation-modal.tsx:114 | the number 100 renders as "100" |
| Transform.InitialEncoding | src/components/global-cmp/transformation-modal.tsx:274-277 | the first encoding of a freshly opened editor is the one segment "t_q-100" |
| Transform.InitialSegments | src/components/global-cmp/transformation-modal.tsx:207-232 | the initial record's segments are "t" and its quality token |
| Transform.InitialQualityToken | src/components/global-cmp/transformation-modal.tsx:113-115 | the initial quality token is "q-100" |
| Transform.QualityToken | src/components/global-cmp/transformation-modal.tsx:113-115 | the quality token is "q-" followed by the rendered quality |
| Transform.OneTokenString | src/components/global-cmp/transformation-modal.tsx:187 | a single token gives the transform string "t_" and that token |
| Transform.BorderColorToken | src/components/global-cmp/transformation-modal.tsx:161-163 | the `bc-` token carries the colour without its leading '#'; "#112233" gives "bc-112233" |
| Transform.BackgroundToken | src/components/global-cmp/transformation-modal.tsx:166-168 | the `bg-` token carries the colour without its leading '#' |
| Transform.InsertBeforeLast | src/components/global-cmp/transformation-modal.tsx:192-194 | `splice(-1, 0, x)`: x goes just before the last segment, or becomes the only one; the others keep their order |
| Transform.SplicedPathSegments | src/components/global-cmp/transformation-modal.tsx:187-196 | the returned path splits into "" and the path's non-empty segments with the transform string inserted before the last |
| Transform.DefaultsKeepPath | src/components/global-cmp/transformation-modal.tsx:186-196 | for the defaults the result is "/" and the non-empty path segments joined by "/"; an unparsable URL fails |
| Transform.DeviationInsertsSegment | src/components/global-cmp/transformation-modal.tsx:186-196 | for any other record, "t_…" is inserted before the last path segment, and only the path is returned |
| Transform.ModeSegments | src/components/global-cmp/transformation-modal.tsx:99-105 | the segments after the mode and blur checks are the segments before them extended by each of those checks, in source order |
| Transform.OutputSegments | src/components/global-cmp/transformation-modal.tsx:107-120 | the segments after the format, quality and compression checks are the segments before them extended by each of those checks, in source order |
| Transform.ColourSegments | src/components/global-cmp/transformation-modal.tsx:121-133 | the segments after the brightness, contrast, saturation and hue checks are the segments before them extended by each of those checks, in source order |
| Transform.ShapeSegments | src/components/global-cmp/transformation-modal.tsx:135-143 | the segments after the radius and rotation checks are the segments before them extended by each of those checks, in source order |
| Transform.FlipSegments | src/components/global-cmp/transformation-modal.tsx:145-155 | the segments after the flip and effects checks are the segments before them extended by each of those checks, in source order |
| Transform.BorderSegments | src/components/global-cmp/transformation-modal.tsx:157-168 | the segments after the border, border-colour and background checks are the segments before them extended by each of those checks, in source order |
| Transform.FinishSegments | src/components/global-cmp/transformation-modal.tsx:170-184 | the segments after the opacity, noise, median and threshold checks are the segments before them extended by each of those checks, in source order |
| Transform.PushResizeTokens | src/components/global-cmp/transformation-modal.tsx:91-97 | the method pushes the width and height tokens exactly as the specification's segments up to height |
| Transform.PushModeTokens | src/components/global-cmp/transformation-modal.tsx:99-105 | pushes the mode and blur tokens, giving the segments up to blur |
| Transform.PushOutputTokens | src/components/global-cmp/transformation-modal.tsx:107-120 | pushes the format, quality and compression tokens, giving the segments up to compression |
| Transform.PushColourTokens | src/components/global-cmp/transformation-modal.tsx:121-133 | pushes the brightness, contrast, saturation and hue tokens, giving the segments up to hue |
| Transform.PushShapeTokens | src/components/global-cmp/transformation-modal.tsx:135-143 | pushes the radius and rotation tokens, giving the segments up to rotate |
| Transform.PushFlipTokens | src/components/global-cmp/transformation-modal.tsx:145-155 | pushes the flip and effects tokens, giving the segments up to effects |
| Transform.PushBorderTokens | src/components/global-cmp/transformation-modal.tsx:157-168 | pushes the border, border-colour and background tokens, giving the segments up to background |
| Transform.PushFinishTokens | src/components/global-cmp/transformation-modal.tsx:170-184 | pushes the opacity, noise, median and threshold tokens, giving the complete segment list |
| Transform.SplicePath | src/components/global-cmp/transformation-modal.tsx:187-196 | the in-place splice and join produce the specified path |
| Transform.ConvertParamsToUrl | src/components/global-cmp/transformation-modal.tsx:80-197 | the encoder's result is the specified one: a failure for an unparsable URL, otherwise the spliced path |
| Transform.CurrentSetting | src/components/global-cmp/transformation-modal.tsx:253-272 | reading a knob's current value gives a setting of the same field |
| Transform.SettingTakesEffect | src/components/global-cmp/transformation-modal.tsx:253-258 | after `handleInputChange`, the named field holds the new value |
| Transform.SettingOwnValue | src/components/global-cmp/transformation-modal.tsx:253-258 | setting a field to its current value changes nothing |
| Transform.KnobReadsOnlyItsField | src/components/global-cmp/transformation-modal.tsx:92-184 | whether a knob deviates, and its token, depend only on that knob's field |
| Transform.SettingKeepsOtherFields | src/components/global-cmp/transformation-modal.tsx:253-258 | `handleInputChange` leaves every other field unchanged |
| Transform.SettingKeepsOtherTokens | src/components/global-cmp/transformation-modal.tsx:253-258 | a change to one field changes no other knob's deviation or token |
| Transform.ApplyDimension | src/components/global-cmp/transformation-modal.tsx:260-272 | `handleNestedChange` sets the named side of `resize` and keeps the other side and every other field |
| Transform.DimensionIsResizeSetting | src/components/global-cmp/transformation-modal.tsx:260-272 | a nested change is a whole-`resize` change that keeps the other dimension |
| Transform.EffectCheckedIffIn | src/components/global-cmp/transformation-modal.tsx:455-457 | the checkbox shows checked iff the effect is in the list |
| Transform.ToggleEffect | src/components/global-cmp/transformation-modal.tsx:458-462 | checking appends the effect; unchecking removes every occurrence and keeps every other effect |
| Transform.UncheckKeepsOthers | src/components/global-cmp/transformation-modal.tsx:460-461 | unchecking keeps each other effect as many times as it was present |
| Transform.UncheckKeepsOrder | src/components/global-cmp/transformation-modal.tsx:460-461 | unchecking keeps the relative order of the others |
| Transform.ToggleShows | src/components/global-cmp/transformation-modal.tsx:455-462 | after the change the checkbox shows the state it was switched to |
| Transform.PromptPath | src/components/global-cmp/transformation-modal.tsx:241-244 | a reply is accepted iff it contains "t_", and becomes "/bucketId/reply/fileKey" |
| Numbers.SameValueSameDecimal | src/components/global-cmp/transformation-modal.tsx:92 | two canonical decimals of equal value are equal, so `!==` on numbers is inequality of the records |
| Numbers.Show | src/components/global-cmp/transformation-modal.tsx:92-184 | a rendered number is non-empty and starts with '-' iff it is negative |
| Numbers.ShowChars | src/components/global-cmp/transformation-modal.tsx:92-184 | a rendered number is made of digits, a '-' only in front, and a '.' iff it has a fractional part |
| Numbers.ShowInt | src/components/global-cmp/transformation-modal.tsx:93 | an integer renders as its optional sign and its decimal digits |
| FileType.Extension | src/utils/file-type.ts:90-93 | the extension is non-empty and lower-case; from a URL it has no '?' and no '.' unless it is the fallback; from a MIME type it has no '/' |
| FileType.UrlExtension | src/utils/file-type.ts:90-93 | with a URL, the extension is the lower-cased text after the last '.' of the part before the first '?', and "doc" when that text is empty |
| FileType.MimeExtension | src/utils/file-type.ts:93 | without a URL, the extension is the lower-cased text after the '/' of the file's MIME type, and "doc" when that text is empty |
| FileType.MimeWithoutSubtype | src/utils/file-type.ts:93 | a MIME type without '/' is taken whole and lower-cased; the empty type gives "doc", a document |
| FileType.DotEndingIsDocument | src/utils/file-type.ts:92-93 | the URL "a." has the empty extension and falls back to "doc", a document |
| FileType.EmptySubtypeIsDocument | src/utils/file-type.ts:93 | a local file of type "image/" falls back to "doc", a document |
| FileType.UpperCaseExtension | src/utils/file-type.ts:90-97 | "IMG_0001.JPG" has extension "jpg" and is an image |
| FileType.MimeTypeExample | src/utils/file-type.ts:93-97 | a local file of type "image/PNG" has extension "png" and is an image |
| FileType.QueryIgnored | src/utils/file-type.ts:90-92 | "a.png?v=1.2" has extension "png" |
| FileType.EmptyIsDocument | src/utils/file-type.ts:93 | with neither URL nor file the extension falls back to "doc", a document |
| FileType.CategoryOf | src/utils/file-type.ts:94-97 | the category is "unknown" exactly for extensions the table does not list |
| FileType.ImageIff | src/utils/file-type.ts:30-38 | the category is image iff the extension is png, jpg, jpeg, gif, bmp, svg, webp, heic or psd |
| FileType.GetFileType | src/utils/file-type.ts:89-109 | mimeType, category and url are as extracted; an object URL exists iff the file is a local image given without a URL |
| FileType.CategoryAsWritten | src/utils/file-type.ts:94-97 | the lookup as written agrees with the table for every extension that is not an inherited object key |
| FileType.PrototypeKeyHasNoCategory | src/utils/file-type.ts:94-97 | "a.constructor" has extension "constructor"; the lookup as written finds no category, the corrected lookup gives unknown |
| FileType.ConstructorNotInTable | src/utils/file-type.ts:28-87 | "constructor" is not an extension of the table |
| S3Keys.BaseName | src/utils/s3-actions.ts:29 | with no '.', the base name is empty; otherwise the name is the base name, '.', and the extension |
| S3Keys.UploadKeyShape | src/utils/s3-actions.ts:28-35 | the key of "base.ext" is bucketId + "/" + base + "-" + timestamp + "." + ext |
| S3Keys.UploadKeyWithoutDot | src/utils/s3-actions.ts:28-35 | a name without '.' gives bucketId + "/-" + timestamp + "." + name |
| S3Keys.UploadKeyKeepsExtension | src/utils/s3-actions.ts:28-35 | the key ends in the file's extension |
| S3Keys.UploadKeyLastSegment | src/utils/s3-actions.ts:33-35 | for a name without '/', the last segment of the key is the uploaded file name |
| S3Keys.ObjectUrl | src/utils/s3-actions.ts:47-49 | the CloudFront URL ends with the key |
| S3Keys.UploadOne | src/utils/s3-actions.ts:26-57 | the upload result carries the key built from the name and timestamp, its URL, and the file's size |
| S3Keys.UploadAll | src/utils/s3-actions.ts:59-69 | the batch result has one entry per file, in file order |
| S3Keys.UploadKeyInFolder | src/utils/s3-actions.ts:33-35 | every upload key lies under the listing prefix bucketId + "/" |
| S3Keys.Listing | src/utils/s3-actions.ts:84-101 | the listing has at most as many files as items, each with a non-empty key and its URL |
| S3Keys.ListingAppend | src/utils/s3-actions.ts:84-101 | the listing keeps the items' order |
| S3Keys.ListingDropsUnkeyed | src/utils/s3-actions.ts:86 | an item without a key is dropped |
| S3Keys.ListingKeepsKeyed | src/utils/s3-actions.ts:88-97 | a keyed item becomes a file with its full key, its URL, its date or now, and its size or 0 |
| S3Keys.ListingAllKeyed | src/utils/s3-actions.ts:84-101 | when every item has a key, the listing has the same length and the same keys |
| S3Keys.DeleteKeyAsWritten | src/utils/s3-actions.ts:115-121 | the delete rule as written: the sent key always contains the bucket id |
| S3Keys.ContainedIdSkipsPrefix | src/utils/s3-actions.ts:115-121 | when the base name starts with the bucket id, the rule as written sends the bare file name, which is not the stored key |
| S3Keys.ContainedIdExample | src/utils/s3-actions.ts:115-121 | bucket "abcdefgh", file "abcdefgh.png": the held key is sent without the folder |
| S3Keys.DeleteKey | src/utils/s3-actions.ts:115-121 | corrected rule: the sent key lies under bucketId + "/", and a key already there is sent unchanged |
| S3Keys.DeleteKeyIdempotent | src/utils/s3-actions.ts:115-121 | applying the rule twice is applying it once |
| S3Keys.DeleteKeyAgrees | src/utils/s3-actions.ts:115-121 | the corrected rule agrees with the rule as written for keys under the folder and keys without the bucket id |
| S3Keys.DeleteKeyFindsUpload | src/utils/s3-actions.ts:115-121 | both the full upload key and its last segment are sent as the stored key |
| S3Keys.DeleteObjectKeys | src/utils/s3-actions.ts:115-121 | one key per input key, in order, each under the folder |
| AssetCards.GetFileName | src/components/global-cmp/asset-cards.tsx:54-56 | the text after the last '/': a suffix without '/', the key itself without '/', "" after a trailing '/' |
| AssetCards.UnitThresholds | src/components/global-cmp/asset-cards.tsx:22-36 | KB below 500·1024 bytes, MB below 1000·1024·1024 bytes, GB from there, each iff |
| AssetCards.Toggle | src/components/global-cmp/asset-cards.tsx:85-91 | checking appends the file, without de-duplication; unchecking keeps exactly the files with another key |
| AssetCards.ToggleShows | src/components/global-cmp/asset-cards.tsx:83-91 | after the change the card shows the state it was switched to |
| AssetCards.UncheckCounts | src/components/global-cmp/asset-cards.tsx:88-90 | unchecking keeps every file of another key as many times as it was selected |
| AssetCards.UncheckKeepsOrder | src/components/global-cmp/asset-cards.tsx:148-150 | unchecking keeps the selection's order |
| AssetCards.TransformTarget | src/components/global-cmp/asset-cards.tsx:114 | an image sets the editor's key to its file name (which may be empty); any other file leaves the key unchanged |
| AssetCards.EditorOpensForNamedImages | src/components/global-cmp/asset-cards.tsx:220-231 | the editor is shown for an image exactly when its file name is non-empty, so never for a key ending in '/' |
| AssetCards.TransformOnlyImages | src/components/global-cmp/asset-cards.tsx:190 | the editor's key changes only for a file whose extension is an image extension |
| DeleteModal.SentKeys | src/components/global-cmp/delete-modal.tsx:24-26 | with a key exactly [key] is sent, otherwise the selected keys in selection order |
| DeleteModal.Remaining | src/components/global-cmp/delete-modal.tsx:27-31 | a file remains iff it is in the list and not removed |
| DeleteModal.RemovesByKey | src/components/global-cmp/delete-modal.tsx:29 | with a key, exactly the files with that key are removed |
| DeleteModal.RemainingCounts | src/components/global-cmp/delete-modal.tsx:27-31 | a file that stays keeps all its occurrences |
| DeleteModal.RemainingKeepsOrder | src/components/global-cmp/delete-modal.tsx:27-31 | the files that stay keep their relative order |
| DeleteModal.SentKeysCoverRemoved | src/components/global-cmp/delete-modal.tsx:24-31 | every file removed from a multi-file delete had its key sent |
| Dashboard.SumAppend | src/pages/dashboard/home.tsx:71-77 | the size total of two lists is the sum of their totals |
| Dashboard.ExtractFilename | src/pages/dashboard/home.tsx:60-67 | the text after the last '/', and the whole key iff it has no '/' |
| Dashboard.HeldKey | src/pages/dashboard/home.tsx:105 | the held key is the last segment of the upload key, or the whole key when that segment is empty |
| Dashboard.NewFile | src/pages/dashboard/home.tsx:104-109 | the new file has the held key, the upload's size and the current time; a URL without "%20" is unchanged |
| Dashboard.NewFileEscapesSpaces | src/pages/dashboard/home.tsx:106 | the first "%20" of the URL becomes "%2520", the text before it is kept, and the rest is rewritten in the same way |
| Dashboard.NewFiles | src/pages/dashboard/home.tsx:104-109 | one new file per upload result, in result order |
| Dashboard.StoredSizesAppend | src/pages/dashboard/home.tsx:71-73 | the sizes of two lists are the sizes of each |
| Dashboard.UploadedSizes | src/pages/dashboard/home.tsx:102-109 | the new files have exactly the picked files' sizes |
| Dashboard.ButtonUploadAsWritten | src/pages/dashboard/home.tsx:71-111 | the Upload button's batch: the quota test reads the list `checked` of an earlier render and the files go before the current list; when both lists agree, an accepted batch stays within 20 MB |
| Dashboard.StaleListAcceptsOverQuota | src/pages/dashboard/home.tsx:129-142 | with 15 MB stored and the first render's empty list still in the button's handler, 10 MB more are accepted and 25 MB end up stored, although the current list fails the test |
| Dashboard.StaleListRefusesAfterDelete | src/pages/dashboard/home.tsx:129-142 | after the stored 15 MB file is deleted, the button's old list still counts it and refuses a 10 MB file that fits |
| Dashboard.AcceptedUploadStaysWithinQuota | src/pages/dashboard/home.tsx:79-111 | after an accepted upload the stored total is at most 20·1024·1024 bytes |
| Dashboard.TypesOfFiles | src/pages/dashboard/home.tsx:53 | a type is listed iff some file has it |
| Dashboard.TypeIsNotAll | src/pages/dashboard/home.tsx:53 | no file's type is "All", since types are lower-case |
| Dashboard.AssetTypes | src/pages/dashboard/home.tsx:47-58 | "All" first, then each file type exactly once, in first-occurrence order |
| Dashboard.Matches | src/pages/dashboard/home.tsx:148-151 | a file matches iff its key contains the query, both lower-cased |
| Dashboard.MatchesKeepOrder | src/pages/dashboard/home.tsx:149-151 | matches keep the files' order |
| Dashboard.EmptyQueryMatchesAll | src/pages/dashboard/home.tsx:148-151 | the empty query matches every file |
| Dashboard.MatchesIgnoreCase | src/pages/dashboard/home.tsx:150 | the query's case does not matter |
| Dashboard.OfType | src/pages/dashboard/home.tsx:156 | a file is kept iff its extension equals the chosen type |
| Dashboard.AllMatchesNone | src/pages/dashboard/home.tsx:156 | choosing "All" keeps no file |
| Dashboard.Home.Shown | src/pages/dashboard/home.tsx:316-331 | the shown list holds only files of the page |
| Dashboard.Home.constructor | src/pages/dashboard/home.tsx:31-38 | every list starts empty, the delete dialog closed and the editor without a key |
| Dashboard.Home.FilesChanged | src/pages/dashboard/home.tsx:47-58 | after a file-list change the search is reset and the asset types are recomputed when the list is non-empty |
| Dashboard.Home.Load | src/pages/dashboard/home.tsx:43-45 | loading sets the files to the listing, and the change effects run |
| Dashboard.Home.HandleUploadFiles | src/pages/dashboard/home.tsx:69-127 | an upload starts iff the total stays within 20 MB; on success the new files are prepended and the total stays within the quota; a refused or failed upload changes nothing |
| Dashboard.Home.Search | src/pages/dashboard/home.tsx:148-153 | the matches replace the search result, which is kept when nothing matches |
| Dashboard.Home.SelectAsset | src/pages/dashboard/home.tsx:155-157 | the search result becomes the files of that type; for "All" the full list is shown |
| Dashboard.Home.SetChecked | src/components/global-cmp/asset-cards.tsx:83-91 | the selection becomes the toggled selection, and the card shows the new state |
| Dashboard.Home.OpenTransform | src/components/global-cmp/asset-cards.tsx:114 | the editor's key follows the image-only gate; nothing else changes (the key is `AssetCards`' own state in the page, gathered here) |
| Dashboard.Home.OpenDelete | src/components/global-cmp/delete-modal.tsx:51 | the delete dialog opens; nothing else changes (the flag belongs to each `DeleteModal` in the page, gathered here) |
| Dashboard.Home.CancelDelete | src/components/global-cmp/delete-modal.tsx:42 | the delete dialog closes; nothing else changes (the flag belongs to each `DeleteModal` in the page, gathered here) |
| Dashboard.Home.ConfirmDelete | src/components/global-cmp/delete-modal.tsx:23-35 | the sent keys are prefixed; the remaining files keep their order; the selection is emptied and the dialog closed, even for one key |
| AuthRules.EmailDecision | src/pages/auth/signup.tsx:27 | the direct decision accepts exactly what the email pattern matches, in both directions |
| AuthRules.ValidEmailHasParts | src/pages/auth/signup.tsx:27 | what the decision accepts splits into local part, '@', domain, '.', and two or more letters |
| AuthRules.PartsAreFound | src/pages/auth/signup.tsx:27 | any string the pattern matches is accepted by the decision |
| AuthRules.PasswordError | src/pages/auth/signup.tsx:33-38 | a password is refused iff it is shorter than 8 characters |
| AuthRules.ConfirmError | src/pages/auth/reset-password.tsx:26-34 | the confirmation is accepted iff it equals the new password |
| SignUp.CheckUserStatus | src/pages/auth/signup.tsx:68-75 | a throwing sign-in means the user does not exist; a signed-in outcome means confirmed; otherwise unconfirmed |
| SignUp.RequiredExactlyDisplayed | src/pages/auth/signup.tsx:32-52 | password and terms are required only before verification, the code only during it |
| AuthRules.CodeError | src/pages/auth/reset-password.tsx:9-15 | a code is accepted iff it is exactly 6 ASCII digits; otherwise the rule's message is shown (the same rule guards the sign-up page's verification code, src/pages/auth/signup.tsx:42-46) |
| SignUp.EmailError | src/pages/auth/signup.tsx:24-30 | an email is accepted iff the pattern matches it |
| SignUp.TermsComeFirst | src/pages/auth/signup.tsx:84-87 | without the terms the handler shows one error and makes no identity call |
| SignUp.ConfirmedUserStops | src/pages/auth/signup.tsx:102-105 | a confirmed user gets an error and never reaches verification |
| SignUp.UnconfirmedUserResends | src/pages/auth/signup.tsx:96-101 | an unconfirmed user enters verification and the code is resent, with no sign-up call |
| SignUp.SignUpOnlyForNewUsers | src/pages/auth/signup.tsx:107-119 | sign-up is called only for a user that does not exist, with the email, password and bucket id |
| SignUp.NewUserVerifiesOnConfirmStep | src/pages/auth/signup.tsx:119-126 | a new user enters verification iff sign-up returns the CONFIRM_SIGN_UP step |
| SignUp.DashboardAfterConfirmation | src/pages/auth/signup.tsx:138-166 | verification leads to the dashboard iff the confirmation and the sign-in both succeed |
| SignUp.SignUpPage.constructor | src/pages/auth/signup.tsx:17-20 | the page starts outside verification with no stored credentials |
| SignUp.SignUpPage.HandleInitialSignup | src/pages/auth/signup.tsx:77-136 | trace and state follow the first-phase handler, including a refused sign-up's toast for any thrown value; the credentials are stored exactly when verification begins |
| SignUp.SignUpRefusal | src/pages/auth/signup.tsx:127-132 | a refused sign-up shows the thrown value's own non-empty `message`, `Error` or not, and the fallback otherwise; a thrown `null` or `undefined` shows no toast; verification does not start |
| SignUp.NonErrorMessageShown | src/pages/auth/signup.tsx:127-129 | a thrown object that is not an `Error` but has the message "Network down" shows "Network down" |
| AuthRules.MessageOf | src/pages/auth/signup.tsx:129 | `error.message` without an `instanceof Error` test: an `Error`'s message, another object's string message, and nothing (a TypeError) for `null` or `undefined` |
| SignUp.SignUpPage.HandleVerification | src/pages/auth/signup.tsx:138-166 | the trace follows the verification handler with the stored credentials; the phase stays put |
| SignUp.SignUpPage.Submit | src/pages/auth/signup.tsx:181 | the form dispatches by phase; once in verification the page never leaves it; the verification calls use the stored credentials, which change only when verification begins, and `loading` is reset after every handled submit |
| ResetPassword.AcceptableForms | src/pages/auth/reset-password.tsx:8-35 | a form passes all three rules iff the code has six digits, the password at least 8 characters and the confirmation equals it |
| ResetPassword.ErrorEffectsKeepEmail | src/pages/auth/reset-password.tsx:73-94 | no refusal removes the stored email or opens the success page |
| ResetPassword.NoEmailNoReset | src/pages/auth/reset-password.tsx:52-56 | without a stored email no identity call is made and the user is sent to /forgot-password |
| ResetPassword.SuccessTrace | src/pages/auth/reset-password.tsx:62-72 | a successful reset makes the call, removes the email, shows the toast and opens /reset-success, in that order |
| ResetPassword.NoRemovalOtherwise | src/pages/auth/reset-password.tsx:52-94 | without a successful reset the email is kept and /reset-success is not opened |
| ResetPassword.RemovedBeforeSuccessPage | src/pages/auth/reset-password.tsx:62-72 | the email is removed iff the reset succeeded, iff /reset-success is opened, and always before it |
| ResetPassword.RefusalEffects | src/pages/auth/reset-password.tsx:73-94 | a refused reset shows an error toast and keeps the email; only an expired code leads back to /forgot-password |
| ResetPassword.ResetPasswordPage.constructor | src/pages/auth/reset-password.tsx:39 | the page holds the stored email |
| ResetPassword.ResetPasswordPage.HandleSubmit | src/pages/auth/reset-password.tsx:48-99 | the trace is the specified one, and the stored email is cleared exactly when the trace removes it |
| Strings.Split | src/utils/file-type.ts:92-93 | `split(c)` gives at least one part, and no part contains c ("" splits into [""]) |
| Strings.SplitJoin | src/components/global-cmp/transformation-modal.tsx:196 | splitting a join of separator-free parts gives back the parts |
| Strings.AfterLast | src/utils/file-type.ts:92 | `split(c).pop()` is a suffix free of c, preceded by c, and the whole string iff c is absent |
| Strings.ToLower | src/pages/dashboard/home.tsx:150 | `toLowerCase` keeps the length, leaves no upper-case letter and keeps every other character |
| Strings.ToLowerIdempotent | src/pages/dashboard/home.tsx:150 | lower-casing twice is lower-casing once |
| Strings.ReplaceAllStep | src/pages/dashboard/home.tsx:106 | `replace(/%20/g, …)` keeps the text before the first occurrence, replaces that occurrence and carries on after it |
| Strings.ReplaceAll | src/pages/dashboard/home.tsx:106 | `replace(/%20/g, …)` leaves a string without the pattern unchanged |
| Strings.ContainsAt | src/pages/dashboard/home.tsx:150 | `includes` holds iff the pattern occurs at some position |
| Strings.IndexOf | src/components/global-cmp/transformation-modal.tsx:162 | the position `replace("#", "")` acts on: the first occurrence of the character, or -1 when there is none |
| Strings.LastIndexOf | src/utils/s3-actions.ts:29 | `lastIndexOf(".")`: the last occurrence of the character, or -1 when there is none |
| Strings.BeforeFirst | src/utils/file-type.ts:92 | `split('?')[0]` is a prefix free of the character, and the whole string iff the character is absent |
| Strings.RemoveFirst | src/components/global-cmp/transformation-modal.tsx:162 | `replace("#", "")` drops the first occurrence only, keeping the rest in place |
| Strings.ParseNatToString | src/utils/s3-actions.ts:35 | the decimal digits of a timestamp read back as the timestamp |
| Strings.NatToString | src/utils/s3-actions.ts:35 | the timestamp in the key is a non-empty run of decimal digits with no leading zero |
| Strings.NonEmptyParts | src/components/global-cmp/transformation-modal.tsx:189 | `split("/").filter(Boolean)` keeps exactly the non-empty parts, none containing '/' |
| Seqs.Filter | src/components/global-cmp/delete-modal.tsx:28-29 | `filter` keeps exactly the values the test accepts, and no more of them than there were |
| Seqs.FilterCounts | src/components/global-cmp/delete-modal.tsx:28 | `filter` keeps each kept value as many times as it occurs and drops the rest |
| Seqs.FilterAppend | src/components/global-cmp/delete-modal.tsx:28 | `filter` distributes over concatenation, so it keeps the order |
| Seqs.Distinct | src/pages/dashboard/home.tsx:52-54 | `new Set` holds exactly the values of the list, each once |
| Seqs.DistinctFirstOccurrenceOrder | src/pages/dashboard/home.tsx:52-54 | the values of a `Set` come in first-occurrence order |

## Left out

- URL parsing: `new URL(imageUrl).pathname` follows the WHATWG URL Standard. Here it is a function parameter that returns the path name or fails, so percent-encoding and dot-segment handling are not modelled.
- Numbers: a JavaScript number is modelled as a finite decimal. Floating point arithmetic and its artifacts, exponent notation, NaN and infinities are not modelled. Neither are the slider steps that produce such values.
- AssetCards.UnitThresholds: only the unit `normalizeFileSize` picks is modelled, not the `toFixed(2)` digits.
- Time and randomness: `Date.now()`, `new Date()` and `nanoid(8)` are parameters of the members that use them.
- Identity and storage calls (Amplify `signIn`, `signUp`, `resendSignUpCode`, `confirmSignUp`, `confirmResetPassword`; the S3 `PutObject`, `ListObjectsV2` and `DeleteObjects` commands) are parameters carrying their outcome. `Promise.all` is one outcome for the whole batch.
- The model has no concurrency or timing between awaits. Each handler runs to completion, and the page's effects run at the end of the method that changes the list.
- Dashboard.AcceptedUploadStaysWithinQuota and Dashboard.Home.HandleUploadFiles: these state the handler with its quota test reading the current list, the corrected behaviour. The Upload button's memoised handler, which tests an older list, is `ButtonUploadAsWritten`; see Findings. Even the corrected bound holds only if no other upload and no listing completes between the size check and the prepend. The drop zone calls `handleUploadFiles` without the `isUploading` guard of the file input (home.tsx:279, :131). So two quick drops are both checked against the same `s3Files`, and both are prepended. A drop made before the first listing arrives is checked against the empty list. The model runs each handler to completion, so it does not capture these interleavings.
- The dashboard's load error toast and the loading and uploading flags are not modelled. Nor are toasts that only inform, as in the quota message or "Currently only images can be transformed".
- The form engine that combines `required`, `pattern` and `validate` is not part of this model. Only the individual rules are, so a handler receives its values already validated or none.
- The resend button of the sign-up page and the reset page's on-mount redirect (reset-password.tsx:41-46) are left out. The first is another call of the same resend; the second is navigation with no state.
- The editor's React state (`setParams`, the effect that re-encodes on every change, `transformedUrl`) is not modelled. Its updates are pure functions of the record (`ApplySetting`, `ApplyDimension`, `ToggleEffect`), and the encoder is a method.
- `isDifferent` (transformation-modal.tsx:84-89) is never called, so it has no counterpart.
- The LLM prompt template and the language-model call are left out. Only the acceptance of a reply containing "t_" is modelled (`PromptPath`).
- The select bar (bulk download, share, clipboard), file previews, the login and forgot-password pages (they repeat the rules above), routing, layout and the global store are not part of this model. The bucket id is passed explicitly.
- Strings are sequences of characters. JavaScript measures length in UTF-16 code units, which matters only for characters outside the Basic Multilingual Plane.
- Strings.ToLower: case mapping covers the ASCII letters 'A'-'Z' only. `toLowerCase` also lowers other Unicode letters, such as 'É', and can change a string's length ('İ'). The model has no Unicode case tables. So Dashboard.Matches, Dashboard.MatchesIgnoreCase and Dashboard.Home.Search ignore letter case only for ASCII letters, and FileType.Extension lowers only ASCII letters.
- AuthRules.MessageOf: a non-`Error` thrown object's `message` is modelled as a string or absent. A truthy `message` that is not a string, which `toast.error` would receive as it is, is not modelled.
- Reference identity: `selectedS3Files.includes(file)` compares object references. Here it compares record values, so two equal records are not told apart.
- Dashboard.Home.ConfirmDelete and S3Keys.DeleteObjectKeys send keys through the corrected prefix rule `DeleteKey`. The rule as written is `DeleteKeyAsWritten`; see Findings.
- FileType.GetFileType uses the corrected table lookup `CategoryOf`. The lookup as written is `CategoryAsWritten`; see Findings.
- S3Keys.DeleteObjectKeys also does not model the error toast when the call fails: the dashboard filters its list either way, and the model does the same.

## Findings

| source | as written | input that shows it | evidently intended | confidence | as-written member | corrected member |
|---|---|---|---|---|---|---|
| src/pages/dashboard/home.tsx:129-142 | `handleFileChange` is memoised on `[isUploading]` only, and `isUploading` changes only after the quota test, so the Upload button calls a `handleUploadFiles` whose `s3Files` is that of an earlier render | 15 MB stored since the first listing, then a 10 MB file picked with the button: the test sees the empty first list and 25 MB end up stored; after a delete, a file that fits can be refused | the quota test reads the current list, so an accepted batch never stores more than 20 MB | medium, not executed | Dashboard.StaleListAcceptsOverQuota | Dashboard.Home.HandleUploadFiles |
| src/utils/file-type.ts:94-97 | `EXTENSION_TYPE_MAP[mimeType]` indexes a plain object, so an extension that names an inherited property finds that property instead of falling back | a URL ending in ".constructor": the lookup returns `Object`'s constructor, whose `category` is undefined, not "unknown" | every extension the table does not list has category "unknown" | medium, not executed | FileType.PrototypeKeyHasNoCategory | FileType.CategoryOf |
| src/utils/s3-actions.ts:115-121 | a key is sent unprefixed when it merely contains the bucket id anywhere | bucket "abcdefgh", file "abcdefgh.png", timestamp 1: the dashboard holds "abcdefgh-1.png", and the delete sends that instead of "abcdefgh/abcdefgh-1.png" | prefix every key not already under "bucketId/" | low, not executed | S3Keys.ContainedIdSkipsPrefix | S3Keys.DeleteKeyFindsUpload |
