# Universal KYC backend: sanitiser, asset paths and moderation record

This project models, in Dafny, the three self-contained pieces of the KYC
backend that prepare identity data and assets for moderation:

- **Aadhaar field sanitiser** (`set_aadhar.dfy`). It turns the OCR field bag
  returned by the recognition provider, and the user-declared KYC record, into
  two bags with the same five fields: documentNumber, name, dateOfBirth,
  firstIssueDate and address. It trims, deletes the `^` OCR mark from names and
  addresses, and joins the declared address parts with `", "` in a fixed order.
  A field that is `undefined` where the code calls a string method or reads a
  property becomes an `UndefinedField` error, as the JavaScript TypeError would.
- **Asset handling** (`file_handler.dfy`). This covers the MIME allowlist upload
  filter, the 100 MiB size limit and the `.jpg` → `.jpeg` rewrite for re-encoded
  JPGs. It also covers how the stored relative and absolute paths of the selfie,
  the document and the optional document back are built, and the removal of a
  KYC record's asset folder. The file system is an `AssetStore` object: a map
  from absolute path to bytes, plus a set of directories. Its methods update
  them as `fs.writeFile`, `fs.mkdirSync` and `fs.rm` would.
- **Moderation record** (`moderation.dfy`). This is the stored record, the
  `Pending | Failed | Completed` status enumeration and the defaults the schema
  fills in on creation. Creation fails when `kycId` is missing or `status` is
  not in the enumeration.

`js_text.dfy` writes out the JavaScript string built-ins these pieces rely on:
`trim` (with ECMAScript's white-space and line-terminator set listed
explicitly), a global one-character `replace`, `split`/`join`, and template
rendering of `undefined`. `wrappers.dfy` holds `Option` and `Result`.

Collaborators whose code is not part of this model are parameters:
- the date formatter `formatDate` is a function argument of the declared-side
  sanitiser;
- the image library's JPEG re-encoding is the `toJpeg` constant of `AssetStore`;
- the `"mod-"` identifier generator's output and the save time are arguments of
  `CreateModeration`;
- the project root (`path.join(__dirname, "..")`) is the `root` of `AssetStore`.

## Model

| member | source | states |
|---|---|---|
| JsText.Trim | utils/setDoc/setAadhar.js:6 | the result is the input with a white-space prefix and suffix cut away, and it neither starts nor ends with white space |
| JsText.TrimStart | utils/setDoc/setAadhar.js:6 | the result is a suffix of the input, everything dropped is white space, and the result does not start with white space |
| JsText.TrimEnd | utils/setDoc/setAadhar.js:6 | the result is a prefix of the input, everything dropped is white space, and the result does not end with white space |
| JsText.IsWhiteSpace | utils/setDoc/setAadhar.js:6 | the definition of the characters `trim` removes: ECMAScript's WhiteSpace and LineTerminator sets, U+0009-U+000D, U+0020, U+00A0, U+1680, U+2000-U+200A, U+2028, U+2029, U+202F, U+205F, U+3000 and U+FEFF |
| JsText.TrimmedFrom | utils/setDoc/setAadhar.js:6 | the definition of the declarative reading of `trim`: the input with a white-space prefix and a white-space suffix cut away, leaving no white space at either end |
| JsText.TrimmedFromUnique | utils/setDoc/setAadhar.js:6 | trim is the only function that meets that description |
| JsText.TrimNoEdge | utils/setDoc/setAadhar.js:6 | a string without white space at either end is unchanged by trim |
| JsText.TrimIdempotent | utils/setDoc/setAadhar.js:6 | trimming twice equals trimming once |
| JsText.TrimKeepsCharacters | utils/setDoc/setAadhar.js:7 | trim introduces no character that was not in its input |
| JsText.RemoveAll | utils/setDoc/setAadhar.js:7 | the global replace leaves no `^`; the result holds every other character exactly as often as the input does, and no `^`; its length drops by the number of `^`; an input without `^` is unchanged |
| JsText.RemoveAllSingle | utils/setDoc/setAadhar.js:7 | a single character is dropped exactly when it is `^`; with RemoveAllAppend this fixes the result as the input with every `^` deleted, the other characters kept in order |
| JsText.RemoveAllAppend | utils/setDoc/setAadhar.js:7 | deleting `^` distributes over concatenation |
| JsText.Split | services/fileHandler.js:130 | split always returns at least one piece |
| JsText.JoinSplit | services/fileHandler.js:130 | joining the pieces of a split with the same separator gives back the input |
| JsText.SplitJoin | utils/setDoc/setAadhar.js:23 | pieces free of a separator of two different characters, such as `", "`, once joined by it, split back into the same pieces |
| JsText.SplitPiecesFree | services/fileHandler.js:130 | no piece of a split on `/` contains `/` |
| JsText.SplitLastAfter | services/fileHandler.js:178 | the last piece of a split on `/` depends only on the text after the last `/` |
| JsText.LastSplitEndsWith | services/fileHandler.js:178 | the last piece of a split on a character of any text ending in a text free of that character ends with that text |
| JsText.Render | utils/setDoc/setAadhar.js:23 | the definition of template rendering: a defined string reads as itself, `undefined` as "undefined" |
| AadharSanitiser.CleanText | utils/setDoc/setAadhar.js:7 | the cleaned name or address contains no `^`, has no white space at either end, and is the trim of the `^`-free input |
| AadharSanitiser.CleanTextIdempotent | utils/setDoc/setAadhar.js:10 | cleaning a cleaned text changes nothing |
| AadharSanitiser.SanitizeAadharData | utils/setDoc/setAadhar.js:4-13 | OCR side: it fails exactly when documentNumber, name or address is undefined, naming the first missing one in evaluation order. Otherwise documentNumber is the trimmed input, name and address are caret-free and trimmed, and both dates are copied unchanged (including undefined) |
| AadharSanitiser.SanitizeAadharDataIdempotent | utils/setDoc/setAadhar.js:4-13 | sanitising an already-sanitised OCR bag gives the same bag |
| AadharSanitiser.ComposeAddress | utils/setDoc/setAadhar.js:23 | the declared address is line1, line2, city, state, zipcode joined by `", "`; an undefined part reads as "undefined" |
| AadharSanitiser.AddressParts | utils/setDoc/setAadhar.js:23 | the definition of the five address parts, rendered, in template order line1, line2, city, state, zipcode |
| AadharSanitiser.ComposeAddressSplits | utils/setDoc/setAadhar.js:23 | when no part contains `", "`, splitting on it yields the five parts verbatim (exactly four separators, parts neither trimmed nor stripped) |
| AadharSanitiser.SanitizeModKycDataAadhar | utils/setDoc/setAadhar.js:16-26 | declared side: it fails exactly when idNumber or address is undefined. Otherwise documentNumber is the trimmed idNumber, name is the caret-free trimmed user name, the dates are formatDate of dob and idIssueDate, and address is the composed address |
| AadharSanitiser.SanitizeModKycDataAadharIdempotent | utils/setDoc/setAadhar.js:18-19 | feeding the sanitised document number and name back in as the declared ones reproduces the same bag |
| AadharSanitiser.DisplayNameIsClean | controllers/kyc.js:146 | the declared-side clean-up keeps a "firstName lastName" display name unchanged when both names are non-empty, caret-free and have no white space at their ends |
| AadharSanitiser.DisplayName | controllers/kyc.js:146 | the definition of the display name `${firstName} ${lastName}` |
| FileHandler.FileFilter | services/fileHandler.js:10-29 | a file is accepted iff its MIME type is one of image/jpeg, image/png, image/jpg, image/webp, image/heic; a rejection carries the unsupported-type error and `false` |
| FileHandler.AdmitUpload | services/fileHandler.js:32-36 | an upload is kept iff the filter accepts it and it is at most 104857600 bytes; a larger accepted type fails with the size error |
| FileHandler.FilePrefix | services/fileHandler.js:129-138 | the definition of the file-name stems `selfie-`, `doc-` and `doc-back-`; each has at least four characters and no `/` |
| FileHandler.ReplaceJpgSuffix | services/fileHandler.js:41 | only a final `.jpg` becomes `.jpeg` and the rest of the path is kept; a path without that suffix is returned unchanged; the result never ends in `.jpg` |
| FileHandler.ReplaceJpgSuffixIdempotent | services/fileHandler.js:41 | rewriting twice equals rewriting once |
| FileHandler.SavedPath | services/fileHandler.js:40-53 | the definition of the path `saveFileFromBuffer` returns: the `.jpg` rewrite for image/jpg, the given path otherwise |
| FileHandler.SavedPathUnderPrefix | services/fileHandler.js:40-53 | the returned path differs from the given one at most in its last segment: saving a prefixed path is the prefix followed by saving the last segment, when that segment has at least four characters, for every MIME type |
| FileHandler.ReplaceJpgSuffixUnderPrefix | services/fileHandler.js:41 | the `.jpg` rewrite of a path whose last segment has at least four characters leaves everything before that segment untouched |
| FileHandler.SavedPathCharacters | services/fileHandler.js:40-53 | saving introduces no character other than those of `.jpeg` |
| FileHandler.Extension | services/fileHandler.js:130 | the extension is the second `/`-separated segment of the MIME type, or "undefined" when there is none; it contains no `/` |
| FileHandler.ProvisionalName | services/fileHandler.js:129-139 | the provisional file name `<prefix><kycId>.<ext>` has at least five characters and, for a `/`-free kycId, contains no `/` |
| FileHandler.ExtensionOf | services/fileHandler.js:130 | for a `/`-free type and subtype, the extension of `type/subtype` is the subtype |
| FileHandler.RelativeFolder | services/fileHandler.js:129-186 | the definition of the asset folder relative to the project root, `/public/kycAssets/<kycId>` |
| FileHandler.ProvisionalRelativePath | services/fileHandler.js:129-139 | the definition of the provisional relative path `/public/kycAssets/<kycId>/<prefix><kycId>.<ext>` |
| FileHandler.AbsolutePath | services/fileHandler.js:142-146 | the definition of the absolute path: the project root followed by the relative path |
| FileHandler.FolderPath | services/fileHandler.js:121 | the definition of the asset folder: the project root followed by `/public/kycAssets/<kycId>` |
| FileHandler.Basename | services/fileHandler.js:178 | `path.basename` as the last `/`-separated piece; it contains no `/` |
| FileHandler.ReportedRelativePath | services/fileHandler.js:169-186 | the definition of the reported relative path `/public/kycAssets/<kycId>/` followed by the saved file's base name |
| FileHandler.StoredAssetFor | services/fileHandler.js:129-188 | the definition of one asset's plan: the saved absolute path and the relative path reported for it |
| FileHandler.KycAssetsFor | services/fileHandler.js:129-190 | the definition of the whole result: selfie, document, and documentBack exactly when a back file was supplied |
| FileHandler.StoredAbsolutePath | services/fileHandler.js:142-166 | the saved absolute path is the KYC asset folder, `/`, and the saved file name |
| FileHandler.ProvisionalRelativeSaved | services/fileHandler.js:129-166 | rewriting the provisional relative path touches only its file name |
| FileHandler.SavedNameIsBase | services/fileHandler.js:178-186 | for a single-segment kycId, the basename of the saved path is the saved file name |
| FileHandler.BasenameAfterDirectory | services/fileHandler.js:178 | the basename of a directory, `/` and a `/`-free name is that name |
| FileHandler.StoredAssetShape | services/fileHandler.js:129-188 | for a single-segment kycId, the reported relativePath is the provisional one after the same suffix rewrite, and the absolute path is the root followed by it |
| FileHandler.StoredAssetWithinFolder | services/fileHandler.js:121-166 | every saved asset lies inside `kycAssets/<kycId>`, for any kycId without `..` segments (paths are not normalised) |
| FileHandler.JpgExtension | services/fileHandler.js:130 | the extension of image/jpg is "jpg" |
| FileHandler.JpgFileName | services/fileHandler.js:40-43 | a JPG upload's file name is saved with `.jpeg` |
| FileHandler.JpgUploadReportedAsJpeg | services/fileHandler.js:169-188 | for a single-segment kycId, an image/jpg upload is reported as `/public/kycAssets/<kycId>/<prefix><kycId>.jpeg` |
| FileHandler.JpgUploadEndsInJpeg | services/fileHandler.js:169-188 | for every kycId, an image/jpg upload's reported relative path ends in `.jpeg` |
| FileHandler.JpgAbsolutePath | services/fileHandler.js:40-43 | a JPG upload is saved at its asset folder, `/`, its `<prefix><kycId>` stem and `.jpeg` |
| FileHandler.ReportedNameEnds | services/fileHandler.js:169-186 | a reported relative path ends with whatever `/`-free text the saved path ends with |
| FileHandler.OtherUploadKeepsName | services/fileHandler.js:176-188 | for a single-segment kycId, any other upload is reported under its provisional relative path |
| FileHandler.RemoveFolder | services/fileHandler.js:198 | the recursive forced removal keeps exactly the files outside the folder, unchanged; an entry at the folder path itself is removed too |
| FileHandler.DeleteRemovesSavedAssets | services/fileHandler.js:194-198 | deleting a KYC record's assets removes every file that saving its assets wrote (same folder), for a kycId without `..` segments (paths are not normalised) |
| FileHandler.AssetStore.SaveFileFromBuffer | services/fileHandler.js:39-55 | writes the buffer (re-encoded for image/jpg) at the returned path, which is the input path with the jpg rewrite applied for image/jpg; nothing else changes |
| FileHandler.AssetStore.Content | services/fileHandler.js:42-47 | the definition of the written bytes: re-encoded as JPEG for image/jpg, the buffer itself otherwise |
| FileHandler.AssetStore.SaveKycAssets | services/fileHandler.js:117-191 | creates the asset folder and writes selfie, document and, if supplied, document back in that order. The result equals the path plan, and documentBack is null iff no back file was supplied |
| FileHandler.AssetStore.DeleteAssets | services/fileHandler.js:194-205 | removes the asset folder with every file and directory under it and reports success |
| Moderation.ParseStatus | models/moderation.js:118-122 | only "Pending", "Failed" and "Completed" are admitted, each read back as the status of that name |
| Moderation.StatusName | models/moderation.js:120 | the definition of each status's stored name |
| Moderation.StatusNameRoundTrip | models/moderation.js:118-122 | every status's name is in the enumeration and parses back to it |
| Moderation.ValidationErrors | models/moderation.js:93-122 | a required-kycId error iff kycId is missing or empty; an enum error iff a supplied status is outside the enumeration; no other errors |
| Moderation.PresentString | models/moderation.js:93-96 | the definition of Mongoose's `required: true` on a String: the value is supplied and not the empty string |
| Moderation.CreateModeration | models/moderation.js:85-126 | a record is created iff kycId is present and status is absent or admitted. Unsupplied fields take their defaults: generated id, empty objects, empty error log, Pending. Supplied fields are kept, and both timestamps are the save time |
| Moderation.NewRecordDefaults | models/moderation.js:87-122 | a record created from a kycId alone is generated id, empty objects, empty log, Pending |
| Moderation.KycIdRequired | models/moderation.js:93-96 | creation without kycId is rejected with the required error |
| Moderation.CreateFromRecordKeepsIt | models/moderation.js:87-122 | supplying every field of a valid record recreates exactly that record |

## Left out

- The moderation orchestrator (`services/moderation.js`), the match evaluator, retries, the face-match threshold and the status transition rules are not part of this model. Their code is not available, so no final-status rule is modelled.
- Case-insensitive name comparison is not modelled: the sanitiser does not do it. The sanitiser is hard-wired to Aadhaar, copies OCR dates through unparsed, and fails only by throwing on an `undefined` field; the model follows it.
- Controller and route plumbing (HTTP handling, database calls, `fs.existsSync` checks after saving, the fire-and-forget moderation trigger), and the provider client (environment variables, network, `process.exit`), are not part of this model.
- `formatDate`, `generateUUID`, the `Kyc` model and the image library are not part of this model; they appear only as parameters.
- Failures of `fs.writeFile`, `fs.rm` and image conversion (rejected promises) are not modelled. Nor is the asynchronous order of the awaited writes: each method completes before the next begins.
- `path.join` normalisation of `.`, `..` and repeated `/` is not modelled: absolute paths are the project root followed by the relative path. `path.basename` is the text after the last `/`. Trailing separators are ignored, since the paths it receives never end in `/`. One consequence: for an empty kycId the program's `path.join` drops the empty segment, so `deleteAssets` removes the whole `kycAssets` directory with every record's assets, while the model's `FolderPath(root, "")` ends in `/` and `RemoveFolder` keeps the other records' files.
- `fs.mkdirSync({ recursive: true })` is modelled as adding the asset folder only; the intermediate directories it may also create are not tracked.
- Multer's streaming internals and its other limits are not modelled. Only the MIME filter and the file-size limit are.
- FileHandler.AdmitUpload: a file of exactly 104857600 bytes is taken to pass. The code only sets `limits: { fileSize: 1024 * 1024 * 100 }`; whether the upload library accepts a file of exactly that size depends on its version, which is not part of this model, so this boundary is an assumption.
- OCR fields holding non-string values, and template rendering of `null` (as "null"), are not modelled: fields are strings or `undefined`. The optional chaining on the OCR bag (utils/setDoc/setAadhar.js:10) is not modelled: it never takes effect, because line 6 already reads a property of the same bag.
- Mongoose casting of non-string values, and the ordering of validation errors inside Mongoose's error object, are not modelled. Errors are listed in schema field order. The JSON value type holds integer numbers only.
- The ISO dates of the timestamps are a plain integer save time.
- FileHandler.StoredAssetShape, FileHandler.JpgUploadReportedAsJpeg, FileHandler.OtherUploadKeepsName: stated only for a kycId without `/` (FileHandler.JpgUploadEndsInJpeg gives the `.jpeg` ending for every kycId). With a `/` the reported name is built from the text after the last `/`, and, kycIds with `..` segments excepted, the write itself fails for lack of the intermediate directory.
- FileHandler.StoredAssetWithinFolder, FileHandler.DeleteRemovesSavedAssets: hold in the model because `path.join` normalisation is not modelled. For a kycId with `..` segments, such as `x/../../../y`, the program writes outside the asset folder that `deleteAssets` later removes, and these promises do not hold for it.
- AadharSanitiser.ComposeAddressSplits: holds only when no address part contains `", "`. Otherwise the four separators are still there, but a split finds more than five pieces.
