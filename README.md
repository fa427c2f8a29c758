# Image gallery core, modelled in Dafny

This project models the core of an Express/Prisma image gallery. Users upload
images, and a background worker processes each upload:

- it shrinks the image when it is too large;
- it renders a thumbnail;
- it encrypts the stored files.

Every step is written to a per-image history log. Images can be renamed,
deleted, liked, shared through expiring token links and grouped with other
users. A browser store keeps the list the gallery page shows.

The database tables, the upload directory and the libraries are replaced by
values and by functions passed in as parameters:

- Tables become Dafny maps, sets and sequences.
- The upload directory becomes a map from path to bytes (`FileSystem.FileStore`).
- The image library (probe, shrink, thumbnail) and both ciphers become
  functions handed in as `ImageProcessing.Toolkit` or as arguments.
- Clocks are integer timestamps given as inputs.
- Random bytes are inputs.
- HTTP replies are status values.

Modules, one per component:

| module | file | models |
|---|---|---|
| `Common` | common.dfy | Option/Result, bytes, decimal rendering, HTTP status codes |
| `Sequences` | sequences.dfy | filter, take, stable descending sort (Prisma `orderBy`/`take`, JS `filter`/`sort`/`slice`) |
| `Paths` | paths.dfy | the subset of Node's `path` module the worker uses |
| `ImageHistory` | history.dfy | `server/src/utils/imageHistory.ts` |
| `FileSystem` | filestore.dfy | the upload directory and the `fs` calls the worker makes |
| `ImageProcessing` | processor.dfy | `server/src/utils/imageProcessor.ts` |
| `Records` | records.dfy | the image row |
| `GalleryImages` | images.dfy | `server/src/images/images.controller.ts` |
| `Crypto` | crypto.dfy | `server/src/utils/crypto.ts` |
| `Groups` | groups.dfy | `server/src/groups/groups.controller.ts` |
| `Likes` | likes.dfy | `server/src/likes/likes.controller.ts` |
| `Shared` | shared.dfy | `server/src/shared/shared.controller.ts` |
| `ClientImages` | client_images.dfy | `client/src/store/images.ts` |

Where the source keeps mutable state, the model keeps it too:

- `ImageHistory.HistoryLog` holds the event table.
- `ImageProcessing.ImageProcessor` holds the static queue and busy flag.
- `GalleryImages.Gallery` holds the image table.
- `Groups.GroupDirectory`, `Likes.LikeTable` and `ClientImages.ImageListStore` hold their tables.

Each method that changes state is proved against a specification function:

- `ImageProcessor.ProcessImage` against `Pipeline`;
- `ImageProcessor.ProcessQueue` against `DrainOrder` and `DrainFiles`;
- `Gallery.ProcessImageInBackground` against `AfterProcessing` and `ProcessingEvents`.

The lemmas beside those functions carry the properties the source promises.

## Model

| member | source | states |
|---|---|---|
| ImageHistory.ActionNameRoundTrip | server/src/utils/imageHistory.ts:3-20 | every action's stored string parses back to that action |
| ImageHistory.ParseActionInverse | server/src/utils/imageHistory.ts:3-20 | a string that parses as an action is exactly that action's stored string |
| ImageHistory.ActorOf | server/src/utils/imageHistory.ts:49 | an event has an actor iff a non-empty user id was given, and then it is that id |
| ImageHistory.NewEvent | server/src/utils/imageHistory.ts:45-59 | the row carries the given image, action, metadata and time; a non-empty description is kept verbatim, and an absent or empty one is replaced by the generated one |
| ImageHistory.Describe | server/src/utils/imageHistory.ts:70-134 | a generated description is never empty, so a stored row always has a description |
| ImageHistory.DescribeAction | server/src/utils/imageHistory.ts:70-134 | the generated description of every known action is that action's template |
| ImageHistory.RoundKBIsNearest | server/src/utils/imageHistory.ts:77-79 | the kilobyte figure is the nearest integer to size/1024, with halves rounded up |
| ImageHistory.UploadDescription | server/src/utils/imageHistory.ts:75-80 | an absent or zero size reads "unknown size"; otherwise the text shows the rounded kilobytes followed by "KB" |
| ImageHistory.RenameDescription | server/src/utils/imageHistory.ts:91-92 | the text is `Renamed from "<old>" to "<new>"` |
| ImageHistory.PrivacyDescription | server/src/utils/imageHistory.ts:97-100 | the text says "public" iff the new value is truthy, and "private" otherwise |
| ImageHistory.FailureDescription | server/src/utils/imageHistory.ts:108-111 | the text carries the error, or "Unknown error" when the error is falsy |
| ImageHistory.FallbackDescription | server/src/utils/imageHistory.ts:131-132 | an action string outside the enumeration yields "Action performed: <action>" |
| ImageHistory.HistoryLog.RecordAction | server/src/utils/imageHistory.ts:38-65 | an accepted write appends exactly one event built from the arguments; a refused write is swallowed and leaves the log unchanged |
| ImageHistory.HistoryLog.TrackUpload | server/src/utils/imageHistory.ts:236-246 | appends an upload event by the user, with the file's size and name |
| ImageHistory.HistoryLog.TrackView | server/src/utils/imageHistory.ts:248-258 | appends a view event with the client's address and agent |
| ImageHistory.HistoryLog.TrackDownload | server/src/utils/imageHistory.ts:260-268 | appends a download event with the client's address |
| ImageHistory.HistoryLog.TrackRename | server/src/utils/imageHistory.ts:270-280 | appends a rename event carrying the old and new titles |
| ImageHistory.HistoryLog.TrackPrivacyChange | server/src/utils/imageHistory.ts:282-292 | appends a privacy event carrying the old and new flags |
| ImageHistory.HistoryLog.TrackProcessingComplete | server/src/utils/imageHistory.ts:294-308 | appends a completion event with no actor, carrying processing time and size |
| ImageHistory.HistoryLog.TrackProcessingFailed | server/src/utils/imageHistory.ts:310-319 | appends a failure event with no actor, carrying the error |
| ImageHistory.HistoryLog.TrackShareLinkCreated | server/src/utils/imageHistory.ts:321-334 | appends a share-link event by the user, carrying the token |
| ImageHistory.HistoryLog.TrackShareLinkAccessed | server/src/utils/imageHistory.ts:336-350 | appends a share-access event carrying the token and the client |
| ImageHistory.HistoryLog.TrackLike | server/src/utils/imageHistory.ts:352-358 | appends a like or unlike event by the user |
| ImageHistory.WithoutImage | server/src/images/images.controller.ts:302 | the log after an image's rows are deleted with it: exactly the other images' rows |
| ImageHistory.HistoryLog.ForgetImage | server/src/images/images.controller.ts:302 | the image's rows leave the log and the others stay, in order |
| ImageHistory.ForgetLastRow | server/src/images/images.controller.ts:296-302 | a row about the image written just before its deletion goes with it |
| ImageHistory.ForgetImageHistory | server/src/images/images.controller.ts:296-302 | after the deletion the image's history is empty and every other image's history is unchanged |
| ImageHistory.EventsOf | server/src/utils/imageHistory.ts:140-141 | exactly the log's events for that image |
| ImageHistory.GetImageHistory | server/src/utils/imageHistory.ts:139-153 | only that image's events, newest first; without a limit a permutation of all of them; with a limit min(limit, total) of them, and they are the newest: no event left out is newer than one returned |
| ImageHistory.HistoryAfterAppend | server/src/utils/imageHistory.ts:139-153 | appending an event grows that image's history by one iff the event is about it, and the event then appears |
| ImageHistory.HistoryIsExactlyTheImagesEvents | server/src/utils/imageHistory.ts:139-153 | an event is in an image's unlimited history iff it is in the log and about that image |
| ImageHistory.OwnedEntries | server/src/utils/imageHistory.ts:159-170 | every entry's image is owned by the user, and every logged event of an owned image appears |
| ImageHistory.GetUserImageHistory | server/src/utils/imageHistory.ts:158-183 | only events of the user's images, each paired with its image and drawn from the joined rows without repetition, newest first; min(limit, total) of them, and no entry left out is newer than one returned |
| ImageHistory.Groups | server/src/utils/imageHistory.ts:189-199 | the grouped counts are distinct, positive, add up to the number of events and equal each action's count |
| ImageHistory.Breakdown | server/src/utils/imageHistory.ts:222-230 | the breakdown map has one key per group, holding that group's count |
| ImageHistory.BreakdownSum | server/src/utils/imageHistory.ts:222-230 | the values of the breakdown map add up to the grouped total |
| ImageHistory.ImageStats | server/src/utils/imageHistory.ts:188-231 | the total counts the image's events, and the last activity is null iff there are none |
| ImageHistory.BreakdownAddsUp | server/src/utils/imageHistory.ts:188-231 | the breakdown of an image's statistics adds up to its total number of actions |
| ImageHistory.BreakdownCounts | server/src/utils/imageHistory.ts:188-231 | an action appears in the breakdown iff it occurred, and then with its exact count |
| ImageHistory.BumpKeepsShape | server/src/utils/imageHistory.ts:189-195 | counting one more event keeps the group rows positive and their actions distinct |
| ImageHistory.LookupPositive | server/src/utils/imageHistory.ts:189-199 | a grouped action is present iff its count is positive |
| ImageHistory.Actors | server/src/utils/imageHistory.ts:201-208 | exactly the non-null actors of the events |
| ImageHistory.ActorsBound | server/src/utils/imageHistory.ts:201-208 | there are at most as many distinct actors as events |
| ImageHistory.UniqueUsersBound | server/src/utils/imageHistory.ts:201-208 | the number of distinct users never exceeds the total number of actions |
| ImageHistory.LastActivityIsNewest | server/src/utils/imageHistory.ts:210-220 | the last activity is absent iff there are no events, and otherwise is one of the image's events with the greatest timestamp |
| ImageProcessing.NeedsResizing | server/src/utils/imageProcessor.ts:100-106 | an image is left at its size iff a dimension is unknown or both fit the maximum |
| ImageProcessing.ProcessedPath | server/src/utils/imageProcessor.ts:89-94 | the processed copy lies in the input's directory and is named `<stem>_processed<ext>` after the upload |
| ImageProcessing.ThumbnailPath | server/src/utils/imageProcessor.ts:89-98 | the thumbnail lies in the input's directory and is named `<stem>_thumb<ext>` after the upload |
| ImageProcessing.DerivedNamesDiffer | server/src/utils/imageProcessor.ts:89-98 | the processed name and the thumbnail name never coincide |
| ImageProcessing.ThumbNameForcesJpg | server/src/utils/imageProcessor.ts:95-98 | the fixed lookup name equals a written thumbnail name only when the stem is the image id and the extension is ".jpg" |
| ImageProcessing.ThumbnailLookupMatches | server/src/utils/imageProcessor.ts:95-98 | the name the reader looks up equals the encrypted name the writer used iff the upload was named `<imageId>.jpg` |
| ImageProcessing.EncryptFileSpec | server/src/utils/imageProcessor.ts:21-49 | a missing file fails with "File not found: <path>" and changes nothing; otherwise `<path>.enc` holds the sealed bytes, `<path>` is gone and no other file changes |
| ImageProcessing.ResizeReplacesInput | server/src/utils/imageProcessor.ts:107-128 | after a successful shrink the input name holds the shrunk bytes, the intermediate name is gone, and the size is that of the shrunk bytes |
| ImageProcessing.ThumbnailSpec | server/src/utils/imageProcessor.ts:131-143 | a thumbnail that fails leaves the files unchanged; one that succeeds adds exactly the thumbnail |
| ImageProcessing.Pipeline | server/src/utils/imageProcessor.ts:66-87 | a missing or unreadable upload fails with the directory untouched |
| ImageProcessing.PipelineSuccess | server/src/utils/imageProcessor.ts:66-169 | a successful run reports encryption, the original size and the measured time; the processed size equals the original when no resize was needed; the plain files are replaced by their `.enc` copies; `thumbnailCreated` holds exactly when the thumbnail renders from the shrunk bytes after a resize, or from the upload otherwise; with no thumbnail made and names that do not collide with the input's, the thumbnail's `.enc` name is left as it was |
| ImageProcessing.ThumbnailFailureIsNotFatal | server/src/utils/imageProcessor.ts:131-164 | with no resize and a failing thumbnail, the run still succeeds with the image encrypted and `thumbnailCreated` false |
| ImageProcessing.ShrunkImageIsWhatGetsEncrypted | server/src/utils/imageProcessor.ts:101-153 | a resized upload succeeds with the shrunk size, and `<input>.enc` holds the sealed shrunk bytes, with or without a thumbnail, unless a thumbnail was made under that very name |
| ImageProcessing.FinishSteps | server/src/utils/imageProcessor.ts:130-164 | after the resize: the thumbnail is made iff it renders from what the input's name holds, and it is sealed only when made; an unmade thumbnail does not fail the run; the input's sealed copy holds its bytes |
| ImageProcessing.DecryptFile | server/src/utils/imageProcessor.ts:51-64 | a missing file fails, and an existing one gives the decipher's answer on its contents |
| ImageProcessing.GetDecryptedThumbnail | server/src/utils/imageProcessor.ts:175-189 | bytes are returned iff the fixed lookup name exists and decrypts, and otherwise null |
| ImageProcessing.DrainOrder | server/src/utils/imageProcessor.ts:208-234 | a drain processes at least every job queued when it starts |
| ImageProcessing.DrainIsFifo | server/src/utils/imageProcessor.ts:208-234 | a drain processes exactly the queued jobs, in order, followed by every batch that arrived while one of its jobs ran, in arrival order, each job once |
| ImageProcessing.DrainTakesEveryArrival | server/src/utils/imageProcessor.ts:208-234 | with no more batches than queued jobs, the drain processes the queue and then all the batches |
| ImageProcessing.DrainWithoutArrivals | server/src/utils/imageProcessor.ts:208-234 | with no arrivals a drain processes exactly the queue, in order |
| ImageProcessing.ImageProcessor.constructor | server/src/utils/imageProcessor.ts:192-197 | the queue starts empty and the processor idle |
| ImageProcessing.ImageProcessor.EncryptFile | server/src/utils/imageProcessor.ts:21-49 | the directory and result are those `EncryptFileSpec` gives |
| ImageProcessing.ImageProcessor.ProcessImage | server/src/utils/imageProcessor.ts:66-169 | the step-by-step file operations leave the directory and return the result `Pipeline` gives |
| ImageProcessing.ImageProcessor.AddToProcessingQueue | server/src/utils/imageProcessor.ts:199-206 | the job goes to the tail; while a drain runs nothing else happens, and otherwise the whole queue drains in FIFO order |
| ImageProcessing.ImageProcessor.EnqueueArrivals | server/src/utils/imageProcessor.ts:199-206 | jobs enqueued during a drain are only appended |
| ImageProcessing.ImageProcessor.ProcessQueue | server/src/utils/imageProcessor.ts:208-234 | a no-op while busy or empty; otherwise the queue ends empty, the processor idle, every job is processed once in drain order, and failures do not stop the loop |
| GalleryImages.NewRecord | server/src/images/images.controller.ts:26-39 | a new row is pending, unencrypted and without a thumbnail; both sizes are the upload's; the title is the given one or the file name; it is public iff the field is the string "true" |
| GalleryImages.AfterProcessing | server/src/images/images.controller.ts:92-147 | failure only sets the status to failed; success sets completed with the run's processed size, flags and processing time, and the path is `filePath + ".enc"` iff the run encrypted; id, owner, title, type, sizes, visibility and creation time never change |
| GalleryImages.ProcessingEventOrder | server/src/images/images.controller.ts:81-147 | the events are start then complete, then encryption if applied, then thumbnail if made; or start then failed, never with encryption |
| GalleryImages.RecordPathExistsAfterSuccess | server/src/images/images.controller.ts:92-104 | after a successful run the row's new path names a file the run left in place |
| GalleryImages.ServeImage | server/src/images/images.controller.ts:151-265 | refused iff the image is missing or the caller is neither the owner nor shared with; a thumbnail only when asked for; decrypted bytes only for a completed encrypted image, as the decryption gave them, under its own type; a decryption failure only when the decryption failed; a file from disk only for a completed unencrypted image whose file exists |
| GalleryImages.ServeImageOrder | server/src/images/images.controller.ts:181-258 | a thumbnail hit comes before any status check; otherwise 202 for pending or processing, 500 for failed, 404 for a completed image whose file is missing; for a present file, 200 with the decrypted bytes or 500 when decryption fails if encrypted, and 200 from disk if not |
| GalleryImages.Summarize | server/src/images/images.controller.ts:539-548 | a user's total is the sum of their images' like counts, and the image count is the number of public images |
| GalleryImages.TotalLikesAppend | server/src/images/images.controller.ts:543-546 | one more image adds exactly its like count to the total |
| GalleryImages.TopLikedUsers | server/src/images/images.controller.ts:539-553 | min(10, users) summaries, a sub-multiset of the users' summaries (none repeated beyond the input), in non-increasing order of total likes |
| GalleryImages.TopLikedDominates | server/src/images/images.controller.ts:550-553 | every user in the ranking has at least as many likes as every user left out |
| GalleryImages.ToFeedItem | server/src/images/images.controller.ts:617-626 | the item carries the image, the event's time, action and description and a like count of 0; the owner is "System" when the event has no actor or no known e-mail |
| GalleryImages.Summaries | server/src/images/images.controller.ts:606-634 | the owner projection of the image table keeps every id and owner |
| GalleryImages.FeedKeepsOrder | server/src/images/images.controller.ts:617-626 | mapping history entries to feed items keeps them newest first |
| GalleryImages.FeedKeepsOwner | server/src/images/images.controller.ts:617-626 | every feed item built from the user's entries names one of the user's images |
| GalleryImages.FeedFromEntries | server/src/images/images.controller.ts:606-634 | the feed built from the user's newest entries has one item per entry, newest first, each about one of the user's images |
| GalleryImages.HistoryFeed | server/src/images/images.controller.ts:606-634 | min(`limit`, number of the user's events) items (20 by default), newest first, all about the caller's images |
| GalleryImages.Gallery.UploadImage | server/src/images/images.controller.ts:18-65 | no file gives 400 with no change; otherwise the pending row is added, the job is queued with the disk untouched while the processor is busy, or queued and drained if idle, an upload event is recorded and 201 is returned |
| GalleryImages.Gallery.ProcessImageInBackground | server/src/images/images.controller.ts:68-149 | the files and result are those of the pipeline, the row becomes `AfterProcessing`, and the log grows by exactly `ProcessingEvents` |
| GalleryImages.Gallery.RecordOutcome | server/src/images/images.controller.ts:107-147 | the log grows by exactly the outcome events |
| GalleryImages.Gallery.GetImage | server/src/images/images.controller.ts:151-265 | the reply is the serving decision; a view is recorded iff the caller was not refused |
| GalleryImages.Gallery.UpdateTitle | server/src/images/images.controller.ts:267-286 | a missing image or non-owner gets 403 with no change; otherwise the title is set (kept when none given) and a rename event carries the old and new titles |
| GalleryImages.Gallery.DeleteImage | server/src/images/images.controller.ts:288-306 | a missing image or non-owner gets 403 with no change; otherwise the delete event is recorded, the row and its file are removed, and its shares and history rows (the delete row included) go with it |
| Crypto.EnsureAllowedType | server/src/utils/crypto.ts:4-7 | passes iff the type is one of the four listed; otherwise fails with the fixed message |
| Crypto.AllowedTypeExamples | server/src/utils/crypto.ts:4-7 | the check is literal: other types, other case and parameters are refused |
| Crypto.HexEncode | server/src/utils/crypto.ts:29 | two lower-case hex digits per byte |
| Crypto.HexRoundTrip | server/src/utils/crypto.ts:15-29 | hex decoding undoes hex encoding |
| Crypto.HexEncodeInjective | server/src/utils/crypto.ts:29 | distinct byte strings give distinct tokens |
| Crypto.LoadKey | server/src/utils/crypto.ts:10-17 | an absent or empty variable fails with the fixed message; otherwise the key is the lenient hex decoding |
| Crypto.KeyFromHex | server/src/utils/crypto.ts:10-17 | a 32-byte key written in hex loads as itself |
| Crypto.Frame | server/src/utils/crypto.ts:24 | the file is the 12-byte nonce, the 16-byte tag and the ciphertext, in that order |
| Crypto.Unframe | server/src/utils/crypto.ts:24 | a blob splits iff it is at least 28 bytes long |
| Crypto.FrameRoundTrip | server/src/utils/crypto.ts:24 | splitting at offsets 12 and 28 recovers nonce, tag and ciphertext |
| Crypto.UnframeRoundTrip | server/src/utils/crypto.ts:24 | re-framing the split parts gives back the blob |
| Crypto.EncryptAndSave | server/src/utils/crypto.ts:19-26 | a key that is not 32 bytes fails; otherwise only `path` is written, 28 bytes longer than the ciphertext, starting with the nonce |
| Crypto.SavedFileSplits | server/src/utils/crypto.ts:19-26 | the written file splits back into the nonce and the cipher's tag and ciphertext |
| Crypto.GenerateShareToken | server/src/utils/crypto.ts:28-30 | 64 lower-case hex digits that decode back to the 32 random bytes |
| Groups.ListUserGroups | server/src/groups/groups.controller.ts:38-64 | a group is listed iff the user owns it or is a member |
| Groups.GetGroup | server/src/groups/groups.controller.ts:66-95 | the group is returned iff the user owns it or is a member; otherwise "Group not found" |
| Groups.ManagersCanView | server/src/groups/groups.controller.ts:165-186 | whoever may manage a group may also see it |
| Groups.OwnerRowGrantsRights | server/src/groups/groups.controller.ts:165-186 | the owner may see and manage; a plain member may see but not manage |
| Groups.WithoutGroup | server/src/groups/groups.controller.ts:142-150 | exactly the membership rows of other groups remain |
| Groups.GroupDirectory.CreateGroup | server/src/groups/groups.controller.ts:4-36 | the group is added with the creator as owner and admin member; consistency is kept |
| Groups.GroupDirectory.UpdateGroup | server/src/groups/groups.controller.ts:97-131 | the owner alone may update, omitted fields are kept, and anyone else gets 403 with no change |
| Groups.GroupDirectory.DeleteGroup | server/src/groups/groups.controller.ts:133-157 | the owner alone may delete, and the group's memberships go with it; anyone else gets 403 with no change |
| Groups.GroupDirectory.AddMember | server/src/groups/groups.controller.ts:159-229 | 403 unless owner or admin, 404 for an unknown e-mail, 400 for an existing member, all with no change; otherwise exactly one row is added |
| Groups.GroupDirectory.RemoveMember | server/src/groups/groups.controller.ts:231-279 | 403 unless owner or admin, 400 for the owner; otherwise exactly that membership is removed and the user can no longer see the group |
| Likes.Toggle | server/src/likes/likes.controller.ts:34-56 | the pair flips and every other pair is unchanged |
| Likes.GetLikeStatus | server/src/likes/likes.controller.ts:63-89 | `liked` iff the pair exists; the count is the number of likes of the image |
| Likes.ToggleTwice | server/src/likes/likes.controller.ts:34-56 | toggling twice restores the like set |
| Likes.ToggleMovesCount | server/src/likes/likes.controller.ts:34-84 | a toggle flips the status and moves that image's count by one, and only that image's |
| Likes.LikeTable.ToggleLike | server/src/likes/likes.controller.ts:4-61 | 404 for an unknown image and 403 for another user's private image, both with no change; otherwise the pair is toggled and the reply reports the new membership |
| Shared.GetSharedImage | server/src/shared/shared.controller.ts:6-38 | 404 iff the token is unknown, 410 iff it has expired; otherwise only the six public fields |
| Shared.ExpiryBoundary | server/src/shared/shared.controller.ts:20-22 | a link is served up to and including its expiry instant, and answers 410 after it |
| Shared.ProjectionHidesTheRest | server/src/shared/shared.controller.ts:24-33 | rows that agree on the public fields give the same reply |
| Shared.GetSharedImageFile | server/src/shared/shared.controller.ts:40-72 | token, then expiry, then file existence are checked; the stored bytes are sent as they are, with the recorded size as their length |
| Shared.SharedFileSendsCiphertext | server/src/shared/shared.controller.ts:57-67 | for an encrypted image, the announced length differs from the bytes sent |
| Shared.GetSharedImageFileDecrypted | server/src/shared/shared.controller.ts:40-72 | 404 iff the token is unknown, 410 iff expired, 404 iff the file is missing, 500 iff the file is encrypted and does not decrypt; otherwise the decrypted or stored bytes, with the length of the body actually sent |
| Shared.DecryptedShareReturnsPlaintext | server/src/shared/shared.controller.ts:57-67 | the corrected handler returns the plaintext the file was sealed from |
| ClientImages.UploadFields | client/src/store/images.ts:16-25 | the flag is sent as the string "true" iff it is set |
| ClientImages.UploadFlagRoundTrip | client/src/store/images.ts:20 | the server's `=== "true"` reads back exactly the flag the client sent |
| ClientImages.UpdateRequests | client/src/store/images.ts:30-43 | one request per given field; visibility first, then title |
| ClientImages.VisibilityBeforeTitle | client/src/store/images.ts:34-41 | a title request never precedes a visibility request |
| ClientImages.ProcessingItems | client/src/store/images.ts:52-58 | exactly the pending and processing items, with their multiplicities |
| ClientImages.ProcessingItemsKeepOrder | client/src/store/images.ts:52-58 | `filter` keeps list order: the selection from two joined lists is the two selections joined |
| ClientImages.FindById | client/src/store/images.ts:59-61 | none iff no item has the id; otherwise the first item with it |
| ClientImages.ImageListStore.FetchAll | client/src/store/images.ts:12-15 | the list becomes the server's answer |
| ClientImages.ImageListStore.UpdateImage | client/src/store/images.ts:30-43 | the visibility request, then the title request, each only if given; when every request is accepted all of `UpdateRequests` are sent and the list becomes the refetched data; when one is refused, the requests up to and including it are sent, the later ones and the refetch are skipped and the list keeps its old value |
| ClientImages.ImageListStore.Remove | client/src/store/images.ts:44-47 | after a delete no item has the id and the others keep their order and multiplicity; a failed delete leaves the list alone |

## Left out

- Image decoding, resizing and JPEG re-encoding are functions in `ImageProcessing.Toolkit`. Only the resize decision and the file effects are modelled.
- DeleteImage: the image's likes and share-link tokens live in `Likes.LikeTable` and `Shared`, which the gallery does not hold, so their cascade is not modelled.
- The passphrase cipher is a function `Toolkit.seal`, so sealing the same bytes always gives the same ciphertext. The fresh salt the cipher draws on every call is not modelled.
- `Paths.Extname` and `Paths.Dirname` do not strip a trailing '/', and `Extname("..")` is "." where Node gives "". Upload names with these shapes are not modelled faithfully.
- Groups.GroupDirectory.UpdateGroup: a description is either given or omitted. A JSON `null`, which the store writes as NULL, is not modelled.
- An upload description with a string file size reads "NaNKB". JavaScript would convert a numeric string; the model does not.
- The ciphers are opaque. This covers both the passphrase cipher the worker uses and AES-256-GCM in `Crypto.EncryptAndSave`. The model proves no decryption round trip or tag check for them.
- The database is in-memory tables. Joins (owner e-mails, like counts) are inputs. `JSON.parse(JSON.stringify(...))` on metadata is not modelled.
- HTTP plumbing is replaced by status values: multer, cookies, `res.sendFile` and streaming.
- The race between the two pipelines is not modelled. `uploadImage` both queues the file and calls `processImageInBackground` on it. The model treats them as two separate operations: `Gallery.UploadImage` queues, and `Gallery.ProcessImageInBackground` runs on its own.
- Times are integer inputs: `Date.now()`, the processing time and the history timestamps. The calendar arithmetic in the share-link and top-uploader filters is not modelled.
- Configuration is parameters: the environment fallbacks for `ENCRYPTION_KEY`, the `MAX_*` sizes and the thumbnail size. `path.resolve` against the working directory is not modelled.
- `LoadKey` models `MASTER_KEY_GCM` as an optional string. The module-load timing of the throw is not modelled.
- The database schema is not part of this model. Three things rely on schema behaviour:
  - deleting an image deletes its history rows and its shares (`GalleryImages.Gallery.DeleteImage`);
  - deleting a group deletes its memberships (`Groups.GroupDirectory.DeleteGroup`);
  - a new membership gets the role "member" (`Groups.GroupDirectory.AddMember`).
- A failed history write is the `accepted` flag of `HistoryLog.RecordAction`. The controller paths pass `true`, except `DeleteImage`, which passes whether the row exists.
- Ties in the newest-first orderings follow the stable insertion sort in `Sequences.SortDesc`. The database's order among equal timestamps is not modelled.
- GalleryImages.HistoryFeed and ImageHistory.GetUserImageHistory: the limit is an optional natural number. `parseInt` of a non-numeric limit (NaN) is not modelled, and neither is a negative limit such as `parseInt("-5")`, with which the database reads the rows from the other end of the ordering.
- The remaining handlers of the image controller are not part of this model: listing, sharing with users, share-link creation, public listing, visibility toggle, top uploaders, view recording and the view statistics.
- `ImageProcessing.ImageProcessor.ProcessQueue` takes the jobs that arrive during a drain as a parameter, batch by batch. It does not model their arrival at arbitrary await points.
- GalleryImages.Gallery.ProcessImageInBackground: for an id with no row, the source's first update throws and the error is caught. The model returns a failure result and changes nothing.
- GalleryImages.HistoryFeed: states the count, the order and the ownership of the items. It does not restate which events the items come from; the items are built from `ImageHistory.GetUserImageHistory`, whose contract states that they are the newest ones.
- GalleryImages.TopLikedUsers: takes the users with their public images and like counts as input. The query that produces them is not modelled.
- ImageProcessing.FinishSteps: `Toolkit` does not see file names, so a thumbnail whose name is the input's own would be written over the input and the run would fail. In the source the image library refuses to write over its input, the catch of imageProcessor.ts:139-143 takes that as a thumbnail failure, and the run succeeds without a thumbnail. The case cannot arise: the stored upload name is 32 hex digits (`multer({ dest })`, images.routes.ts:23), and a thumbnail name always holds `_thumb`.
- ClientImages.ImageListStore.FetchAll: a failed GET throws and leaves the list unchanged; the model takes the server's answer as given.
- ClientImages.ImageListStore.GetProcessingImages and ClientImages.ImageListStore.GetImageById read the list through `ProcessingItems` and `FindById`, which carry the contracts.

## Findings

| source | as written | input that shows it | evidently intended | confidence | as-written member | corrected member |
|---|---|---|---|---|---|---|
| server/src/shared/shared.controller.ts:57-67 | the share-link file endpoint streams the stored file at `image.path` and sets Content-Length to `image.size`; for a processed image that file is the encrypted `.enc` copy | an encrypted image whose recorded size is 2 and whose stored file is 3 bytes: the reply sends 3 bytes under a Content-Length of 2 | decrypt an encrypted image before sending it, as the owner's endpoint does, and announce the length of the body actually sent | not executed | Shared.SharedFileSendsCiphertext | Shared.DecryptedShareReturnsPlaintext |
