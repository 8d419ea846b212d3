# A verified model of the chat backend

This project states, in Dafny, what the hard parts of the chat backend do, and proves what they are for.
It has four parts.

- **Reading Office files.** `ZipFormat`, `ZipWriter`, `ZipReader`, `ZipRoundTrip` and `OpenXml` follow the hand-written
  ZIP reader byte by byte (PKWARE APPNOTE, sections 4.3.7, 4.3.12 and 4.3.16), with the archive writer of its test file
  as its inverse. `ByteFields` holds the fixed-width integer fields.
- **Uploads and avatars.** `Uploads` is the life cycle of an attachment as a machine: each await of a running
  `completeUpload` is one step, interleaved with other runs, clients writing to the bucket, stale resets and cleanup.
  `UploadSafety` proves what every run keeps, `AttachmentDtos` that finished rows can always be shown. `UploadService`
  has the sequential code of repository, processor and service; `UploadPlays` says what it is proved to do: its own run's
  next step at each await, with the answer really given, and nothing else. `UploadSteps` spells those steps out on the
  tables as they are found, `QuietUploads` what a whole call ends with, answer by answer, when nobody interferes.
  `StorageKeys` covers the object keys as text. `Avatars`, `AvatarUploads` and `AvatarCleanup` do the same for avatars,
  `AttachmentCleanup` for the attachment half of a cleanup sweep, and `CleanupService` is the sweep over both.
- **Conversations.** `Groups` has the roles, the capacity and the membership windows; `ChatDb` the tables and the
  transactions on them; `ChatDatabase` the same transactions statement by statement, with rollback. `ChatFrames`,
  `ChatAttachments`, `ChatNotifications` and `ChatReads` prove invariants over all serial runs, and `ChatEffects` says
  when each transaction does something and what it stores. `LiveAttachments` runs
  uploads, messages and cleanup together on the same rows, and `CleanupRaces` says which listed attachments may still be
  sent. `Idempotency`, `MessageCreation`, `DirectKey`, `DirectConversations` and `DirectConversationService` cover
  concurrent creation with recovery from a unique index; `ChatWitnesses` has concrete runs. `Paging` and `Listings` cover
  keyset paging.
- **Small concurrent kernels.** `ScanSemaphore`, `Instream`, `RateLimiter` and `Sessions`.

`Prelude` and `Runs` are shared vocabulary: optional values, results, filtering, and runs of a step function.

How things are modelled:

- One database transaction, or one conditional `updateMany` or `deleteMany`, is one atomic step; steps of different
  callers interleave freely between awaits. Where the source is a sequence of statements, a class carries them out and
  is proved to do what the specification function says, or to be a run of the machine.
- Identifiers are natural numbers that are drawn fresh, except where their text matters (`DirectKey`, `StorageKeys`).
  Instants are integers; no clock is assumed to be monotonic, except by the rate limiter, as its own claim does.
- Library calls become parameters: text decoding, inflate and the regular expressions of the Office detector, the file
  type detector, the image processor, the PDF check and the scanner. The answers of storage and scanner to each call are
  arbitrary.

Five promises of the source turn out to need a condition. The model gives it exactly, with a run or an input that fails:

- the ZIP reader refuses a directory that starts at offset 0xffffffff although the field can hold it
  (`ZipRoundTrip.DirectoryRoundTrip`; such an archive: `ZipRoundTrip.ReservedOffsetRefused`);
- a creation that loses the race for its key returns the winner's message exactly if it is a text message or its
  attachments could still be bound (`Idempotency.TakenKeyIsRecovered`); a media message racing with its own twin cannot,
  and fails (`Idempotency.LateMediaTwinFails`; a run: `ChatWitnesses.TwinFails`);
- editing a media message can change or remove its caption but not add one: the edit compares the stored body with the
  requested one in SQL, where a comparison with NULL is never true, although `docs/integration-examples.md` says the
  caption can be changed afterwards (`ChatFrames.EditTakesEffect`; a reachable message: `ChatWitnesses.CaptionIsNotAdded`);
- avatar cleanup is safe against everything that may happen between listing and deletion exactly for candidates listed
  as READY, REJECTED or CANCELLED (`Avatars.CleanupSafety`; runs for the others: `Avatars.UnsettledCandidatesHurt`);
- attachment cleanup is safe in the same way exactly for candidates listed with their message, or refused; one listed
  unbound and READY or PENDING may be sent before its object goes (`CleanupRaces.CleanupSafety`; runs:
  `CleanupRaces.ReadyHurts` and `CleanupRaces.PendingHurts`).

## Model

| member | source | states |
|---|---|---|
| `ZipRoundTrip.DirectoryRoundTrip` | src/modules/attachments/processing/attachment-file-type.ts:151-216 | for every list of files whose values fit their fields, the reader accepts the written archive exactly if it has 1 to 1000 files with decodable names and the directory does not start at the reserved offset 0xffffffff, and then returns one entry per file, in order, with its name, sizes and local offset |
| `ZipRoundTrip.ReservedOffsetRefused` | src/modules/attachments/processing/attachment-file-type.ts:166-178 | one file with an empty name and 0xffffffff - 30 bytes is written, lies within every limit but the reserved offset, and is refused |
| `ZipRoundTrip.EntryRoundTrip` | src/modules/attachments/processing/attachment-file-type.ts:244-299 | reading the entry of file i gives exactly its bytes if it has at most 1 MiB, and is refused otherwise |
| `ZipRoundTrip.PackedRoundTrip` | src/modules/attachments/processing/attachment-file-type.ts:244-299 | wherever it lies in a body, a stored or deflated file with a local extra field of any length is read back |
| `ZipReader.AcceptedIffTiled` | src/modules/attachments/processing/attachment-file-type.ts:151-216 | for every byte string: the reader accepts with these entries exactly if the last end record reaching the end of the file announces a supported directory which the entries, as many as announced, cover without gap or overlap |
| `ZipReader.ParsedIffTiled` | src/modules/attachments/processing/attachment-file-type.ts:180-215 | the directory loop succeeds with exactly the entries that tile the announced range |
| `ZipReader.FindEndOfCentralDirectory` | src/modules/attachments/processing/attachment-file-type.ts:218-242 | the backward scan finds the last end record in the whole file, or says that there is none although it scans only the last 65557 offsets |
| `ZipReader.LastIsFound` | src/modules/attachments/processing/attachment-file-type.ts:218-242 | no end record can lie before the scanned range |
| `ZipReader.CutsAscend` | src/modules/attachments/processing/attachment-file-type.ts:180-215 | entries of an accepted directory lie one after the other, at least 46 bytes each |
| `ZipReader.ReadDirectory` | src/modules/attachments/processing/attachment-file-type.ts:180-215 | the loop computes the recursive parse, with the same error at the same entry |
| `ZipReader.ReadZipEntries` | src/modules/attachments/processing/attachment-file-type.ts:151-216 | the reader computes ZipEntries, which the round trip and the tiling characterise; every access stays inside the body |
| `ZipReader.EntryIffUnpacked` | src/modules/attachments/processing/attachment-file-type.ts:244-299 | for every byte string and entry: the reader returns these bytes exactly if neither size exceeds 1 MiB, nothing is encrypted, an unencrypted local header with the entry's method lies at its offset, and the window of compressedSize bytes behind header, name and extra field is those bytes (method 0) or inflates to them (method 8) with the announced size |
| `ZipWriter.CreateStoredZip` | src/modules/attachments/processing/attachment-file-type.test.ts:83-124 | the writer yields the archive exactly if every value fits its field, and throws otherwise |
| `ZipWriter.BuildLocalHeader` | src/modules/attachments/processing/attachment-file-type.test.ts:92-98 | the field writes into the zeroed buffer produce the local header of PKWARE APPNOTE section 4.3.7 |
| `ZipWriter.BuildCentralHeader` | src/modules/attachments/processing/attachment-file-type.test.ts:101-110 | the field writes produce the directory record of PKWARE APPNOTE section 4.3.12 |
| `ZipWriter.BuildEndRecord` | src/modules/attachments/processing/attachment-file-type.test.ts:114-121 | the field writes produce the end record of PKWARE APPNOTE section 4.3.16 |
| `ZipWriter.NotEncodable` | src/modules/attachments/processing/attachment-file-type.test.ts:83-124 | one value that does not fit makes the whole archive unwritable |
| `ZipFormat.LocalHeaderIn` | src/modules/attachments/processing/attachment-file-type.ts:259-271 | the fields the reader looks up in a local header are those that were written |
| `ZipFormat.CentralHeaderIn` | src/modules/attachments/processing/attachment-file-type.ts:180-212 | the fields the reader looks up in a directory record are those that were written |
| `ZipFormat.EndRecordIn` | src/modules/attachments/processing/attachment-file-type.ts:151-178 | the fields the reader looks up in an end record are those that were written |
| `OpenXml.DetectOpenXml` | src/modules/attachments/processing/attachment-file-type.ts:57-126 | the detector computes Detected: any exception on the way means no Office format |
| `OpenXml.HasMainPartContentType` | src/modules/attachments/processing/attachment-file-type.ts:128-149 | the loop finds whether some Override tag declares the main part with its content type |
| `OpenXml.DetectsExactly` | src/modules/attachments/processing/attachment-file-type.ts:57-126 | for every byte string: a format is answered exactly if the entries that tile the directory, stored or deflated, form a package of that format only, by the part names and content types of ECMA-376 written out, without a VBA project or a mention of macros |
| `OpenXml.DetectsPackages` | src/modules/attachments/processing/attachment-file-type.ts:57-126 | for every archive the writer makes: the detector answers a format exactly if the reader accepts the archive and its files form a package of that format only, with a content types file of at most 1 MiB, and without a VBA project or a mention of macros |
| `OpenXml.SmallestPackages` | src/modules/attachments/processing/attachment-file-type.ts:57-126 | for each format the archive of a content types file that declares the main part, and that part, is detected as that format |
| `OpenXml.ArchiveHasSignature` | src/modules/attachments/processing/attachment-file-type.ts:47-55 | every non-empty written archive starts with the signature that selects this detector |
| `UploadSafety.ClaimsAreAccountedFor` | src/modules/attachments/persistence/attachment.repository.ts:257-381 | under any interleaving, per asset: claims = releases + stale resets + rejections from PROCESSING + completions + (1 if PROCESSING now); at most one completion, which it has exactly if it is READY |
| `UploadSafety.SettledStaysSettled` | src/modules/attachments/persistence/attachment.repository.ts:298-381 | READY and REJECTED are absorbing under any step: a READY row changes in nothing but its incoming key, a REJECTED one not at all |
| `UploadSafety.ReadyIsAsDeclared` | src/modules/attachments/application/attachment-upload.processor.ts:54-334 | every reachable READY row has actualSize = declaredSize within the limit of its kind, detected type = declared type mapping to its kind, and dimensions and a thumbnail key exactly if it is an image |
| `UploadSafety.ReadyFileIsGenuine` | src/modules/attachments/application/attachment-upload.processor.ts:205-307 | however clients rewrite incoming objects and runs overlap, the ready object of a PDF or office file only holds bytes of the declared size and type that were scanned clean (and passed the PDF check), and it is there while the asset is READY until cleanup picks it |
| `UploadSafety.ReadyObjectsArePresent` | src/modules/attachments/application/attachment-upload.processor.ts:159-307 | a READY asset of any kind has its object, and an image its thumbnail, until cleanup picks it |
| `UploadSafety.AcceptedByRun` | src/modules/attachments/application/attachment-upload.processor.ts:205-287 | a body counts as clean or valid only because some run scanned or checked it for this asset |
| `UploadSafety.ReleaseIsInTime` | src/modules/attachments/persistence/attachment.repository.ts:298-313 | the expiry check of releaseProcessing never stops a run of completeUpload from releasing an asset that is still PROCESSING |
| `UploadSafety.StepKeeps` | src/modules/attachments/persistence/attachment.repository.ts:197-475 | every await of every run and every step of clients, stale reset and cleanup keeps the invariant and takes nothing back |
| `UploadSafety.RowMoved` | src/modules/attachments/persistence/attachment.repository.ts:257-381 | a guarded update that fits the intent and the count of its moves keeps all rows, objects and counts sound |
| `UploadSafety.CompletedRow` | src/modules/attachments/application/attachment-upload.processor.ts:309-334 | what a run found out about the record it read fits the row it completes, even if other runs moved it in between |
| `UploadSafety.PuttingKeeps` | src/modules/attachments/application/attachment-upload.processor.ts:179-307 | storing processed objects, completely or not, leaves no object that was not accepted |
| `UploadSafety.CreateUploadKeeps` | src/modules/attachments/application/attachment.service.ts:98-161 | a new intent is within the limit of its kind and owns its keys |
| `UploadSafety.ResetKeeps` | src/modules/attachments/persistence/attachment.repository.ts:456-467 | resetting stale claims keeps the invariant and counts every reset |
| `UploadSafety.LifecycleSeenByChat` | src/modules/attachments/persistence/attachment.repository.ts:344-381 | the life cycle changes status and size of an attachment only as the message transactions allow for |
| `AttachmentDtos.MappersTotal` | src/modules/attachments/application/attachment.mapper.ts:12-104 | on every reachable READY row neither DTO mapper throws and both give the same DTO, with the declared type of a file |
| `AttachmentDtos.CompletedUploadMaps` | src/modules/messages/message.service.ts:261-349 | the record that a completeUpload returns can be mapped, to what a message would show |
| `UploadService.Backend.CompleteUpload` | src/modules/attachments/application/attachment.service.ts:163-225 | the sequential code plays exactly the awaits of its run on the answers it is really given, whatever happens in between, returns only records that can be shown, and without interference ends as the rows on QuietUploads say |
| `QuietUploads.EarlyExceptions` | src/modules/attachments/application/attachment.service.ts:163-207 | not a member, no such upload, wrong status, expired: each ends with its own exception and nothing but the run has changed |
| `QuietUploads.AlreadyReady` | src/modules/attachments/application/attachment.service.ts:163-225 | a call on a READY row returns its record and clears what is left of the incoming object; a storage fault there is reported and changes nothing |
| `QuietUploads.ReadExceptions` | src/modules/attachments/application/attachment-upload.processor.ts:63-103 | either read: too large or not as declared rejects, a storage fault releases for retry, a missing object releases as incomplete; nothing is stored or accepted |
| `QuietUploads.ContentExceptions` | src/modules/attachments/application/attachment-upload.processor.ts:105-124 | bytes of no known type, of another kind or of another type than declared reject, each with its exception, and nothing is stored |
| `QuietUploads.UnconfiguredExceptions` | src/modules/attachments/application/attachment-upload.processor.ts:205-264 | without the scanner, or for a PDF without the PDF processor, the row is released for retry |
| `QuietUploads.ImageExceptions` | src/modules/attachments/application/attachment-upload.processor.ts:159-178 | a conversion that fails or gives another type rejects, and nothing is stored |
| `QuietUploads.ImageStores` | src/modules/attachments/application/attachment-upload.processor.ts:179-203 | original and thumbnail are stored as WebP under their own keys; a fault in either store releases for retry |
| `QuietUploads.PdfExceptions` | src/modules/attachments/application/attachment-upload.processor.ts:220-229 | a PDF that does not pass its check is rejected, and nothing is stored or accepted |
| `QuietUploads.ScanExceptions` | src/modules/attachments/application/attachment-upload.processor.ts:266-287 | a failed scan releases for retry, a finding rejects; either way nothing is stored or accepted |
| `QuietUploads.FileStores` | src/modules/attachments/application/attachment-upload.processor.ts:288-307 | after a clean scan the same bytes are stored under the ready key with the declared type; a fault releases for retry |
| `QuietUploads.ImageEndsReady` | src/modules/attachments/application/attachment-upload.processor.ts:159-203 | a matching image that is converted and stored ends Ok and READY with its size, its type and the width and height of the conversion; both objects are there and the incoming one is gone |
| `QuietUploads.FileEndsReady` | src/modules/attachments/application/attachment-upload.processor.ts:205-334 | a matching PDF or office file that passes check and scan ends Ok and READY with its size and type; its own bytes are the object and the incoming one is gone |
| `UploadService.Backend.FindAndClaim` | src/modules/attachments/application/attachment.service.ts:163-207 | membership check, look-up, status and expiry checks and claim, with the early exits |
| `UploadService.Backend.ProcessUpload` | src/modules/attachments/application/attachment-upload.processor.ts:54-103 | download with metadata and size checks, then the checks on the contents, to READY or the exception |
| `UploadService.Backend.Look` | src/modules/attachments/application/attachment-upload.processor.ts:63-103 | each of the two reads ends as the catch block says: rejected, released, or released for retry |
| `UploadService.Backend.Classify` | src/modules/attachments/application/attachment-upload.processor.ts:105-157 | detected type, kind and declared type are compared, then the branch of the kind is taken |
| `UploadService.Backend.ProcessImageUpload` | src/modules/attachments/application/attachment-upload.processor.ts:159-203 | image branch: convert, store original and thumbnail, complete; an unusable conversion is an invalid file, a storage fault is reported as such |
| `UploadService.Backend.ProcessPdfUpload` | src/modules/attachments/application/attachment-upload.processor.ts:205-239 | PDF branch: the check comes before the scan, and a PDF that does not pass it is an invalid file |
| `UploadService.Backend.ScanAndStoreOriginalUpload` | src/modules/attachments/application/attachment-upload.processor.ts:266-307 | an infected file is invalid, a failed scan is reported as such, and only after a clean one the object is stored and the row completed |
| `UploadService.Backend.CompleteProcessedAttachment` | src/modules/attachments/application/attachment-upload.processor.ts:309-334 | a lost membership rejects, a lost claim conflicts, otherwise the asset is READY |
| `UploadService.Backend.RemoveIncomingObject` | src/modules/attachments/application/attachment.service.ts:294-312 | the incoming object goes before its key |
| `UploadService.Backend.ClaimForProcessing` | src/modules/attachments/persistence/attachment.repository.ts:257-296 | succeeds exactly for the member's own PENDING, unexpired upload |
| `UploadService.Backend.ReleaseProcessing` | src/modules/attachments/persistence/attachment.repository.ts:298-313 | PROCESSING and unexpired to PENDING, nothing else |
| `UploadService.Backend.ReleaseProcessingForRetry` | src/modules/attachments/persistence/attachment.repository.ts:315-330 | PROCESSING to PENDING, nothing else |
| `UploadService.Backend.MarkRejected` | src/modules/attachments/persistence/attachment.repository.ts:332-342 | PENDING or PROCESSING to REJECTED, nothing else |
| `UploadService.Backend.CompleteAttachment` | src/modules/attachments/persistence/attachment.repository.ts:344-381 | PROCESSING to READY with the findings, for a current member, nothing else |
| `UploadService.Backend.ResetStaleProcessing` | src/modules/attachments/persistence/attachment.repository.ts:456-467 | every stale PROCESSING row to PENDING, nothing else |
| `UploadService.Backend.CreatePendingAttachment` | src/modules/attachments/persistence/attachment.repository.ts:197-238 | the transaction stores exactly the intent with its own keys for a current member, and nothing for anybody else |
| `UploadService.Backend.CreateUploadIntent` | src/modules/attachments/application/attachment.service.ts:98-161 | the refusals in order: not a member, unsupported type, then size or name; only then a row is stored, and an upload link that cannot be made is reported although the row stays |
| `AttachmentCleanup.AttachmentCleanupService.ListCleanupCandidates` | src/modules/attachments/persistence/attachment.repository.ts:414-454 | every row of the query's answer is listed as it is at that moment, in the order of the answer, which is the first rows up to the batch size by time of change and id of those unbound too long, never uploaded, refused, or due |
| `AttachmentCleanup.AttachmentCleanupService.CleanupCandidate` | src/modules/media/avatar-cleanup.service.ts:89-125 | the three objects and then the row, and nothing else; each object was gone at some moment, and the row is gone at the end |
| `AttachmentCleanup.AttachmentCleanupService.RunOnce` | src/modules/media/avatar-cleanup.service.ts:46-87 | the attachment half of a sweep: stale reset, listing, then every candidate, step by step and nothing else; none of them has a row afterwards, all their objects were gone, and without interference all are gone and counted |
| `AttachmentCleanup.BatchIsListed` | src/modules/attachments/persistence/attachment.repository.ts:414-454 | what is listed are at most batch-size different candidates in the sense of the message invariants |
| `StorageKeys.KeysAreOwn` | src/modules/attachments/domain/attachment-storage-policy.ts:10-46 | object keys of different assets or roles are different texts |
| `StorageKeys.KeyTexts` | src/modules/attachments/domain/attachment-storage-policy.ts:10-46 | the keys as they are written: incoming/, ready/ with original and extension, ready/ with thumbnail.webp |
| `ChatAttachments.MediaAlwaysBound` | src/modules/messages/message.repository.ts:204-295 | in every run each undeleted media message has 1 to 4 READY attachments of its sender and conversation at positions 0, 1, ... in request order, no others, whose sizes add up to at most 50 MiB |
| `ChatAttachments.MediaRefusals` | src/modules/messages/message.repository.ts:207-265 | which error refuses a media message, first failure first, in terms of the rows: number and distinctness, membership, each attachment's owner, conversation, status and binding, and the sum of up to four sizes against 50 MiB; nothing else refuses it |
| `ChatAttachments.TotalAdds` | src/modules/messages/message.repository.ts:251-265 | the total of two lists together is the sum of their totals |
| `ChatAttachments.CreationBinds` | src/modules/messages/message.repository.ts:204-295 | a media message is created exactly if nothing stands in its way and its key is free, and then has exactly the requested attachments; any other outcome changes nothing |
| `ChatAttachments.BindSucceeds` | src/modules/messages/message.repository.ts:279-295 | once the checks have passed, the binding loop cannot fail in a serial run |
| `ChatAttachments.BindingIsForGood` | src/modules/messages/message.repository.ts:279-295 | a bound attachment never moves to another message, back to none, or to another position |
| `ChatAttachments.RetentionAlwaysHolds` | src/modules/messages/message.repository.ts:435-468 | in every run a bound attachment is due exactly if its message is deleted, at the first deletion plus the retention time |
| `ChatAttachments.CleanupRespectsRetention` | src/modules/attachments/persistence/attachment.repository.ts:414-475 | cleanup, listing and deleting one candidate as one step, removes no attachment of a live message, nor of a deleted one too early |
| `LiveAttachments.LiveFilesAreServed` | src/modules/messages/message.repository.ts:204-306 | uploads, messages and cleanup interleaved, with listing and deleting apart: the attachment of an undeleted message has its object, genuine for a PDF or office file and with a thumbnail for an image, unless cleanup listed it before it was bound |
| `LiveAttachments.MediaMessagesAreServed` | src/modules/messages/message.repository.ts:204-306 | in the same runs an undeleted media message was sent with 1 to 4 attachments, and each one not listed before it was bound is there, READY, at its position, of its sender and conversation, and served |
| `LiveAttachments.SettledCandidatesStayOut` | src/modules/attachments/persistence/attachment.repository.ts:414-475 | a row listed with its message, or refused, never belongs to a live message again, so deleting it later is as good as deleting it at once |
| `LiveAttachments.StepKeeps` | src/modules/attachments/persistence/attachment.repository.ts:414-475 | every step of chat, uploads, clients and cleanup keeps both views of the rows in agreement and every early listing on record |
| `CleanupRaces.CleanupSafety` | src/modules/attachments/persistence/attachment.repository.ts:414-475 | in some run cleanup takes the object of a live message exactly for attachments listed as unbound and READY or PENDING: the deletion does not ask again whether the row is still unbound |
| `CleanupRaces.ReadyHurts` | src/modules/attachments/persistence/attachment.repository.ts:414-475 | a complete run in which a photo listed as long unbound is sent before its object is deleted |
| `CleanupRaces.PendingHurts` | src/modules/attachments/persistence/attachment.repository.ts:414-475 | a complete run in which a photo listed as PENDING and expired is claimed late, completed and sent before its object is deleted |
| `ChatNotifications.NotificationsAlwaysCurrent` | src/modules/messages/message.repository.ts:308-336 | in every run each stored notification is for a current member other than the sender who had joined by then, so none survives leaving and returning |
| `ChatNotifications.NotifiedExactly` | src/modules/messages/message.repository.ts:308-336 | a new message notifies exactly the other current members who have not muted and had joined |
| `ChatNotifications.GroupStepMember` | src/modules/conversations/conversation.repository.ts:159-188 | a change in a group ends a notified user's membership only together with the notification, and adds none |
| `ChatReads.LastMessageAlwaysCached` | src/modules/messages/message.repository.ts:297-306 | in every run lastMessageAt is the largest creation time in the log, whatever the clocks say |
| `ChatReads.WatermarkAlwaysLatest` | src/modules/reads/read.repository.ts:38-106 | in every run, whatever order and repetition, the stored watermark is the latest reported message in (createdAt, id) order |
| `ChatReads.PublishesOnStrictAdvance` | src/modules/reads/read.service.ts:33-102 | an event is published exactly if the watermark is new or strictly later |
| `ChatReads.ReadingNeverRaises` | src/modules/conversations/conversation.repository.ts:237-253 | a report never raises the unread count and only takes away messages up to its target |
| `ChatReads.NewMessageCounts` | src/modules/conversations/conversation.repository.ts:237-253 | a new message raises the unread count by exactly 1 if it is countable, else not at all |
| `ChatReads.DeletionCounts` | src/modules/conversations/conversation.repository.ts:237-253 | a deletion lowers the unread count by exactly 1 if the message was counted, else not at all |
| `ChatDatabase.Database.CreateMessageTransaction` | src/modules/messages/message.repository.ts:204-349 | the statements, in order and undone on failure, amount to CreateMessage |
| `ChatEffects.TextCreation` | src/modules/messages/message.repository.ts:204-225 | a text message is created exactly if its key is free and the conversation exists; a taken key is reported first |
| `ChatEffects.MediaCreation` | src/modules/messages/message.repository.ts:204-295 | a media message is created exactly if it is not refused and its key is free; a refusal is reported before a taken key |
| `ChatEffects.CreationStores` | src/modules/messages/message.repository.ts:204-306 | a creation stores the message column by column and of the conversations moves only its own last-message time |
| `ChatEffects.CreationBindsOnly` | src/modules/messages/message.repository.ts:266-295 | it binds exactly the listed attachments, each at its place in the list, and a text message none |
| `ChatDatabase.Database.CheckAttachments` | src/modules/messages/message.repository.ts:207-265 | the checks on the requested attachments with the loop that adds up the sizes find exactly the first failure, which MediaRefusals spells out |
| `ChatFrames.EditTakesEffect` | src/modules/messages/message.repository.ts:399-433 | an edit of one's own undeleted message takes effect exactly if the message had a body or is to have none; a caption cannot be added later |
| `ChatWitnesses.CaptionIsNotAdded` | src/modules/messages/message.repository.ts:399-433 | a reachable state with an own, undeleted media message without a body, in which the edit that adds a caption changes nothing |
| `ChatDatabase.Database.UpdateMessage` | src/modules/messages/message.repository.ts:399-433 | answers whether the own undeleted message is there and whether it changed; then it has the requested body and the edit time, and nothing else changes |
| `ChatDatabase.Database.SoftDeleteMessage` | src/modules/messages/message.repository.ts:435-468 | only the sender's undeleted message gets a deletion time and its attachments, and no others, become due at the given time |
| `ChatDatabase.Database.AddGroupMember` | src/modules/conversations/conversation.repository.ts:140-157 | exactly the errors of Groups.Add with nothing changed, or the user is now a plain, unmuted member from that time, and no other row changes |
| `ChatDatabase.Database.RemoveGroupMember` | src/modules/conversations/conversation.repository.ts:159-173 | exactly the errors of Groups.Remove with nothing changed, or the user has left at that time and exactly their notifications of this conversation are gone |
| `ChatDatabase.Database.LeaveGroup` | src/modules/conversations/conversation.repository.ts:175-188 | exactly the errors of Groups.Leave with nothing changed, or the actor has left and exactly their notifications of this conversation are gone |
| `ChatDatabase.Database.UpdateGroupMemberRole` | src/modules/conversations/conversation.repository.ts:190-202 | exactly the errors of Groups.UpdateRole with nothing changed, or the active user has the new role, and no other row changes |
| `ChatDatabase.Database.TransferGroupOwnership` | src/modules/conversations/conversation.repository.ts:204-218 | exactly the errors of Groups.Transfer with nothing changed, or the target is the only active owner |
| `ChatDatabase.Database.UpdateMute` | src/modules/conversations/conversation.repository.ts:123-129 | a current member's own flag, and nothing else; refused for anybody else |
| `ChatDatabase.Database.UpdateWatermarkRow` | src/modules/reads/read.repository.ts:38-106 | the stored watermark becomes the target exactly if there was none or a strictly earlier one; the watermarks before and after are reported and no other one moves |
| `Groups.GroupFromCreation` | src/modules/conversations/conversation.repository.ts:87-218 | from creation on, never more than 100 active members, and exactly one active owner until an owner leaves, none afterwards |
| `Groups.OwnersConserved` | src/modules/conversations/conversation.repository.ts:140-218 | in every run the number of active owners drops by exactly the departures of an owner |
| `Groups.StepOwners` | src/modules/conversations/conversation.repository.ts:140-218 | each transaction keeps the number of owners, except an owner's own departure; a transfer makes the target the only owner |
| `Groups.CreatedGroup` | src/modules/conversations/conversation.repository.ts:87-97 | a created group has the creator as its one owner and one member per listed user |
| `Groups.CreationSucceeds` | src/modules/conversations/conversation.repository.ts:87-97 | a group is created exactly if creator and listed users are available, different and listed once; then the creator is owner and everybody else a plain member from that time |
| `Groups.AddSucceeds` | src/modules/conversations/conversation.repository.ts:140-157 | exactly if an active owner or admin adds an available user who is no current member while there are fewer than 100; the user is then a plain, unmuted member from that time |
| `Groups.LeaveSucceeds` | src/modules/conversations/conversation.repository.ts:175-188 | exactly if the actor is a current member and, if owner, not the last one; an owner of a larger group can leave |
| `Groups.Refusals` | src/modules/conversations/conversation.repository.ts:140-218 | which error each transaction gives in each situation, in the order of the checks |
| `Groups.Authority` | src/modules/conversations/conversation.repository.ts:140-218 | without the role for it, an actor changes nobody else's row, and only an owner changes roles |
| `Groups.WindowKept` | src/modules/conversations/conversation.repository.ts:140-218 | only a removal or a departure ends a membership, and it keeps its join time until then |
| `Idempotency.SameKeySameMessage` | src/modules/messages/message.repository.ts:191-371 | over any interleaving, all calls with one key that return give the same message, which carries the key |
| `Idempotency.ExactlyOneCreated` | src/modules/messages/message.repository.ts:191-371 | of the calls that returned a message exactly one says that it created it |
| `Idempotency.OnlyTheCreatorNotifies` | src/modules/messages/message.repository.ts:308-336 | only the creating call adds notifications, only for its message |
| `Idempotency.RefetchFinds` | src/modules/messages/message.repository.ts:355-370 | the look-up after the unique index fired never comes back empty |
| `Idempotency.TextCallsSucceed` | src/modules/messages/message.repository.ts:191-371 | a text call in an existing conversation does not fail at its transaction |
| `Idempotency.TakenKeyIsRecovered` | src/modules/messages/message.repository.ts:204-370 | a call whose key is taken at its transaction goes on to the winner's message exactly if it is a text call or its attachments could still be bound |
| `Idempotency.LateMediaTwinFails` | src/modules/messages/message.repository.ts:241-249 | a media call whose twin has just succeeded fails on its bound attachments before the unique index can fire |
| `Idempotency.UndisturbedCall` | src/modules/messages/message.repository.ts:191-371 | a call whose key is free looks, creates and returns the new message as created by it, or fails with the tables unchanged, by a condition on the rows |
| `Idempotency.RepeatedCall` | src/modules/messages/message.repository.ts:191-204 | a call whose key was used returns that message at once, as not created by it |
| `ChatWitnesses.TwinFails` | src/modules/messages/message.repository.ts:191-371 | a reachable run of two media calls with one key: the first creates the message, the second fails |
| `MessageCreation.MessageRepository.CreateMessage` | src/modules/messages/message.repository.ts:191-371 | the sequential code plays exactly the awaits of its call, with anything happening in between, returns what its call of the system returned, and never reports the duplicate |
| `DirectKey.KeySymmetric` | src/modules/conversations/direct-key.ts:1-8 | the key does not depend on who starts |
| `DirectKey.KeyInjective` | src/modules/conversations/direct-key.ts:1-8 | for ids without a colon, keys are equal exactly for the same unordered pair |
| `DirectKey.KeyText` | src/modules/conversations/direct-key.ts:1-8 | the key is both ids in lower case with a colon between, the smaller one first |
| `DirectKey.ColonsCollide` | src/modules/conversations/direct-key.ts:1-8 | with colons in the ids different pairs can share a key |
| `DirectConversations.OneConversationPerPair` | src/modules/conversations/conversation.service.ts:124-140 | over any interleaving, two calls return the same conversation exactly if they are about the same two users, who are its members |
| `DirectConversations.ExactlyOneCreated` | src/modules/conversations/conversation.service.ts:124-140 | exactly one of the calls that returned a conversation says that it created it |
| `DirectConversations.RaceIsRecovered` | src/modules/conversations/conversation.service.ts:130-139 | the second look-up always finds the winner's conversation |
| `DirectConversations.EarlyFailures` | src/modules/conversations/conversation.service.ts:124-130 | nobody talks to themselves, in whatever spelling, nor to somebody who is not available |
| `DirectConversations.FirstCall` | src/modules/conversations/conversation.service.ts:124-140 | the first call about two users creates a conversation with exactly these two and says so |
| `DirectConversations.LaterCall` | src/modules/conversations/conversation.service.ts:124-140 | a later one, from either side, returns that conversation as not created by it and changes nothing |
| `DirectConversationService.ConversationService.GetOrCreateDirectConversation` | src/modules/conversations/conversation.service.ts:124-140 | the sequential code plays exactly the awaits of its call, with anything happening in between, and fails only for the caller's own reasons |
| `Listings.FilterIsAfterCursor` | src/modules/conversations/conversation.repository.ts:50-54 | the cursor filter is exactly strictly-after in (lastMessageAt desc nulls last, createdAt desc, id desc) |
| `Listings.FollowConversations` | src/modules/conversations/conversation.service.ts:155-163 | following nextCursor with any limit of at least 1 ends and concatenates to the sorted list, each conversation once |
| `Listings.ConversationListingIs` | src/modules/conversations/conversation.repository.ts:99-117 | that list is the conversations of which the user is a current member, the most active first |
| `Listings.ConversationPage` | src/modules/conversations/conversation.repository.ts:99-117 | a page is the next stretch of the full listing |
| `Listings.ListConversations` | src/modules/conversations/conversation.service.ts:155-163 | the page is the next stretch of the listing behind the cursor, at most limit rows, with a cursor exactly if more follow |
| `Listings.ScrollBack` | src/modules/messages/message.service.ts:135-154 | scrolling back page by page rebuilds the log, each message once, oldest first |
| `Listings.LogIs` | src/modules/messages/message.repository.ts:373-397 | that log is the messages of the conversation, the oldest first, those of one instant by id |
| `Listings.HistoryPage` | src/modules/messages/message.repository.ts:373-397 | a page of history is the next stretch of the full listing |
| `Listings.ListMessages` | src/modules/messages/message.service.ts:135-154 | the page is the stretch of the log just before the cursor, oldest first, with a cursor exactly if older messages remain |
| `Paging.QueryAfter` | src/modules/conversations/conversation.repository.ts:50-54 | a query for the rows strictly after one of the listing returns what follows it there |
| `Paging.ListingUnique` | src/modules/conversations/conversation.repository.ts:99-117 | there is only one listing in a strict order |
| `ScanSemaphore.After` | src/modules/attachments/processing/clamav-scanner.ts:39-87 | the invariant holds after every sequence of events |
| `ScanSemaphore.Bounded` | src/modules/attachments/processing/clamav-scanner.ts:39-87 | in every run at most maximum permits are out, no call settles twice, and whoever waits finds all permits taken |
| `ScanSemaphore.FirstComeFirstServed` | src/modules/attachments/processing/clamav-scanner.ts:39-87 | in every run whoever arrived before a call with a permit got one earlier or timed out |
| `ScanSemaphore.ReleaseKeeps` | src/modules/attachments/processing/clamav-scanner.ts:70-86 | a first release frees a permit or hands it to the longest waiting call; a second one does nothing |
| `ScanSemaphore.StepKeeps` | src/modules/attachments/processing/clamav-scanner.ts:39-87 | every acquire, timer and release keeps the counts, the queue and the order |
| `ScanSemaphore.Semaphore.AcquirePermit` | src/modules/attachments/processing/clamav-scanner.ts:45-68 | takes a free permit or joins the queue with a timer |
| `ScanSemaphore.Semaphore.TimeOut` | src/modules/attachments/processing/clamav-scanner.ts:45-68 | the timer takes exactly its call out of the queue |
| `ScanSemaphore.Semaphore.ReleasePermit` | src/modules/attachments/processing/clamav-scanner.ts:70-86 | the release closure, first and repeated |
| `Instream.DaemonReceivesBody` | src/modules/attachments/processing/clamav-scanner.ts:186-198 | decoding the frames gives back the body, in ceil(n / 65536) chunks of which none is empty |
| `Instream.WriteInstream` | src/modules/attachments/processing/clamav-scanner.ts:186-198 | the offset loop sends the command, the frames and the zero length |
| `RateLimiter.AcceptsIffBelowLimit` | src/realtime/rate-limit/socket-event-rate-limiter.ts:19-35 | for non-decreasing times a call is accepted exactly if fewer than limit of the calls accepted before lie in (now - windowMs, now] |
| `RateLimiter.AcceptsAsCounted` | src/realtime/rate-limit/socket-event-rate-limiter.ts:19-35 | the queue, which forgets, accepts exactly the calls that counting over all earlier accepts would |
| `RateLimiter.NoWindowExceedsLimit` | src/realtime/rate-limit/socket-event-rate-limiter.ts:19-35 | no window of that length, wherever it ends, holds more than limit of the calls the queue accepted |
| `RateLimiter.SocketEventRateLimiter.TryAcquire` | src/realtime/rate-limit/socket-event-rate-limiter.ts:19-35 | the shifting loop and the push on the queue |
| `Sessions.EachTokenRotatesOnce` | src/modules/auth/sessions/auth-session.service.ts:140-189 | for any interleaving each token value is rotated away at most once and the successes of a session form one chain from its first token to its current one |
| `Sessions.TokensFormAChain` | src/modules/auth/sessions/auth-session.service.ts:140-189 | that chain rotation by rotation: the first starts at the session's first token, each later one where the one before it ended, the last ends at the current token |
| `Sessions.UndisturbedClientSucceeds` | src/modules/auth/sessions/auth-session.service.ts:140-189 | a client that presents the current token of a usable session succeeds if nobody comes in between, and the session has the new token and that time of use |
| `Sessions.CompareAndSetSucceeds` | src/modules/auth/sessions/auth-session.repository.ts:91-114 | whatever happened in between, the compare-and-set succeeds exactly if the session then still has that token and user and is neither revoked, expired nor used later, its user being active |
| `Sessions.ReadGoesOn` | src/modules/auth/sessions/auth-session.service.ts:140-170 | after the look-up a client goes on exactly if the token is current in a session neither revoked nor expired and the new token is another one |
| `Sessions.RunKeeps` | src/modules/auth/sessions/auth-session.repository.ts:91-175 | every interleaving keeps hashes unique, rotated tokens spent and pending ones unused |
| `Sessions.StepAdvances` | src/modules/auth/sessions/auth-session.repository.ts:91-175 | no rotation after revocation or expiry; expiry times stay, use times never decrease, revocations stand |
| `Sessions.SessionsOnlyAdvance` | src/modules/auth/sessions/auth-session.repository.ts:91-175 | the same over whole runs |
| `Sessions.RotateRefreshToken` | src/modules/auth/sessions/auth-session.service.ts:140-189 | without interference the service call succeeds exactly if the presented token is current in a session that is not revoked, not expired, not used later and of an active user, and the new token is another one; then that session alone has the new token |
| `Sessions.AuthSessionRepository.RotateRefreshToken` | src/modules/auth/sessions/auth-session.repository.ts:91-114 | the presented hash is replaced exactly if it is current in an unrevoked, unexpired session of an active user not used later; the use time does not go back and no other session changes |
| `Sessions.AuthSessionRepository.CreateSession` | src/modules/auth/sessions/auth-session.repository.ts:27-39 | refused exactly if some session has the hash, so hashes stay unique |
| `Sessions.AuthSessionRepository.RevokeSession` | src/modules/auth/sessions/auth-session.repository.ts:116-127 | the user's session ends revoked, an earlier revocation keeps its time, no other session changes |
| `Sessions.AuthSessionRepository.RevokeOtherSessions` | src/modules/auth/sessions/auth-session.repository.ts:129-158 | afterwards at most the current session of the user is unrevoked; that one, other users' sessions and earlier revocations are untouched, and the answer names exactly the sessions revoked now |
| `Sessions.AuthSessionRepository.UpdateLastUsedAt` | src/modules/auth/sessions/auth-session.repository.ts:160-175 | the use time is set exactly if the session is unrevoked, unexpired and not used later, and never goes back |
| `Avatars.AvatarsAlwaysAgree` | src/modules/media/avatar.repository.ts:128-305 | in every reachable world each user has no avatar, or an existing READY asset of their own with its public URL |
| `Avatars.CurrentObjectsThere` | src/modules/media/avatar.repository.ts:227-281 | in every reachable world the public object of every current avatar is there, unless cleanup listed the asset while it was PENDING or PROCESSING |
| `Avatars.RetiredForGood` | src/modules/media/avatar.repository.ts:227-281 | a READY avatar that is nobody's current one never becomes one again |
| `Avatars.CleanupSafety` | src/modules/media/avatar-cleanup.service.ts:127-164 | cleanup never deletes a current avatar's public object, whatever happens between listing and deletion, exactly if the candidate was listed as READY, REJECTED or CANCELLED |
| `Avatars.SettledCandidatesAreSafe` | src/modules/media/avatar-cleanup.service.ts:127-164 | the safe half of that, for every reachable world |
| `Avatars.UnsettledCandidatesHurt` | src/modules/media/avatar-cleanup.service.ts:127-164 | for PENDING and for PROCESSING, a run that claims, reads, stores and completes an avatar after cleanup listed it, whose public object the sweep then deletes |
| `Avatars.StepKeeps` | src/modules/media/avatar.repository.ts:128-358 | every transaction and every cleanup step keeps the agreement and lets no settled asset move |
| `AvatarUploads.BecomesAvatar` | src/modules/media/avatar.service.ts:115-281 | an upload that is read, converted and stored without a fault becomes its owner's avatar in place of any earlier one, with its public URL, asset READY and object stored |
| `AvatarUploads.ReadFails` | src/modules/media/avatar.service.ts:196-238 | either read: a fault or a missing object leaves the asset PENDING, an object that is not what was declared rejects it; users and objects stay |
| `AvatarUploads.ConversionFails` | src/modules/media/avatar.service.ts:240-250 | an invalid picture is rejected; a failure of the processor itself leaves the asset PROCESSING |
| `AvatarUploads.StoreFails` | src/modules/media/avatar.service.ts:252-263 | a failed store leaves the asset PENDING, whether or not the object got there |
| `AvatarCleanup.AvatarRepository.CreatePendingAvatar` | src/modules/media/avatar.repository.ts:128-167 | an active owner's PENDING assets are cancelled and the new one is stored |
| `AvatarCleanup.AvatarRepository.ClaimForProcessing` | src/modules/media/avatar.repository.ts:181-198 | succeeds exactly for the owner's PENDING, unexpired asset |
| `AvatarCleanup.AvatarRepository.CompleteAvatar` | src/modules/media/avatar.repository.ts:227-281 | asset and user change together or, when there is no active user, not at all |
| `AvatarCleanup.AvatarRepository.RemoveCurrentAvatar` | src/modules/media/avatar.repository.ts:290-305 | an active user's avatar and URL go together |
| `AvatarCleanup.AvatarRepository.DeleteUnreferencedAsset` | src/modules/media/avatar.repository.ts:350-356 | deletes the row exactly if it is nobody's current avatar |
| `AvatarCleanup.AvatarCleanupService.ListCleanupCandidates` | src/modules/media/avatar.repository.ts:307-348 | every row of the query's answer is noted as it is at that moment, in the order of the answer, which is the first assets up to the batch size by time of change and id of those expired, stale, refused, cancelled, unused, or with an incoming object |
| `AvatarCleanup.AvatarCleanupService.CleanupCandidate` | src/modules/media/avatar-cleanup.service.ts:127-164 | incoming object, its key, and, unless it was current, ready object and row, in this order and nothing else; without interference all of that is gone |
| `AvatarCleanup.AvatarCleanupService.RunOnce` | src/modules/media/avatar-cleanup.service.ts:34-50 | the avatar half of a sweep lists exactly the query's answer and works through it step by step, with anything happening at its awaits; every candidate has lost its objects, none but a current one keeps its row without interference, and the counters count deleted rows and incoming objects |
| `CleanupService.Service.RunOnce` | src/modules/media/avatar-cleanup.service.ts:34-63 | both halves one after the other: exactly the two answers are listed and inspected; every listed attachment has lost its objects and row, every listed avatar its incoming and, unless it was current, its public object; the counters add up over both |

## Left out

- Express, Socket.IO, Prisma, the S3 client, zod, sharp, pdf.js, argon2, jose, inflate and the regular expressions: library internals, represented by parameters or arbitrary answers.
- Controllers, routes, schemas, publishers, rate-limit middleware, environment and logging: thin wrappers around what is modelled. Group titles, and the profile events and reading of avatars, are left out likewise.
- Isolation below the transaction: transactions are serial. `createMessage` does not take the group's advisory lock, so the notification invariant does not cover a creation that overlaps a departure, and the watermark reported back (not the stored one) may be stale.
- `ChatDb.Cleanup` lists and deletes one candidate in one step, because the message invariants do not hold otherwise (`CleanupRaces`); `LiveAttachments` has listing and deletion apart and proves what then remains.
- In `CleanupService` the attachment half is always configured.
- In `Avatars` the contents of an object are not modelled: whether it matches the declaration, and whether it can be converted, are arbitrary answers.
- An attachment row and its asset row, created together and joined one to one, are one row with one id.
- A failing database call ends a run, which is covered because a run may stop anywhere; a failing call whose effect is unknown is modelled for storage writes only.
- Checksums: the writer takes the CRC-32 as given, and the reader never looks at it.
- Text beyond what keys need: lower case is that of ASCII letters, file name checks for Office kinds are a given truth value, and Content-Disposition headers, cursor encoding and ClamAV replies are not modelled.
- Sockets: a write sends its bytes; back-pressure, errors and the scan timeout are not modelled.
- Token generation and hashing: a refresh token is its hash, and generated hashes are fresh.
- Message length and other request validation, which happens before the modelled code.
- Paging over a table that changes between two pages: all pages are taken from one state of the rows.
- Users are never deleted from the avatar tables; deactivation is modelled.
