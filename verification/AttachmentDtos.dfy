/** The two places that turn an attachment row into what clients see. */
module AttachmentDtos {
  import opened Prelude
  import opened Uploads
  import C = ChatDb
  import S = UploadSafety

  /** `conversation` and `id` stand for the links built from them. */
  datatype Dto =
    | ImageDto(conversation: ConversationId, id: AssetId, fileName: string, width: nat, height: nat)
    | FileDto(conversation: ConversationId, id: AssetId, fileName: string, contentType: ContentType)

  function FileType(kind: Kind): ContentType
    requires kind != Image
  {
    match kind
    case Pdf => PdfDocument
    case Docx => DocxDocument
    case Xlsx => XlsxDocument
    case Pptx => PptxDocument
  }

  /** The mapper of the upload service; Err stands for the exception. */
  function UploadDto(a: AssetId, row: Asset): Result<Dto, Error> {
    if row.status != C.Ready || row.readyKey.None? then Err(Conflict)
    else if row.kind == Image then
      if row.width.None? || row.height.None? || row.thumbnailKey.None? then Err(Conflict)
      else Ok(ImageDto(row.conversation, a, row.fileName, row.width.value, row.height.value))
    else if row.detectedType != Some(FileType(row.kind)) then Err(Conflict)
    else Ok(FileDto(row.conversation, a, row.fileName, FileType(row.kind)))
  }

  /** The mapper of the message service, which does not look at the status. */
  function MessageDto(a: AssetId, row: Asset): Result<Dto, ()> {
    if row.readyKey.None? then Err(())
    else if row.kind == Image then
      if row.width.None? || row.height.None? || row.thumbnailKey.None? then Err(())
      else Ok(ImageDto(row.conversation, a, row.fileName, row.width.value, row.height.value))
    else if row.detectedType != Some(FileType(row.kind)) then Err(())
    else Ok(FileDto(row.conversation, a, row.fileName, FileType(row.kind)))
  }

  /** On a reachable READY row neither mapper throws and both give the same: the recorded dimensions of an image,
      the declared type of a file. */
  lemma MappersTotal(setup: Setup, events: seq<Event>, a: AssetId)
    requires a in After(setup, events).assets && After(setup, events).assets[a].status == C.Ready
    ensures var row := After(setup, events).assets[a];
      && UploadDto(a, row).Ok? && MessageDto(a, row) == Ok(UploadDto(a, row).value)
      && row.width.Some? == row.height.Some? == (row.kind == Image)
      && UploadDto(a, row).value ==
           if row.kind == Image then ImageDto(row.conversation, a, row.fileName, row.width.value, row.height.value)
           else FileDto(row.conversation, a, row.fileName, row.declaredType)
  {
    hide After;
    S.ReadyIsAsDeclared(setup, events, a);
  }

  lemma FinishedMaps(setup: Setup, w: World, r: RunId)
    requires S.Valid(setup, w) && r in w.runs && w.runs[r].stage.Finished? && w.runs[r].stage.outcome.Ok?
    ensures var row := w.runs[r].stage.outcome.value;
      UploadDto(w.runs[r].asset, row).Ok? && MessageDto(w.runs[r].asset, row) == Ok(UploadDto(w.runs[r].asset, row).value)
  {
    hide S.ObjectsOk, S.AssetsOk, S.PresentOk;
    var run := w.runs[r];
    assert S.RunOk(setup, w, run);
    S.IntentIsDeclared(w.history.intents, w.history.tallies, run.asset);
  }

  /** The record that a completeUpload returns can always be mapped, and as a message would show it. */
  lemma CompletedUploadMaps(setup: Setup, events: seq<Event>, r: RunId)
    requires r in After(setup, events).runs
    requires var stage := After(setup, events).runs[r].stage; stage.Finished? && stage.outcome.Ok?
    ensures var run := After(setup, events).runs[r];
      UploadDto(run.asset, run.stage.outcome.value).Ok?
      && MessageDto(run.asset, run.stage.outcome.value) == Ok(UploadDto(run.asset, run.stage.outcome.value).value)
  {
    hide After, S.Valid;
    S.AlwaysValid(setup, events);
    FinishedMaps(setup, After(setup, events), r);
  }
}
