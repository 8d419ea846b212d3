/** The upload life cycle of message attachments: every guarded update of the attachment repository, and every
    step that a running completeUpload takes between two awaits, interleaved with clients and cleanup. */
module Uploads {
  import opened Prelude
  import opened ByteFields
  import C = ChatDb

  type UserId = C.UserId
  type ConversationId = C.ConversationId
  type AssetId = C.AttachmentId
  type RunId = nat
  type Bytes = seq<byte>
  type Status = C.Status

  datatype Kind = Image | Pdf | Docx | Xlsx | Pptx

  datatype ContentType = Jpeg | Png | Webp | PdfDocument | DocxDocument | XlsxDocument | PptxDocument

  function KindOf(t: ContentType): Kind {
    match t
    case Jpeg | Png | Webp => Image
    case PdfDocument => Pdf
    case DocxDocument => Docx
    case XlsxDocument => Xlsx
    case PptxDocument => Pptx
  }

  const MEBIBYTE: nat := 1024 * 1024

  function MaximumBytes(kind: Kind): nat {
    match kind
    case Image => 10 * MEBIBYTE
    case Pdf => 25 * MEBIBYTE
    case Docx | Xlsx | Pptx => 20 * MEBIBYTE
  }

  /** The keys one asset owns in the bucket. */
  datatype Key = Incoming(asset: AssetId) | Original(asset: AssetId) | Thumbnail(asset: AssetId)

  /** `reportedLength` is what the storage answers as content length, if anything. */
  datatype Object = Object(body: Bytes, contentType: Option<ContentType>, reportedLength: Option<nat>)

  /** An attachment row together with its asset row. */
  datatype Asset = Asset(
    owner: UserId, conversation: ConversationId, fileName: string, kind: Kind,
    declaredType: ContentType, declaredSize: nat, uploadExpiresAt: int,
    readyKey: Option<Key>, thumbnailKey: Option<Key>, incomingKey: Option<Key>,
    status: Status, detectedType: Option<ContentType>, actualSize: Option<nat>, width: Option<nat>, height: Option<nat>,
    updatedAt: int)

  type Assets = map<AssetId, Asset>

  // ---- Guarded updates ---------------------------------------------------------------

  predicate IsOwned(assets: Assets, a: AssetId, owner: UserId, c: ConversationId) {
    a in assets && assets[a].owner == owner && assets[a].conversation == c
  }

  predicate CanClaim(assets: Assets, a: AssetId, owner: UserId, c: ConversationId, now: int) {
    IsOwned(assets, a, owner, c) && assets[a].status == C.Pending && assets[a].uploadExpiresAt > now
  }

  predicate IsProcessing(assets: Assets, a: AssetId, owner: UserId) {
    a in assets && assets[a].owner == owner && assets[a].status == C.Processing
  }

  predicate CanRelease(assets: Assets, a: AssetId, owner: UserId, now: int) {
    IsProcessing(assets, a, owner) && assets[a].uploadExpiresAt > now
  }

  predicate CanReject(assets: Assets, a: AssetId, owner: UserId) {
    a in assets && assets[a].owner == owner && (assets[a].status == C.Pending || assets[a].status == C.Processing)
  }

  predicate CanComplete(assets: Assets, a: AssetId, owner: UserId, c: ConversationId) {
    IsProcessing(assets, a, owner) && assets[a].conversation == c
  }

  predicate IsStale(row: Asset, staleBefore: int) {
    row.status == C.Processing && row.updatedAt <= staleBefore
  }

  /** What a run has found out about the file it completes. */
  datatype Findings = Findings(contentType: ContentType, size: nat, width: Option<nat>, height: Option<nat>)

  function Completed(row: Asset, f: Findings, now: int): Asset {
    row.(status := C.Ready, detectedType := Some(f.contentType), actualSize := Some(f.size),
         width := f.width, height := f.height, updatedAt := now)
  }

  function Reset(assets: Assets, staleBefore: int, now: int): Assets {
    map a | a in assets :: if IsStale(assets[a], staleBefore) then assets[a].(status := C.Pending, updatedAt := now) else assets[a]
  }

  // ---- The world ----------------------------------------------------------------------

  /** How often each guarded update has succeeded on one asset; rejections only count from PROCESSING. */
  datatype Tally = Tally(claims: nat, releases: nat, resets: nat, rejections: nat, completions: nat)

  const NO_MOVES := Tally(0, 0, 0, 0, 0)

  /** What has happened so far: the row of every intent, the tallies, the bodies found clean by a scan or
      valid by the PDF check, and the assets that cleanup has picked. */
  datatype History = History(
    intents: Assets, tallies: map<AssetId, Tally>,
    clean: set<(AssetId, Bytes)>, valid: set<(AssetId, Bytes)>, picked: set<AssetId>)

  datatype Error =
    | ConversationNotFound | UploadNotFound | Expired | Conflict | Incomplete
    | InvalidFile | KindMismatch | UnsupportedFormat | StorageUnavailable | ScanUnavailable

  datatype ImageResult = ImageResult(contentType: ContentType, width: nat, height: nat, original: Bytes, thumbnail: Bytes)

  /** Where a run stands after it has found its row: the await it is about to make. */
  datatype Phase =
    | Claiming
    | Refetching
    | Heading
    | Getting
    | Detecting(body: Bytes)
    | Converting(body: Bytes)
    | PuttingOriginal(body: Bytes, image: ImageResult)
    | PuttingThumbnail(body: Bytes, image: ImageResult)
    | Validating(body: Bytes)
    | Scanning(body: Bytes)
    | PuttingFile(body: Bytes)
    | Completing(findings: Findings)
    | Rejecting(error: Error)
    | Releasing
    | ReleasingForRetry(error: Error)
    | FindingCompleted
    | RemovingIncoming
    | ClearingKey

  /** `row` is the record read at the start, `claimedAt` the instant taken before the claim. */
  datatype Stage =
    | Admitting
    | Finding
    | At(row: Asset, claimedAt: int, phase: Phase)
    | Finished(outcome: Result<Asset, Error>)

  datatype Run = Run(asset: AssetId, owner: UserId, conversation: ConversationId, stage: Stage)

  datatype World = World(
    assets: Assets, members: set<(UserId, ConversationId)>, objects: map<Key, Object>, runs: map<RunId, Run>, history: History)

  const START := World(map[], {}, map[], map[], History(map[], map[], {}, {}, {}))

  /** The file type detector, and which of the two optional processors are configured. */
  datatype Setup = Setup(detect: Bytes -> Option<ContentType>, hasPdfProcessor: bool, hasScanner: bool)

  datatype Fault = NoFault | TooLarge | Unavailable

  datatype ScanResult = Clean | Found | ScanFailed

  /** How the outside answers one await: the clock, storage faults (a failed put may still have stored), the
      image processor, the PDF check and the scanner. */
  datatype Answer = Answer(now: int, fault: Fault, storedAnyway: bool, image: Option<ImageResult>, pdfValid: bool, scan: ScanResult)

  // ---- Steps of a run ----------------------------------------------------------------

  function To(w: World, r: RunId, stage: Stage): World
    requires r in w.runs
  {
    w.(runs := w.runs[r := w.runs[r].(stage := stage)])
  }

  function Failing(w: World, r: RunId, e: Error): World
    requires r in w.runs
  {
    To(w, r, Finished(Err(e)))
  }

  /** The same run at its next await. */
  function Next(w: World, r: RunId, phase: Phase): World
    requires r in w.runs && w.runs[r].stage.At?
  {
    To(w, r, w.runs[r].stage.(phase := phase))
  }

  datatype Cause = Claim | Release | StaleReset | Reject | Completion

  function Counted(t: Tally, from: Status, cause: Cause): Tally {
    match cause
    case Claim => t.(claims := t.claims + 1)
    case Release => t.(releases := t.releases + 1)
    case StaleReset => t.(resets := t.resets + 1)
    case Reject => if from == C.Processing then t.(rejections := t.rejections + 1) else t
    case Completion => t.(completions := t.completions + 1)
  }

  function TallyOf(tallies: map<AssetId, Tally>, a: AssetId): Tally {
    if a in tallies then tallies[a] else NO_MOVES
  }

  function Recorded(h: History, a: AssetId, from: Status, cause: Cause): History {
    h.(tallies := h.tallies[a := Counted(TallyOf(h.tallies, a), from, cause)])
  }

  /** A guarded update that matched its row. */
  function Moved(w: World, a: AssetId, row: Asset, cause: Cause): World
    requires a in w.assets
  {
    w.(assets := w.assets[a := row], history := Recorded(w.history, a, w.assets[a].status, cause))
  }

  function MovedTo(w: World, a: AssetId, status: Status, cause: Cause, now: int): World
    requires a in w.assets
  {
    Moved(w, a, w.assets[a].(status := status, updatedAt := now), cause)
  }

  /** completeUpload up to its first look at the row. */
  function Begin(w: World, r: RunId, x: Answer): World
    requires r in w.runs
  {
    var run := w.runs[r];
    match run.stage
    case Admitting =>
      if (run.owner, run.conversation) in w.members then To(w, r, Finding) else Failing(w, r, ConversationNotFound)
    case Finding =>
      if !IsOwned(w.assets, run.asset, run.owner, run.conversation) then Failing(w, r, UploadNotFound)
      else
        var row := w.assets[run.asset];
        if row.status == C.Ready then To(w, r, At(row, x.now, RemovingIncoming))
        else if row.status != C.Pending then Failing(w, r, Conflict)
        else if row.uploadExpiresAt <= x.now then Failing(w, r, Expired)
        else To(w, r, At(row, x.now, Claiming))
    case _ => w
  }

  predicate MetadataMatches(row: Asset, o: Object) {
    o.contentType == Some(row.declaredType) && o.reportedLength == Some(row.declaredSize) && row.declaredSize <= MaximumBytes(row.kind)
  }

  predicate BodyMatches(row: Asset, o: Object) {
    MetadataMatches(row, o) && o.reportedLength == Some(|o.body|) && |o.body| == row.declaredSize && |o.body| <= MaximumBytes(row.kind)
  }

  /** What the two reads of the incoming object lead to, before its contents are looked at. */
  function Read(w: World, r: RunId, x: Answer, matches: Object -> bool, onwards: Object -> Phase): World
    requires r in w.runs && w.runs[r].stage.At?
  {
    var key := w.runs[r].stage.row.incomingKey;
    if key.None? || w.runs[r].stage.row.readyKey.None? then Failing(w, r, Conflict)
    else if x.fault == TooLarge then Next(w, r, Rejecting(InvalidFile))
    else if x.fault == Unavailable then Next(w, r, ReleasingForRetry(StorageUnavailable))
    else if key.value !in w.objects then Next(w, r, Releasing)
    else if !matches(w.objects[key.value]) then Next(w, r, Rejecting(InvalidFile))
    else Next(w, r, onwards(w.objects[key.value]))
  }

  /** The branches between the download and the per-kind processing. */
  function Dispatch(setup: Setup, row: Asset, body: Bytes): Phase {
    var detected := setup.detect(body);
    if detected.None? then Rejecting(InvalidFile)
    else if KindOf(detected.value) != row.kind then Rejecting(KindMismatch)
    else if detected.value != row.declaredType then Rejecting(InvalidFile)
    else
      match row.kind
      case Image => Converting(body)
      case Pdf => if setup.hasPdfProcessor && setup.hasScanner then Validating(body) else ReleasingForRetry(ScanUnavailable)
      case Docx | Xlsx | Pptx => if setup.hasScanner then Scanning(body) else ReleasingForRetry(ScanUnavailable)
  }

  function Put(w: World, r: RunId, x: Answer, key: Option<Key>, o: Object, onwards: Phase): World
    requires r in w.runs && w.runs[r].stage.At?
  {
    if key.None? then Failing(w, r, Conflict)
    else
      var after := if x.fault == NoFault || x.storedAnyway then w.(objects := w.objects[key.value := o]) else w;
      Next(after, r, if x.fault == NoFault then onwards else ReleasingForRetry(StorageUnavailable))
  }

  function StoredAs(body: Bytes, t: ContentType): Object {
    Object(body, Some(t), Some(|body|))
  }

  /** From the claim to the decision: processing the incoming object. */
  function Process(setup: Setup, w: World, r: RunId, x: Answer): World
    requires r in w.runs && w.runs[r].stage.At?
  {
    var row := w.runs[r].stage.row;
    match w.runs[r].stage.phase
    case Heading => Read(w, r, x, (o: Object) => MetadataMatches(row, o), (o: Object) => Getting)
    case Getting => Read(w, r, x, (o: Object) => BodyMatches(row, o), (o: Object) => Detecting(o.body))
    case Detecting(body) => Next(w, r, Dispatch(setup, row, body))
    case Converting(body) =>
      if row.thumbnailKey.None? then Failing(w, r, Conflict)
      else if x.image.None? || x.image.value.contentType != row.declaredType then Next(w, r, Rejecting(InvalidFile))
      else Next(w, r, PuttingOriginal(body, x.image.value))
    case PuttingOriginal(body, image) => Put(w, r, x, row.readyKey, StoredAs(image.original, Webp), PuttingThumbnail(body, image))
    case PuttingThumbnail(body, image) =>
      Put(w, r, x, row.thumbnailKey, StoredAs(image.thumbnail, Webp),
          Completing(Findings(image.contentType, |body|, Some(image.width), Some(image.height))))
    case Validating(body) =>
      if x.pdfValid then Next(w.(history := w.history.(valid := w.history.valid + {(w.runs[r].asset, body)})), r, Scanning(body))
      else Next(w, r, Rejecting(InvalidFile))
    case Scanning(body) => (
      match x.scan
      case ScanFailed => Next(w, r, ReleasingForRetry(ScanUnavailable))
      case Found => Next(w, r, Rejecting(InvalidFile))
      case Clean => Next(w.(history := w.history.(clean := w.history.clean + {(w.runs[r].asset, body)})), r, PuttingFile(body))
    )
    case PuttingFile(body) =>
      Put(w, r, x, row.readyKey, StoredAs(body, row.declaredType), Completing(Findings(row.declaredType, |body|, None, None)))
    case _ => w
  }

  /** The transactions a run makes on its asset row. */
  function Settle(w: World, r: RunId, x: Answer): World
    requires r in w.runs && w.runs[r].stage.At?
  {
    var run := w.runs[r];
    var a, owner := run.asset, run.owner;
    match run.stage.phase
    case Claiming =>
      if (owner, run.conversation) !in w.members then Failing(w, r, ConversationNotFound)
      else if CanClaim(w.assets, a, owner, run.conversation, run.stage.claimedAt)
      then Next(MovedTo(w, a, C.Processing, Claim, x.now), r, Heading)
      else Next(w, r, Refetching)
    case Refetching =>
      if IsOwned(w.assets, a, owner, run.conversation) && w.assets[a].status == C.Ready
      then To(w, r, At(w.assets[a], run.stage.claimedAt, RemovingIncoming))
      else Failing(w, r, Conflict)
    case Completing(findings) =>
      if (owner, run.conversation) !in w.members then Next(w, r, Rejecting(ConversationNotFound))
      else if CanComplete(w.assets, a, owner, run.conversation)
      then Next(Moved(w, a, Completed(w.assets[a], findings, x.now), Completion), r, FindingCompleted)
      else Failing(w, r, Conflict)
    case Rejecting(e) =>
      Failing(if CanReject(w.assets, a, owner) then MovedTo(w, a, C.Rejected, Reject, x.now) else w, r, e)
    case Releasing =>
      var can := CanRelease(w.assets, a, owner, run.stage.claimedAt);
      Failing(if can then MovedTo(w, a, C.Pending, Release, x.now) else w, r, Incomplete)
    case ReleasingForRetry(e) =>
      Failing(if IsProcessing(w.assets, a, owner) then MovedTo(w, a, C.Pending, Release, x.now) else w, r, e)
    case FindingCompleted =>
      if IsOwned(w.assets, a, owner, run.conversation) && w.assets[a].status == C.Ready
      then To(w, r, At(w.assets[a], run.stage.claimedAt, RemovingIncoming))
      else Failing(w, r, Conflict)
    case RemovingIncoming =>
      if run.stage.row.incomingKey.None? then To(w, r, Finished(Ok(run.stage.row)))
      else if x.fault != NoFault then Failing(w, r, StorageUnavailable)
      else Next(w.(objects := w.objects - {run.stage.row.incomingKey.value}), r, ClearingKey)
    case ClearingKey =>
      var cleared := a in w.assets && w.assets[a].incomingKey == run.stage.row.incomingKey;
      var after := if cleared then w.(assets := w.assets[a := w.assets[a].(incomingKey := None, updatedAt := x.now)]) else w;
      To(after, r, Finished(Ok(run.stage.row)))
    case _ => w
  }

  /** One await of run `r`. */
  function Advance(setup: Setup, w: World, r: RunId, x: Answer): World
    requires r in w.runs
  {
    if !w.runs[r].stage.At? then Begin(w, r, x)
    else
      match w.runs[r].stage.phase
      case Heading | Getting | Detecting(_) | Converting(_) | PuttingOriginal(_, _) | PuttingThumbnail(_, _)
         | Validating(_) | Scanning(_) | PuttingFile(_) =>
        Process(setup, w, r, x)
      case _ => Settle(w, r, x)
  }

  // ---- Steps of everybody else ----------------------------------------------------------

  /** What createUpload is asked for; an unsupported content type is None. */
  datatype Request = Request(
    owner: UserId, conversation: ConversationId, fileName: string, nameAllowed: bool, contentType: Option<ContentType>,
    size: nat, uploadExpiresAt: int)

  function Intent(a: AssetId, q: Request, now: int): Asset
    requires q.contentType.Some?
  {
    var t := q.contentType.value;
    Asset(q.owner, q.conversation, q.fileName, KindOf(t), t, q.size, q.uploadExpiresAt,
          Some(Original(a)), if KindOf(t) == Image then Some(Thumbnail(a)) else None, Some(Incoming(a)),
          C.Pending, None, None, None, None, now)
  }

  /** A newly drawn id: nothing mentions it yet. */
  predicate Fresh(w: World, a: AssetId) {
    a !in w.assets && a !in w.history.intents && a !in w.history.tallies && Original(a) !in w.objects && Thumbnail(a) !in w.objects
  }

  predicate Accepts(w: World, a: AssetId, q: Request) {
    && (q.owner, q.conversation) in w.members && q.contentType.Some? && q.nameAllowed
    && q.size <= MaximumBytes(KindOf(q.contentType.value)) && Fresh(w, a)
  }

  function CreateUpload(w: World, a: AssetId, q: Request, now: int): World {
    if !Accepts(w, a, q) then w
    else
      var row := Intent(a, q, now);
      w.(assets := w.assets[a := row], history := w.history.(intents := w.history.intents[a := row]))
  }

  function ResetStale(w: World, staleBefore: int, now: int): World {
    var h := w.history;
    w.(assets := Reset(w.assets, staleBefore, now),
       history := h.(tallies := map a | a in w.assets.Keys + h.tallies.Keys ::
         if a in w.assets && IsStale(w.assets[a], staleBefore) then Counted(TallyOf(h.tallies, a), C.Processing, StaleReset)
         else TallyOf(h.tallies, a)))
  }

  datatype Event =
    | CreatingUpload(a: AssetId, request: Request, now: int)
    | Starting(r: RunId, a: AssetId, owner: UserId, conversation: ConversationId)
    | Running(r: RunId, answer: Answer)
    | ClientPutting(a: AssetId, upload: Object)
    | ResettingStale(staleBefore: int, now: int)
    | PickingForCleanup(a: AssetId)
    | CleanupDeletingObject(key: Key)
    | CleanupDeletingAsset(a: AssetId)
    | ChangingMembers(members: set<(UserId, ConversationId)>)

  function Step(setup: Setup, w: World, e: Event): World {
    match e
    case CreatingUpload(a, request, now) => CreateUpload(w, a, request, now)
    case Starting(r, a, owner, c) => if r in w.runs then w else w.(runs := w.runs[r := Run(a, owner, c, Admitting)])
    case Running(r, answer) => if r in w.runs then Advance(setup, w, r, answer) else w
    case ClientPutting(a, upload) => w.(objects := w.objects[Incoming(a) := upload])
    case ResettingStale(staleBefore, now) => ResetStale(w, staleBefore, now)
    case PickingForCleanup(a) => if a in w.assets then w.(history := w.history.(picked := w.history.picked + {a})) else w
    case CleanupDeletingObject(key) => if key.asset in w.history.picked then w.(objects := w.objects - {key}) else w
    case CleanupDeletingAsset(a) => if a in w.history.picked then w.(assets := w.assets - {a}) else w
    case ChangingMembers(members) => w.(members := members)
  }

  function After(setup: Setup, events: seq<Event>): World {
    if events == [] then START else Step(setup, After(setup, events[..|events| - 1]), events[|events| - 1])
  }
}
