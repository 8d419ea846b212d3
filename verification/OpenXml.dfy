/** Telling the Office formats apart by the contents of the ZIP container. */
module OpenXml {
  import opened Prelude
  import opened ByteFields
  import opened ZipFormat
  import W = ZipWriter
  import R = ZipReader
  import T = ZipRoundTrip

  datatype OfficeType = Docx | Xlsx | Pptx

  /** One Override tag; `contentType` is already lower case. */
  datatype Override = Override(partName: Option<string>, contentType: Option<string>)

  /** The text functions the detector calls: lower-casing a name and the three regular expressions. */
  datatype Text = Text(
    endsWithVbaProject: string -> bool,
    mentionsMacros: string -> bool,
    overrides: string -> seq<Override>)

  const CONTENT_TYPES_FILE_NAME := "[Content_Types].xml"

  function PartName(t: OfficeType): string {
    match t
    case Docx => "word/document.xml"
    case Xlsx => "xl/workbook.xml"
    case Pptx => "ppt/presentation.xml"
  }

  function MainContentType(t: OfficeType): string {
    match t
    case Docx => "application/vnd.openxmlformats-officedocument.wordprocessingml.document.main+xml"
    case Xlsx => "application/vnd.openxmlformats-officedocument.spreadsheetml.sheet.main+xml"
    case Pptx => "application/vnd.openxmlformats-officedocument.presentationml.presentation.main+xml"
  }

  predicate Declares(tags: seq<Override>, t: OfficeType) {
    exists i :: 0 <= i < |tags| && IsMainPart(tags[i], t)
  }

  predicate IsMainPart(tag: Override, t: OfficeType) {
    tag.partName == Some("/" + PartName(t)) && tag.contentType == Some(MainContentType(t))
  }

  method HasMainPartContentType(tags: seq<Override>, t: OfficeType) returns (found: bool)
    ensures found == Declares(tags, t)
  {
    hide IsMainPart;
    for i := 0 to |tags|
      invariant !exists k :: 0 <= k < i && IsMainPart(tags[k], t)
    {
      if IsMainPart(tags[i], t) {
        return true;
      }
    }
    found := false;
  }

  predicate HasZipEntry(entries: seq<R.ZipEntry>, name: string) {
    exists i :: 0 <= i < |entries| && entries[i].fileName == name
  }

  predicate HasZipSignature(body: seq<byte>) {
    |body| >= 4 && U32LE(body, 0) == LOCAL_SIGNATURE
  }

  /** The package shows format `t`: its main part is declared and present. */
  predicate Shows(xml: Text, contentTypes: string, entries: seq<R.ZipEntry>, t: OfficeType) {
    Declares(xml.overrides(contentTypes), t) && HasZipEntry(entries, PartName(t))
  }

  /** The first entry with that name. */
  function Find(entries: seq<R.ZipEntry>, name: string): (found: Option<R.ZipEntry>)
    ensures found.Some? <==> HasZipEntry(entries, name)
    ensures found.Some? ==> found.value in entries && found.value.fileName == name
  {
    if entries == [] then None
    else if entries[0].fileName == name then Some(entries[0])
    else
      var rest := Find(entries[1..], name);
      assert HasZipEntry(entries, name) ==> HasZipEntry(entries[1..], name) by {
        if i :| 0 <= i < |entries| && entries[i].fileName == name { assert entries[1..][i - 1].fileName == name; }
      }
      assert forall i :: 0 <= i < |entries[1..]| ==> entries[1..][i] == entries[i + 1];
      rest
  }

  /** The detector; every exception on the way means "not an Office file". */
  method DetectOpenXml(rt: R.Runtime, xml: Text, body: seq<byte>) returns (detected: Option<OfficeType>)
    ensures detected == Detected(rt, xml, body)
  {
    hide IsMainPart, PartName, MainContentType, Declares, R.ZipEntries, R.ReadZipEntry, HasZipEntry, Find;
    var read := R.ReadZipEntries(rt, body);
    if read.Err? {
      return None;
    }
    var entries := read.value;
    if exists i :: 0 <= i < |entries| && xml.endsWithVbaProject(entries[i].fileName) {
      return None;
    }
    var contentTypesEntry := Find(entries, CONTENT_TYPES_FILE_NAME);
    if contentTypesEntry.None? {
      return None;
    }
    var bytes := R.ReadZipEntry(rt, body, contentTypesEntry.value);
    if bytes.Err? {
      return None;
    }
    var contentTypes := rt.decode(bytes.value);
    if contentTypes.None? || xml.mentionsMacros(contentTypes.value) {
      return None;
    }
    var tags := xml.overrides(contentTypes.value);
    var detectedTypes: seq<OfficeType> := [];
    var isDocx := HasMainPartContentType(tags, Docx);
    if isDocx && HasZipEntry(entries, PartName(Docx)) {
      detectedTypes := detectedTypes + [Docx];
    }
    var isXlsx := HasMainPartContentType(tags, Xlsx);
    if isXlsx && HasZipEntry(entries, PartName(Xlsx)) {
      detectedTypes := detectedTypes + [Xlsx];
    }
    var isPptx := HasMainPartContentType(tags, Pptx);
    if isPptx && HasZipEntry(entries, PartName(Pptx)) {
      detectedTypes := detectedTypes + [Pptx];
    }
    detected := if |detectedTypes| == 1 then Some(detectedTypes[0]) else None;
  }

  /** The text of the content types part, if the package has one that can be read. */
  function ContentTypes(rt: R.Runtime, body: seq<byte>, entries: seq<R.ZipEntry>): Option<string> {
    var entry := Find(entries, CONTENT_TYPES_FILE_NAME);
    if entry.None? then None
    else
      var bytes := R.ReadZipEntry(rt, body, entry.value);
      if bytes.Err? then None else rt.decode(bytes.value)
  }

  /** The only format the package shows, if there is exactly one. */
  function Only(xml: Text, contentTypes: string, entries: seq<R.ZipEntry>): Option<OfficeType> {
    var d, x, p := Shows(xml, contentTypes, entries, Docx), Shows(xml, contentTypes, entries, Xlsx), Shows(xml, contentTypes, entries, Pptx);
    if d && !x && !p then Some(Docx)
    else if x && !d && !p then Some(Xlsx)
    else if p && !d && !x then Some(Pptx)
    else None
  }

  function Detected(rt: R.Runtime, xml: Text, body: seq<byte>): Option<OfficeType> {
    var read := R.ZipEntries(rt, body);
    if read.Err? || exists i :: 0 <= i < |read.value| && xml.endsWithVbaProject(read.value[i].fileName) then None
    else
      var contentTypes := ContentTypes(rt, body, read.value);
      if contentTypes.None? || xml.mentionsMacros(contentTypes.value) then None
      else Only(xml, contentTypes.value, read.value)
  }

  // ---- What this means for any bytes ----------------------------------------

  /** Some Override tag declares that part with that content type, and the part is there. */
  ghost predicate HasPart(tags: seq<Override>, entries: seq<R.ZipEntry>, part: string, contentType: string) {
    && Override(Some("/" + part), Some(contentType)) in tags
    && exists i :: 0 <= i < |entries| && entries[i].fileName == part
  }

  /** The main part of format `t` is declared and there, and that of no other format. */
  ghost predicate OnlyMainPart(tags: seq<Override>, entries: seq<R.ZipEntry>, t: OfficeType) {
    && (t == Docx <==> HasPart(tags, entries, "word/document.xml",
          "application/vnd.openxmlformats-officedocument.wordprocessingml.document.main+xml"))
    && (t == Xlsx <==> HasPart(tags, entries, "xl/workbook.xml",
          "application/vnd.openxmlformats-officedocument.spreadsheetml.sheet.main+xml"))
    && (t == Pptx <==> HasPart(tags, entries, "ppt/presentation.xml",
          "application/vnd.openxmlformats-officedocument.presentationml.presentation.main+xml"))
  }

  /** Among the entries, number `k` is the first content types file, and `data` is what it unpacks to: text that speaks of no
      macros and shows format `t` alone, beside no VBA project. */
  ghost predicate IsOffice(rt: R.Runtime, xml: Text, body: seq<byte>, entries: seq<R.ZipEntry>, k: nat, data: seq<byte>, t: OfficeType) {
    && (forall i :: 0 <= i < |entries| ==> !xml.endsWithVbaProject(entries[i].fileName))
    && k < |entries| && entries[k].fileName == "[Content_Types].xml"
    && (forall i :: 0 <= i < k ==> entries[i].fileName != "[Content_Types].xml")
    && entries[k].flags % 2 == 0 && entries[k].compressedSize <= 1048576 && entries[k].uncompressedSize <= 1048576
    && (exists packed ::
         && R.LocalFileAt(body, entries[k].localHeaderOffset, entries[k].compressionMethod, packed)
         && R.Unpacks(rt, entries[k], packed, data))
    && rt.decode(data).Some? && !xml.mentionsMacros(rt.decode(data).value)
    && OnlyMainPart(xml.overrides(rt.decode(data).value), entries, t)
  }

  lemma ShowsIsPart(xml: Text, text: string, entries: seq<R.ZipEntry>, u: OfficeType)
    ensures Shows(xml, text, entries, u) <==> HasPart(xml.overrides(text), entries, PartName(u), MainContentType(u))
  {
    hide PartName, MainContentType;
    var tags := xml.overrides(text);
    if i :| 0 <= i < |tags| && IsMainPart(tags[i], u) { assert tags[i] == Override(Some("/" + PartName(u)), Some(MainContentType(u))); }
    if Override(Some("/" + PartName(u)), Some(MainContentType(u))) in tags {
      var i :| 0 <= i < |tags| && tags[i] == Override(Some("/" + PartName(u)), Some(MainContentType(u)));
      assert IsMainPart(tags[i], u);
    }
  }

  lemma ShownIsPart(xml: Text, text: string, entries: seq<R.ZipEntry>)
    ensures forall t :: Only(xml, text, entries) == Some(t) <==> OnlyMainPart(xml.overrides(text), entries, t)
  {
    hide HasPart, Shows;
    ShowsIsPart(xml, text, entries, Docx);
    ShowsIsPart(xml, text, entries, Xlsx);
    ShowsIsPart(xml, text, entries, Pptx);
  }

  /** For every byte string: the detector answers `t` exactly if the entries that tile the directory, stored or deflated and
      with extra fields of any length, form an Office package of format `t`. */
  lemma DetectsExactly(rt: R.Runtime, xml: Text, body: seq<byte>, t: OfficeType)
    ensures Detected(rt, xml, body) == Some(t) <==>
      exists at: nat, cuts, entries, k: nat, data :: R.DirectoryAt(rt, body, at, cuts, entries) && IsOffice(rt, xml, body, entries, k, data, t)
  {
    hide R.DirectoryAt, R.ZipEntries, IsOffice, ContentTypes, Only;
    if Detected(rt, xml, body) == Some(t) {
      var entries := R.ZipEntries(rt, body).value;
      R.AcceptedIffTiled(rt, body, entries);
      var at: nat, cuts :| R.DirectoryAt(rt, body, at, cuts, entries);
      var k, data := DetectedIsOffice(rt, xml, body, entries, t);
    }
    if at: nat, cuts, entries, k: nat, data :| R.DirectoryAt(rt, body, at, cuts, entries) && IsOffice(rt, xml, body, entries, k, data, t) {
      R.AcceptedIffTiled(rt, body, entries);
      OfficeIsDetected(rt, xml, body, entries, k, data, t);
    }
  }

  lemma {:induction false} FoundFirst(entries: seq<R.ZipEntry>, name: string) returns (k: nat)
    requires Find(entries, name).Some?
    ensures k < |entries| && entries[k].fileName == name && Find(entries, name) == Some(entries[k])
    ensures forall i :: 0 <= i < k ==> entries[i].fileName != name
  {
    if entries[0].fileName == name {
      k := 0;
    } else {
      var rest := FoundFirst(entries[1..], name);
      k := rest + 1;
      assert forall i :: 0 < i < k ==> entries[i] == entries[1..][i - 1];
    }
  }

  lemma DetectedIsOffice(rt: R.Runtime, xml: Text, body: seq<byte>, entries: seq<R.ZipEntry>, t: OfficeType) returns (k: nat, data: seq<byte>)
    requires R.ZipEntries(rt, body) == Ok(entries) && Detected(rt, xml, body) == Some(t)
    ensures IsOffice(rt, xml, body, entries, k, data, t)
  {
    hide R.ReadZipEntry, Only, OnlyMainPart, Find, R.LocalFileAt, R.Unpacks;
    k := FoundFirst(entries, CONTENT_TYPES_FILE_NAME);
    data := R.ReadZipEntry(rt, body, entries[k]).value;
    R.EntryIffUnpacked(rt, body, entries[k], data);
    ShownIsPart(xml, rt.decode(data).value, entries);
  }

  lemma OfficeIsDetected(rt: R.Runtime, xml: Text, body: seq<byte>, entries: seq<R.ZipEntry>, k: nat, data: seq<byte>, t: OfficeType)
    requires R.ZipEntries(rt, body) == Ok(entries) && IsOffice(rt, xml, body, entries, k, data, t)
    ensures Detected(rt, xml, body) == Some(t)
  {
    hide R.ReadZipEntry, Only, OnlyMainPart, Find, R.LocalFileAt, R.Unpacks;
    FindIsFirst(entries, CONTENT_TYPES_FILE_NAME, k);
    R.EntryIffUnpacked(rt, body, entries[k], data);
    ShownIsPart(xml, rt.decode(data).value, entries);
  }

  // ---- What this means for an archive the writer made ----------------------

  ghost predicate Named(rt: R.Runtime, f: W.File, name: string) {
    rt.decode(f.name) == Some(name)
  }

  ghost predicate HasFile(rt: R.Runtime, files: seq<W.File>, name: string) {
    exists f :: f in files && Named(rt, f, name)
  }

  /** No file is a VBA project. */
  ghost predicate NoVbaProject(rt: R.Runtime, xml: Text, files: seq<W.File>) {
    forall f :: f in files ==> rt.decode(f.name).Some? && !xml.endsWithVbaProject(rt.decode(f.name).value)
  }

  /** Detection seen from the files that went into the archive: `contentTypes` is the file the detector
      reads, and the package is a `t` when that file declares the main part of `t`, the main part is
      there, no other format shows, and nothing hints at macros. */
  ghost predicate IsPackage(rt: R.Runtime, xml: Text, files: seq<W.File>, contentTypes: W.File, t: OfficeType) {
    && |contentTypes.data| <= R.MAX_CONTENT_TYPES_BYTES
    && NoVbaProject(rt, xml, files)
    && rt.decode(contentTypes.data).Some?
    && var text := rt.decode(contentTypes.data).value;
       && !xml.mentionsMacros(text)
       && forall u :: Declares(xml.overrides(text), u) && HasFile(rt, files, PartName(u)) <==> u == t
  }

  lemma FilesAreEntries(rt: R.Runtime, files: seq<W.File>, name: string)
    requires W.Encodable(files) && T.NamesDecode(rt, files, 0)
    ensures HasZipEntry(T.EntriesOf(rt, files, 0), name) <==> HasFile(rt, files, name)
  {
    hide W.Encodable;
    var entries := T.EntriesOf(rt, files, 0);
    if i :| 0 <= i < |entries| && entries[i].fileName == name {
      assert entries[i] == T.EntryOf(rt, files, 0 + i);
      assert files[i] in files && Named(rt, files[i], name);
    }
    if f :| f in files && Named(rt, f, name) {
      var i :| 0 <= i < |files| && files[i] == f;
      assert entries[i] == T.EntryOf(rt, files, 0 + i);
    }
  }

  /** The file the detector reads for its content types: the first one with that name. */
  ghost predicate IsContentTypes(rt: R.Runtime, files: seq<W.File>, k: nat) {
    && k < |files| && Named(rt, files[k], CONTENT_TYPES_FILE_NAME)
    && forall i :: 0 <= i < k ==> !Named(rt, files[i], CONTENT_TYPES_FILE_NAME)
  }

  lemma {:induction false} FindIsFirst(entries: seq<R.ZipEntry>, name: string, k: nat)
    requires k < |entries| && entries[k].fileName == name && forall i :: 0 <= i < k ==> entries[i].fileName != name
    ensures Find(entries, name) == Some(entries[k])
  {
    if k > 0 {
      FindIsFirst(entries[1..], name, k - 1);
    }
  }

  lemma NamesOfEntries(rt: R.Runtime, files: seq<W.File>)
    requires W.Encodable(files) && T.NamesDecode(rt, files, 0)
    ensures var entries := T.EntriesOf(rt, files, 0);
      |entries| == |files| && forall i :: 0 <= i < |files| ==> entries[i].fileName == rt.decode(files[i].name).value
  {
    hide W.Encodable;
    var entries := T.EntriesOf(rt, files, 0);
    forall i | 0 <= i < |files| ensures entries[i].fileName == rt.decode(files[i].name).value {
      assert entries[i] == T.EntryOf(rt, files, 0 + i);
    }
  }

  lemma MacroPartsAreFiles(rt: R.Runtime, xml: Text, files: seq<W.File>)
    requires W.Encodable(files) && T.NamesDecode(rt, files, 0)
    ensures var entries := T.EntriesOf(rt, files, 0);
      NoVbaProject(rt, xml, files) <==> !exists i :: 0 <= i < |entries| && xml.endsWithVbaProject(entries[i].fileName)
  {
    hide W.Encodable, T.EntriesOf;
    NamesOfEntries(rt, files);
    var entries := T.EntriesOf(rt, files, 0);
    if i :| 0 <= i < |entries| && xml.endsWithVbaProject(entries[i].fileName) {
      assert files[i] in files;
    } else {
      forall f | f in files ensures rt.decode(f.name).Some? && !xml.endsWithVbaProject(rt.decode(f.name).value) {
        var i :| 0 <= i < |files| && files[i] == f;
        assert entries[i].fileName == rt.decode(f.name).value;
      }
    }
  }

  /** The detector reads the first file called [Content_Types].xml. */
  lemma ContentTypesRead(rt: R.Runtime, files: seq<W.File>, k: nat)
    requires W.Encodable(files) && T.NamesDecode(rt, files, 0) && IsContentTypes(rt, files, k)
    ensures ContentTypes(rt, W.Archive(files), T.EntriesOf(rt, files, 0)) ==
      if |files[k].data| <= R.MAX_CONTENT_TYPES_BYTES then rt.decode(files[k].data) else None
  {
    hide W.Encodable, W.Archive, R.ReadZipEntry, Find, T.EntriesOf, T.EntryOf;
    NamesOfEntries(rt, files);
    FindIsFirst(T.EntriesOf(rt, files, 0), CONTENT_TYPES_FILE_NAME, k);
    assert T.EntriesOf(rt, files, 0)[k] == T.EntryOf(rt, files, 0 + k);
    T.EntryRoundTrip(rt, files, k);
  }

  lemma DetectsPackageOf(rt: R.Runtime, xml: Text, files: seq<W.File>, k: nat, t: OfficeType)
    requires W.Encodable(files) && |files| <= R.MAX_ENTRY_COUNT && !T.ReservedOffset(files)
    requires T.NamesDecode(rt, files, 0) && IsContentTypes(rt, files, k)
    ensures Detected(rt, xml, W.Archive(files)) == Some(t) <==> IsPackage(rt, xml, files, files[k], t)
  {
    hide W.Encodable, W.Archive, R.ZipEntries, Declares, ContentTypes, T.EntriesOf, T.ReservedOffset;
    hide HasFile, HasZipEntry, PartName, NoVbaProject;
    T.DirectoryRoundTrip(rt, files);
    MacroPartsAreFiles(rt, xml, files);
    ContentTypesRead(rt, files, k);
    forall u: OfficeType { FilesAreEntries(rt, files, PartName(u)); }
  }

  /** The first content types file, if there is one. */
  lemma FirstContentTypes(rt: R.Runtime, files: seq<W.File>, n: nat) returns (k: nat)
    requires n <= |files|
    ensures k < n ==> IsContentTypes(rt, files, k)
    ensures k >= n ==> forall i :: 0 <= i < n ==> !Named(rt, files[i], CONTENT_TYPES_FILE_NAME)
  {
    hide Named;
    k := 0;
    while k < n && !Named(rt, files[k], CONTENT_TYPES_FILE_NAME)
      invariant k <= n && forall i :: 0 <= i < k ==> !Named(rt, files[i], CONTENT_TYPES_FILE_NAME)
    {
      k := k + 1;
    }
  }

  lemma NoContentTypes(rt: R.Runtime, xml: Text, files: seq<W.File>)
    requires W.Encodable(files) && T.NamesDecode(rt, files, 0)
    requires forall i :: 0 <= i < |files| ==> !Named(rt, files[i], CONTENT_TYPES_FILE_NAME)
    ensures ContentTypes(rt, W.Archive(files), T.EntriesOf(rt, files, 0)).None?
  {
    hide W.Encodable, W.Archive, T.EntriesOf;
    NamesOfEntries(rt, files);
    var entries := T.EntriesOf(rt, files, 0);
    forall i | 0 <= i < |entries| ensures entries[i].fileName != CONTENT_TYPES_FILE_NAME { assert !Named(rt, files[i], CONTENT_TYPES_FILE_NAME); }
    assert !HasZipEntry(entries, CONTENT_TYPES_FILE_NAME);
  }

  /** The files form a package of format `t` only, declared in the first content types file. */
  ghost predicate FormsPackage(rt: R.Runtime, xml: Text, files: seq<W.File>, t: OfficeType) {
    exists k: nat :: IsContentTypes(rt, files, k) && IsPackage(rt, xml, files, files[k], t)
  }

  /** For every archive the writer makes: the detector answers `t` exactly when the reader accepts the archive and
      its files form a `t` package. */
  lemma DetectsPackages(rt: R.Runtime, xml: Text, files: seq<W.File>, t: OfficeType)
    requires W.Encodable(files)
    ensures Detected(rt, xml, W.Archive(files)) == Some(t) <==>
      R.ZipEntries(rt, W.Archive(files)).Ok? && FormsPackage(rt, xml, files, t)
  {
    hide W.Encodable, W.Archive, R.ZipEntries, ContentTypes, T.EntriesOf, T.ReservedOffset, IsPackage, Only;
    T.DirectoryRoundTrip(rt, files);
    if R.ZipEntries(rt, W.Archive(files)).Ok? {
      var k := FirstContentTypes(rt, files, |files|);
      if k < |files| {
        DetectsPackageOf(rt, xml, files, k, t);
        assert forall j: nat :: IsContentTypes(rt, files, j) ==> j == k;
      } else {
        NoContentTypes(rt, xml, files);
      }
    }
  }

  /** The signature is that of a local header. */
  lemma SignatureIs(body: seq<byte>)
    ensures HasZipSignature(body) <==> |body| >= 4 && body[0] == 0x50 && body[1] == 0x4b && body[2] == 3 && body[3] == 4
  {
  }

  /** Every non-empty archive starts with the signature that sends it to this detector. */
  lemma ArchiveHasSignature(files: seq<W.File>)
    requires W.Encodable(files) && files != []
    ensures HasZipSignature(W.Archive(files))
  {
    hide U32LE, W.Locals, W.Central, EndRecord, LocalHeader;
    var b := W.Archive(files);
    var f := files[0];
    T.Halves(files);
    T.LocalInPlace(files, 0);
    T.EmptyCentral(files);
    T.HoldsInside(b, 0, W.Locals(files), 0, W.LocalPart(f));
    T.HoldsInside(b, 0, W.LocalPart(f), 0, LocalHeader(f.checksum, |f.data|, |f.name|));
    LocalHeaderIn(b, 0, f.checksum, |f.data|, |f.name|);
  }

  ghost predicate IsMainPartOf(part: string, contentType: string, t: OfficeType) {
    match t
    case Docx =>
      part == "word/document.xml" && contentType == "application/vnd.openxmlformats-officedocument.wordprocessingml.document.main+xml"
    case Xlsx =>
      part == "xl/workbook.xml" && contentType == "application/vnd.openxmlformats-officedocument.spreadsheetml.sheet.main+xml"
    case Pptx =>
      && part == "ppt/presentation.xml"
      && contentType == "application/vnd.openxmlformats-officedocument.presentationml.presentation.main+xml"
  }

  /** The smallest packages: a content types file that declares one main part, and that part. */
  lemma SmallestPackages(rt: R.Runtime, xml: Text, types: W.File, main: W.File, part: string, contentType: string, t: OfficeType)
    requires IsMainPartOf(part, contentType, t)
    requires W.Encodable([types, main]) && !T.ReservedOffset([types, main]) && |types.data| <= 1048576
    requires rt.decode(types.name) == Some("[Content_Types].xml") && rt.decode(main.name) == Some(part) && rt.decode(types.data).Some?
    requires !xml.endsWithVbaProject("[Content_Types].xml") && !xml.endsWithVbaProject(part)
    requires !xml.mentionsMacros(rt.decode(types.data).value)
    requires xml.overrides(rt.decode(types.data).value) == [Override(Some("/" + part), Some(contentType))]
    ensures Detected(rt, xml, W.Archive([types, main])) == Some(t)
  {
    hide W.Encodable, W.Archive, Detected, T.ReservedOffset, R.ZipEntries, PartName, IsMainPart, IsMainPartOf, Declares;
    var files := [types, main];
    assert files[0] == types && files[1] == main && main in files && types in files;
    T.DirectoryRoundTrip(rt, files);
    DetectsPackages(rt, xml, files, t);
    OneDeclared(xml.overrides(rt.decode(types.data).value), part, contentType, t);
    assert Named(rt, main, PartName(t)) && HasFile(rt, files, PartName(t));
    assert IsContentTypes(rt, files, 0);
    assert NoVbaProject(rt, xml, files);
    assert IsPackage(rt, xml, files, files[0], t);
  }

  lemma OneDeclared(tags: seq<Override>, part: string, contentType: string, t: OfficeType)
    requires IsMainPartOf(part, contentType, t)
    requires tags == [Override(Some("/" + part), Some(contentType))]
    ensures PartName(t) == part && forall u :: Declares(tags, u) <==> u == t
  {
    hide IsMainPartOf, MainContentType, PartName;
    SameMainPart(part, contentType, t);
    assert IsMainPart(tags[0], t);
    forall u | u != t ensures !Declares(tags, u) {
      PartsDiffer(t, u);
      assert ("/" + PartName(t))[1..] == PartName(t) && ("/" + PartName(u))[1..] == PartName(u);
    }
  }

  lemma SameMainPart(part: string, contentType: string, t: OfficeType)
    requires IsMainPartOf(part, contentType, t)
    ensures part == PartName(t) && contentType == MainContentType(t)
  {
  }

  lemma PartsDiffer(t: OfficeType, u: OfficeType)
    requires t != u
    ensures PartName(t) != PartName(u)
  {
    assert |PartName(Docx)| == 17 && |PartName(Xlsx)| == 15 && |PartName(Pptx)| == 20;
  }
}
