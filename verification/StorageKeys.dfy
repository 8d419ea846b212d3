/** The object keys of an attachment as text, and why no two assets, nor two roles of one asset, share a key. */
module StorageKeys {
  import opened Prelude
  import opened Uploads

  /** What an object is to its asset. */
  datatype Role = AsIncoming | AsOriginal | AsThumbnail

  function Extension(kind: Kind): string {
    match kind
    case Image => "webp"
    case Pdf => "pdf"
    case Docx => "docx"
    case Xlsx => "xlsx"
    case Pptx => "pptx"
  }

  /** The segments between the slashes. */
  function Segments(role: Role, kind: Kind, owner: string, asset: string): seq<string> {
    match role
    case AsIncoming => ["incoming", owner, asset]
    case AsOriginal => ["ready", owner, asset, "original." + Extension(kind)]
    case AsThumbnail => ["ready", owner, asset, "thumbnail.webp"]
  }

  function Join(segments: seq<string>): string
    requires segments != []
  {
    if |segments| == 1 then segments[0] else segments[0] + "/" + Join(segments[1..])
  }

  function ObjectKey(role: Role, kind: Kind, owner: string, asset: string): string {
    Join(Segments(role, kind, owner, asset))
  }

  ghost predicate NoSlash(s: string) {
    '/' !in s
  }

  /** A path of slash-free segments gives its segments back. */
  lemma {:induction false} JoinInjective(xs: seq<string>, ys: seq<string>)
    requires xs != [] && ys != [] && (forall x :: x in xs ==> NoSlash(x)) && (forall y :: y in ys ==> NoSlash(y))
    requires Join(xs) == Join(ys)
    ensures xs == ys
  {
    assert xs[0] in xs && ys[0] in ys;
    if |xs| == 1 && |ys| == 1 {
    } else if |xs| == 1 {
      HasSlash(ys);
    } else if |ys| == 1 {
      HasSlash(xs);
    } else {
      SplitAt('/', xs[0], Join(xs[1..]), ys[0], Join(ys[1..]));
      JoinInjective(xs[1..], ys[1..]);
      assert xs == [xs[0]] + xs[1..] && ys == [ys[0]] + ys[1..];
    }
  }

  lemma HasSlash(xs: seq<string>)
    requires |xs| > 1
    ensures !NoSlash(Join(xs))
  {
    assert Join(xs)[|xs[0]|] == '/';
  }

  lemma ExtensionsDiffer(kind: Kind, other: Kind)
    requires "original." + Extension(kind) == "original." + Extension(other)
    ensures kind == other
  {
    assert ("original." + Extension(kind))[9..] == Extension(kind) && ("original." + Extension(other))[9..] == Extension(other);
  }

  lemma SegmentsHaveNoSlash(role: Role, kind: Kind, owner: string, asset: string)
    requires NoSlash(owner) && NoSlash(asset)
    ensures forall x :: x in Segments(role, kind, owner, asset) ==> NoSlash(x)
  {
  }

  /** Equal keys belong to the same asset of the same owner, in the same role; so writing or deleting an object of one
      asset touches no other asset's. Ids are UUIDs, without a slash. */
  lemma KeysAreOwn(r: Role, kind: Kind, owner: string, asset: string, q: Role, other: Kind, stranger: string, thing: string)
    requires NoSlash(owner) && NoSlash(asset) && NoSlash(stranger) && NoSlash(thing)
    requires ObjectKey(r, kind, owner, asset) == ObjectKey(q, other, stranger, thing)
    ensures owner == stranger && asset == thing && r == q && (r == AsOriginal ==> kind == other)
  {
    hide NoSlash, Join, Extension;
    SegmentsHaveNoSlash(r, kind, owner, asset);
    SegmentsHaveNoSlash(q, other, stranger, thing);
    var xs, ys := Segments(r, kind, owner, asset), Segments(q, other, stranger, thing);
    JoinInjective(xs, ys);
    assert xs[0] == ys[0] && xs[1] == ys[1] && xs[2] == ys[2];
    if |xs| == 4 {
      assert xs[3][0] == (if r == AsOriginal then 'o' else 't');
      assert ys[3][0] == (if q == AsOriginal then 'o' else 't') && xs[3] == ys[3];
    }
    if r == AsOriginal && q == AsOriginal { ExtensionsDiffer(kind, other); }
  }

  function FileName(kind: Kind): string {
    match kind
    case Image => "/original.webp"
    case Pdf => "/original.pdf"
    case Docx => "/original.docx"
    case Xlsx => "/original.xlsx"
    case Pptx => "/original.pptx"
  }

  /** The keys as they are written. */
  lemma KeyTexts(owner: string, asset: string, kind: Kind)
    ensures ObjectKey(AsIncoming, kind, owner, asset) == "incoming" + "/" + owner + "/" + asset
    ensures ObjectKey(AsThumbnail, kind, owner, asset) == "ready" + "/" + owner + "/" + asset + "/" + "thumbnail.webp"
    ensures ObjectKey(AsOriginal, kind, owner, asset) == "ready" + "/" + owner + "/" + asset + FileName(kind)
  {
    hide Join, Extension, FileName;
    JoinOfThree("incoming", owner, asset);
    JoinOfFour("ready", owner, asset, "thumbnail.webp");
    JoinOfFour("ready", owner, asset, "original." + Extension(kind));
    FileNames(kind);
    var start := "ready" + "/" + owner + "/" + asset;
    assert start + "/" + ("original." + Extension(kind)) == start + ("/" + ("original." + Extension(kind)));
  }

  lemma FileNames(kind: Kind)
    ensures "/" + ("original." + Extension(kind)) == FileName(kind)
  {
  }

  lemma JoinOfThree(a: string, b: string, c: string)
    ensures Join([a, b, c]) == a + "/" + b + "/" + c
  {
    assert [a, b, c][1..] == [b, c] && [b, c][1..] == [c];
    assert Join([b, c]) == b + "/" + c;
    assert a + "/" + (b + "/" + c) == a + "/" + b + "/" + c;
  }

  lemma JoinOfFour(a: string, b: string, c: string, d: string)
    ensures Join([a, b, c, d]) == a + "/" + b + "/" + c + "/" + d
  {
    assert [a, b, c, d][1..] == [b, c, d];
    JoinOfThree(b, c, d);
    assert a + "/" + (b + "/" + c + "/" + d) == a + "/" + b + "/" + c + "/" + d;
  }
}
