/** Thumbnail generation: `generate_image_thumbnail` (decode, resize, encode as one opaque
    step that may fail, then create the shard directory and write the file) and
    `generate_thumbnail` (skip when present, dispatch on the extension, report the status
    and the key). The `ffmpeg` feature is off in this model: no video branch. */
module Thumbnailer {

  import opened Outcomes
  import opened Bytes
  import opened Paths
  import opened Extensions
  import opened ThumbKeys
  import opened ThumbStore

  /** `thumbnailer::NonCriticalError`, with the paths each variant names. */
  datatype NonCriticalError =
    | FormatImage(path: Path)
    | WebPEncoding(path: Path)
    | PanicWhileGeneratingThumbnail(path: Path)
    | CreateShardDirectory(shardDirectory: Path)
    | SaveThumbnail(path: Path, output: Path)

  /** What the blocking decode-resize-encode task yields for a source file. */
  datatype Encoding = Encoded(webp: seq<byte>) | DecodeFailed | EncodeFailed | Panicked

  datatype GenerationStatus = Generated | Skipped

  datatype GenerateThumbnailArgs = GenerateThumbnailArgs(extension: string, casId: string, path: Path)

  /** `generate_image_thumbnail` on the file-system state: encode `source`, create the
      output's parent directory, write the bytes. */
  function ImageThumbnail(st: FsState, faults: Faults, encode: Path -> Encoding, source: Path, output: Path)
    : (r: (Result<(), NonCriticalError>, FsState))
    ensures r.0.Ok? <==>
      && encode(source).Encoded?
      && (Parent(output).Some? ==> CreateDirAllResult(st, faults, Parent(output).value).Ok?)
      && CanWrite(if Parent(output).Some? then CreateDirAllResult(st, faults, Parent(output).value).value else st, faults, output)
    ensures r.0.Ok? ==>
      && output in r.1.files && r.1.files[output] == encode(source).webp
      && Parent(output).Some? && IsDir(r.1, Parent(output).value)
      && (forall p :: p in st.files && p != output ==> p in r.1.files && r.1.files[p] == st.files[p])
      && r.1.files.Keys == st.files.Keys + {output}
    ensures r.0.Err? ==> r.1.files == st.files
    ensures r.1.dirs == st.dirs || (Parent(output).Some? && r.1.dirs == st.dirs + Ancestors(Parent(output).value))
    ensures Consistent(st) ==> Consistent(r.1)
  {
    match encode(source)
    case DecodeFailed => (Err(FormatImage(source)), st)
    case EncodeFailed => (Err(WebPEncoding(source)), st)
    case Panicked => (Err(PanicWhileGeneratingThumbnail(source)), st)
    case Encoded(webp) =>
      var made := match Parent(output)
        case None => Ok(st)
        case Some(shardDirectory) =>
          match CreateDirAllResult(st, faults, shardDirectory)
          case Ok(st1) => Ok(st1)
          case Err(_) => Err(CreateShardDirectory(shardDirectory));
      if made.Err? then (Err(made.error), st)
      else
        match WriteResult(made.value, faults, output, webp)
        case Ok(st2) => (Ok(()), st2)
        case Err(_) => (Err(SaveThumbnail(source, output)), made.value)
  }

  /** Which branch of `generate_thumbnail` runs for an extension string. */
  datatype Route = ImagePipeline | NoThumbnail

  /** The extension is tried as an image first and, only when it is not an image at all,
      as a document; a parsed but unsupported extension produces no thumbnail. */
  function RouteFor(cat: Catalogue, extension: string): (r: Route)
    ensures r == ImagePipeline <==>
      || (ImageFromStr(cat.images, extension).Some? && CanGenerateThumbnailForImage(ImageFromStr(cat.images, extension).value))
      || (ImageFromStr(cat.images, extension).None? && DocumentFromStr(cat.documents, extension) == Some(Pdf))
  {
    match ImageFromStr(cat.images, extension)
    case Some(image) => if CanGenerateThumbnailForImage(image) then ImagePipeline else NoThumbnail
    case None =>
      match DocumentFromStr(cat.documents, extension)
      case Some(document) => if CanGenerateThumbnailForDocument(document) then ImagePipeline else NoThumbnail
      case None => NoThumbnail
  }

  /** `generate_thumbnail` on the file-system state (the elapsed time is not modelled). */
  function GenerateThumbnailResult(
    st: FsState, faults: Faults, cat: Catalogue, encode: Path -> Encoding,
    thumbnailsDirectory: Path, args: GenerateThumbnailArgs, kind: ThumbnailKind, shouldRegenerate: bool)
    : (Result<(ThumbKey, GenerationStatus), NonCriticalError>, FsState)
    requires |args.casId| >= 3
  {
    var output := OutputPath(thumbnailsDirectory, kind, args.casId);
    var key := NewThumbKey(args.casId, kind);
    if MetadataResult(st, faults, output).Ok? && !shouldRegenerate then (Ok((key, Skipped)), st)
    else if RouteFor(cat, args.extension) == NoThumbnail then (Ok((key, Generated)), st)
    else
      var (r, st') := ImageThumbnail(st, faults, encode, args.path, output);
      if r.Err? then (Err(r.error), st') else (Ok((key, Generated)), st')
  }

  /** `generate_image_thumbnail`, changing the file system in place. */
  method GenerateImageThumbnail(fs: FileSystem, encode: Path -> Encoding, source: Path, output: Path)
    returns (r: Result<(), NonCriticalError>)
    modifies fs
    ensures (r, fs.State()) == ImageThumbnail(old(fs.State()), fs.faults, encode, source, output)
  {
    var webp;
    match encode(source) {
      case DecodeFailed => return Err(FormatImage(source));
      case EncodeFailed => return Err(WebPEncoding(source));
      case Panicked => return Err(PanicWhileGeneratingThumbnail(source));
      case Encoded(bytes) => webp := bytes;
    }
    match Parent(output) {
      case Some(shardDirectory) =>
        var made := fs.CreateDirAll(shardDirectory);
        if made.Err? {
          return Err(CreateShardDirectory(shardDirectory));
        }
      case None =>
    }
    var written := fs.Write(output, webp);
    if written.Err? {
      return Err(SaveThumbnail(source, output));
    }
    r := Ok(());
  }

  /** `generate_thumbnail`, building the output path in place and changing the file system. */
  method GenerateThumbnail(
    fs: FileSystem, cat: Catalogue, encode: Path -> Encoding,
    thumbnailsDirectory: Path, args: GenerateThumbnailArgs, kind: ThumbnailKind, shouldRegenerate: bool)
    returns (r: Result<(ThumbKey, GenerationStatus), NonCriticalError>)
    requires |args.casId| >= 3
    modifies fs
    ensures (r, fs.State())
      == GenerateThumbnailResult(old(fs.State()), fs.faults, cat, encode, thumbnailsDirectory, args, kind, shouldRegenerate)
  {
    var outputPath := Join(thumbnailsDirectory, NamespaceSegment(kind));
    outputPath.Push(ShardHex(args.casId));
    outputPath.Push(args.casId);
    var _ := outputPath.SetExtension(WEBP_EXTENSION);
    var output := outputPath.value;

    var present := fs.Metadata(output);
    if present.Ok? && !shouldRegenerate {
      return Ok((NewThumbKey(args.casId, kind), Skipped));
    }

    if RouteFor(cat, args.extension) == ImagePipeline {
      var made := GenerateImageThumbnail(fs, encode, args.path, output);
      if made.Err? {
        return Err(made.error);
      }
    }
    r := Ok((NewThumbKey(args.casId, kind), Generated));
  }

  /** A thumbnail that already exists is not regenerated unless asked: the call reports
      `Skipped` with the content id's key and changes nothing. */
  lemma SkipsExisting(
    st: FsState, faults: Faults, cat: Catalogue, encode: Path -> Encoding,
    thumbnailsDirectory: Path, args: GenerateThumbnailArgs, kind: ThumbnailKind)
    requires |args.casId| >= 3
    requires MetadataResult(st, faults, OutputPath(thumbnailsDirectory, kind, args.casId)).Ok?
    ensures GenerateThumbnailResult(st, faults, cat, encode, thumbnailsDirectory, args, kind, false)
      == (Ok((NewThumbKey(args.casId, kind), Skipped)), st)
  {
  }

  /** A failed existence check that is not "not found" counts as absent: generation goes
      on exactly as when regeneration is forced. */
  lemma MetadataErrorMeansAbsent(
    st: FsState, faults: Faults, cat: Catalogue, encode: Path -> Encoding,
    thumbnailsDirectory: Path, args: GenerateThumbnailArgs, kind: ThumbnailKind)
    requires |args.casId| >= 3
    requires MetadataResult(st, faults, OutputPath(thumbnailsDirectory, kind, args.casId)).Err?
    ensures GenerateThumbnailResult(st, faults, cat, encode, thumbnailsDirectory, args, kind, false)
      == GenerateThumbnailResult(st, faults, cat, encode, thumbnailsDirectory, args, kind, true)
  {
  }

  /** An extension with no thumbnail route (unknown, unsupported, or an image format that
      cannot be thumbnailed even if a document of that name exists), once the skip check
      has not fired, yields `Generated` with the content id's key and nothing written. */
  lemma NoRouteWritesNothing(
    st: FsState, faults: Faults, cat: Catalogue, encode: Path -> Encoding,
    thumbnailsDirectory: Path, args: GenerateThumbnailArgs, kind: ThumbnailKind, shouldRegenerate: bool)
    requires |args.casId| >= 3
    requires RouteFor(cat, args.extension) == NoThumbnail
    requires !(MetadataResult(st, faults, OutputPath(thumbnailsDirectory, kind, args.casId)).Ok? && !shouldRegenerate)
    ensures GenerateThumbnailResult(st, faults, cat, encode, thumbnailsDirectory, args, kind, shouldRegenerate)
      == (Ok((NewThumbKey(args.casId, kind), Generated)), st)
  {
  }

  lemma ImageNotRetriedAsDocument(cat: Catalogue, extension: string)
    requires ImageFromStr(cat.images, extension).Some?
    requires !CanGenerateThumbnailForImage(ImageFromStr(cat.images, extension).value)
    ensures RouteFor(cat, extension) == NoThumbnail
  {
  }

  /** In a well-formed catalogue each of the thirteen thumbnailable image formats takes
      the image pipeline. */
  lemma ThumbnailableImageRoutes(cat: Catalogue, e: ImageExtension)
    requires WellFormed(cat)
    requires CanGenerateThumbnailForImage(e)
    ensures RouteFor(cat, ImageName(e)) == ImagePipeline
  {
    PredicatesAreFixedSets(e, Pdf, Mpg);
    ImageFromStrOfName(cat.images, e);
  }

  /** In a well-formed catalogue where no image format is called "pdf", a PDF goes down
      the same pipeline as an image. */
  lemma PdfRoutes(cat: Catalogue)
    requires WellFormed(cat)
    requires forall e :: e in cat.images ==> ImageName(e) != "pdf"
    ensures RouteFor(cat, DocumentName(Pdf)) == ImagePipeline
  {
    DocumentFromStrOfName(cat.documents, Pdf);
  }

  /** Every success carries the content id's key; every failure leaves the stored files
      as they were. */
  lemma {:induction false} OutcomeShape(
    st: FsState, faults: Faults, cat: Catalogue, encode: Path -> Encoding,
    thumbnailsDirectory: Path, args: GenerateThumbnailArgs, kind: ThumbnailKind, shouldRegenerate: bool)
    requires |args.casId| >= 3
    ensures var (r, st') := GenerateThumbnailResult(st, faults, cat, encode, thumbnailsDirectory, args, kind, shouldRegenerate);
      && (r.Ok? ==> r.value.0 == NewThumbKey(args.casId, kind))
      && (r.Err? ==> st'.files == st.files)
      && (r.Ok? && r.value.1 == Skipped ==> st' == st)
  {
    var output := OutputPath(thumbnailsDirectory, kind, args.casId);
    if !(MetadataResult(st, faults, output).Ok? && !shouldRegenerate) && RouteFor(cat, args.extension) == ImagePipeline {
      var _ := ImageThumbnail(st, faults, encode, args.path, output);
    }
  }

  /** On the image route a `Generated` result means the shard directory exists and the
      output path holds exactly the encoded bytes. */
  lemma {:induction false} GeneratedImageIsStored(
    st: FsState, faults: Faults, cat: Catalogue, encode: Path -> Encoding,
    thumbnailsDirectory: Path, args: GenerateThumbnailArgs, kind: ThumbnailKind, shouldRegenerate: bool)
    requires |args.casId| >= 3
    requires RouteFor(cat, args.extension) == ImagePipeline
    requires GenerateThumbnailResult(st, faults, cat, encode, thumbnailsDirectory, args, kind, shouldRegenerate).0
      == Ok((NewThumbKey(args.casId, kind), Generated))
    ensures var output := OutputPath(thumbnailsDirectory, kind, args.casId);
      var st' := GenerateThumbnailResult(st, faults, cat, encode, thumbnailsDirectory, args, kind, shouldRegenerate).1;
      && encode(args.path).Encoded?
      && output in st'.files && st'.files[output] == encode(args.path).webp
      && Parent(output).Some? && IsDir(st', Parent(output).value)
  {
    var output := OutputPath(thumbnailsDirectory, kind, args.casId);
    var _ := ImageThumbnail(st, faults, encode, args.path, output);
  }

  /** Generating twice without forcing: once the first call has stored the thumbnail, the
      second is `Skipped` and the stored bytes stay those of the first. */
  lemma {:induction false} SecondCallSkips(
    st: FsState, faults: Faults, cat: Catalogue, encode: Path -> Encoding,
    thumbnailsDirectory: Path, args: GenerateThumbnailArgs, kind: ThumbnailKind)
    requires |args.casId| >= 3
    requires RouteFor(cat, args.extension) == ImagePipeline
    requires OutputPath(thumbnailsDirectory, kind, args.casId) !in faults.statFails
    requires GenerateThumbnailResult(st, faults, cat, encode, thumbnailsDirectory, args, kind, false).0.Ok?
    ensures var st1 := GenerateThumbnailResult(st, faults, cat, encode, thumbnailsDirectory, args, kind, false).1;
      GenerateThumbnailResult(st1, faults, cat, encode, thumbnailsDirectory, args, kind, false)
        == (Ok((NewThumbKey(args.casId, kind), Skipped)), st1)
  {
    var output := OutputPath(thumbnailsDirectory, kind, args.casId);
    var (r1, st1) := GenerateThumbnailResult(st, faults, cat, encode, thumbnailsDirectory, args, kind, false);
    if !MetadataResult(st, faults, output).Ok? {
      var _ := ImageThumbnail(st, faults, encode, args.path, output);
      assert output in st1.files;
    }
  }

  /** Forcing regeneration twice: both calls report `Generated`, and the second, which
      overwrites the file with the same bytes, leaves the store exactly as the first did. */
  lemma {:induction false} RegenerationIsStable(
    st: FsState, faults: Faults, cat: Catalogue, encode: Path -> Encoding,
    thumbnailsDirectory: Path, args: GenerateThumbnailArgs, kind: ThumbnailKind)
    requires |args.casId| >= 3
    requires Consistent(st)
    requires GenerateThumbnailResult(st, faults, cat, encode, thumbnailsDirectory, args, kind, true).0.Ok?
    ensures var (r1, st1) := GenerateThumbnailResult(st, faults, cat, encode, thumbnailsDirectory, args, kind, true);
      && r1 == Ok((NewThumbKey(args.casId, kind), Generated))
      && GenerateThumbnailResult(st1, faults, cat, encode, thumbnailsDirectory, args, kind, true) == (r1, st1)
  {
    var output := OutputPath(thumbnailsDirectory, kind, args.casId);
    if RouteFor(cat, args.extension) == ImagePipeline {
      var (r1, st1) := ImageThumbnail(st, faults, encode, args.path, output);
      var webp := encode(args.path).webp;
      var dir := Parent(output).value;
      var mid := CreateDirAllResult(st, faults, dir).value;
      assert st1 == mid.(files := mid.files[output := webp]);
      assert IsDir(st1, dir);
      assert CanWrite(st1, faults, output);
      assert st1.files[output := webp] == st1.files;
    }
  }
}
