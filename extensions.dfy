/** The file-extension kinds the thumbnailer dispatches on (`sd_file_ext`), the three
    "can generate a thumbnail" predicates, and the lists of thumbnailable extensions.

    The extension crate's catalogue is not part of this model: each enum keeps, as named
    variants, the extensions the predicates name, and stands for every other extension of
    its kind with an `Other…(name)` variant. The lists `ALL_IMAGE_EXTENSIONS`,
    `ALL_DOCUMENT_EXTENSIONS` and `ALL_VIDEO_EXTENSIONS` are a `Catalogue` value. */
module Extensions {

  import opened Outcomes

  datatype ImageExtension =
    | Jpg | Jpeg | Png | Webp | Gif | Svg | Heic | Heics | Heif | Heifs | Avif | Bmp | Ico
    | OtherImage(name: string)

  datatype DocumentExtension = Pdf | OtherDocument(name: string)

  datatype VideoExtension =
    | Mpg | Swf | M2v | Hevc | M2ts | Mts | Ts
    | OtherVideo(name: string)

  datatype Extension =
    | Image(image: ImageExtension)
    | Document(document: DocumentExtension)
    | Video(video: VideoExtension)

  /** The string each variant parses from (`FromStr`: the lower-case variant name). */
  function ImageName(e: ImageExtension): string
  {
    match e
    case Jpg => "jpg" case Jpeg => "jpeg" case Png => "png" case Webp => "webp"
    case Gif => "gif" case Svg => "svg" case Heic => "heic" case Heics => "heics"
    case Heif => "heif" case Heifs => "heifs" case Avif => "avif" case Bmp => "bmp"
    case Ico => "ico"
    case OtherImage(n) => n
  }

  function DocumentName(e: DocumentExtension): string
  {
    match e
    case Pdf => "pdf"
    case OtherDocument(n) => n
  }

  function VideoName(e: VideoExtension): string
  {
    match e
    case Mpg => "mpg" case Swf => "swf" case M2v => "m2v" case Hevc => "hevc"
    case M2ts => "m2ts" case Mts => "mts" case Ts => "ts"
    case OtherVideo(n) => n
  }

  /** `can_generate_thumbnail_for_image`: exactly the thirteen named image formats. */
  predicate CanGenerateThumbnailForImage(e: ImageExtension)
  {
    !e.OtherImage?
  }

  /** `can_generate_thumbnail_for_document`: only PDF. */
  predicate CanGenerateThumbnailForDocument(e: DocumentExtension)
  {
    e == Pdf
  }

  /** `can_generate_thumbnail_for_video`: every video format except the seven named ones. */
  predicate CanGenerateThumbnailForVideo(e: VideoExtension)
  {
    e.OtherVideo?
  }

  const ThumbnailableImages: set<ImageExtension> :=
    {Jpg, Jpeg, Png, Webp, Gif, Svg, Heic, Heics, Heif, Heifs, Avif, Bmp, Ico}

  const UnthumbnailableVideos: set<VideoExtension> := {Mpg, Swf, M2v, Hevc, M2ts, Mts, Ts}

  /** The three predicates are membership in fixed sets: thirteen image formats, one
      document format, and all video formats but seven. */
  lemma {:induction false} PredicatesAreFixedSets(i: ImageExtension, d: DocumentExtension, v: VideoExtension)
    ensures CanGenerateThumbnailForImage(i) <==> i in ThumbnailableImages
    ensures CanGenerateThumbnailForDocument(d) <==> d in {Pdf}
    ensures CanGenerateThumbnailForVideo(v) <==> v !in UnthumbnailableVideos
  {
    match i
    case OtherImage(n) => assert i !in ThumbnailableImages;
    case _ =>
  }

  /** The extension crate's lists of every extension of each kind. */
  datatype Catalogue = Catalogue(
    images: seq<ImageExtension>,
    documents: seq<DocumentExtension>,
    videos: seq<VideoExtension>)

  /** What the extension crate's lists are taken to satisfy: every named variant is listed,
      and no two entries of a list share a name. */
  predicate WellFormed(cat: Catalogue)
  {
    && (forall e :: e in ThumbnailableImages ==> e in cat.images)
    && Pdf in cat.documents
    && ImageNamesDistinct(cat.images)
    && DocumentNamesDistinct(cat.documents)
  }

  predicate ImageNamesDistinct(images: seq<ImageExtension>)
  {
    forall i, j :: 0 <= i < |images| && 0 <= j < |images| && ImageName(images[i]) == ImageName(images[j]) ==> i == j
  }

  predicate DocumentNamesDistinct(documents: seq<DocumentExtension>)
  {
    forall i, j :: 0 <= i < |documents| && 0 <= j < |documents| && DocumentName(documents[i]) == DocumentName(documents[j]) ==> i == j
  }

  /** `.filter(can_generate_thumbnail_for_image).map(Extension::Image)`. */
  function ThumbnailableImageList(images: seq<ImageExtension>): (r: seq<Extension>)
    ensures forall x :: x in r <==> x.Image? && x.image in images && CanGenerateThumbnailForImage(x.image)
    ensures |r| <= |images|
  {
    if images == [] then []
    else
      var rest := ThumbnailableImageList(images[1..]);
      assert forall e :: e in images <==> e == images[0] || e in images[1..];
      if CanGenerateThumbnailForImage(images[0]) then [Image(images[0])] + rest else rest
  }

  /** `.filter(can_generate_thumbnail_for_document).map(Extension::Document)`. */
  function ThumbnailableDocumentList(documents: seq<DocumentExtension>): (r: seq<Extension>)
    ensures forall x :: x in r <==> x.Document? && x.document in documents && CanGenerateThumbnailForDocument(x.document)
    ensures |r| <= |documents|
  {
    if documents == [] then []
    else
      var rest := ThumbnailableDocumentList(documents[1..]);
      assert forall e :: e in documents <==> e == documents[0] || e in documents[1..];
      if CanGenerateThumbnailForDocument(documents[0]) then [Document(documents[0])] + rest else rest
  }

  /** `.filter(can_generate_thumbnail_for_video).map(Extension::Video)`. */
  function ThumbnailableVideoList(videos: seq<VideoExtension>): (r: seq<Extension>)
    ensures forall x :: x in r <==> x.Video? && x.video in videos && CanGenerateThumbnailForVideo(x.video)
    ensures |r| <= |videos|
  {
    if videos == [] then []
    else
      var rest := ThumbnailableVideoList(videos[1..]);
      assert forall e :: e in videos <==> e == videos[0] || e in videos[1..];
      if CanGenerateThumbnailForVideo(videos[0]) then [Video(videos[0])] + rest else rest
  }

  /** `THUMBNAILABLE_EXTENSIONS`: the thumbnailable images, then the thumbnailable
      documents. */
  function ThumbnailableExtensions(cat: Catalogue): (r: seq<Extension>)
    ensures forall x :: x in r <==>
      || (x.Image? && x.image in cat.images && CanGenerateThumbnailForImage(x.image))
      || (x.Document? && x.document in cat.documents && CanGenerateThumbnailForDocument(x.document))
    ensures forall i, j :: 0 <= i < j < |r| && r[i].Document? ==> r[j].Document?
  {
    var images := ThumbnailableImageList(cat.images);
    var documents := ThumbnailableDocumentList(cat.documents);
    assert forall k :: 0 <= k < |images| ==> images[k] in images;
    assert forall k :: 0 <= k < |documents| ==> documents[k] in documents;
    images + documents
  }

  /** `ALL_THUMBNAILABLE_EXTENSIONS`: with the `ffmpeg` feature, the thumbnailable videos
      follow; without it, the list is `THUMBNAILABLE_EXTENSIONS` unchanged. */
  function AllThumbnailableExtensions(cat: Catalogue, ffmpeg: bool): (r: seq<Extension>)
    ensures forall x :: x in r <==>
      || x in ThumbnailableExtensions(cat)
      || (ffmpeg && x.Video? && x.video in cat.videos && CanGenerateThumbnailForVideo(x.video))
  {
    if ffmpeg then ThumbnailableExtensions(cat) + ThumbnailableVideoList(cat.videos)
    else ThumbnailableExtensions(cat)
  }

  /** `ImageExtension::from_str`: the catalogued image extension with that name. */
  function ImageFromStr(images: seq<ImageExtension>, s: string): (r: Option<ImageExtension>)
    ensures r.Some? ==> r.value in images && ImageName(r.value) == s
    ensures r.None? ==> forall e :: e in images ==> ImageName(e) != s
  {
    if images == [] then None
    else if ImageName(images[0]) == s then Some(images[0])
    else
      var r := ImageFromStr(images[1..], s);
      assert forall e :: e in images ==> e == images[0] || e in images[1..];
      r
  }

  /** `DocumentExtension::from_str`. */
  function DocumentFromStr(documents: seq<DocumentExtension>, s: string): (r: Option<DocumentExtension>)
    ensures r.Some? ==> r.value in documents && DocumentName(r.value) == s
    ensures r.None? ==> forall e :: e in documents ==> DocumentName(e) != s
  {
    if documents == [] then None
    else if DocumentName(documents[0]) == s then Some(documents[0])
    else
      var r := DocumentFromStr(documents[1..], s);
      assert forall e :: e in documents ==> e == documents[0] || e in documents[1..];
      r
  }

  /** With distinct names (as in a well-formed catalogue) parsing a listed image's name
      gives back that image; in particular every thumbnailable format parses to itself. */
  lemma ImageFromStrOfName(images: seq<ImageExtension>, e: ImageExtension)
    requires ImageNamesDistinct(images)
    requires e in images
    ensures ImageFromStr(images, ImageName(e)) == Some(e)
  {
    var r := ImageFromStr(images, ImageName(e));
    var j :| 0 <= j < |images| && images[j] == e;
    var i :| 0 <= i < |images| && images[i] == r.value;
    assert ImageName(images[i]) == ImageName(images[j]);
  }

  /** With distinct names parsing a listed document's name gives back that document; in
      particular "pdf" parses to `Pdf` in a well-formed catalogue. */
  lemma DocumentFromStrOfName(documents: seq<DocumentExtension>, e: DocumentExtension)
    requires DocumentNamesDistinct(documents)
    requires e in documents
    ensures DocumentFromStr(documents, DocumentName(e)) == Some(e)
  {
    var r := DocumentFromStr(documents, DocumentName(e));
    var j :| 0 <= j < |documents| && documents[j] == e;
    var i :| 0 <= i < |documents| && documents[i] == r.value;
    assert DocumentName(documents[i]) == DocumentName(documents[j]);
  }
}
