/** Content-key derivation for thumbnails: the shard of a content id, the `ThumbKey`
    handed to the front end, the namespace of a thumbnail (`ThumbnailKind`) and the
    on-disk path `<data>/thumbnails/<ephemeral | library id>/<shard>/<cas_id>.webp`. */
module ThumbKeys {

  import opened Paths
  import opened Uuids
  import opened Outcomes

  const THUMBNAIL_CACHE_DIR_NAME: string := "thumbnails"
  const WEBP_EXTENSION: string := "webp"
  const EPHEMERAL_DIR: string := "ephemeral"

  /** A content id as the indexer produces it: a lower-case hex hash of at least three
      digits. */
  predicate IsHexCasId(casId: string)
  {
    |casId| >= 3 && forall i :: 0 <= i < |casId| ==> IsLowerHexDigit(casId[i])
  }

  /** `get_shard_hex`: the first three characters of the content id (the slice panics on a
      shorter id, hence the precondition). */
  function ShardHex(casId: string): (shard: string)
    requires |casId| >= 3
    ensures |shard| == 3 && casId == shard + casId[3..]
  {
    casId[..3]
  }

  predicate IsShardName(s: string)
  {
    |s| == 3 && IsLowerHexDigit(s[0]) && IsLowerHexDigit(s[1]) && IsLowerHexDigit(s[2])
  }

  /** Shard directories are numbered 0 to 4095 (`000` to `fff`). */
  function ShardIndex(shard: string): (n: nat)
    requires IsShardName(shard)
    ensures n < 4096
  {
    256 * HexDigitValue(shard[0]) + 16 * HexDigitValue(shard[1]) + HexDigitValue(shard[2])
  }

  function ShardOfIndex(n: nat): (shard: string)
    requires n < 4096
    ensures IsShardName(shard)
  {
    [HexDigit(n / 256), HexDigit(n / 16 % 16), HexDigit(n % 16)]
  }

  lemma HexDigitValueOfHexDigit(n: nat)
    requires n < 16
    ensures HexDigitValue(HexDigit(n)) == n
  {
  }

  /** Every hex content id falls in one of exactly 16^3 shards: its shard is a shard name,
      and shard names and the numbers below 4096 correspond one to one. */
  lemma {:induction false} ShardOfHexCasId(casId: string)
    requires IsHexCasId(casId)
    ensures IsShardName(ShardHex(casId))
    ensures ShardOfIndex(ShardIndex(ShardHex(casId))) == ShardHex(casId)
  {
    var s := ShardHex(casId);
    assert s[0] == casId[0] && s[1] == casId[1] && s[2] == casId[2];
    var a, b, c := HexDigitValue(s[0]), HexDigitValue(s[1]), HexDigitValue(s[2]);
    DigitsOfIndex(a, b, c);
    assert ShardOfIndex(ShardIndex(s)) == [HexDigit(a), HexDigit(b), HexDigit(c)];
  }

  lemma DigitsOfIndex(a: nat, b: nat, c: nat)
    requires a < 16 && b < 16 && c < 16
    ensures (256 * a + 16 * b + c) / 256 == a
    ensures (256 * a + 16 * b + c) / 16 % 16 == b
    ensures (256 * a + 16 * b + c) % 16 == c
  {
    var v := 256 * a + 16 * b + c;
    assert v == 16 * (16 * a + b) + c;
    assert v / 16 == 16 * a + b;
    assert v == 256 * a + (16 * b + c) && 16 * b + c < 256;
  }

  lemma {:induction false} ShardIndexOfShard(n: nat)
    requires n < 4096
    ensures ShardIndex(ShardOfIndex(n)) == n
  {
    var t := ShardOfIndex(n);
    HexDigitValueOfHexDigit(n / 256);
    HexDigitValueOfHexDigit(n / 16 % 16);
    HexDigitValueOfHexDigit(n % 16);
    assert ShardIndex(t) == 256 * (n / 256) + 16 * (n / 16 % 16) + n % 16;
  }

  /** `ThumbnailKind`: the namespace a thumbnail is stored under. */
  datatype ThumbnailKind = Ephemeral | Indexed(libraryId: Uuid)

  /** The directory name of a namespace. */
  function NamespaceSegment(kind: ThumbnailKind): string
  {
    match kind
    case Ephemeral => EPHEMERAL_DIR
    case Indexed(libraryId) => UuidToString(libraryId)
  }

  /** `ThumbKey`: what the front end needs to request a thumbnail. */
  datatype ThumbKey = ThumbKey(shardHex: string, casId: string, baseDirectoryStr: string)

  /** `ThumbKey::new`. */
  function NewThumbKey(casId: string, kind: ThumbnailKind): ThumbKey
    requires |casId| >= 3
  {
    ThumbKey(ShardHex(casId), casId,
      match kind
      case Ephemeral => EPHEMERAL_DIR
      case Indexed(libraryId) => UuidToString(libraryId))
  }

  /** `ThumbKey::new_indexed`. */
  function NewIndexedThumbKey(casId: string, libraryId: Uuid): ThumbKey
    requires |casId| >= 3
  {
    ThumbKey(ShardHex(casId), casId, UuidToString(libraryId))
  }

  /** `ThumbKey::new_ephemeral`. */
  function NewEphemeralThumbKey(casId: string): ThumbKey
    requires |casId| >= 3
  {
    ThumbKey(ShardHex(casId), casId, EPHEMERAL_DIR)
  }

  /** The three constructors agree, and every key's shard is the first three characters of
      its content id and its base directory the namespace's directory name. */
  lemma ThumbKeyConstructorsAgree(casId: string, libraryId: Uuid, kind: ThumbnailKind)
    requires |casId| >= 3
    ensures NewThumbKey(casId, Indexed(libraryId)) == NewIndexedThumbKey(casId, libraryId)
    ensures NewThumbKey(casId, Ephemeral) == NewEphemeralThumbKey(casId)
    ensures NewThumbKey(casId, kind).shardHex == casId[..3]
    ensures NewThumbKey(casId, kind).casId == casId
    ensures NewThumbKey(casId, kind).baseDirectoryStr == NamespaceSegment(kind)
  {
  }

  /** `get_thumbnails_directory`: `<data>/thumbnails`, one component below the data
      directory (`ThumbnailsDirectoryIsJoin` relates it to `join`). */
  function ThumbnailsDirectory(dataDirectory: Path): Path
  {
    Path(dataDirectory.absolute, dataDirectory.comps + [Normal(THUMBNAIL_CACHE_DIR_NAME)])
  }

  /** The path `generate_thumbnail` builds under a thumbnails directory: join the
      namespace, push the shard, push the content id, set the extension to `webp`. */
  function OutputPath(thumbnailsDirectory: Path, kind: ThumbnailKind, casId: string): Path
    requires |casId| >= 3
  {
    var p := PushStr(PushStr(PushStr(thumbnailsDirectory, NamespaceSegment(kind)), ShardHex(casId)), casId);
    WithExtension(p, WEBP_EXTENSION).0
  }

  /** `ThumbnailKind::compute_path`, building the path in place as the source does. */
  method ComputePath(kind: ThumbnailKind, dataDirectory: Path, casId: string) returns (p: Path)
    requires |casId| >= 3
    ensures p == OutputPath(ThumbnailsDirectory(dataDirectory), kind, casId)
  {
    var thumbPath := Join(dataDirectory, THUMBNAIL_CACHE_DIR_NAME);
    ThumbnailsDirectoryIsJoin(dataDirectory);
    match kind {
      case Ephemeral => thumbPath.Push(EPHEMERAL_DIR);
      case Indexed(libraryId) => thumbPath.Push(UuidToString(libraryId));
    }
    thumbPath.Push(ShardHex(casId));
    thumbPath.Push(casId);
    var _ := thumbPath.SetExtension(WEBP_EXTENSION);
    p := thumbPath.value;
  }

  /** The path a key names under a data directory, component by component. */
  function KeyPath(dataDirectory: Path, key: ThumbKey): Path
  {
    Path(dataDirectory.absolute, dataDirectory.comps +
      [Normal(THUMBNAIL_CACHE_DIR_NAME), Normal(key.baseDirectoryStr), Normal(key.shardHex),
       Normal(key.casId + "." + WEBP_EXTENSION)])
  }

  lemma HexCasIdIsPlainName(casId: string)
    requires IsHexCasId(casId)
    ensures IsPlainName(casId) && IsPlainName(ShardHex(casId)) && '.' !in casId
  {
    assert casId[0] != '.';
    assert ShardHex(casId)[0] == casId[0];
    assert forall c :: c in casId ==> c != '.' && c != Separator;
    assert forall c :: c in ShardHex(casId) ==> c in casId;
  }

  /** Under any thumbnails directory, a hex content id's path adds exactly three
      components: the namespace, the shard and `<cas_id>.webp`. */
  lemma {:induction false} OutputPathComponents(root: Path, kind: ThumbnailKind, casId: string)
    requires IsHexCasId(casId)
    ensures OutputPath(root, kind, casId) == Path(root.absolute, root.comps +
      [Normal(NamespaceSegment(kind)), Normal(ShardHex(casId)), Normal(casId + "." + WEBP_EXTENSION)])
  {
    var seg := NamespaceSegment(kind);
    var shard := ShardHex(casId);
    assert IsPlainName(seg) by { NamespaceSegmentIsPlainName(kind); }
    assert IsPlainName(shard) && IsPlainName(casId) && '.' !in casId by { HexCasIdIsPlainName(casId); }
    var p1 := PushStr(root, seg);
    assert p1 == Path(root.absolute, root.comps + [Normal(seg)]);
    var p2 := PushStr(p1, shard);
    assert p2 == Path(root.absolute, p1.comps + [Normal(shard)]);
    var p := PushStr(p2, casId);
    assert p == Path(root.absolute, p2.comps + [Normal(casId)]);
    assert p.comps[..|p.comps| - 1] == p2.comps;
    assert WithExtension(p, WEBP_EXTENSION).0 == Path(root.absolute, p2.comps + [Normal(casId + "." + WEBP_EXTENSION)]) by {
      SetExtensionOnDotFreeName(p, WEBP_EXTENSION);
    }
  }

  /** For a hex content id, the stored path is
      `<data>/thumbnails/<ephemeral | library id>/<first three chars>/<cas_id>.webp`: the
      path the id's `ThumbKey` names. */
  lemma {:induction false} OutputPathLayout(dataDirectory: Path, kind: ThumbnailKind, casId: string)
    requires IsHexCasId(casId)
    ensures OutputPath(ThumbnailsDirectory(dataDirectory), kind, casId)
      == KeyPath(dataDirectory, NewThumbKey(casId, kind))
  {
    OutputPathUnderDataDirectory(dataDirectory, kind, casId);
    KeyPathComponents(dataDirectory, casId, kind);
  }

  /** The stored path, component by component below the data directory. */
  lemma OutputPathUnderDataDirectory(d: Path, kind: ThumbnailKind, casId: string)
    requires IsHexCasId(casId)
    ensures OutputPath(ThumbnailsDirectory(d), kind, casId) == Path(d.absolute, d.comps +
      [Normal(THUMBNAIL_CACHE_DIR_NAME), Normal(NamespaceSegment(kind)), Normal(ShardHex(casId)),
       Normal(casId + "." + WEBP_EXTENSION)])
  {
    var tail := [Normal(NamespaceSegment(kind)), Normal(ShardHex(casId)), Normal(casId + "." + WEBP_EXTENSION)];
    OutputPathComponents(ThumbnailsDirectory(d), kind, casId);
    assert (d.comps + [Normal(THUMBNAIL_CACHE_DIR_NAME)]) + tail == d.comps + ([Normal(THUMBNAIL_CACHE_DIR_NAME)] + tail);
  }

  /** The path a new key names, component by component below the data directory. */
  lemma KeyPathComponents(d: Path, casId: string, kind: ThumbnailKind)
    requires |casId| >= 3
    ensures KeyPath(d, NewThumbKey(casId, kind)) == Path(d.absolute, d.comps +
      [Normal(THUMBNAIL_CACHE_DIR_NAME), Normal(NamespaceSegment(kind)), Normal(ShardHex(casId)),
       Normal(casId + "." + WEBP_EXTENSION)])
  {
    ThumbKeyFields(casId, kind);
  }

  /** Joining `thumbnails` onto the data directory yields the thumbnails directory. */
  lemma ThumbnailsDirectoryIsJoin(d: Path)
    ensures PushStr(d, THUMBNAIL_CACHE_DIR_NAME) == ThumbnailsDirectory(d)
  {
    assert IsPlainName(THUMBNAIL_CACHE_DIR_NAME);
  }

  /** Every constructor's key holds the shard, the content id and the namespace segment. */
  lemma ThumbKeyFields(casId: string, kind: ThumbnailKind)
    requires |casId| >= 3
    ensures NewThumbKey(casId, kind) == ThumbKey(ShardHex(casId), casId, NamespaceSegment(kind))
  {
    match kind {
      case Ephemeral =>
      case Indexed(_) =>
    }
  }

  /** A hex content id's stored path lies inside the thumbnails directory, its file name is
      `<cas_id>.webp` and its extension is `webp`. */
  lemma {:induction false} OutputPathInsideThumbnailsDirectory(root: Path, kind: ThumbnailKind, casId: string)
    requires IsHexCasId(casId)
    ensures StartsWith(OutputPath(root, kind, casId), root)
    ensures Extension(OutputPath(root, kind, casId)) == Some(WEBP_EXTENSION)
    ensures FileName(OutputPath(root, kind, casId)) == Some(casId + "." + WEBP_EXTENSION)
  {
    var seg, shard := NamespaceSegment(kind), ShardHex(casId);
    var q := OutputPath(root, kind, casId);
    assert q == Path(root.absolute, root.comps + [Normal(seg), Normal(shard), Normal(casId + "." + WEBP_EXTENSION)]) by {
      OutputPathComponents(root, kind, casId);
    }
    assert q.comps[..|root.comps|] == root.comps;
    assert Extension(q) == NameExtension(casId + "." + WEBP_EXTENSION);
    NameExtensionOfDotted(casId, WEBP_EXTENSION);
  }

  lemma NamespaceSegmentIsPlainName(kind: ThumbnailKind)
    ensures IsPlainName(NamespaceSegment(kind))
  {
    match kind {
      case Ephemeral =>
      case Indexed(id) => UuidStringIsPlainName(id);
    }
  }

  /** Distinct hex content ids in one namespace never share a thumbnail path. */
  lemma OutputPathInjective(dataDirectory: Path, kind: ThumbnailKind, a: string, b: string)
    requires IsHexCasId(a) && IsHexCasId(b) && a != b
    ensures OutputPath(ThumbnailsDirectory(dataDirectory), kind, a) != OutputPath(ThumbnailsDirectory(dataDirectory), kind, b)
  {
    var root := ThumbnailsDirectory(dataDirectory);
    var pa, pb := OutputPath(root, kind, a), OutputPath(root, kind, b);
    assert FileName(pa) == Some(a + "." + WEBP_EXTENSION) by { OutputPathInsideThumbnailsDirectory(root, kind, a); }
    assert FileName(pb) == Some(b + "." + WEBP_EXTENSION) by { OutputPathInsideThumbnailsDirectory(root, kind, b); }
    DistinctNamesKeepDistinct(a, b, WEBP_EXTENSION);
  }

  /** Distinct names stay distinct once the same extension is appended. */
  lemma DistinctNamesKeepDistinct(a: string, b: string, ext: string)
    requires a != b
    ensures a + "." + ext != b + "." + ext
  {
    var x, y := a + "." + ext, b + "." + ext;
    if |a| == |b| {
      assert x[..|a|] == a && y[..|a|] == b;
    } else {
      assert |x| != |y|;
    }
  }
}
