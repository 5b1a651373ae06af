/** Serving a library file to a peer and requesting one from a peer. The responder
    authenticates the tunnel, finds the library, resolves the request to a path (through the
    file-path index, or by building a thumbnail path that must pass a guard), opens the
    file, writes a header (block size, then the file length as a little-endian `u64`) and
    hands the file to the block transfer. The initiator finds the peer, opens a stream,
    writes the request header, upgrades to the tunnel, reads the header back and hands the
    rest of the stream to the block transfer. Both sides record the steps they take. */
module LibraryTransfer {

  import opened Outcomes
  import opened Bytes
  import opened Paths
  import opened Uuids
  import opened ThumbKeys

  /** What a peer asks a library for. */
  datatype LibraryFileRequest = File(filePathId: Uuid) | Thumbnail(casId: string)

  /** `sd_p2p_block::Range`, carried but never interpreted here. */
  datatype Range = Full | Partial(start: nat, end: nat)

  datatype SpaceblockRequest = SpaceblockRequest(name: string, size: nat, range: Range)

  /** The transfer description both sides build (its random id is not modelled). */
  datatype SpaceblockRequests = SpaceblockRequests(blockSize: nat, requests: seq<SpaceblockRequest>)

  /** A `Transfer::new` call: the requests and the value of the cancellation flag. */
  datatype TransferCall = TransferCall(reqs: SpaceblockRequests, cancelled: bool)

  /** `BlockSize`: chosen from a file size, written to a stream, read back from one. */
  datatype BlockCodec = BlockCodec(
    fromFileSize: nat -> nat,
    toBytes: nat -> seq<byte>,
    fromStream: seq<byte> -> Option<(nat, seq<byte>)>)

  /** Reading back what `toBytes` wrote yields the block size and leaves what follows. */
  ghost predicate RoundTrips(codec: BlockCodec)
  {
    forall bs: nat, rest: seq<byte> :: codec.fromStream(codec.toBytes(bs) + rest) == Some((bs, rest))
  }

  /** `Transfer::send` (the bytes it puts on the stream, and whether it succeeded: a failed
      send may already have put some chunks on the stream) and `Transfer::receive` (the
      bytes it writes to the output, and whether it succeeded). */
  datatype TransferEngine = TransferEngine(
    send: (TransferCall, seq<byte>) -> (seq<byte>, bool),
    receive: (TransferCall, seq<byte>) -> (seq<byte>, bool))

  /** The one transfer request both sides describe for a file of `size` bytes. */
  function TransferFor(blockSize: nat, size: nat, range: Range): TransferCall
  {
    TransferCall(SpaceblockRequests(blockSize, [SpaceblockRequest("_", size, range)]), false)
  }

  /** What the file-path index holds for an id: the location path joined with the
      isolated path, or a row that cannot be turned into one. */
  datatype IndexEntry = Located(path: Path) | Unconvertible

  datatype Library = Library(queryFails: bool, filePaths: map<Uuid, IndexEntry>)

  /** The serving node: its data directory, its libraries, and the files it can open. */
  datatype Node = Node(dataDirectory: Path, libraries: map<Uuid, Library>, files: map<Path, seq<byte>>)

  /** Every file's length fits the `u64` that `metadata().len()` returns. */
  predicate FileSizesFit(files: map<Path, seq<byte>>)
  {
    forall p :: p in files ==> |files[p]| < U64_LIMIT
  }

  /** The steps either side takes, in order. */
  datatype Step =
    | TunnelResponder | LibraryLookup | FilePathQuery | BuildThumbnailPath | GuardCheck
    | Open(path: Path) | WriteBlockSize | WriteLength | Send(call: TransferCall)
    | PeerLookup | NewStream | WriteRequestHeader | TunnelInitiator | ReadBlockSize | ReadLength
    | Receive(call: TransferCall)

  datatype ServeError =
    | TunnelFailed
    | LibraryNotFound(libraryId: Uuid)
    | QueryFailed
    | FilePathNotFound(filePathId: Uuid)
    | PathConversionFailed
    | InvalidThumbnailPath
    | OpenFailed(path: Path)
    | WriteFailed
    | SendFailed

  /** The thumbnail a request names: the thumbnails root extended by the key's segments,
      with the extension set to `webp`. */
  function ThumbnailCandidate(root: Path, segments: seq<string>): Path
  {
    WithExtension(ExtendAll(root, segments), WEBP_EXTENSION).0
  }

  /** The traversal guard: componentwise prefix of the root, and extension exactly `webp`. */
  predicate GuardAccepts(path: Path, root: Path)
  {
    StartsWith(path, root) && Extension(path) == Some(WEBP_EXTENSION)
  }

  /** The path a request resolves to in library `libraryId`, and the steps taken;
      `thumbKey` is the thumbnail key's path segments for a content id and a library. */
  function ResolvePath(node: Node, libraryId: Uuid, library: Library, req: LibraryFileRequest,
    thumbKey: (string, Uuid) -> seq<string>): (r: (Result<Path, ServeError>, seq<Step>))
    ensures req.File? ==> r.1 == [FilePathQuery]
    ensures req.File? ==> (r.0.Ok? <==>
      !library.queryFails && req.filePathId in library.filePaths && library.filePaths[req.filePathId].Located?)
    ensures req.Thumbnail? ==> r.1 == [BuildThumbnailPath, GuardCheck]
    ensures req.Thumbnail? ==>
      var root := ThumbnailsDirectory(node.dataDirectory);
      var candidate := ThumbnailCandidate(root, thumbKey(req.casId, libraryId));
      r.0 == if GuardAccepts(candidate, root) then Ok(candidate) else Err(InvalidThumbnailPath)
  {
    match req
    case File(id) =>
      if library.queryFails then (Err(QueryFailed), [FilePathQuery])
      else if id !in library.filePaths then (Err(FilePathNotFound(id)), [FilePathQuery])
      else
        (match library.filePaths[id]
         case Unconvertible => (Err(PathConversionFailed), [FilePathQuery])
         case Located(path) => (Ok(path), [FilePathQuery]))
    case Thumbnail(casId) =>
      var root := ThumbnailsDirectory(node.dataDirectory);
      var path := ThumbnailCandidate(root, thumbKey(casId, libraryId));
      if GuardAccepts(path, root) then (Ok(path), [BuildThumbnailPath, GuardCheck])
      else (Err(InvalidThumbnailPath), [BuildThumbnailPath, GuardCheck])
  }

  /** The second half of `receiver`, once the path is resolved: open the file, write the
      header, send the file. The outcome, the steps taken, and the bytes written. */
  function SendFile(files: map<Path, seq<byte>>, path: Path, range: Range,
    codec: BlockCodec, engine: TransferEngine, broken: bool)
    : (Result<(), ServeError>, seq<Step>, seq<byte>)
    requires FileSizesFit(files)
  {
    if path !in files then (Err(OpenFailed(path)), [Open(path)], [])
    else
      var content := files[path];
      var blockSize := codec.fromFileSize(|content|);
      if broken then (Err(WriteFailed), [Open(path), WriteBlockSize], [])
      else
        var header := codec.toBytes(blockSize) + U64ToLeBytes(|content|);
        var call := TransferFor(blockSize, |content|, range);
        var trace := [Open(path), WriteBlockSize, WriteLength, Send(call)];
        var (body, sent) := engine.send(call, content);
        (if sent then Ok(()) else Err(SendFailed), trace, header + body)
  }

  /** Every transfer a trace starts has its cancellation flag down. */
  predicate Uncancellable(trace: seq<Step>)
  {
    forall i :: 0 <= i < |trace| && (trace[i].Send? || trace[i].Receive?) ==> !trace[i].call.cancelled
  }

  lemma UncancellableConcat(a: seq<Step>, b: seq<Step>)
    requires Uncancellable(a) && Uncancellable(b)
    ensures Uncancellable(a + b)
  {
    forall i | 0 <= i < |a + b| && ((a + b)[i].Send? || (a + b)[i].Receive?)
      ensures !(a + b)[i].call.cancelled
    {
      if i >= |a| {
        assert (a + b)[i] == b[i - |a|];
      }
    }
  }

  /** `receiver`: the outcome, the steps taken, and the bytes written to the stream.
      `tunnel` is the library id the tunnel handshake authenticated, none when it failed;
      `broken` is a stream every write to which fails. */
  function Serve(node: Node, tunnel: Option<Uuid>, req: LibraryFileRequest, range: Range,
    thumbKey: (string, Uuid) -> seq<string>, codec: BlockCodec, engine: TransferEngine, broken: bool)
    : (r: (Result<(), ServeError>, seq<Step>, seq<byte>))
    requires FileSizesFit(node.files)
    ensures |r.1| > 0 && r.1[0] == TunnelResponder
    ensures r.0.Ok? ==> r.1[|r.1| - 1].Send?
  {
    if tunnel.None? then (Err(TunnelFailed), [TunnelResponder], [])
    else
      var libraryId := tunnel.value;
      if libraryId !in node.libraries then (Err(LibraryNotFound(libraryId)), [TunnelResponder, LibraryLookup], [])
      else
        var (resolved, steps) := ResolvePath(node, libraryId, node.libraries[libraryId], req, thumbKey);
        var before := [TunnelResponder, LibraryLookup] + steps;
        if resolved.Err? then (Err(resolved.error), before, [])
        else
          var (r, after, sent) := SendFile(node.files, resolved.value, range, codec, engine, broken);
          (r, before + after, sent)
  }

  /** A peer as the local node knows it. */
  datatype Peer = Peer(canOpenStream: bool)

  datatype RemoteIdentity = RemoteIdentity(key: seq<byte>)

  datatype RequestError = PeerOffline | StreamFailed | RequestWriteFailed | TunnelRefused | ReadFailed

  /** `request_file`: the outcome, the steps taken, the bytes sent, and the bytes written to
      the output. `headerBytes` is the `Header::LibraryFile` encoding, `tunnelOk` the outcome
      of the handshake, `broken` a stream every write to which fails, `incoming` what the
      stream yields after the handshake. */
  function RequestFileResult(peers: map<RemoteIdentity, Peer>, identity: RemoteIdentity,
    req: LibraryFileRequest, range: Range, headerBytes: (LibraryFileRequest, Range) -> seq<byte>,
    tunnelOk: bool, codec: BlockCodec, engine: TransferEngine, broken: bool, incoming: seq<byte>)
    : (r: (Result<(), RequestError>, seq<Step>, seq<byte>, seq<byte>))
    ensures |r.1| > 0 && r.1[0] == PeerLookup
    ensures r.0.Ok? ==> r.1[|r.1| - 1].Receive?
  {
    if identity !in peers then (Err(PeerOffline), [PeerLookup], [], [])
    else if !peers[identity].canOpenStream then (Err(StreamFailed), [PeerLookup, NewStream], [], [])
    else if broken then (Err(RequestWriteFailed), [PeerLookup, NewStream, WriteRequestHeader], [], [])
    else
      var sent := headerBytes(req, range);
      var attempted := [PeerLookup, NewStream, WriteRequestHeader, TunnelInitiator];
      if !tunnelOk then (Err(TunnelRefused), attempted, sent, [])
      else
        match codec.fromStream(incoming)
        case None => (Err(ReadFailed), attempted + [ReadBlockSize], sent, [])
        case Some((blockSize, afterBlockSize)) =>
          match ReadU64Le(afterBlockSize)
          case None => (Err(ReadFailed), attempted + [ReadBlockSize, ReadLength], sent, [])
          case Some((size, rest)) =>
            var call := TransferFor(blockSize, size, range);
            var (output, _) := engine.receive(call, rest);
            (Ok(()), attempted + [ReadBlockSize, ReadLength, Receive(call)], sent, output)
  }

  /** A byte stream: what has been written to it, what is still to be read from it, and
      whether it is broken. */
  class Stream {
    var written: seq<byte>
    var incoming: seq<byte>
    const broken: bool

    constructor (incoming: seq<byte>, broken: bool)
      ensures this.written == [] && this.incoming == incoming && this.broken == broken
    {
      this.written := [];
      this.incoming := incoming;
      this.broken := broken;
    }

    /** `write_all`: all the bytes, or none and a failure on a broken stream. */
    method WriteAll(bytes: seq<byte>) returns (ok: bool)
      modifies this
      ensures ok == !broken
      ensures written == (if broken then old(written) else old(written) + bytes)
      ensures incoming == old(incoming)
    {
      ok := !broken;
      if ok {
        written := written + bytes;
      }
    }

    /** `BlockSize::from_stream`. */
    method ReadBlockSize(codec: BlockCodec) returns (r: Option<nat>)
      modifies this
      ensures r.None? <==> codec.fromStream(old(incoming)).None?
      ensures r.Some? ==>
        r.value == codec.fromStream(old(incoming)).value.0 && incoming == codec.fromStream(old(incoming)).value.1
      ensures r.None? ==> incoming == old(incoming)
      ensures written == old(written)
    {
      match codec.fromStream(incoming) {
        case None => r := None;
        case Some((blockSize, rest)) =>
          r := Some(blockSize);
          incoming := rest;
      }
    }

    /** `read_u64_le`: eight bytes, least significant first, or a failure when fewer
        remain. */
    method ReadU64LeFrom() returns (r: Option<nat>)
      modifies this
      ensures r.None? <==> |old(incoming)| < 8
      ensures r.Some? ==>
        r.value < U64_LIMIT && U64ToLeBytes(r.value) == old(incoming)[..8] && incoming == old(incoming)[8..]
      ensures r.None? ==> incoming == old(incoming)
      ensures written == old(written)
    {
      match ReadU64Le(incoming) {
        case None => r := None;
        case Some((x, rest)) =>
          r := Some(x);
          incoming := rest;
      }
    }

    /** Everything left to read, as the receiving transfer consumes it. */
    method Drain() returns (rest: seq<byte>)
      modifies this
      ensures rest == old(incoming) && incoming == [] && written == old(written)
    {
      rest := incoming;
      incoming := [];
    }
  }

  /** The initiator's output writer. */
  class Sink {
    var data: seq<byte>

    constructor ()
      ensures data == []
    {
      data := [];
    }

    method Write(bytes: seq<byte>)
      modifies this
      ensures data == old(data) + bytes
    {
      data := data + bytes;
    }
  }

  /** The path resolution of `receiver`: the index lookup, or the thumbnail path built in
      place and checked by the guard. */
  method ResolveRequestPath(node: Node, libraryId: Uuid, library: Library, req: LibraryFileRequest,
    thumbKey: (string, Uuid) -> seq<string>) returns (r: Result<Path, ServeError>, steps: seq<Step>)
    ensures (r, steps) == ResolvePath(node, libraryId, library, req, thumbKey)
  {
    match req {
      case File(id) =>
        steps := [FilePathQuery];
        if library.queryFails {
          return Err(QueryFailed), steps;
        }
        if id !in library.filePaths {
          return Err(FilePathNotFound(id)), steps;
        }
        match library.filePaths[id] {
          case Unconvertible => return Err(PathConversionFailed), steps;
          case Located(p) => return Ok(p), steps;
        }
      case Thumbnail(casId) =>
        var thumbnailPath := ThumbnailsDirectory(node.dataDirectory);
        var p := new PathBuf(thumbnailPath);
        p.Extend(thumbKey(casId, libraryId));
        var _ := p.SetExtension(WEBP_EXTENSION);
        steps := [BuildThumbnailPath, GuardCheck];
        if !(StartsWith(p.value, thumbnailPath) && Extension(p.value) == Some(WEBP_EXTENSION)) {
          return Err(InvalidThumbnailPath), steps;
        }
        r := Ok(p.value);
    }
  }

  /** The second half of `receiver` over a stream. */
  method SendFileOver(stream: Stream, files: map<Path, seq<byte>>, path: Path, range: Range,
    codec: BlockCodec, engine: TransferEngine)
    returns (r: Result<(), ServeError>, trace: seq<Step>)
    requires FileSizesFit(files)
    modifies stream
    ensures var (r', trace', sent) := SendFile(files, path, range, codec, engine, stream.broken);
      r == r' && trace == trace' && stream.written == old(stream.written) + sent
    ensures stream.incoming == old(stream.incoming)
  {
    if path !in files {
      return Err(OpenFailed(path)), [Open(path)];
    }
    ghost var before := stream.written;
    var content := files[path];
    var blockSize := codec.fromFileSize(|content|);
    var ok := stream.WriteAll(codec.toBytes(blockSize));
    if !ok {
      return Err(WriteFailed), [Open(path), WriteBlockSize];
    }
    ok := stream.WriteAll(U64ToLeBytes(|content|));
    var header := codec.toBytes(blockSize) + U64ToLeBytes(|content|);
    ConcatAssociates(before, codec.toBytes(blockSize), U64ToLeBytes(|content|));
    var call := TransferFor(blockSize, |content|, range);
    trace := [Open(path), WriteBlockSize, WriteLength, Send(call)];
    var (body, sent) := engine.send(call, content);
    ok := stream.WriteAll(body);
    ConcatAssociates(before, header, body);
    r := if sent then Ok(()) else Err(SendFailed);
  }

  lemma ConcatAssociates<T>(x: seq<T>, y: seq<T>, z: seq<T>)
    ensures (x + y) + z == x + (y + z)
  {
  }



  /** `receiver`, step by step over a stream; the thumbnail path is built in place. */
  method Receiver(stream: Stream, req: LibraryFileRequest, range: Range, node: Node, tunnel: Option<Uuid>,
    thumbKey: (string, Uuid) -> seq<string>, codec: BlockCodec, engine: TransferEngine)
    returns (r: Result<(), ServeError>, trace: seq<Step>)
    requires FileSizesFit(node.files)
    modifies stream
    ensures var (r', trace', sent) := Serve(node, tunnel, req, range, thumbKey, codec, engine, stream.broken);
      r == r' && trace == trace' && stream.written == old(stream.written) + sent
    ensures stream.incoming == old(stream.incoming)
  {
    if tunnel.None? {
      return Err(TunnelFailed), [TunnelResponder];
    }
    var libraryId := tunnel.value;
    if libraryId !in node.libraries {
      return Err(LibraryNotFound(libraryId)), [TunnelResponder, LibraryLookup];
    }
    var resolved, steps := ResolveRequestPath(node, libraryId, node.libraries[libraryId], req, thumbKey);
    var before := [TunnelResponder, LibraryLookup] + steps;
    if resolved.Err? {
      return Err(resolved.error), before;
    }
    var outcome, after := SendFileOver(stream, node.files, resolved.value, range, codec, engine);
    r, trace := outcome, before + after;
  }

  /** `request_file`, step by step: `stream` is the stream the peer opens, `output` the
      writer the received file goes to. */
  method RequestFile(peers: map<RemoteIdentity, Peer>, identity: RemoteIdentity,
    req: LibraryFileRequest, range: Range, headerBytes: (LibraryFileRequest, Range) -> seq<byte>,
    tunnelOk: bool, codec: BlockCodec, engine: TransferEngine, stream: Stream, output: Sink)
    returns (r: Result<(), RequestError>, trace: seq<Step>)
    modifies stream, output
    ensures var (r', trace', sent, received) := RequestFileResult(peers, identity, req, range, headerBytes,
        tunnelOk, codec, engine, stream.broken, old(stream.incoming));
      && r == r' && trace == trace'
      && stream.written == old(stream.written) + sent
      && output.data == old(output.data) + received
  {
    if identity !in peers {
      return Err(PeerOffline), [PeerLookup];
    }
    if !peers[identity].canOpenStream {
      return Err(StreamFailed), [PeerLookup, NewStream];
    }
    var ok := stream.WriteAll(headerBytes(req, range));
    if !ok {
      return Err(RequestWriteFailed), [PeerLookup, NewStream, WriteRequestHeader];
    }
    trace := [PeerLookup, NewStream, WriteRequestHeader, TunnelInitiator];
    if !tunnelOk {
      return Err(TunnelRefused), trace;
    }
    var blockSize := stream.ReadBlockSize(codec);
    if blockSize.None? {
      return Err(ReadFailed), trace + [ReadBlockSize];
    }
    var size := stream.ReadU64LeFrom();
    if size.None? {
      return Err(ReadFailed), trace + [ReadBlockSize, ReadLength];
    }
    var call := TransferFor(blockSize.value, size.value, range);
    var rest := stream.Drain();
    var (received, _) := engine.receive(call, rest);
    output.Write(received);
    r, trace := Ok(()), trace + [ReadBlockSize, ReadLength, Receive(call)];
  }

  /** A thumbnail key made of plain names yields `<root>/<names...>/<stem>.webp`, and
      the guard accepts it. */
  lemma {:induction false} GuardAcceptsPlainSegments(root: Path, segments: seq<string>)
    requires segments != []
    requires forall i :: 0 <= i < |segments| ==> IsPlainName(segments[i])
    ensures var last := segments[|segments| - 1];
      ThumbnailCandidate(root, segments)
        == Path(root.absolute, root.comps + Normals(segments[..|segments| - 1]) + [Normal(Stem(last) + "." + WEBP_EXTENSION)])
    ensures GuardAccepts(ThumbnailCandidate(root, segments), root)
  {
    var n := |segments|;
    var last := segments[n - 1];
    var prefix := root.comps + Normals(segments[..n - 1]);
    var extended := Path(root.absolute, prefix + [Normal(last)]);
    PlainSegmentsExtend(root, segments);
    SetExtensionOnName(extended, WEBP_EXTENSION);
    assert extended.comps[..|extended.comps| - 1] == prefix;
    ExtensionAfterSetExtension(extended, WEBP_EXTENSION);
    var candidate := Path(root.absolute, prefix + [Normal(Stem(last) + "." + WEBP_EXTENSION)]);
    assert candidate.comps[..|root.comps|] == root.comps;
  }

  /** Extending by plain names, split at the last one. */
  lemma PlainSegmentsExtend(root: Path, segments: seq<string>)
    requires segments != []
    requires forall i :: 0 <= i < |segments| ==> IsPlainName(segments[i])
    ensures ExtendAll(root, segments)
      == Path(root.absolute, root.comps + Normals(segments[..|segments| - 1]) + [Normal(segments[|segments| - 1])])
  {
    ExtendAllPlainNames(root, segments);
    NormalsSnoc(segments);
    assert root.comps + Normals(segments) == root.comps + Normals(segments[..|segments| - 1]) + [Normal(segments[|segments| - 1])];
  }

  /** The guard compares components without resolving `..`: a key whose segments climb
      out of the root still passes it. */
  lemma GuardAdmitsParentDir(root: Path, name: string)
    requires IsPlainName(name) && '.' !in name
    ensures ThumbnailCandidate(root, ["..", name])
      == Path(root.absolute, root.comps + [ParentDir, Normal(name + "." + WEBP_EXTENSION)])
    ensures GuardAccepts(ThumbnailCandidate(root, ["..", name]), root)
  {
    SplitWithoutSeparator("..");
    assert Parse("..") == Path(false, [ParentDir]);
    var up := Path(root.absolute, root.comps + [ParentDir]);
    assert PushStr(root, "..") == up;
    var extended := Path(root.absolute, up.comps + [Normal(name)]);
    assert ExtendAll(root, ["..", name]) == extended by {
      assert ["..", name][1..] == [name];
      assert [name][1..] == [];
      assert PushStr(up, name) == extended;
      assert ExtendAll(extended, []) == extended;
      assert ExtendAll(up, [name]) == ExtendAll(extended, []);
      assert ExtendAll(root, ["..", name]) == ExtendAll(up, [name]);
    }
    var candidate := Path(root.absolute, root.comps + [ParentDir, Normal(name + "." + WEBP_EXTENSION)]);
    assert WithExtension(extended, WEBP_EXTENSION).0 == candidate by {
      SetExtensionOnDotFreeName(extended, WEBP_EXTENSION);
      assert extended.comps[..|extended.comps| - 1] == up.comps;
      assert up.comps + [Normal(name + "." + WEBP_EXTENSION)] == candidate.comps;
    }
    assert Extension(candidate) == Some(WEBP_EXTENSION) by {
      ExtensionAfterSetExtension(extended, WEBP_EXTENSION);
    }
    assert candidate.comps[..|root.comps|] == root.comps;
  }

  /** Whatever the request, the only path `receiver` opens is the one it resolved in the
      library the tunnel named. */
  lemma OpensOnlyResolvedPath(node: Node, tunnel: Option<Uuid>, req: LibraryFileRequest, range: Range,
    thumbKey: (string, Uuid) -> seq<string>, codec: BlockCodec, engine: TransferEngine, broken: bool, p: Path)
    requires FileSizesFit(node.files)
    requires Open(p) in Serve(node, tunnel, req, range, thumbKey, codec, engine, broken).1
    ensures tunnel.Some? && tunnel.value in node.libraries
    ensures ResolvePath(node, tunnel.value, node.libraries[tunnel.value], req, thumbKey).0 == Ok(p)
  {
    if tunnel.Some? && tunnel.value in node.libraries {
      var libraryId := tunnel.value;
      var (resolved, steps) := ResolvePath(node, libraryId, node.libraries[libraryId], req, thumbKey);
      var before := [TunnelResponder, LibraryLookup] + steps;
      assert Open(p) !in before by { ResolveStepsOpenNothing(steps, p); }
      if resolved.Ok? {
        ServeAfterResolve(node, libraryId, req, range, thumbKey, codec, engine, broken, resolved.value);
        var after := SendFile(node.files, resolved.value, range, codec, engine, broken).1;
        assert Open(p) in after;
        SendFileOpensOnlyItsPath(node.files, resolved.value, range, codec, engine, broken, p);
      }
    }
  }

  lemma ResolveStepsOpenNothing(steps: seq<Step>, p: Path)
    requires steps == [FilePathQuery] || steps == [BuildThumbnailPath, GuardCheck]
    ensures Open(p) !in [TunnelResponder, LibraryLookup] + steps
  {
  }

  lemma SendFileOpensOnlyItsPath(files: map<Path, seq<byte>>, path: Path, range: Range,
    codec: BlockCodec, engine: TransferEngine, broken: bool, p: Path)
    requires FileSizesFit(files)
    requires Open(p) in SendFile(files, path, range, codec, engine, broken).1
    ensures p == path
  {
  }

  /** A resolved thumbnail path is the candidate built for the content id and the
      tunnel's library, and the guard accepted it. */
  lemma ResolvedThumbnailPassedGuard(node: Node, libraryId: Uuid, library: Library, casId: string,
    thumbKey: (string, Uuid) -> seq<string>, p: Path)
    requires ResolvePath(node, libraryId, library, Thumbnail(casId), thumbKey).0 == Ok(p)
    ensures var root := ThumbnailsDirectory(node.dataDirectory);
      p == ThumbnailCandidate(root, thumbKey(casId, libraryId)) && GuardAccepts(p, root)
  {
  }

  /** A thumbnail is opened only after the tunnel named a known library and the guard
      accepted the candidate path built for it. */
  lemma ThumbnailOpenedOnlyAfterGuard(node: Node, tunnel: Option<Uuid>, casId: string, range: Range,
    thumbKey: (string, Uuid) -> seq<string>, codec: BlockCodec, engine: TransferEngine, broken: bool, p: Path)
    requires FileSizesFit(node.files)
    requires Open(p) in Serve(node, tunnel, Thumbnail(casId), range, thumbKey, codec, engine, broken).1
    ensures tunnel.Some? && tunnel.value in node.libraries
    ensures var root := ThumbnailsDirectory(node.dataDirectory);
      p == ThumbnailCandidate(root, thumbKey(casId, tunnel.value)) && GuardAccepts(p, root)
  {
    OpensOnlyResolvedPath(node, tunnel, Thumbnail(casId), range, thumbKey, codec, engine, broken, p);
    ResolvedThumbnailPassedGuard(node, tunnel.value, node.libraries[tunnel.value], casId, thumbKey, p);
  }

  /** A candidate the guard rejects fails the request with "invalid thumbnail path" right
      after the check: nothing is opened and nothing is written. */
  lemma GuardRejectsBeforeOpen(node: Node, libraryId: Uuid, casId: string, range: Range,
    thumbKey: (string, Uuid) -> seq<string>, codec: BlockCodec, engine: TransferEngine, broken: bool)
    requires FileSizesFit(node.files)
    requires libraryId in node.libraries
    requires var root := ThumbnailsDirectory(node.dataDirectory);
      !GuardAccepts(ThumbnailCandidate(root, thumbKey(casId, libraryId)), root)
    ensures Serve(node, Some(libraryId), Thumbnail(casId), range, thumbKey, codec, engine, broken)
      == (Err(InvalidThumbnailPath), [TunnelResponder, LibraryLookup, BuildThumbnailPath, GuardCheck], [])
  {
    assert [TunnelResponder, LibraryLookup] + [BuildThumbnailPath, GuardCheck]
      == [TunnelResponder, LibraryLookup, BuildThumbnailPath, GuardCheck];
  }

  /** A candidate the guard accepts is the path opened: right after the check come the
      steps of the send half on that path, and the first of them opens it. */
  lemma GuardAcceptedIsOpened(node: Node, libraryId: Uuid, casId: string, range: Range,
    thumbKey: (string, Uuid) -> seq<string>, codec: BlockCodec, engine: TransferEngine, broken: bool)
    requires FileSizesFit(node.files)
    requires libraryId in node.libraries
    requires var root := ThumbnailsDirectory(node.dataDirectory);
      GuardAccepts(ThumbnailCandidate(root, thumbKey(casId, libraryId)), root)
    ensures var p := ThumbnailCandidate(ThumbnailsDirectory(node.dataDirectory), thumbKey(casId, libraryId));
      var after := SendFile(node.files, p, range, codec, engine, broken).1;
      && Serve(node, Some(libraryId), Thumbnail(casId), range, thumbKey, codec, engine, broken).1
        == [TunnelResponder, LibraryLookup, BuildThumbnailPath, GuardCheck] + after
      && |after| > 0 && after[0] == Open(p)
  {
    var p := ThumbnailCandidate(ThumbnailsDirectory(node.dataDirectory), thumbKey(casId, libraryId));
    assert ResolvePath(node, libraryId, node.libraries[libraryId], Thumbnail(casId), thumbKey)
      == (Ok(p), [BuildThumbnailPath, GuardCheck]);
    ServeAfterResolve(node, libraryId, Thumbnail(casId), range, thumbKey, codec, engine, broken, p);
    assert [TunnelResponder, LibraryLookup] + [BuildThumbnailPath, GuardCheck]
      == [TunnelResponder, LibraryLookup, BuildThumbnailPath, GuardCheck];
    SendFileOpensFirst(node.files, p, range, codec, engine, broken);
  }

  lemma SendFileOpensFirst(files: map<Path, seq<byte>>, path: Path, range: Range,
    codec: BlockCodec, engine: TransferEngine, broken: bool)
    requires FileSizesFit(files)
    ensures var trace := SendFile(files, path, range, codec, engine, broken).1;
      |trace| > 0 && trace[0] == Open(path)
  {
  }


  /** An indexed file is opened only when the library's index located it at that path. */
  lemma IndexedFileOpenedOnlyWhenLocated(node: Node, tunnel: Option<Uuid>, id: Uuid, range: Range,
    thumbKey: (string, Uuid) -> seq<string>, codec: BlockCodec, engine: TransferEngine, broken: bool, p: Path)
    requires FileSizesFit(node.files)
    requires Open(p) in Serve(node, tunnel, File(id), range, thumbKey, codec, engine, broken).1
    ensures tunnel.Some? && tunnel.value in node.libraries
    ensures var library := node.libraries[tunnel.value];
      !library.queryFails && id in library.filePaths && library.filePaths[id] == Located(p)
  {
    OpensOnlyResolvedPath(node, tunnel, File(id), range, thumbKey, codec, engine, broken, p);
  }

  /** A library the tunnel names but the node does not have: the request fails after the
      lookup, before any path is resolved, and nothing is written. */
  lemma UnknownLibraryStopsEarly(node: Node, libraryId: Uuid, req: LibraryFileRequest, range: Range,
    thumbKey: (string, Uuid) -> seq<string>, codec: BlockCodec, engine: TransferEngine, broken: bool)
    requires FileSizesFit(node.files)
    requires libraryId !in node.libraries
    ensures Serve(node, Some(libraryId), req, range, thumbKey, codec, engine, broken)
      == (Err(LibraryNotFound(libraryId)), [TunnelResponder, LibraryLookup], [])
  {
  }

  /** An id the index does not know fails with "not found", before any file is opened. */
  lemma UnknownFilePathNotOpened(node: Node, libraryId: Uuid, id: Uuid, range: Range,
    thumbKey: (string, Uuid) -> seq<string>, codec: BlockCodec, engine: TransferEngine, broken: bool)
    requires FileSizesFit(node.files)
    requires libraryId in node.libraries
    requires !node.libraries[libraryId].queryFails && id !in node.libraries[libraryId].filePaths
    ensures Serve(node, Some(libraryId), File(id), range, thumbKey, codec, engine, broken)
      == (Err(FilePathNotFound(id)), [TunnelResponder, LibraryLookup, FilePathQuery], [])
  {
    var resolved := ResolvePath(node, libraryId, node.libraries[libraryId], File(id), thumbKey);
    assert resolved == (Err(FilePathNotFound(id)), [FilePathQuery]);
    assert [TunnelResponder, LibraryLookup] + resolved.1 == [TunnelResponder, LibraryLookup, FilePathQuery];
    var served := Serve(node, Some(libraryId), File(id), range, thumbKey, codec, engine, broken);
    assert served.0 == Err(FilePathNotFound(id));
    assert served.1 == [TunnelResponder, LibraryLookup, FilePathQuery];
    assert served.2 == [];
  }

  /** Once the path is resolved, `receiver` goes on exactly as the send half does. */
  lemma ServeAfterResolve(node: Node, libraryId: Uuid, req: LibraryFileRequest, range: Range,
    thumbKey: (string, Uuid) -> seq<string>, codec: BlockCodec, engine: TransferEngine, broken: bool, p: Path)
    requires FileSizesFit(node.files)
    requires libraryId in node.libraries
    requires ResolvePath(node, libraryId, node.libraries[libraryId], req, thumbKey).0 == Ok(p)
    ensures var (r, after, sent) := SendFile(node.files, p, range, codec, engine, broken);
      Serve(node, Some(libraryId), req, range, thumbKey, codec, engine, broken)
        == (r, [TunnelResponder, LibraryLookup] + ResolvePath(node, libraryId, node.libraries[libraryId], req, thumbKey).1 + after, sent)
  {
  }

  /** On a working stream the send half writes the block size chosen from the full file
      length, then that length as eight little-endian bytes, then what the transfer sends;
      the one transfer request covers the full length whatever the range; the outcome is
      the transfer's. */
  lemma {:induction false} SendFileFraming(files: map<Path, seq<byte>>, p: Path, range: Range,
    codec: BlockCodec, engine: TransferEngine)
    requires FileSizesFit(files)
    requires p in files
    ensures var content := files[p];
      var blockSize := codec.fromFileSize(|content|);
      var call := TransferFor(blockSize, |content|, range);
      var (r, trace, written) := SendFile(files, p, range, codec, engine, false);
      && written == codec.toBytes(blockSize) + U64ToLeBytes(|content|)
           + engine.send(call, content).0
      && ReadU64Le(written[|codec.toBytes(blockSize)|..]).Some?
      && ReadU64Le(written[|codec.toBytes(blockSize)|..]).value.0 == |content|
      && trace == [Open(p), WriteBlockSize, WriteLength, Send(call)]
      && call.reqs.requests[0].size == |content|
      && r == (if engine.send(call, content).1 then Ok(()) else Err(SendFailed))
  {
    var content := files[p];
    var blockSize := codec.fromFileSize(|content|);
    var call := TransferFor(blockSize, |content|, range);
    var header := codec.toBytes(blockSize);
    var body := engine.send(call, content).0;
    var written := SendFile(files, p, range, codec, engine, false).2;
    assert written == header + (U64ToLeBytes(|content|) + body);
    assert written[|header|..] == U64ToLeBytes(|content|) + body;
    ReadU64LeOfU64ToLeBytes(|content|, body);
  }

  /** No transfer the responder starts can be cancelled: the flag is always false. */
  lemma ServedTransferNotCancelled(node: Node, tunnel: Option<Uuid>, req: LibraryFileRequest, range: Range,
    thumbKey: (string, Uuid) -> seq<string>, codec: BlockCodec, engine: TransferEngine, broken: bool)
    requires FileSizesFit(node.files)
    ensures Uncancellable(Serve(node, tunnel, req, range, thumbKey, codec, engine, broken).1)
  {
    if tunnel.Some? && tunnel.value in node.libraries {
      var libraryId := tunnel.value;
      var steps := ResolvePath(node, libraryId, node.libraries[libraryId], req, thumbKey).1;
      var before := [TunnelResponder, LibraryLookup] + steps;
      ResolveStepsUncancellable(steps);
      var resolved := ResolvePath(node, libraryId, node.libraries[libraryId], req, thumbKey).0;
      if resolved.Ok? {
        ServeAfterResolve(node, libraryId, req, range, thumbKey, codec, engine, broken, resolved.value);
        SendFileUncancellable(node.files, resolved.value, range, codec, engine, broken);
        UncancellableConcat(before, SendFile(node.files, resolved.value, range, codec, engine, broken).1);
      }
    }
  }

  lemma ResolveStepsUncancellable(steps: seq<Step>)
    requires steps == [FilePathQuery] || steps == [BuildThumbnailPath, GuardCheck]
    ensures Uncancellable([TunnelResponder, LibraryLookup] + steps)
  {
  }

  lemma SendFileUncancellable(files: map<Path, seq<byte>>, path: Path, range: Range,
    codec: BlockCodec, engine: TransferEngine, broken: bool)
    requires FileSizesFit(files)
    ensures Uncancellable(SendFile(files, path, range, codec, engine, broken).1)
  {
  }

  /** No transfer the initiator starts can be cancelled either. */
  lemma RequestedTransferNotCancelled(peers: map<RemoteIdentity, Peer>, identity: RemoteIdentity,
    req: LibraryFileRequest, range: Range, headerBytes: (LibraryFileRequest, Range) -> seq<byte>,
    tunnelOk: bool, codec: BlockCodec, engine: TransferEngine, broken: bool, incoming: seq<byte>)
    ensures Uncancellable(RequestFileResult(peers, identity, req, range, headerBytes, tunnelOk, codec, engine, broken, incoming).1)
  {
  }

  /** An unknown peer: "Peer offline", before any stream is opened or byte sent. */
  lemma PeerOfflineStopsEarly(peers: map<RemoteIdentity, Peer>, identity: RemoteIdentity,
    req: LibraryFileRequest, range: Range, headerBytes: (LibraryFileRequest, Range) -> seq<byte>,
    tunnelOk: bool, codec: BlockCodec, engine: TransferEngine, broken: bool, incoming: seq<byte>)
    requires identity !in peers
    ensures RequestFileResult(peers, identity, req, range, headerBytes, tunnelOk, codec, engine, broken, incoming)
      == (Err(PeerOffline), [PeerLookup], [], [])
  {
  }

  /** The request header goes out in the clear before the tunnel handshake: whenever the
      handshake is reached, the first steps are the peer lookup, the new stream and the
      header write, and the bytes sent are exactly the header. */
  lemma RequestHeaderBeforeTunnel(peers: map<RemoteIdentity, Peer>, identity: RemoteIdentity,
    req: LibraryFileRequest, range: Range, headerBytes: (LibraryFileRequest, Range) -> seq<byte>,
    tunnelOk: bool, codec: BlockCodec, engine: TransferEngine, broken: bool, incoming: seq<byte>)
    ensures var (_, trace, sent, _) := RequestFileResult(peers, identity, req, range, headerBytes, tunnelOk, codec, engine, broken, incoming);
      TunnelInitiator in trace ==>
        && trace[..4] == [PeerLookup, NewStream, WriteRequestHeader, TunnelInitiator]
        && sent == headerBytes(req, range)
  {
  }

  /** The initiator's outcome and steps do not depend on the transfer: a receive that fails
      still ends in `Ok`. */
  lemma InitiatorIgnoresReceiveOutcome(peers: map<RemoteIdentity, Peer>, identity: RemoteIdentity,
    req: LibraryFileRequest, range: Range, headerBytes: (LibraryFileRequest, Range) -> seq<byte>,
    tunnelOk: bool, codec: BlockCodec, engine: TransferEngine, other: TransferEngine, broken: bool, incoming: seq<byte>)
    ensures RequestFileResult(peers, identity, req, range, headerBytes, tunnelOk, codec, engine, broken, incoming).0
      == RequestFileResult(peers, identity, req, range, headerBytes, tunnelOk, codec, other, broken, incoming).0
    ensures RequestFileResult(peers, identity, req, range, headerBytes, tunnelOk, codec, engine, broken, incoming).1
      == RequestFileResult(peers, identity, req, range, headerBytes, tunnelOk, codec, other, broken, incoming).1
  {
  }

  /** End to end: when the responder succeeds and its bytes reach a working initiator for
      the same request and range, the initiator succeeds, reads back the block size and
      the length, describes the same transfer the responder sent, and hands the receive
      exactly the bytes that follow the header. */
  lemma {:induction false} InitiatorReadsWhatResponderWrote(node: Node, libraryId: Uuid, req: LibraryFileRequest,
    range: Range, thumbKey: (string, Uuid) -> seq<string>, codec: BlockCodec, engine: TransferEngine,
    peers: map<RemoteIdentity, Peer>, identity: RemoteIdentity, headerBytes: (LibraryFileRequest, Range) -> seq<byte>)
    requires FileSizesFit(node.files)
    requires RoundTrips(codec)
    requires identity in peers && peers[identity].canOpenStream
    requires Serve(node, Some(libraryId), req, range, thumbKey, codec, engine, false).0.Ok?
    ensures var (_, served, written) := Serve(node, Some(libraryId), req, range, thumbKey, codec, engine, false);
      var (r, requested, _, output) := RequestFileResult(peers, identity, req, range, headerBytes, true, codec, engine, false, written);
      var call := served[|served| - 1].call;
      && r == Ok(())
      && served[|served| - 1].Send? && requested[|requested| - 1] == Receive(call)
      && |written| >= |codec.toBytes(call.reqs.blockSize)| + 8
      && output == engine.receive(call, written[|codec.toBytes(call.reqs.blockSize)| + 8..]).0
  {
    var p := ResolvePath(node, libraryId, node.libraries[libraryId], req, thumbKey).0.value;
    ServeAfterResolve(node, libraryId, req, range, thumbKey, codec, engine, false, p);
    var before := [TunnelResponder, LibraryLookup] + ResolvePath(node, libraryId, node.libraries[libraryId], req, thumbKey).1;
    var after := SendFile(node.files, p, range, codec, engine, false).1;
    var served := Serve(node, Some(libraryId), req, range, thumbKey, codec, engine, false).1;
    assert served[|served| - 1] == after[|after| - 1] by {
      assert served == before + after;
      assert |after| > 0 by { SendFileTraceNonEmpty(node.files, p, range, codec, engine); }
    }
    ReceiveWhatSendFileWrote(node.files, p, range, codec, engine, peers, identity, req, headerBytes);
  }

  lemma SendFileTraceNonEmpty(files: map<Path, seq<byte>>, p: Path, range: Range, codec: BlockCodec, engine: TransferEngine)
    requires FileSizesFit(files)
    ensures |SendFile(files, p, range, codec, engine, false).1| > 0
  {
  }

  /** What the send half writes, read back by the initiator: it reads the same block size
      and length, and hands the transfer exactly the bytes the responder's transfer sent,
      under the same transfer request. */
  lemma {:induction false} ReceiveWhatSendFileWrote(files: map<Path, seq<byte>>, p: Path, range: Range,
    codec: BlockCodec, engine: TransferEngine, peers: map<RemoteIdentity, Peer>, identity: RemoteIdentity,
    req: LibraryFileRequest, headerBytes: (LibraryFileRequest, Range) -> seq<byte>)
    requires FileSizesFit(files)
    requires RoundTrips(codec)
    requires identity in peers && peers[identity].canOpenStream
    requires SendFile(files, p, range, codec, engine, false).0.Ok?
    ensures var (_, trace, written) := SendFile(files, p, range, codec, engine, false);
      var (r, requested, _, output) := RequestFileResult(peers, identity, req, range, headerBytes, true, codec, engine, false, written);
      var call := trace[|trace| - 1].call;
      && r == Ok(())
      && trace[|trace| - 1].Send? && requested[|requested| - 1] == Receive(call)
      && |written| >= |codec.toBytes(call.reqs.blockSize)| + 8
      && output == engine.receive(call, written[|codec.toBytes(call.reqs.blockSize)| + 8..]).0
  {
    var content := files[p];
    SendFileFraming(files, p, range, codec, engine);
    var blockSize := codec.fromFileSize(|content|);
    var call := TransferFor(blockSize, |content|, range);
    var header := codec.toBytes(blockSize);
    var body := engine.send(call, content).0;
    var written := SendFile(files, p, range, codec, engine, false).2;
    assert written == header + (U64ToLeBytes(|content|) + body);
    assert codec.fromStream(written) == Some((blockSize, U64ToLeBytes(|content|) + body));
    ReadU64LeOfU64ToLeBytes(|content|, body);
    assert written[|header| + 8..] == body;
  }
}
