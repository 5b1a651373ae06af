# Thumbnail cache and library file transfer, modelled in Dafny

This project models two cooperating parts of a file-management application's core.

**The thumbnailer** (`thumbnailer.rs`) covers:
- how a thumbnail is named on disk: the three-character shard of a content id (`cas_id`), the `ThumbKey` handed to the front end, and the path `<data>/thumbnails/<ephemeral | library id>/<shard>/<cas_id>.webp`;
- which file extensions can be thumbnailed;
- the decision procedure of `generate_thumbnail` over a file system: skip when present, dispatch on the extension, create the shard directory, write the file;
- the one-second throttle of `generate_single_thumbnail`.

**The library file request and response** (`library.rs`) covers:
- the responder (`receiver`): tunnel, library lookup, path resolution through the file-path index or a thumbnail path checked by a traversal guard, open, header (block size, then the file length as a little-endian `u64`), send;
- the initiator (`request_file`): peer lookup, stream, request header, tunnel, header read back, receive.

## Layout

Each module is one file.
- `outcomes.dfy`: `Result` and `Option`.
- `bytes.dfy`: bytes and the little-endian `u64` codec (`to_le_bytes`, `read_u64_le`).
- `paths.dfy`: Rust's `std::path` on Unix, covering components, `push`, `join`, `extend`, `set_extension`, `starts_with`, `file_name`, `parent` and `extension`. It also has a `PathBuf` class that changes in place.
- `uuids.dfy`: a library id and its hyphenated lower-case hex `to_string`.
- `extensions.dfy`: the extension kinds, the three thumbnailability predicates, and the lists they filter.
- `thumb_keys.dfy`: the shard, `ThumbKey`, `ThumbnailKind` and `compute_path`.
- `thumb_store.dfy`: the file system as the thumbnailer sees it. It has failure sets chosen by the host, and a `FileSystem` class with `metadata`, `create_dir_all` and `write`.
- `thumbnailer.dfy`: `generate_image_thumbnail` and `generate_thumbnail`. Each is a specification function on the file-system state plus a method that changes a `FileSystem` in place and is proved equal to that function.
- `throttle.dfy`: `generate_single_thumbnail`, using a `Clock` class and a `SingleThumbnailGate` class that holds the last-generated instant.
- `library_transfer.dfy`: the responder and the initiator. Each has a specification function returning the outcome, the ordered steps taken and the bytes written, plus a method over `Stream` and `Sink` objects proved equal to it.

Collaborators whose code is not part of this model become parameters:
- `encode`: decode, resize and WebP encoding, which may fail or panic;
- `thumbKey`: `get_indexed_thumb_key`;
- `codec`: `BlockSize`;
- `engine`: `Transfer::send` and `Transfer::receive`. Each gives the bytes it moved and whether it succeeded, so a send that fails part-way still has its chunks on the stream;
- `headerBytes`: `Header::to_bytes`;
- `tunnel` and `tunnelOk`: the tunnel handshakes;
- `Faults`: the host's I/O failures;
- `workMs`: the duration of a generation.

## Model

| member | source | states |
|---|---|---|
| ThumbKeys.ShardHex | core/crates/heavy-lifting/src/media_processor/helpers/thumbnailer.rs:185-188 | the shard is the first three characters of the content id, which for the hexadecimal ids the code produces are its first three bytes; the id must be at least that long, because a shorter one panics on the slice |
| ThumbKeys.ShardIndex | core/crates/heavy-lifting/src/media_processor/helpers/thumbnailer.rs:179-182 | a shard name numbers a directory below 4096 |
| ThumbKeys.ShardOfIndex | core/crates/heavy-lifting/src/media_processor/helpers/thumbnailer.rs:179-182 | every number below 4096 names a three-hex-digit shard |
| ThumbKeys.ShardOfHexCasId | core/crates/heavy-lifting/src/media_processor/helpers/thumbnailer.rs:179-188 | a hex content id's shard is a shard name, and it is recovered from its directory number |
| ThumbKeys.ShardIndexOfShard | core/crates/heavy-lifting/src/media_processor/helpers/thumbnailer.rs:179-182 | every directory number is recovered from its shard name, so there are exactly 16^3 shards, `000` to `fff` |
| ThumbKeys.NamespaceSegment | core/crates/heavy-lifting/src/media_processor/helpers/thumbnailer.rs:238-241 | definition: "ephemeral" for an ephemeral thumbnail, the library id's string otherwise; its properties are in `ThumbKeys.NamespaceSegmentIsPlainName` |
| ThumbKeys.NewThumbKey | core/crates/heavy-lifting/src/media_processor/helpers/thumbnailer.rs:103-113 | definition of `ThumbKey::new`: the id's shard, the id, and the namespace of the kind; its properties are in `ThumbKeys.ThumbKeyFields` and `ThumbKeys.ThumbKeyConstructorsAgree` |
| ThumbKeys.NewIndexedThumbKey | core/crates/heavy-lifting/src/media_processor/helpers/thumbnailer.rs:115-121 | definition of `ThumbKey::new_indexed`; its properties are in `ThumbKeys.ThumbKeyConstructorsAgree` |
| ThumbKeys.NewEphemeralThumbKey | core/crates/heavy-lifting/src/media_processor/helpers/thumbnailer.rs:124-130 | definition of `ThumbKey::new_ephemeral`; its properties are in `ThumbKeys.ThumbKeyConstructorsAgree` |
| ThumbKeys.ThumbKeyConstructorsAgree | core/crates/heavy-lifting/src/media_processor/helpers/thumbnailer.rs:103-130 | `new(c, Indexed(id))` equals `new_indexed(c, id)` and `new(c, Ephemeral)` equals `new_ephemeral(c)`; every key's shard is `c[..3]`, its content id is `c`, and its base directory is the namespace's directory name |
| ThumbKeys.ThumbKeyFields | core/crates/heavy-lifting/src/media_processor/helpers/thumbnailer.rs:103-112 | `ThumbKey::new` holds the shard, the content id and the namespace segment |
| ThumbKeys.NamespaceSegmentIsPlainName | core/crates/heavy-lifting/src/media_processor/helpers/thumbnailer.rs:107-110 | `ephemeral` and every library id's string are a single ordinary path component |
| ThumbKeys.ThumbnailsDirectory | core/crates/heavy-lifting/src/media_processor/helpers/thumbnailer.rs:50-52 | definition: the data directory with one more component, "thumbnails"; its properties are in `ThumbKeys.ThumbnailsDirectoryIsJoin` |
| ThumbKeys.OutputPath | core/crates/heavy-lifting/src/media_processor/helpers/thumbnailer.rs:238-245 | definition of the path `generate_thumbnail` builds: join the namespace, push the shard and the id, set the extension to webp; its properties are in `ThumbKeys.ComputePath`, `ThumbKeys.OutputPathComponents`, `ThumbKeys.OutputPathLayout`, `ThumbKeys.OutputPathInsideThumbnailsDirectory` and `ThumbKeys.OutputPathInjective` |
| ThumbKeys.ThumbnailsDirectoryIsJoin | core/crates/heavy-lifting/src/media_processor/helpers/thumbnailer.rs:50-52 | joining `thumbnails` onto the data directory adds exactly that one component |
| ThumbKeys.ComputePath | core/crates/heavy-lifting/src/media_processor/helpers/thumbnailer.rs:140-153 | building the path in place (join, push the namespace, push the shard, push the id, set the extension) yields the same path `generate_thumbnail` builds under the thumbnails directory |
| ThumbKeys.OutputPathComponents | core/crates/heavy-lifting/src/media_processor/helpers/thumbnailer.rs:238-245 | for a hex content id, the output path adds exactly three components below the thumbnails directory: the namespace, the shard and `<cas_id>.webp` |
| ThumbKeys.OutputPathUnderDataDirectory | core/crates/heavy-lifting/src/media_processor/helpers/thumbnailer.rs:140-153 | for a hex content id, the computed path is `<data>/thumbnails/<namespace>/<shard>/<cas_id>.webp` |
| ThumbKeys.KeyPath | core/crates/heavy-lifting/src/media_processor/helpers/thumbnailer.rs:103-112 | definition: the path a key names under a data directory, component by component; its properties are in `ThumbKeys.KeyPathComponents` |
| ThumbKeys.KeyPathComponents | core/crates/heavy-lifting/src/media_processor/helpers/thumbnailer.rs:103-112 | the path a new key names is `<data>/thumbnails/<namespace>/<shard>/<cas_id>.webp` |
| ThumbKeys.OutputPathLayout | core/crates/heavy-lifting/src/media_processor/helpers/thumbnailer.rs:140-153 | for a hex content id, the stored thumbnail's path is the path its `ThumbKey` names |
| ThumbKeys.OutputPathInsideThumbnailsDirectory | core/crates/heavy-lifting/src/media_processor/helpers/thumbnailer.rs:243-245 | for a hex content id, the output path lies under the thumbnails directory; its file name is `<cas_id>.webp` and its extension is `webp` |
| ThumbKeys.OutputPathInjective | core/crates/heavy-lifting/src/media_processor/helpers/thumbnailer.rs:243-245 | distinct hex content ids in one namespace never share a thumbnail path |
| ThumbKeys.HexCasIdIsPlainName | core/crates/heavy-lifting/src/media_processor/helpers/thumbnailer.rs:243-244 | a hex content id and its shard are each pushed as one ordinary component, and the id has no dot for `set_extension` to cut at |
| Uuids.UuidToString | core/crates/heavy-lifting/src/media_processor/helpers/thumbnailer.rs:109 | a library id's string has 36 characters, each a lower-case hex digit or a hyphen |
| Uuids.UuidStringIsPlainName | core/crates/heavy-lifting/src/media_processor/helpers/thumbnailer.rs:145 | pushing a library id's string appends one ordinary component |
| Extensions.CanGenerateThumbnailForImage | core/crates/heavy-lifting/src/media_processor/helpers/thumbnailer.rs:199-208 | definition: every named image format; its properties are in `Extensions.PredicatesAreFixedSets` |
| Extensions.CanGenerateThumbnailForDocument | core/crates/heavy-lifting/src/media_processor/helpers/thumbnailer.rs:211-215 | definition: PDF only; its properties are in `Extensions.PredicatesAreFixedSets` |
| Extensions.CanGenerateThumbnailForVideo | core/crates/heavy-lifting/src/media_processor/helpers/thumbnailer.rs:192-196 | definition: every video format but the seven named ones; its properties are in `Extensions.PredicatesAreFixedSets` |
| Extensions.PredicatesAreFixedSets | core/crates/heavy-lifting/src/media_processor/helpers/thumbnailer.rs:192-215 | images: exactly the thirteen named formats; documents: only PDF; videos: every format except Mpg, Swf, M2v, Hevc, M2ts, Mts and Ts |
| Extensions.ThumbnailableImageList | core/crates/heavy-lifting/src/media_processor/helpers/thumbnailer.rs:65-69 | the filtered list holds exactly the catalogued images the predicate accepts, wrapped as images |
| Extensions.ThumbnailableDocumentList | core/crates/heavy-lifting/src/media_processor/helpers/thumbnailer.rs:71-75 | the filtered list holds exactly the catalogued documents the predicate accepts |
| Extensions.ThumbnailableVideoList | core/crates/heavy-lifting/src/media_processor/helpers/thumbnailer.rs:55-62 | the filtered list holds exactly the catalogued videos the predicate accepts |
| Extensions.ThumbnailableExtensions | core/crates/heavy-lifting/src/media_processor/helpers/thumbnailer.rs:64-78 | `THUMBNAILABLE_EXTENSIONS` holds exactly the thumbnailable images and documents, with every document after every image |
| Extensions.AllThumbnailableExtensions | core/crates/heavy-lifting/src/media_processor/helpers/thumbnailer.rs:80-90 | with the `ffmpeg` feature the list also holds exactly the thumbnailable videos; without it, nothing more |
| Extensions.ImageFromStr | core/crates/heavy-lifting/src/media_processor/helpers/thumbnailer.rs:265 | parsing answers a catalogued image of that name, or none when no catalogued image has it |
| Extensions.DocumentFromStr | core/crates/heavy-lifting/src/media_processor/helpers/thumbnailer.rs:271 | parsing answers a catalogued document of that name, or none when no catalogued document has it |
| Extensions.WellFormed | core/crates/heavy-lifting/src/media_processor/helpers/thumbnailer.rs:265-271 | definition of what the extension lists are taken to satisfy: every named variant listed, no two entries of a list with one name; used by `Extensions.ImageFromStrOfName`, `Thumbnailer.ThumbnailableImageRoutes` and `Thumbnailer.PdfRoutes` |
| Extensions.ImageFromStrOfName | core/crates/heavy-lifting/src/media_processor/helpers/thumbnailer.rs:265 | in a well-formed catalogue (named variants listed, names distinct), parsing a listed image's name gives back that image |
| Extensions.DocumentFromStrOfName | core/crates/heavy-lifting/src/media_processor/helpers/thumbnailer.rs:271 | in a well-formed catalogue, parsing a listed document's name gives back that document |
| ThumbStore.Consistent | core/crates/heavy-lifting/src/media_processor/helpers/thumbnailer.rs:363-380 | definition of a state a file system can be in: no path is both a file and a directory, and every file and directory sits in an existing directory; `ThumbStore.CreateDirAllResult`, `ThumbStore.WriteResult` and `Thumbnailer.ImageThumbnail` preserve it |
| ThumbStore.MetadataResult | core/crates/heavy-lifting/src/media_processor/helpers/thumbnailer.rs:247-248 | the existence check succeeds exactly for an existing file or directory the host lets it see; "not found" exactly for an absent path |
| ThumbStore.Ancestors | core/crates/heavy-lifting/src/media_processor/helpers/thumbnailer.rs:362-363 | the directories `create_dir_all` makes are prefixes of the path, the path included |
| ThumbStore.InDirectory | core/crates/heavy-lifting/src/media_processor/helpers/thumbnailer.rs:363-380 | definition: the path has a parent and the parent is a directory; used by `ThumbStore.Consistent` and `ThumbStore.CanWrite` |
| ThumbStore.Missing | core/crates/heavy-lifting/src/media_processor/helpers/thumbnailer.rs:363-367 | the directories still to be made are among the path's ancestors, and none when the path is already a directory |
| ThumbStore.CreateDirAllResult | core/crates/heavy-lifting/src/media_processor/helpers/thumbnailer.rs:363-367 | an existing directory succeeds with nothing changed; otherwise it fails exactly when a path on the way is a file or the host refuses one of the missing directories, and on success the path and all its ancestors are directories, files are untouched and no path becomes both |
| ThumbStore.CanWrite | core/crates/heavy-lifting/src/media_processor/helpers/thumbnailer.rs:375-380 | definition of when `fs::write` succeeds: the host allows it, the path is not a directory and its parent is one; its properties are in `ThumbStore.WriteResult` |
| ThumbStore.WriteResult | core/crates/heavy-lifting/src/media_processor/helpers/thumbnailer.rs:375-380 | succeeds exactly when the parent is a directory, the path is not one and the host allows it; then the path holds the bytes and nothing else changes |
| ThumbStore.FileSystem.Metadata | core/crates/heavy-lifting/src/media_processor/helpers/thumbnailer.rs:247 | answers the existence check on the current state |
| ThumbStore.AddingAncestorsKeepsConsistent | core/crates/heavy-lifting/src/media_processor/helpers/thumbnailer.rs:363-367 | creating a directory together with all its ancestors keeps every directory inside a directory |
| ThumbStore.CreateDirAllIdempotent | core/crates/heavy-lifting/src/media_processor/helpers/thumbnailer.rs:363-367 | once the shard directory has been created, creating it again succeeds and changes nothing, whatever the host would refuse |
| ThumbStore.FileSystem.CreateDirAll | core/crates/heavy-lifting/src/media_processor/helpers/thumbnailer.rs:363-367 | the new state is the one `CreateDirAllResult` gives, or the old state on failure |
| ThumbStore.FileSystem.Write | core/crates/heavy-lifting/src/media_processor/helpers/thumbnailer.rs:375-380 | the new state is the one `WriteResult` gives, or the old state on failure |
| Thumbnailer.ImageThumbnail | core/crates/heavy-lifting/src/media_processor/helpers/thumbnailer.rs:301-381 | succeeds exactly when encoding, creating the shard directory and writing all succeed; then the output holds the encoded bytes, the shard directory exists, other files are unchanged and no other file appears; a failure leaves the files as they were; the directories gained are at most the shard directory and its ancestors; the store stays consistent |
| Thumbnailer.RouteFor | core/crates/heavy-lifting/src/media_processor/helpers/thumbnailer.rs:265-277 | the image pipeline runs exactly for a thumbnailable image, or for PDF when the string is not an image name |
| Thumbnailer.GenerateImageThumbnail | core/crates/heavy-lifting/src/media_processor/helpers/thumbnailer.rs:301-381 | the in-place method returns and leaves exactly what `ImageThumbnail` describes |
| Thumbnailer.GenerateThumbnailResult | core/crates/heavy-lifting/src/media_processor/helpers/thumbnailer.rs:222-299 | definition of `generate_thumbnail`'s decision: skip an existing output unless forced, otherwise route on the extension and report the key; its properties are in `Thumbnailer.SkipsExisting`, `Thumbnailer.MetadataErrorMeansAbsent`, `Thumbnailer.NoRouteWritesNothing`, `Thumbnailer.OutcomeShape`, `Thumbnailer.GeneratedImageIsStored`, `Thumbnailer.SecondCallSkips` and `Thumbnailer.RegenerationIsStable` |
| Thumbnailer.GenerateThumbnail | core/crates/heavy-lifting/src/media_processor/helpers/thumbnailer.rs:222-299 | the in-place method, building the path with `join`, `push` and `set_extension`, returns and leaves exactly what `GenerateThumbnailResult` describes |
| Thumbnailer.SkipsExisting | core/crates/heavy-lifting/src/media_processor/helpers/thumbnailer.rs:247-263 | an existing thumbnail without forced regeneration gives `Skipped` with the key, and nothing changes |
| Thumbnailer.MetadataErrorMeansAbsent | core/crates/heavy-lifting/src/media_processor/helpers/thumbnailer.rs:247-253 | when the existence check fails in any way, generation proceeds exactly as when regeneration is forced |
| Thumbnailer.NoRouteWritesNothing | core/crates/heavy-lifting/src/media_processor/helpers/thumbnailer.rs:265-298 | once the skip check has not fired, an extension with no thumbnail route reports `Generated` with the content id's key, and the file system is unchanged |
| Thumbnailer.ThumbnailableImageRoutes | core/crates/heavy-lifting/src/media_processor/helpers/thumbnailer.rs:265-270 | with a well-formed catalogue, every thumbnailable image format takes the image pipeline |
| Thumbnailer.PdfRoutes | core/crates/heavy-lifting/src/media_processor/helpers/thumbnailer.rs:271-277 | with a well-formed catalogue and no image format called "pdf", a PDF takes the image pipeline |
| Thumbnailer.ImageNotRetriedAsDocument | core/crates/heavy-lifting/src/media_processor/helpers/thumbnailer.rs:265-277 | an image extension that cannot be thumbnailed is not tried as a document |
| Thumbnailer.OutcomeShape | core/crates/heavy-lifting/src/media_processor/helpers/thumbnailer.rs:259-298 | every success carries `ThumbKey::new(cas_id, kind)`; every failure leaves the stored files unchanged; `Skipped` changes nothing |
| Thumbnailer.GeneratedImageIsStored | core/crates/heavy-lifting/src/media_processor/helpers/thumbnailer.rs:265-270 | on the image route, `Generated` means the source encoded, the output holds exactly those bytes and the shard directory exists |
| Thumbnailer.SecondCallSkips | core/crates/heavy-lifting/src/media_processor/helpers/thumbnailer.rs:247-263 | after a stored thumbnail, a second unforced call is `Skipped` and keeps the first call's bytes |
| Thumbnailer.RegenerationIsStable | core/crates/heavy-lifting/src/media_processor/helpers/thumbnailer.rs:222-299 | forced regeneration reports `Generated`, and a second forced call leaves the store exactly as the first did |
| Throttle.StartTime | core/crates/heavy-lifting/src/media_processor/helpers/thumbnailer.rs:421-426 | work starts no earlier than the call and no earlier than one second after the last generation, and at one of those two instants |
| Throttle.NextLast | core/crates/heavy-lifting/src/media_processor/helpers/thumbnailer.rs:440-445 | the gate moves to the completion time only after `Generated`; otherwise it stays where it was |
| Throttle.Clock.Sleep | core/crates/heavy-lifting/src/media_processor/helpers/thumbnailer.rs:425 | sleeping advances the clock by exactly the duration |
| Throttle.SingleThumbnailGate.GenerateSingleThumbnail | core/crates/heavy-lifting/src/media_processor/helpers/thumbnailer.rs:412-448 | runs `generate_thumbnail` unforced after the wait; the clock ends at the start time plus the work; the gate moves only on `Generated`; errors are returned; the gate never lies ahead of the clock |
| Throttle.SpacedAfterGenerated | core/crates/heavy-lifting/src/media_processor/helpers/thumbnailer.rs:419-445 | after a call that generated, the next call's work starts at least a second after that generation finished |
| Throttle.SkippedDoesNotDelay | core/crates/heavy-lifting/src/media_processor/helpers/thumbnailer.rs:440-445 | a call that skipped or failed does not push back the next call's start |
| Bytes.U64ToLeBytes | core/src/p2p/operations/library.rs:154 | `to_le_bytes` gives eight bytes whose little-endian value is the length |
| Bytes.ReadU64Le | core/src/p2p/operations/library.rs:59 | fails exactly when fewer than eight bytes remain; otherwise consumes exactly eight, which re-encode to the value read |
| Bytes.FromLeBytesOfLeBytes | core/src/p2p/operations/library.rs:154 | decoding the little-endian bytes of a value gives the value |
| Bytes.LeBytesOfFromLeBytes | core/src/p2p/operations/library.rs:59 | encoding the value of a byte string gives the byte string |
| Bytes.ReadU64LeOfU64ToLeBytes | core/src/p2p/operations/library.rs:153-154 | reading back what `to_le_bytes` wrote recovers the length and leaves what follows |
| Paths.Parse | core/crates/heavy-lifting/src/media_processor/helpers/thumbnailer.rs:238-240 | definition of how a string becomes a path: split at `/`, empty pieces and inner `.` dropped, a leading `/` makes it absolute; its properties are in `Paths.ParsePlainName` |
| Paths.Push | core/crates/heavy-lifting/src/media_processor/helpers/thumbnailer.rs:243-244 | definition of `PathBuf::push`: an absolute path replaces, a relative one is appended; its properties are in `Paths.PushPlainName` |
| Paths.PushStr | core/crates/heavy-lifting/src/media_processor/helpers/thumbnailer.rs:243-244 | definition: push of a parsed string; its properties are in `Paths.PushPlainName` |
| Paths.ExtendAll | core/src/p2p/operations/library.rs:127 | definition of `extend`: push each segment in order; its properties are in `Paths.ExtendAllPlainNames` and `Paths.PathBuf.Extend` |
| Paths.StartsWith | core/src/p2p/operations/library.rs:134 | definition of `Path::starts_with`: the base's components, the root among them, are a prefix of the path's; used by `LibraryTransfer.GuardAccepts` and `ThumbStore.Ancestors` |
| Paths.LastDot | core/src/p2p/operations/library.rs:135 | there is a last dot exactly when the name has a dot, and no dot follows it |
| Paths.NameExtension | core/src/p2p/operations/library.rs:135 | definition: a name without a dot, or whose only dot leads it, has no extension; otherwise the text after the last dot; its properties are in `Paths.NameExtensionOfDotted` |
| Paths.Extension | core/src/p2p/operations/library.rs:135 | definition of `Path::extension`: the text after the last non-leading dot of the file name; its properties are in `Paths.NameExtensionOfDotted` and `Paths.ExtensionAfterSetExtension` |
| Paths.PushPlainName | core/crates/heavy-lifting/src/media_processor/helpers/thumbnailer.rs:243-244 | pushing a plain name appends one ordinary component, the same as pushing its parse |
| Paths.ParsePlainName | core/crates/heavy-lifting/src/media_processor/helpers/thumbnailer.rs:243-244 | a plain name parses to one relative ordinary component |
| Paths.ExtendAllPlainNames | core/src/p2p/operations/library.rs:127 | extending by plain names appends one ordinary component per name, in order |
| Paths.WithExtension | core/src/p2p/operations/library.rs:128 | `set_extension` changes only the final name and answers whether there was one; without one the path is unchanged |
| Paths.SetExtensionOnName | core/src/p2p/operations/library.rs:128 | on a final ordinary name, the name becomes its stem, a dot and the extension |
| Paths.SetExtensionOnDotFreeName | core/crates/heavy-lifting/src/media_processor/helpers/thumbnailer.rs:245 | on a dot-free final name, `set_extension` appends `.` and the extension |
| Paths.ExtensionAfterSetExtension | core/src/p2p/operations/library.rs:128-135 | after `set_extension(ext)` on a path with a non-empty file name, `extension()` is `ext` |
| Paths.NameExtensionOfDotted | core/src/p2p/operations/library.rs:135 | a name `<stem>.<ext>` with a dot-free ext has extension ext |
| Paths.Parent | core/crates/heavy-lifting/src/media_processor/helpers/thumbnailer.rs:362 | a path has a parent exactly when it has a component, and the parent is the path one component shorter |
| Paths.FileName | core/src/p2p/operations/library.rs:135 | there is a file name exactly when the final component is an ordinary one |
| Paths.PathBuf.Push | core/crates/heavy-lifting/src/media_processor/helpers/thumbnailer.rs:243-244 | the path becomes the old path with the string pushed |
| Paths.PathBuf.Extend | core/src/p2p/operations/library.rs:126-127 | pushing each segment in turn in a loop gives the path `ExtendAll` describes |
| Paths.PathBuf.SetExtension | core/crates/heavy-lifting/src/media_processor/helpers/thumbnailer.rs:245 | the path and the answer are those of `set_extension` |
| Paths.Join | core/crates/heavy-lifting/src/media_processor/helpers/thumbnailer.rs:50-52 | `join` gives a fresh path buffer holding the path with the string pushed |
| LibraryTransfer.Serve | core/src/p2p/operations/library.rs:80-175 | every responder run starts with the tunnel step, and a successful one ends with the send |
| LibraryTransfer.RequestFileResult | core/src/p2p/operations/library.rs:34-78 | every initiator run starts with the peer lookup, and a successful one ends with the receive |
| LibraryTransfer.ThumbnailCandidate | core/src/p2p/operations/library.rs:124-130 | definition: the thumbnails root extended by the key's segments, with the extension set to webp; its properties are in `LibraryTransfer.GuardAcceptsPlainSegments` and `LibraryTransfer.PlainSegmentsExtend` |
| LibraryTransfer.GuardAccepts | core/src/p2p/operations/library.rs:134-137 | definition of the traversal guard: a component-wise prefix of the root, with extension exactly webp; its properties are in `LibraryTransfer.GuardAcceptsPlainSegments`, `LibraryTransfer.GuardAdmitsParentDir`, `LibraryTransfer.GuardRejectsBeforeOpen` and `LibraryTransfer.GuardAcceptedIsOpened` |
| LibraryTransfer.ResolvePath | core/src/p2p/operations/library.rs:100-141 | a file request takes the index query step and resolves exactly when the query works and the index locates the id; a thumbnail request takes the path-building and guard steps and resolves to the candidate path when the guard accepts it, and fails with "Invalid thumbnail path" otherwise |
| LibraryTransfer.ResolveRequestPath | core/src/p2p/operations/library.rs:100-141 | building the thumbnail path in place with `extend` and `set_extension`, then checking it, resolves as `ResolvePath` says |
| LibraryTransfer.TransferFor | core/src/p2p/operations/library.rs:157-169 | definition of the one transfer request: the block size, one request for the whole file with the caller's range, cancellation off; its properties are in `LibraryTransfer.SendFileFraming` and `LibraryTransfer.SendFileUncancellable` |
| LibraryTransfer.SendFile | core/src/p2p/operations/library.rs:148-172 | definition of the send half: open, block size, length, transfer; its properties are in `LibraryTransfer.SendFileFraming`, `LibraryTransfer.SendFileOpensOnlyItsPath`, `LibraryTransfer.SendFileUncancellable` and `LibraryTransfer.ReceiveWhatSendFileWrote` |
| LibraryTransfer.SendFileOver | core/src/p2p/operations/library.rs:148-172 | the send half over a stream writes exactly the bytes and takes exactly the steps `SendFile` describes |
| LibraryTransfer.Receiver | core/src/p2p/operations/library.rs:80-175 | the responder over a stream has exactly the outcome, steps and written bytes `Serve` describes |
| LibraryTransfer.RequestFile | core/src/p2p/operations/library.rs:34-78 | the initiator over a stream has exactly the outcome, steps, sent bytes and output `RequestFileResult` describes |
| LibraryTransfer.Stream.WriteAll | core/src/p2p/operations/library.rs:153-154 | a working stream gains all the bytes; a broken one gains none and reports failure |
| LibraryTransfer.Stream.ReadBlockSize | core/src/p2p/operations/library.rs:58 | reads the block size the codec finds and consumes exactly its bytes, or fails and consumes nothing |
| LibraryTransfer.Stream.ReadU64LeFrom | core/src/p2p/operations/library.rs:59 | consumes exactly eight bytes and answers their little-endian value, or fails when fewer remain |
| LibraryTransfer.Stream.Drain | core/src/p2p/operations/library.rs:74 | hands the receive everything left on the stream |
| LibraryTransfer.Sink.Write | core/src/p2p/operations/library.rs:74 | the output gains exactly the received bytes |
| LibraryTransfer.GuardAcceptsPlainSegments | core/src/p2p/operations/library.rs:124-137 | a key made of plain names yields `<root>/<names...>/<stem>.webp`, and the guard accepts it |
| LibraryTransfer.PlainSegmentsExtend | core/src/p2p/operations/library.rs:126-127 | extending the root by plain names appends them as ordinary components, the last one last |
| LibraryTransfer.GuardAdmitsParentDir | core/src/p2p/operations/library.rs:132-137 | the guard compares components without resolving `..`: the key `["..", name]` yields `<root>/../<name>.webp`, and the guard accepts it |
| LibraryTransfer.OpensOnlyResolvedPath | core/src/p2p/operations/library.rs:94-148 | the only path the responder opens is the one it resolved in the library the tunnel named |
| LibraryTransfer.SendFileOpensOnlyItsPath | core/src/p2p/operations/library.rs:148 | the send half opens nothing but its path |
| LibraryTransfer.ResolvedThumbnailPassedGuard | core/src/p2p/operations/library.rs:121-140 | a resolved thumbnail path is the candidate built from the key for the tunnel's library, and the guard accepted it |
| LibraryTransfer.GuardRejectsBeforeOpen | core/src/p2p/operations/library.rs:131-148 | a candidate the guard rejects fails the request with "Invalid thumbnail path" right after the check, with nothing opened and nothing written |
| LibraryTransfer.GuardAcceptedIsOpened | core/src/p2p/operations/library.rs:131-148 | a candidate the guard accepts is the path opened right after the check |
| LibraryTransfer.ThumbnailOpenedOnlyAfterGuard | core/src/p2p/operations/library.rs:121-148 | a thumbnail is opened only when the tunnel named a known library and the guard accepted the candidate built for it |
| LibraryTransfer.IndexedFileOpenedOnlyWhenLocated | core/src/p2p/operations/library.rs:100-120 | an indexed file is opened only when the query succeeded and the index located the id at that path |
| LibraryTransfer.UnknownLibraryStopsEarly | core/src/p2p/operations/library.rs:94-98 | an unknown library fails with "Library not found" after the lookup, before any resolution, with nothing written |
| LibraryTransfer.UnknownFilePathNotOpened | core/src/p2p/operations/library.rs:102-114 | an id the index does not know fails with "not found" after the query, with nothing opened or written |
| LibraryTransfer.ServeAfterResolve | core/src/p2p/operations/library.rs:141-172 | once the path is resolved, the responder goes on exactly as the send half does |
| LibraryTransfer.SendFileFraming | core/src/p2p/operations/library.rs:150-165 | the header is the block size chosen from the full length, then that length as eight little-endian bytes, which read back as the length; the single transfer request's size is that length whatever the range; whatever the transfer put on the stream follows, even when it failed; the outcome is the transfer's |
| LibraryTransfer.ServedTransferNotCancelled | core/src/p2p/operations/library.rs:157-169 | every transfer the responder starts has its cancellation flag down |
| LibraryTransfer.SendFileUncancellable | core/src/p2p/operations/library.rs:157-169 | the send half's transfer has its cancellation flag down |
| LibraryTransfer.RequestedTransferNotCancelled | core/src/p2p/operations/library.rs:61-73 | every transfer the initiator starts has its cancellation flag down |
| LibraryTransfer.PeerOfflineStopsEarly | core/src/p2p/operations/library.rs:43 | an unknown peer fails with "Peer offline" before any stream is opened or byte sent |
| LibraryTransfer.RequestHeaderBeforeTunnel | core/src/p2p/operations/library.rs:44-56 | whenever the tunnel handshake is reached, the peer lookup, the stream and the header write came first, and the bytes sent are exactly the request header |
| LibraryTransfer.InitiatorIgnoresReceiveOutcome | core/src/p2p/operations/library.rs:61-77 | the initiator's outcome and steps do not depend on the transfer, so a failed receive still ends in `Ok` |
| LibraryTransfer.ReceiveWhatSendFileWrote | core/src/p2p/operations/library.rs:58-74 | the initiator, reading what the send half wrote, succeeds, describes the same transfer and hands the receive exactly the bytes after the header |
| LibraryTransfer.InitiatorReadsWhatResponderWrote | core/src/p2p/operations/library.rs:56-74 | end to end: when the responder succeeds and its bytes reach a working initiator, the initiator succeeds, reads back the block size and length, describes the same transfer, and receives exactly the bytes the responder's transfer sent |

## Left out

- Image decoding, resizing, EXIF orientation and WebP encoding are one opaque function, `encode`, that yields bytes or a decode, encode or panic failure. These are floating-point numerics and foreign crates. `spawn_blocking` and its panic conversion are folded into that one failure.
- The video path (`generate_video_thumbnail`) is not modelled. The model is built without the `ffmpeg` feature, because the path is a foreign call behind that flag. Only `can_generate_thumbnail_for_video` and the video list are kept.
- The `sd_file_ext` catalogue is not part of this model. Each extension enum keeps the variants the predicates name, plus one `Other…(name)` variant for every other extension. The `ALL_*_EXTENSIONS` lists are a `Catalogue` parameter.
- `THUMBNAIL_GENERATION_TIMEOUT`, tracing, the elapsed `Duration` result and the serde and specta derives are not modelled. The timeout is unused in this code; the rest do not affect behaviour.
- The tokio `Mutex` and its concurrency are not modelled. The guard is held across the whole call, so one sequential call per gate captures it. `Instant` and `sleep` are an integer millisecond clock.
- Throttle.SingleThumbnailGate.GenerateSingleThumbnail: the gate's initial instant (`Instant::now()` at first use) is a constructor argument. The time a generation takes is the parameter `workMs`, not a measured duration.
- The Prisma query and the `IsolatedFilePathData` join are an abstract index. An entry is either a located path or a row that cannot be converted.
- The tunnel handshakes are outcome parameters, and the bytes pass through in the clear. `P2P` and `UnicastStream` internals are not modelled.
- `BlockSize` and `Transfer` are opaque functions: a codec and an engine. Chunking, progress callbacks and range handling inside the transfer stay opaque, because their code is not part of this model.
- `Header::to_bytes` is the parameter `headerBytes`. `get_indexed_thumb_key` is the parameter `thumbKey`, which gives a content id's path segments.
- The random `Uuid::new_v4` ids of the transfer requests are not modelled.
- The failure of `file.metadata()` after a successful open is not modelled. An opened file's length is its content length.
- LibraryTransfer.Stream.WriteAll: a stream either fails every write or none. A stream that breaks between the block-size write and the length write is not modelled.
- Library ids are sequences of 16 bytes, and `Uuid::to_string` is the hyphenated lower-case form. Other formats are not modelled.
- ThumbKeys.ShardHex: `&cas_id[0..3]` takes three bytes of UTF-8, but the model takes three characters. Both agree on the hexadecimal ids the code produces. For other ids they differ: "éab" gives "éa" in the code and "éab" in the model, and an id shorter than three bytes, or one whose third byte falls inside a character, panics in the code.
- ThumbStore.CreateDirAllResult: a failure leaves the directory set as it was. `create_dir_all` creates the parent chain from the top down, so the directories made before the failing one remain; that partial creation is not modelled. Whether the host refuses a directory is a fixed set of paths.
- ThumbStore.FileSystem.CreateDirAll: the same as `ThumbStore.CreateDirAllResult`; a failed call leaves the state unchanged.
- The extension catalogue is a parameter, so parsing answers only for what the catalogue lists. The lemmas that a listed name parses to itself (`Extensions.ImageFromStrOfName`, `Extensions.DocumentFromStrOfName`) assume the catalogue is well formed (`Extensions.WellFormed`).

## Behaviour worth knowing

The model follows the code in each case.
- An extension with no thumbnail route reports `Generated`, not `Skipped`, with nothing written (`Thumbnailer.NoRouteWritesNothing`).
- The comment at library.rs:132 says the guard prevents directory traversal. The guard does not canonicalise the path, though. It compares components, so a key containing `..` passes it (`LibraryTransfer.GuardAdmitsParentDir`). Whether `get_indexed_thumb_key` can produce such a key depends on code outside this model.
- Neither side can cancel a transfer: both pass a fresh flag set to false (`LibraryTransfer.ServedTransferNotCancelled`, `LibraryTransfer.RequestedTransferNotCancelled`).
- The requested range is only passed to the transfer. The header always carries the full file length (`LibraryTransfer.SendFileFraming`).
- The initiator returns `Ok` whatever the receive outcome (`LibraryTransfer.InitiatorIgnoresReceiveOutcome`).
- The responder's failures are distinct errors, for example "Library not found", "not found" and "Invalid thumbnail path". How the peer sees them is outside this code.
