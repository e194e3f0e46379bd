/**
 * The note record produced by the vault scanner, and the note service as an
 * oracle.  `NoteService.loadNotesFromVault(path)` either returns the notes
 * found under `path`, in scan order, or throws; the throw is modelled as a
 * `LoadFailed` carrying the exception's message as it renders in a string
 * template.
 */
module NoteService {

  /** `lastModified` is a `java.time.LocalDateTime`; it is kept opaque as its rendered text. */
  datatype NoteMetadata = NoteMetadata(
    fileName: string,
    filePath: string,
    sizeBytes: int,
    lastModified: string,
    extension: string,
    content: string,
    contentHash: string)

  datatype LoadResult = Loaded(notes: seq<NoteMetadata>) | LoadFailed(message: string)

  /** `loadNotesFromVault`, as a total function of the vault path. */
  type Service = string -> LoadResult
}
