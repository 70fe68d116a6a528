/** Record shapes and the status enumeration shared by the submission form (types.ts). */
module Types {

  datatype Option<+T> = None | Some(value: T)

  /** The five values of the upload status enumeration. */
  datatype UploadStatus = Idle | Uploading | Analyzing | Success | Error

  /**
   * What the form knows of one browser `File`: its name, declared MIME type,
   * size in bytes and last-modified timestamp. The bytes themselves are not modelled.
   */
  datatype FileMeta = FileMeta(name: string, mimeType: string, size: nat, lastModified: int)

  /** The identity used for duplicate detection: (name, size, lastModified). */
  datatype FileKey = FileKey(name: string, size: nat, lastModified: int)

  function Key(f: FileMeta): FileKey
  {
    FileKey(f.name, f.size, f.lastModified)
  }

  /** The form's record: trainee name, chosen week id and the ordered attachments. */
  datatype Submission = Submission(name: string, weekId: string, files: seq<FileMeta>)

  /** One entry of the training-week catalog; topic, section and start date are optional. */
  datatype WeekOption = WeekOption(
    id: string,
    caption: string,
    topic: Option<string>,
    section: Option<string>,
    startDate: Option<string>)

  /** The confirmation shown after a successful upload. */
  datatype Feedback = Feedback(message: string, encouragement: string)
}
