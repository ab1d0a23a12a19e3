/** Small value types shared by the modules of the model: an optional value,
    a success-or-error result usable with `:-`, file ids, and the metadata
    record of a copied file. */
module Common {

  datatype Option<+T> = None | Some(value: T) {
    function GetOr(default: T): T {
      if Some? then value else default
    }
  }

  datatype Result<+T, +E> = Ok(value: T) | Err(error: E) {
    predicate IsFailure() {
      Err?
    }

    function PropagateFailure<U>(): Result<U, E>
      requires Err?
    {
      Err(error)
    }

    function Extract(): T
      requires Ok?
    {
      value
    }
  }

  /** File ids are UUIDs in the system; here they are drawn from a counter,
      which gives the freshness a UUID gives in practice. */
  type FileId = nat

  /** What copying a file produced: where it lives and its checksums (FSFileInfo). */
  datatype FileInfo = FileInfo(
    gspath: string,
    checksumCrc32c: Option<string>,
    checksumMd5: Option<string>,
    size: int,
    createdDate: string)

  /** One file to load (FileLoadModel): where from, where to, and the tags the
      worker flight carries. */
  datatype FileLoadModel = FileLoadModel(
    sourcePath: string,
    targetPath: string,
    mimeType: string,
    profileId: string,
    loadTag: string,
    description: string)

  /** A billing profile (BillingProfileModel), as far as it is used. */
  datatype BillingProfile = BillingProfile(id: string, profileName: string)

  /** A storage bucket handle (GoogleBucketResource), as far as it is used. */
  datatype Bucket = Bucket(name: string, profileId: string)
}
