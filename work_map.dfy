/** The working map of a flight as the file-ingest steps use it: one field
    per key they read or write (FileMapKeys.FILE_ID, LOAD_COMPLETED and
    BUCKET_INFO, ProfileMapKeys.PROFILE_MODEL). A missing key is `None`. */
module WorkingMaps {
  import opened Common

  class WorkingMap {
    var fileId: Option<FileId>
    var loadCompleted: Option<bool>
    var bucketInfo: Option<Bucket>
    var profileModel: Option<BillingProfile>

    /** A flight's working map starts out empty. */
    constructor ()
      ensures fileId == None && loadCompleted == None && bucketInfo == None && profileModel == None
    {
      fileId := None;
      loadCompleted := None;
      bucketInfo := None;
      profileModel := None;
    }

    /** LOAD_COMPLETED as a flag: a missing value reads as false. */
    function Completed(): (b: bool)
      reads this`loadCompleted
      ensures b <==> loadCompleted == Some(true)
    {
      loadCompleted.GetOr(false)
    }
  }
}
