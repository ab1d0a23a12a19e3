/** The pure parts of FileService: turning a file-system item into the
    repository API's FileModel (with its checksum list), and the size limit
    on a bulk-load array. Looking items up and submitting jobs are not
    modelled. */
module FileService {
  import opened Common
  import opened Strings

  /** The columns every file-system item has. */
  datatype ItemInfo = ItemInfo(
    fileId: string,
    collectionId: string,
    path: string,
    size: int,
    createdDate: string,
    description: string,
    checksumCrc32c: Option<string>,
    checksumMd5: Option<string>)

  /** FSItem and its subclasses: a file, a directory (whose contents were
      read only when it is enumerated), or an item of any other kind. */
  datatype FSItem =
    | FSFile(info: ItemInfo, datasetId: string, gspath: string, mimeType: string, loadTag: string)
    | FSDir(info: ItemInfo, enumerated: bool, contents: seq<FSItem>)
    | FSOtherKind(info: ItemInfo)

  /** DRSChecksum. */
  datatype Checksum = Checksum(checksum: string, checksumType: string)

  datatype FileModelType = File | Directory

  datatype FileDetail = FileDetail(datasetId: string, accessUrl: string, mimeType: string, loadTag: string)

  datatype DirectoryDetail = DirectoryDetail(enumerated: bool, contents: Option<seq<FileModel>>)

  datatype FileModel = FileModel(
    fileId: string,
    collectionId: string,
    path: string,
    size: int,
    created: string,
    description: string,
    checksums: seq<Checksum>,
    fileType: FileModelType,
    fileDetail: Option<FileDetail>,
    directoryDetail: Option<DirectoryDetail>)

  datatype FileServiceError =
    | FileSystemCorrupt(message: string)
    | BulkLoadFileMaxExceeded(message: string)

  const WrongEntryMessage := "Entry type is totally wrong; we shouldn't be here"

  /** makeChecksums: a crc32c entry when the item has a crc32c, then an md5
      entry when it has an md5. */
  function MakeChecksums(info: ItemInfo): (r: seq<Checksum>)
    ensures |r| == (if info.checksumCrc32c.Some? then 1 else 0) + (if info.checksumMd5.Some? then 1 else 0)
    ensures Checksum(info.checksumCrc32c.GetOr(""), "crc32c") in r <==> info.checksumCrc32c.Some?
    ensures Checksum(info.checksumMd5.GetOr(""), "md5") in r <==> info.checksumMd5.Some?
    ensures info.checksumCrc32c.Some? ==> r[0] == Checksum(info.checksumCrc32c.value, "crc32c")
    ensures info.checksumMd5.Some? ==> r[|r| - 1] == Checksum(info.checksumMd5.value, "md5")
  {
    var crc := if info.checksumCrc32c.Some? then [Checksum(info.checksumCrc32c.value, "crc32c")] else [];
    var md5 := if info.checksumMd5.Some? then [Checksum(info.checksumMd5.value, "md5")] else [];
    crc + md5
  }

  /** The FileModel fields every kind of item fills in. */
  function BaseModel(info: ItemInfo, fileType: FileModelType): FileModel {
    FileModel(info.fileId, info.collectionId, info.path, info.size, info.createdDate,
              info.description, MakeChecksums(info), fileType, None, None)
  }

  /** The FileModel of an item: what fileModelFromFSItem builds. A file
      becomes a FILE model with its file detail, a directory a DIRECTORY
      model with its directory detail; both copy the item's common columns
      and checksums. */
  function ToFileModel(item: FSItem): (r: Result<FileModel, FileServiceError>)
    ensures r.Err? <==> item.FSOtherKind? || (item.FSDir? && item.enumerated && ContentsModels(item, item.contents).Err?)
    ensures r.Ok? ==>
      && (r.value.fileType == File <==> item.FSFile?)
      && (r.value.fileDetail.Some? <==> item.FSFile?)
      && (r.value.directoryDetail.Some? <==> item.FSDir?)
      && r.value.fileId == item.info.fileId && r.value.collectionId == item.info.collectionId
      && r.value.path == item.info.path && r.value.size == item.info.size
      && r.value.created == item.info.createdDate && r.value.description == item.info.description
      && r.value.checksums == MakeChecksums(item.info)
      && (item.FSFile? ==> r.value.fileDetail.value == FileDetail(item.datasetId, item.gspath, item.mimeType, item.loadTag))
    decreases item, 1
  {
    match item
    case FSFile(info, datasetId, gspath, mimeType, loadTag) =>
      Ok(BaseModel(info, File).(fileDetail := Some(FileDetail(datasetId, gspath, mimeType, loadTag))))
    case FSDir(info, enumerated, contents) =>
      if enumerated then
        var models :- ContentsModels(item, contents);
        Ok(BaseModel(info, Directory).(directoryDetail := Some(DirectoryDetail(true, Some(models)))))
      else
        Ok(BaseModel(info, Directory).(directoryDetail := Some(DirectoryDetail(false, None))))
    case FSOtherKind(_) =>
      Err(FileSystemCorrupt(WrongEntryMessage))
  }

  /** The models of a directory's children, in order, or the error of the
      first child that has one. */
  function ContentsModels(dir: FSItem, children: seq<FSItem>): Result<seq<FileModel>, FileServiceError>
    requires forall i :: 0 <= i < |children| ==> children[i] < dir
    decreases dir, 0, |children|
  {
    if children == [] then Ok([])
    else
      assert children[|children| - 1] in children;
      var init :- ContentsModels(dir, children[..|children| - 1]);
      var last :- ToFileModel(children[|children| - 1]);
      Ok(init + [last])
  }

  /** An item whose conversion cannot fail: no item of another kind is
      reached through enumerated directories. */
  predicate Convertible(item: FSItem)
    decreases item
  {
    match item
    case FSFile(_, _, _, _, _) => true
    case FSDir(_, enumerated, contents) => !enumerated || forall c :: c in contents ==> Convertible(c)
    case FSOtherKind(_) => false
  }

  /** Conversion fails exactly for items that are not convertible, and then
      with FileSystemCorruptException. */
  lemma {:induction false} ToFileModelOk(item: FSItem)
    ensures ToFileModel(item).Ok? <==> Convertible(item)
    ensures ToFileModel(item).Err? ==> ToFileModel(item).error == FileSystemCorrupt(WrongEntryMessage)
    decreases item, 1
  {
    if item.FSDir? && item.enumerated {
      ContentsModelsOk(item, item.contents);
    }
  }

  lemma {:induction false} ContentsModelsOk(dir: FSItem, children: seq<FSItem>)
    requires forall i :: 0 <= i < |children| ==> children[i] < dir
    ensures ContentsModels(dir, children).Ok? <==> forall c :: c in children ==> Convertible(c)
    ensures ContentsModels(dir, children).Err? ==> ContentsModels(dir, children).error == FileSystemCorrupt(WrongEntryMessage)
    decreases dir, 0, |children|
  {
    if children != [] {
      var init := children[..|children| - 1];
      assert forall c :: c in children <==> c in init || c == children[|children| - 1];
      ContentsModelsOk(dir, init);
      assert children[|children| - 1] in children;
      ToFileModelOk(children[|children| - 1]);
    }
  }

  /** A directory's contents are present only when it is enumerated, with one
      model per child, in the children's order. */
  lemma ToFileModelContents(item: FSItem)
    requires item.FSDir? && ToFileModel(item).Ok?
    ensures var d := ToFileModel(item).value.directoryDetail.value;
      && d.enumerated == item.enumerated
      && (d.contents.Some? <==> item.enumerated)
      && (item.enumerated ==>
            && |d.contents.value| == |item.contents|
            && forall i :: 0 <= i < |item.contents| ==>
                 ToFileModel(item.contents[i]).Ok? && d.contents.value[i] == ToFileModel(item.contents[i]).value)
  {
    if item.enumerated {
      ContentsModelsAt(item, item.contents);
    }
  }

  lemma {:induction false} ContentsModelsAt(dir: FSItem, children: seq<FSItem>)
    requires forall i :: 0 <= i < |children| ==> children[i] < dir
    requires ContentsModels(dir, children).Ok?
    ensures var ms := ContentsModels(dir, children).value;
      && |ms| == |children|
      && forall i :: 0 <= i < |children| ==> ToFileModel(children[i]).Ok? && ms[i] == ToFileModel(children[i]).value
    decreases |children|
  {
    if children != [] {
      var init := children[..|children| - 1];
      var child := children[|children| - 1];
      assert child in children;
      ContentsModelsAt(dir, init);
      var prev := ContentsModels(dir, init).value;
      var last := ToFileModel(child).value;
      var ms := ContentsModels(dir, children).value;
      assert ms == prev + [last];
      forall i | 0 <= i < |children|
        ensures ToFileModel(children[i]).Ok? && ms[i] == ToFileModel(children[i]).value
      {
        if i < |init| {
          assert children[i] == init[i] && ms[i] == prev[i];
        }
      }
    }
  }

  /** An error among the first `n` children is the error of all of them. */
  lemma {:induction false} ContentsPrefixFails(dir: FSItem, children: seq<FSItem>, n: nat)
    requires forall i :: 0 <= i < |children| ==> children[i] < dir
    requires n <= |children| && ContentsModels(dir, children[..n]).Err?
    ensures ContentsModels(dir, children) == ContentsModels(dir, children[..n])
    decreases |children|
  {
    if n < |children| {
      var init := children[..|children| - 1];
      assert init[..n] == children[..n];
      ContentsPrefixFails(dir, init, n);
    } else {
      assert children[..n] == children;
    }
  }

  /** fileModelFromFSItem: converts a directory's children one by one into a
      list, recursively. */
  method FileModelFromFSItem(item: FSItem) returns (r: Result<FileModel, FileServiceError>)
    ensures r == ToFileModel(item)
    decreases item
  {
    match item
    case FSFile(info, datasetId, gspath, mimeType, loadTag) =>
      r := Ok(BaseModel(info, File).(fileDetail := Some(FileDetail(datasetId, gspath, mimeType, loadTag))));
    case FSDir(info, enumerated, contents) =>
      if !enumerated {
        return Ok(BaseModel(info, Directory).(directoryDetail := Some(DirectoryDetail(false, None))));
      }
      var models: seq<FileModel> := [];
      var i := 0;
      while i < |contents|
        invariant 0 <= i <= |contents|
        invariant ContentsModels(item, contents[..i]) == Ok(models)
      {
        assert contents[..i + 1][..i] == contents[..i];
        assert contents[..i + 1][i] == contents[i];
        var m := FileModelFromFSItem(contents[i]);
        if m.Err? {
          ContentsPrefixFails(item, contents, i + 1);
          return Err(m.error);
        }
        models := models + [m.value];
        i := i + 1;
      }
      assert contents[..i] == contents;
      r := Ok(BaseModel(info, Directory).(directoryDetail := Some(DirectoryDetail(true, Some(models)))));
    case FSOtherKind(_) =>
      r := Err(FileSystemCorrupt(WrongEntryMessage));
  }

  /** The size check of ingestBulkFileArray against LOAD_BULK_ARRAY_FILES_MAX. */
  function CheckBulkArraySize(filesMax: int, inArraySize: int): (r: Option<FileServiceError>)
    ensures r.Some? <==> inArraySize > filesMax
    ensures r.Some? ==> r.value == BulkLoadFileMaxExceeded(
      "Maximum number of files in a bulk load array is " + IntToString(filesMax)
      + "; request array contains " + IntToString(inArraySize))
  {
    if inArraySize > filesMax then
      Some(BulkLoadFileMaxExceeded("Maximum number of files in a bulk load array is " + IntToString(filesMax)
        + "; request array contains " + IntToString(inArraySize)))
    else None
  }

  /** An array exactly at the limit is accepted, one more is refused. */
  lemma BulkArrayLimitEdge(filesMax: int)
    ensures CheckBulkArraySize(filesMax, filesMax).None?
    ensures CheckBulkArraySize(filesMax, filesMax + 1).Some?
  {
  }
}
