/** ConfigEnum: the names of the configuration parameters and faults, and
    the case-insensitive lookup of a constant by the name an API caller
    gives. A constant is represented by its ordinal, its position in the
    declaration. */
module Config {
  import opened Common
  import opened Strings

  const ValueCount := 48

  newtype ConfigEnum = x: int | 0 <= x < 48 {
    /** name(): the constant's Java name. */
    function Name(): string {
      match this
      case 0 => "SAM_RETRY_INITIAL_WAIT_SECONDS"
      case 1 => "SAM_RETRY_MAXIMUM_WAIT_SECONDS"
      case 2 => "SAM_OPERATION_TIMEOUT_SECONDS"
      case 3 => "LOAD_BULK_ARRAY_FILES_MAX"
      case 4 => "LOAD_BULK_FILES_MAX"
      case 5 => "LOAD_CONCURRENT_FILES"
      case 6 => "LOAD_CONCURRENT_INGESTS"
      case 7 => "LOAD_DRIVER_WAIT_SECONDS"
      case 8 => "LOAD_HISTORY_COPY_CHUNK_SIZE"
      case 9 => "LOAD_HISTORY_WAIT_SECONDS"
      case 10 => "FIRESTORE_SNAPSHOT_BATCH_SIZE"
      case 11 => "FIRESTORE_SNAPSHOT_CACHE_SIZE"
      case 12 => "FIRESTORE_VALIDATE_BATCH_SIZE"
      case 13 => "FIRESTORE_QUERY_BATCH_SIZE"
      case 14 => "AUTH_CACHE_TIMEOUT_SECONDS"
      case 15 => "AUTH_CACHE_SIZE"
      case 16 => "ALLOW_REUSE_EXISTING_BUCKETS"
      case 17 => "SAM_TIMEOUT_FAULT"
      case 18 => "CREATE_ASSET_FAULT"
      case 19 => "LOAD_LOCK_CONFLICT_STOP_FAULT"
      case 20 => "LOAD_LOCK_CONFLICT_CONTINUE_FAULT"
      case 21 => "LOAD_SKIP_FILE_LOAD"
      case 22 => "BUCKET_LOCK_CONFLICT_STOP_FAULT"
      case 23 => "BUCKET_LOCK_CONFLICT_CONTINUE_FAULT"
      case 24 => "DATASET_DELETE_LOCK_CONFLICT_STOP_FAULT"
      case 25 => "DATASET_DELETE_LOCK_CONFLICT_CONTINUE_FAULT"
      case 26 => "SNAPSHOT_DELETE_LOCK_CONFLICT_STOP_FAULT"
      case 27 => "SNAPSHOT_DELETE_LOCK_CONFLICT_CONTINUE_FAULT"
      case 28 => "FILE_INGEST_LOCK_CONFLICT_STOP_FAULT"
      case 29 => "FILE_INGEST_LOCK_CONFLICT_CONTINUE_FAULT"
      case 30 => "FILE_INGEST_LOCK_RETRY_FAULT"
      case 31 => "FILE_INGEST_LOCK_FATAL_FAULT"
      case 32 => "FILE_INGEST_UNLOCK_RETRY_FAULT"
      case 33 => "FILE_INGEST_UNLOCK_FATAL_FAULT"
      case 34 => "FILE_DELETE_LOCK_CONFLICT_STOP_FAULT"
      case 35 => "FILE_DELETE_LOCK_CONFLICT_CONTINUE_FAULT"
      case 36 => "TABLE_INGEST_LOCK_CONFLICT_STOP_FAULT"
      case 37 => "TABLE_INGEST_LOCK_CONFLICT_CONTINUE_FAULT"
      case 38 => "SOFT_DELETE_LOCK_CONFLICT_STOP_FAULT"
      case 39 => "SOFT_DELETE_LOCK_CONFLICT_CONTINUE_FAULT"
      case 40 => "DATASET_GRANT_ACCESS_FAULT"
      case 41 => "SNAPSHOT_GRANT_ACCESS_FAULT"
      case 42 => "SNAPSHOT_GRANT_FILE_ACCESS_FAULT"
      case 43 => "FIRESTORE_RETRIEVE_FAULT"
      case 44 => "LIVENESS_FAULT"
      case 45 => "CRITICAL_SYSTEM_FAULT"
      case 46 => "UNIT_TEST_SIMPLE_FAULT"
      case _ => "UNIT_TEST_COUNTED_FAULT"
    }
  }

  // The constants, in declaration order: parameters first, then faults.
  const SamRetryInitialWaitSeconds: ConfigEnum := 0
  const SamRetryMaximumWaitSeconds: ConfigEnum := 1
  const SamOperationTimeoutSeconds: ConfigEnum := 2
  const LoadBulkArrayFilesMax: ConfigEnum := 3
  const LoadBulkFilesMax: ConfigEnum := 4
  const LoadConcurrentFiles: ConfigEnum := 5
  const LoadConcurrentIngests: ConfigEnum := 6
  const LoadDriverWaitSeconds: ConfigEnum := 7
  const LoadHistoryCopyChunkSize: ConfigEnum := 8
  const LoadHistoryWaitSeconds: ConfigEnum := 9
  const FirestoreSnapshotBatchSize: ConfigEnum := 10
  const FirestoreSnapshotCacheSize: ConfigEnum := 11
  const FirestoreValidateBatchSize: ConfigEnum := 12
  const FirestoreQueryBatchSize: ConfigEnum := 13
  const AuthCacheTimeoutSeconds: ConfigEnum := 14
  const AuthCacheSize: ConfigEnum := 15
  const AllowReuseExistingBuckets: ConfigEnum := 16
  const SamTimeoutFault: ConfigEnum := 17
  const CreateAssetFault: ConfigEnum := 18
  const LoadLockConflictStopFault: ConfigEnum := 19
  const LoadLockConflictContinueFault: ConfigEnum := 20
  const LoadSkipFileLoad: ConfigEnum := 21
  const BucketLockConflictStopFault: ConfigEnum := 22
  const BucketLockConflictContinueFault: ConfigEnum := 23
  const DatasetDeleteLockConflictStopFault: ConfigEnum := 24
  const DatasetDeleteLockConflictContinueFault: ConfigEnum := 25
  const SnapshotDeleteLockConflictStopFault: ConfigEnum := 26
  const SnapshotDeleteLockConflictContinueFault: ConfigEnum := 27
  const FileIngestLockConflictStopFault: ConfigEnum := 28
  const FileIngestLockConflictContinueFault: ConfigEnum := 29
  const FileIngestLockRetryFault: ConfigEnum := 30
  const FileIngestLockFatalFault: ConfigEnum := 31
  const FileIngestUnlockRetryFault: ConfigEnum := 32
  const FileIngestUnlockFatalFault: ConfigEnum := 33
  const FileDeleteLockConflictStopFault: ConfigEnum := 34
  const FileDeleteLockConflictContinueFault: ConfigEnum := 35
  const TableIngestLockConflictStopFault: ConfigEnum := 36
  const TableIngestLockConflictContinueFault: ConfigEnum := 37
  const SoftDeleteLockConflictStopFault: ConfigEnum := 38
  const SoftDeleteLockConflictContinueFault: ConfigEnum := 39
  const DatasetGrantAccessFault: ConfigEnum := 40
  const SnapshotGrantAccessFault: ConfigEnum := 41
  const SnapshotGrantFileAccessFault: ConfigEnum := 42
  const FirestoreRetrieveFault: ConfigEnum := 43
  const LivenessFault: ConfigEnum := 44
  const CriticalSystemFault: ConfigEnum := 45
  const UnitTestSimpleFault: ConfigEnum := 46
  const UnitTestCountedFault: ConfigEnum := 47

  /** values(): every constant, in declaration order. */
  function AllValues(): (r: seq<ConfigEnum>)
    ensures |r| == ValueCount
    ensures forall i :: 0 <= i < ValueCount ==> r[i] == i as ConfigEnum
  {
    seq(ValueCount, i requires 0 <= i < ValueCount => i as ConfigEnum)
  }

  datatype ConfigError = ConfigNotFound(message: string)

  /** The text of ConfigNotFoundException; a null name is written "null". */
  function NotFoundMessage(apiName: Option<string>): string {
    "Configuration '" + apiName.GetOr("null") + "' was not found"
  }

  /** `c` answers to `apiName`: StringUtils.equalsIgnoreCase(c.name(),
      apiName), which is false for a null name. */
  predicate Matches(c: ConfigEnum, apiName: Option<string>) {
    apiName.Some? && EqualsIgnoreCase(c.Name(), apiName.value)
  }

  /** The loop of lookupByApiName over `values`: the first constant that
      answers to `apiName`. */
  function LookupIn(values: seq<ConfigEnum>, apiName: Option<string>): (r: Option<ConfigEnum>)
    ensures r.Some? ==> r.value in values && Matches(r.value, apiName)
    ensures r.None? ==> forall c :: c in values ==> !Matches(c, apiName)
  {
    if values == [] then None
    else if Matches(values[0], apiName) then Some(values[0])
    else LookupIn(values[1..], apiName)
  }

  /** lookupByApiName. */
  function LookupByApiName(apiName: Option<string>): (r: Result<ConfigEnum, ConfigError>)
    ensures r.Ok? ==> Matches(r.value, apiName)
    ensures apiName.None? ==> r.Err?
    ensures r.Err? ==> r.error == ConfigNotFound(NotFoundMessage(apiName))
    ensures r.Err? ==> forall c: ConfigEnum :: !Matches(c, apiName)
  {
    var found := LookupIn(AllValues(), apiName);
    assert forall c: ConfigEnum :: c in AllValues() by {
      forall c: ConfigEnum
        ensures c in AllValues()
      {
        assert AllValues()[c] == c;
      }
    }
    if found.Some? then Ok(found.value) else Err(ConfigNotFound(NotFoundMessage(apiName)))
  }

  /** The loop returns the first constant in `values` that answers. */
  lemma {:induction false} LookupFirst(values: seq<ConfigEnum>, apiName: Option<string>, i: nat)
    requires i < |values| && Matches(values[i], apiName)
    requires forall j :: 0 <= j < i ==> !Matches(values[j], apiName)
    ensures LookupIn(values, apiName) == Some(values[i])
  {
    if i > 0 {
      assert values[1..][i - 1] == values[i];
      forall j | 0 <= j < i - 1
        ensures !Matches(values[1..][j], apiName)
      {
        assert values[1..][j] == values[j + 1];
      }
      LookupFirst(values[1..], apiName, i - 1);
    }
  }

  /** Looking up a name cased differently gives the same answer. */
  lemma {:induction false} LookupIgnoresCase(values: seq<ConfigEnum>, a: string, b: string)
    requires EqualsIgnoreCase(a, b)
    ensures LookupIn(values, Some(a)) == LookupIn(values, Some(b))
  {
    if values != [] {
      LookupIgnoresCase(values[1..], a, b);
    }
  }

  /** The ordinal of the constant named `s` in any case, read off the
      length of `s` and a few of its characters, lower-cased; -1 for a
      length no name has. */
  function NameKey(s: string): int {
    if |s| == 14 then 44
    else if |s| == 15 then 15
    else if |s| == 17 then 17
    else if |s| == 18 then 18
    else if |s| == 19 then (if ToLowerChar(s[18]) == 'd' then 21
      else 4)
    else if |s| == 21 then (if ToLowerChar(s[20]) == 's' then 5
      else 45)
    else if |s| == 22 then 46
    else if |s| == 23 then (if ToLowerChar(s[22]) == 's' then 6
      else 47)
    else if |s| == 24 then (if ToLowerChar(s[23]) == 's' then 7
      else 43)
    else if |s| == 25 then (if ToLowerChar(s[24]) == 's' then 9
      else 3)
    else if |s| == 26 then (if ToLowerChar(s[25]) == 'e' then 13
      else if ToLowerChar(s[25]) == 's' then 14
      else 40)
    else if |s| == 27 then 41
    else if |s| == 28 then (if ToLowerChar(s[21]) == 'b' then 16
      else if ToLowerChar(s[21]) == 'l' then 31
      else if ToLowerChar(s[21]) == 'n' then 8
      else 30)
    else if |s| == 29 then (if ToLowerChar(s[22]) == 'c' then (if ToLowerChar(s[17]) == 'e' then 12
        else 10)
      else if ToLowerChar(s[22]) == 'h' then 11
      else if ToLowerChar(s[22]) == 'p' then 19
      else 2)
    else if |s| == 30 then (if ToLowerChar(s[23]) == 'l' then 33
      else if ToLowerChar(s[23]) == 's' then (if ToLowerChar(s[16]) == 'l' then 0
        else 1)
      else 32)
    else if |s| == 31 then 22
    else if |s| == 32 then 42
    else if |s| == 33 then 20
    else if |s| == 35 then 23
    else if |s| == 36 then (if ToLowerChar(s[10]) == 'e' then (if ToLowerChar(s[3]) == 'e' then 34
        else 38)
      else 28)
    else if |s| == 37 then 36
    else if |s| == 39 then 24
    else if |s| == 40 then (if ToLowerChar(s[9]) == 'd' then 26
      else if ToLowerChar(s[9]) == 's' then 29
      else (if ToLowerChar(s[3]) == 'e' then 35
        else 39))
    else if |s| == 41 then 37
    else if |s| == 43 then 25
    else if |s| == 44 then 27
    else -1
  }

  /** NameKey reads every constant's name back to the constant. */
  lemma NameKeyInverse(c: ConfigEnum)
    ensures NameKey(c.Name()) == c as int
  {
    if c < 3 {
      NameKeysFrom0(c);
    } else if c < 6 {
      NameKeysFrom3(c);
    } else if c < 9 {
      NameKeysFrom6(c);
    } else if c < 12 {
      NameKeysFrom9(c);
    } else if c < 15 {
      NameKeysFrom12(c);
    } else if c < 18 {
      NameKeysFrom15(c);
    } else if c < 21 {
      NameKeysFrom18(c);
    } else if c < 24 {
      NameKeysFrom21(c);
    } else if c < 25 {
      NameKeysFrom24(c);
    } else if c < 26 {
      NameKeysFrom25(c);
    } else if c < 27 {
      NameKeysFrom26(c);
    } else if c < 28 {
      NameKeysFrom27(c);
    } else if c < 29 {
      NameKeysFrom28(c);
    } else if c < 30 {
      NameKeysFrom29(c);
    } else if c < 31 {
      NameKeysFrom30(c);
    } else if c < 32 {
      NameKeysFrom31(c);
    } else if c < 33 {
      NameKeysFrom32(c);
    } else if c < 34 {
      NameKeysFrom33(c);
    } else if c < 35 {
      NameKeysFrom34(c);
    } else if c < 36 {
      NameKeysFrom35(c);
    } else if c < 37 {
      NameKeysFrom36(c);
    } else if c < 38 {
      NameKeysFrom37(c);
    } else if c < 39 {
      NameKeysFrom38(c);
    } else if c < 40 {
      NameKeysFrom39(c);
    } else if c < 41 {
      NameKeysFrom40(c);
    } else if c < 42 {
      NameKeysFrom41(c);
    } else if c < 45 {
      NameKeysFrom42(c);
    } else {
      NameKeysFrom45(c);
    }
  }

  /** NameKeyInverse for the constants 0 to 2. */
  lemma NameKeysFrom0(c: ConfigEnum)
    requires 0 <= c as int < 3
    ensures NameKey(c.Name()) == c as int
  {
    if c == 0 {
      assert c.Name() == "SAM_RETRY_INITIAL_WAIT_SECONDS";
      assert NameKey("SAM_RETRY_INITIAL_WAIT_SECONDS") == 0;
    } else if c == 1 {
      assert c.Name() == "SAM_RETRY_MAXIMUM_WAIT_SECONDS";
      assert NameKey("SAM_RETRY_MAXIMUM_WAIT_SECONDS") == 1;
    } else {
      assert c.Name() == "SAM_OPERATION_TIMEOUT_SECONDS";
      assert NameKey("SAM_OPERATION_TIMEOUT_SECONDS") == 2;
    }
  }

  /** NameKeyInverse for the constants 3 to 5. */
  lemma NameKeysFrom3(c: ConfigEnum)
    requires 3 <= c as int < 6
    ensures NameKey(c.Name()) == c as int
  {
    if c == 3 {
      assert c.Name() == "LOAD_BULK_ARRAY_FILES_MAX";
      assert NameKey("LOAD_BULK_ARRAY_FILES_MAX") == 3;
    } else if c == 4 {
      assert c.Name() == "LOAD_BULK_FILES_MAX";
      assert NameKey("LOAD_BULK_FILES_MAX") == 4;
    } else {
      assert c.Name() == "LOAD_CONCURRENT_FILES";
      assert NameKey("LOAD_CONCURRENT_FILES") == 5;
    }
  }

  /** NameKeyInverse for the constants 6 to 8. */
  lemma NameKeysFrom6(c: ConfigEnum)
    requires 6 <= c as int < 9
    ensures NameKey(c.Name()) == c as int
  {
    if c == 6 {
      assert c.Name() == "LOAD_CONCURRENT_INGESTS";
      assert NameKey("LOAD_CONCURRENT_INGESTS") == 6;
    } else if c == 7 {
      assert c.Name() == "LOAD_DRIVER_WAIT_SECONDS";
      assert NameKey("LOAD_DRIVER_WAIT_SECONDS") == 7;
    } else {
      assert c.Name() == "LOAD_HISTORY_COPY_CHUNK_SIZE";
      assert NameKey("LOAD_HISTORY_COPY_CHUNK_SIZE") == 8;
    }
  }

  /** NameKeyInverse for the constants 9 to 11. */
  lemma NameKeysFrom9(c: ConfigEnum)
    requires 9 <= c as int < 12
    ensures NameKey(c.Name()) == c as int
  {
    if c == 9 {
      assert c.Name() == "LOAD_HISTORY_WAIT_SECONDS";
      assert NameKey("LOAD_HISTORY_WAIT_SECONDS") == 9;
    } else if c == 10 {
      assert c.Name() == "FIRESTORE_SNAPSHOT_BATCH_SIZE";
      assert NameKey("FIRESTORE_SNAPSHOT_BATCH_SIZE") == 10;
    } else {
      assert c.Name() == "FIRESTORE_SNAPSHOT_CACHE_SIZE";
      assert NameKey("FIRESTORE_SNAPSHOT_CACHE_SIZE") == 11;
    }
  }

  /** NameKeyInverse for the constants 12 to 14. */
  lemma NameKeysFrom12(c: ConfigEnum)
    requires 12 <= c as int < 15
    ensures NameKey(c.Name()) == c as int
  {
    if c == 12 {
      assert c.Name() == "FIRESTORE_VALIDATE_BATCH_SIZE";
      assert NameKey("FIRESTORE_VALIDATE_BATCH_SIZE") == 12;
    } else if c == 13 {
      assert c.Name() == "FIRESTORE_QUERY_BATCH_SIZE";
      assert NameKey("FIRESTORE_QUERY_BATCH_SIZE") == 13;
    } else {
      assert c.Name() == "AUTH_CACHE_TIMEOUT_SECONDS";
      assert NameKey("AUTH_CACHE_TIMEOUT_SECONDS") == 14;
    }
  }

  /** NameKeyInverse for the constants 15 to 17. */
  lemma NameKeysFrom15(c: ConfigEnum)
    requires 15 <= c as int < 18
    ensures NameKey(c.Name()) == c as int
  {
    if c == 15 {
      assert c.Name() == "AUTH_CACHE_SIZE";
      assert NameKey("AUTH_CACHE_SIZE") == 15;
    } else if c == 16 {
      assert c.Name() == "ALLOW_REUSE_EXISTING_BUCKETS";
      assert NameKey("ALLOW_REUSE_EXISTING_BUCKETS") == 16;
    } else {
      assert c.Name() == "SAM_TIMEOUT_FAULT";
      assert NameKey("SAM_TIMEOUT_FAULT") == 17;
    }
  }

  /** NameKeyInverse for the constants 18 to 20. */
  lemma NameKeysFrom18(c: ConfigEnum)
    requires 18 <= c as int < 21
    ensures NameKey(c.Name()) == c as int
  {
    if c == 18 {
      assert c.Name() == "CREATE_ASSET_FAULT";
      assert NameKey("CREATE_ASSET_FAULT") == 18;
    } else if c == 19 {
      assert c.Name() == "LOAD_LOCK_CONFLICT_STOP_FAULT";
      assert NameKey("LOAD_LOCK_CONFLICT_STOP_FAULT") == 19;
    } else {
      assert c.Name() == "LOAD_LOCK_CONFLICT_CONTINUE_FAULT";
      assert NameKey("LOAD_LOCK_CONFLICT_CONTINUE_FAULT") == 20;
    }
  }

  /** NameKeyInverse for the constants 21 to 23. */
  lemma NameKeysFrom21(c: ConfigEnum)
    requires 21 <= c as int < 24
    ensures NameKey(c.Name()) == c as int
  {
    if c == 21 {
      assert c.Name() == "LOAD_SKIP_FILE_LOAD";
      assert NameKey("LOAD_SKIP_FILE_LOAD") == 21;
    } else if c == 22 {
      assert c.Name() == "BUCKET_LOCK_CONFLICT_STOP_FAULT";
      assert NameKey("BUCKET_LOCK_CONFLICT_STOP_FAULT") == 22;
    } else {
      assert c.Name() == "BUCKET_LOCK_CONFLICT_CONTINUE_FAULT";
      assert NameKey("BUCKET_LOCK_CONFLICT_CONTINUE_FAULT") == 23;
    }
  }

  /** NameKeyInverse for the constant 24. */
  lemma NameKeysFrom24(c: ConfigEnum)
    requires c == 24
    ensures NameKey(c.Name()) == c as int
  {
    assert c.Name() == "DATASET_DELETE_LOCK_CONFLICT_STOP_FAULT";
    assert NameKey("DATASET_DELETE_LOCK_CONFLICT_STOP_FAULT") == 24;
  }

  /** NameKeyInverse for the constant 25. */
  lemma NameKeysFrom25(c: ConfigEnum)
    requires c == 25
    ensures NameKey(c.Name()) == c as int
  {
    assert c.Name() == "DATASET_DELETE_LOCK_CONFLICT_CONTINUE_FAULT";
    assert NameKey("DATASET_DELETE_LOCK_CONFLICT_CONTINUE_FAULT") == 25;
  }

  /** NameKeyInverse for the constant 26. */
  lemma NameKeysFrom26(c: ConfigEnum)
    requires c == 26
    ensures NameKey(c.Name()) == c as int
  {
    assert c.Name() == "SNAPSHOT_DELETE_LOCK_CONFLICT_STOP_FAULT";
    assert NameKey("SNAPSHOT_DELETE_LOCK_CONFLICT_STOP_FAULT") == 26;
  }

  /** NameKeyInverse for the constant 27. */
  lemma NameKeysFrom27(c: ConfigEnum)
    requires c == 27
    ensures NameKey(c.Name()) == c as int
  {
    assert c.Name() == "SNAPSHOT_DELETE_LOCK_CONFLICT_CONTINUE_FAULT";
    assert NameKey("SNAPSHOT_DELETE_LOCK_CONFLICT_CONTINUE_FAULT") == 27;
  }

  /** NameKeyInverse for the constant 28. */
  lemma NameKeysFrom28(c: ConfigEnum)
    requires c == 28
    ensures NameKey(c.Name()) == c as int
  {
    assert c.Name() == "FILE_INGEST_LOCK_CONFLICT_STOP_FAULT";
    assert NameKey("FILE_INGEST_LOCK_CONFLICT_STOP_FAULT") == 28;
  }

  /** NameKeyInverse for the constant 29. */
  lemma NameKeysFrom29(c: ConfigEnum)
    requires c == 29
    ensures NameKey(c.Name()) == c as int
  {
    assert c.Name() == "FILE_INGEST_LOCK_CONFLICT_CONTINUE_FAULT";
    assert NameKey("FILE_INGEST_LOCK_CONFLICT_CONTINUE_FAULT") == 29;
  }

  /** NameKeyInverse for the constant 30. */
  lemma NameKeysFrom30(c: ConfigEnum)
    requires c == 30
    ensures NameKey(c.Name()) == c as int
  {
    assert c.Name() == "FILE_INGEST_LOCK_RETRY_FAULT";
    assert NameKey("FILE_INGEST_LOCK_RETRY_FAULT") == 30;
  }

  /** NameKeyInverse for the constant 31. */
  lemma NameKeysFrom31(c: ConfigEnum)
    requires c == 31
    ensures NameKey(c.Name()) == c as int
  {
    assert c.Name() == "FILE_INGEST_LOCK_FATAL_FAULT";
    assert NameKey("FILE_INGEST_LOCK_FATAL_FAULT") == 31;
  }

  /** NameKeyInverse for the constant 32. */
  lemma NameKeysFrom32(c: ConfigEnum)
    requires c == 32
    ensures NameKey(c.Name()) == c as int
  {
    assert c.Name() == "FILE_INGEST_UNLOCK_RETRY_FAULT";
    assert NameKey("FILE_INGEST_UNLOCK_RETRY_FAULT") == 32;
  }

  /** NameKeyInverse for the constant 33. */
  lemma NameKeysFrom33(c: ConfigEnum)
    requires c == 33
    ensures NameKey(c.Name()) == c as int
  {
    assert c.Name() == "FILE_INGEST_UNLOCK_FATAL_FAULT";
    assert NameKey("FILE_INGEST_UNLOCK_FATAL_FAULT") == 33;
  }

  /** NameKeyInverse for the constant 34. */
  lemma NameKeysFrom34(c: ConfigEnum)
    requires c == 34
    ensures NameKey(c.Name()) == c as int
  {
    assert c.Name() == "FILE_DELETE_LOCK_CONFLICT_STOP_FAULT";
    assert NameKey("FILE_DELETE_LOCK_CONFLICT_STOP_FAULT") == 34;
  }

  /** NameKeyInverse for the constant 35. */
  lemma NameKeysFrom35(c: ConfigEnum)
    requires c == 35
    ensures NameKey(c.Name()) == c as int
  {
    assert c.Name() == "FILE_DELETE_LOCK_CONFLICT_CONTINUE_FAULT";
    assert NameKey("FILE_DELETE_LOCK_CONFLICT_CONTINUE_FAULT") == 35;
  }

  /** NameKeyInverse for the constant 36. */
  lemma NameKeysFrom36(c: ConfigEnum)
    requires c == 36
    ensures NameKey(c.Name()) == c as int
  {
    assert c.Name() == "TABLE_INGEST_LOCK_CONFLICT_STOP_FAULT";
    assert NameKey("TABLE_INGEST_LOCK_CONFLICT_STOP_FAULT") == 36;
  }

  /** NameKeyInverse for the constant 37. */
  lemma NameKeysFrom37(c: ConfigEnum)
    requires c == 37
    ensures NameKey(c.Name()) == c as int
  {
    assert c.Name() == "TABLE_INGEST_LOCK_CONFLICT_CONTINUE_FAULT";
    assert NameKey("TABLE_INGEST_LOCK_CONFLICT_CONTINUE_FAULT") == 37;
  }

  /** NameKeyInverse for the constant 38. */
  lemma NameKeysFrom38(c: ConfigEnum)
    requires c == 38
    ensures NameKey(c.Name()) == c as int
  {
    assert c.Name() == "SOFT_DELETE_LOCK_CONFLICT_STOP_FAULT";
    assert NameKey("SOFT_DELETE_LOCK_CONFLICT_STOP_FAULT") == 38;
  }

  /** NameKeyInverse for the constant 39. */
  lemma NameKeysFrom39(c: ConfigEnum)
    requires c == 39
    ensures NameKey(c.Name()) == c as int
  {
    assert c.Name() == "SOFT_DELETE_LOCK_CONFLICT_CONTINUE_FAULT";
    assert NameKey("SOFT_DELETE_LOCK_CONFLICT_CONTINUE_FAULT") == 39;
  }

  /** NameKeyInverse for the constant 40. */
  lemma NameKeysFrom40(c: ConfigEnum)
    requires c == 40
    ensures NameKey(c.Name()) == c as int
  {
    assert c.Name() == "DATASET_GRANT_ACCESS_FAULT";
    assert NameKey("DATASET_GRANT_ACCESS_FAULT") == 40;
  }

  /** NameKeyInverse for the constant 41. */
  lemma NameKeysFrom41(c: ConfigEnum)
    requires c == 41
    ensures NameKey(c.Name()) == c as int
  {
    assert c.Name() == "SNAPSHOT_GRANT_ACCESS_FAULT";
    assert NameKey("SNAPSHOT_GRANT_ACCESS_FAULT") == 41;
  }

  /** NameKeyInverse for the constants 42 to 44. */
  lemma NameKeysFrom42(c: ConfigEnum)
    requires 42 <= c as int < 45
    ensures NameKey(c.Name()) == c as int
  {
    if c == 42 {
      assert c.Name() == "SNAPSHOT_GRANT_FILE_ACCESS_FAULT";
      assert NameKey("SNAPSHOT_GRANT_FILE_ACCESS_FAULT") == 42;
    } else if c == 43 {
      assert c.Name() == "FIRESTORE_RETRIEVE_FAULT";
      assert NameKey("FIRESTORE_RETRIEVE_FAULT") == 43;
    } else {
      assert c.Name() == "LIVENESS_FAULT";
      assert NameKey("LIVENESS_FAULT") == 44;
    }
  }

  /** NameKeyInverse for the constants 45 to 47. */
  lemma NameKeysFrom45(c: ConfigEnum)
    requires 45 <= c as int < 48
    ensures NameKey(c.Name()) == c as int
  {
    if c == 45 {
      assert c.Name() == "CRITICAL_SYSTEM_FAULT";
      assert NameKey("CRITICAL_SYSTEM_FAULT") == 45;
    } else if c == 46 {
      assert c.Name() == "UNIT_TEST_SIMPLE_FAULT";
      assert NameKey("UNIT_TEST_SIMPLE_FAULT") == 46;
    } else {
      assert c.Name() == "UNIT_TEST_COUNTED_FAULT";
      assert NameKey("UNIT_TEST_COUNTED_FAULT") == 47;
    }
  }

  /** NameKey sees a string only through its lower-cased characters. */
  lemma NameKeyIgnoresCase(a: string, b: string)
    requires EqualsIgnoreCase(a, b)
    ensures NameKey(a) == NameKey(b)
  {
    ToLowerAt(a);
    ToLowerAt(b);
    assert |a| == |ToLower(a)| == |ToLower(b)| == |b|;
    forall i | 0 <= i < |a|
      ensures ToLowerChar(a[i]) == ToLowerChar(b[i])
    {
      assert ToLowerChar(a[i]) == ToLower(a)[i] == ToLower(b)[i] == ToLowerChar(b[i]);
    }
  }

  /** The names of the constants are distinct ignoring case, so at most one
      constant answers to any name. */
  lemma NamesDistinct(c: ConfigEnum, d: ConfigEnum)
    requires EqualsIgnoreCase(c.Name(), d.Name())
    ensures c == d
  {
    NameKeyInverse(c);
    NameKeyInverse(d);
    NameKeyIgnoresCase(c.Name(), d.Name());
  }

  /** Every constant is found by its own name, written in any case. */
  lemma LookupRoundTrip(c: ConfigEnum, apiName: string)
    requires EqualsIgnoreCase(apiName, c.Name())
    ensures LookupByApiName(Some(apiName)) == Ok(c)
  {
    var values := AllValues();
    assert values[c as int] == c;
    forall j | 0 <= j < c as int
      ensures !Matches(values[j], Some(apiName))
    {
      var d := j as ConfigEnum;
      assert values[j] == d;
      if EqualsIgnoreCase(d.Name(), apiName) {
        NamesDistinct(d, c);
      }
    }
    LookupFirst(values, Some(apiName), c as int);
  }

}
