/**
 * The sample controller: construction of physical samples, and saving and
 * deleting them through the sample store, guarded by a write-permission check
 * on the sample's entry, with an optional search-index rebuild afterwards.
 */
module SampleControl {
  import opened Wrappers
  import EntryModel

  /** A timestamp, treated as an opaque value. */
  datatype Date = Date(millis: int)

  /** The acting user. */
  datatype Account = Account(email: string)

  /**
   * The kind of a storage location. Only `TUBE` is singled out by the
   * controller; the other kinds are told apart by name.
   */
  datatype StorageType = Tube | OtherStorage(kind: string)

  /** A physical storage location. */
  class Storage {
    const storageType: StorageType

    constructor (storageType: StorageType)
      ensures this.storageType == storageType
    {
      this.storageType := storageType;
    }
  }

  /** A physical sample of an entry, kept in a storage location. */
  class Sample {
    var sampleLabel: Option<string>
    var depositor: Option<string>
    var notes: Option<string>
    var uuid: Option<string>
    var creationTime: Option<Date>
    var modificationTime: Option<Date>
    var entry: EntryModel.Entry?
    var storage: Storage?

    /** `new Sample()`: every field null. */
    constructor ()
      ensures sampleLabel == None && depositor == None && notes == None && uuid == None
      ensures creationTime == None && modificationTime == None
      ensures entry == null && storage == null
    {
      sampleLabel, depositor, notes, uuid := None, None, None, None;
      creationTime, modificationTime := None, None;
      entry, storage := null, null;
    }
  }

  /** The two exceptions the controller raises. */
  datatype ControllerError =
    | PermissionDenied   // PermissionException
    | ControllerFailure  // ControllerException

  datatype Result<T> = Success(value: T) | Failure(error: ControllerError)

  /** What a query of the sample store can answer: an exception, null, or rows. */
  datatype DaoReply<T> = DaoException | NullReply | Rows(rows: T)

  /** Which store operation of a deletion fails, if any. */
  datatype DeleteFault = NoFault | SampleDeleteFails | StorageDeleteFails

  /** The persistent samples and storage locations. */
  class SampleDao {
    var samples: set<Sample>
    var storages: set<Storage>

    constructor (samples: set<Sample>, storages: set<Storage>)
      ensures this.samples == samples && this.storages == storages
    {
      this.samples := samples;
      this.storages := storages;
    }
  }

  /**
   * `createSample(label, depositor, notes, uuid, creationTime, modificationTime)`:
   * a new, unsaved sample carrying exactly the six given values.
   */
  method CreateSample(sampleLabel: Option<string>, depositor: Option<string>, notes: Option<string>,
                      uuid: Option<string>, creationTime: Option<Date>, modificationTime: Option<Date>)
    returns (sample: Sample)
    ensures fresh(sample)
    ensures sample.sampleLabel == sampleLabel && sample.depositor == depositor && sample.notes == notes
    ensures sample.uuid == uuid && sample.creationTime == creationTime
    ensures sample.modificationTime == modificationTime
    ensures sample.entry == null && sample.storage == null
  {
    sample := new Sample();
    sample.sampleLabel := sampleLabel;
    sample.depositor := depositor;
    sample.notes := notes;
    sample.uuid := uuid;
    sample.creationTime := creationTime;
    sample.modificationTime := modificationTime;
  }

  /**
   * `createSample(label, depositor, notes)`: as above with a generated UUID,
   * the current time as creation time and no modification time. The UUID
   * generator and the clock are parameters.
   */
  method CreateSampleNow(sampleLabel: Option<string>, depositor: Option<string>, notes: Option<string>,
                         generatedUuid: string, now: Date)
    returns (sample: Sample)
    ensures fresh(sample)
    ensures sample.sampleLabel == sampleLabel && sample.depositor == depositor && sample.notes == notes
    ensures sample.uuid == Some(generatedUuid) && sample.creationTime == Some(now)
    ensures sample.modificationTime == None
    ensures sample.entry == null && sample.storage == null
  {
    sample := CreateSample(sampleLabel, depositor, notes, Some(generatedUuid), Some(now), None);
  }

  /**
   * `getNumberOfSamples`: the number of samples the store lists for an entry,
   * 0 when it answers null; a store exception becomes a controller failure.
   */
  function NumberOfSamples(reply: DaoReply<seq<Sample>>): (r: Result<nat>)
    ensures r.Failure? <==> reply.DaoException?
    ensures r.Failure? ==> r.error == ControllerFailure
    ensures reply.NullReply? ==> r == Success(0)
    ensures reply.Rows? ==> r == Success(|reply.rows|)
  {
    match reply
    case DaoException => Failure(ControllerFailure)
    case NullReply => Success(0)
    case Rows(rows) => Success(|rows|)
  }

  /**
   * `retrieveSamplesByIdSet`: unlike the other queries, a store exception is
   * logged and answered with null rather than raised.
   */
  function RetrieveSamplesByIdSet(reply: DaoReply<seq<Sample>>): (r: Option<seq<Sample>>)
    ensures r == None <==> reply.DaoException? || reply.NullReply?
    ensures reply.Rows? ==> r == Some(reply.rows)
  {
    match reply
    case Rows(rows) => Some(rows)
    case _ => None
  }

  class SampleController {
    /** The sample store (`SampleDAO`). */
    const dao: SampleDao
    /** The permission engine's answer to "may this account write this entry?". */
    const mayWrite: (Account, EntryModel.Entry) -> bool
    /** How many search-index rebuilds have been scheduled. */
    ghost var rebuildsScheduled: nat

    constructor (dao: SampleDao, mayWrite: (Account, EntryModel.Entry) -> bool)
      ensures this.dao == dao && this.mayWrite == mayWrite && rebuildsScheduled == 0
    {
      this.dao := dao;
      this.mayWrite := mayWrite;
      rebuildsScheduled := 0;
    }

    /**
     * `hasWritePermission`: a controller failure when the sample or its entry
     * is missing, otherwise the permission engine's answer for its entry.
     */
    function HasWritePermission(account: Account, sample: Sample?): (r: Result<bool>)
      reads this, sample
      ensures r.Failure? <==> sample == null || sample.entry == null
      ensures r.Failure? ==> r.error == ControllerFailure
      ensures r.Success? ==> (r.value <==> mayWrite(account, sample.entry))
    {
      if sample == null || sample.entry == null then Failure(ControllerFailure)
      else Success(mayWrite(account, sample.entry))
    }

    /** The sample may be written by the account (and has an entry to check against). */
    predicate Permitted(account: Account, sample: Sample?)
      reads this, sample
    {
      HasWritePermission(account, sample) == Success(true)
    }

    /**
     * `saveSample(account, sample, scheduleIndexRebuild)`. The permission
     * check comes first: a missing sample or entry is a controller failure and
     * a refusal is a permission failure, and neither touches the store or
     * schedules a rebuild. A store failure is a controller failure with the
     * store unchanged. Otherwise the sample is stored, nothing else changes,
     * and a rebuild is scheduled exactly when asked for. `daoFails` says
     * whether the store's save throws, and `stored` is the object the store's
     * save answers with, which the controller returns.
     */
    method SaveSample(account: Account, sample: Sample?, scheduleIndexRebuild: bool, daoFails: bool,
                      stored: Sample)
      returns (r: Result<Sample>)
      modifies this, dao
      ensures r.Success? <==> Permitted(account, sample) && !daoFails
      ensures HasWritePermission(account, sample).Failure? ==> r == Failure(ControllerFailure)
      ensures HasWritePermission(account, sample) == Success(false) ==> r == Failure(PermissionDenied)
      ensures Permitted(account, sample) && daoFails ==> r == Failure(ControllerFailure)
      ensures r.Success? ==> r.value == stored
      ensures dao.storages == old(dao.storages)
      ensures dao.samples == if r.Success? then old(dao.samples) + {sample} else old(dao.samples)
      ensures rebuildsScheduled == old(rebuildsScheduled) + if r.Success? && scheduleIndexRebuild then 1 else 0
    {
      var check := HasWritePermission(account, sample);
      if check.Failure? {
        return Failure(check.error);
      }
      if !check.value {
        return Failure(PermissionDenied);
      }
      if daoFails {
        return Failure(ControllerFailure);
      }
      dao.samples := dao.samples + {sample};
      if scheduleIndexRebuild {
        rebuildsScheduled := rebuildsScheduled + 1;
      }
      r := Success(stored);
    }

    /** `saveSample(account, sample)`: saves and always schedules a rebuild. */
    method SaveSampleAndReindex(account: Account, sample: Sample?, daoFails: bool, stored: Sample)
      returns (r: Result<Sample>)
      modifies this, dao
      ensures r.Success? <==> Permitted(account, sample) && !daoFails
      ensures HasWritePermission(account, sample).Failure? ==> r == Failure(ControllerFailure)
      ensures HasWritePermission(account, sample) == Success(false) ==> r == Failure(PermissionDenied)
      ensures Permitted(account, sample) && daoFails ==> r == Failure(ControllerFailure)
      ensures r.Failure? ==> dao.samples == old(dao.samples) && rebuildsScheduled == old(rebuildsScheduled)
      ensures r.Success? ==> r.value == stored && dao.samples == old(dao.samples) + {sample}
      ensures r.Success? ==> rebuildsScheduled == old(rebuildsScheduled) + 1
      ensures dao.storages == old(dao.storages)
    {
      r := SaveSample(account, sample, true, daoFails, stored);
    }

    /**
     * Whether one of the store calls of a permitted deletion throws: the
     * sample's removal, or the storage's removal, which is only attempted
     * for a TUBE.
     */
    predicate StoreThrows(sample: Sample, fault: DeleteFault)
      reads sample
      requires sample.storage != null
    {
      fault.SampleDeleteFails? || (fault.StorageDeleteFails? && sample.storage.storageType == Tube)
    }

    /**
     * `deleteSample(account, sample, scheduleIndexRebuild)`. The permission
     * check comes first, with the same failures as saving and nothing removed.
     * Then the sample is removed, and its storage location too when that is a
     * TUBE; other samples and storage locations stay. `fault` says which store
     * call throws: when the sample's removal throws nothing changes; when the
     * tube's removal throws the sample is already gone. Either way the result
     * is a controller failure and no rebuild is scheduled. The sample must
     * have a storage location once the permission check has passed.
     */
    method DeleteSample(account: Account, sample: Sample?, scheduleIndexRebuild: bool, fault: DeleteFault)
      returns (r: Result<()>)
      requires Permitted(account, sample) ==> sample.storage != null
      modifies this, dao
      ensures HasWritePermission(account, sample).Failure? ==> r == Failure(ControllerFailure)
      ensures HasWritePermission(account, sample) == Success(false) ==> r == Failure(PermissionDenied)
      ensures !Permitted(account, sample) ==>
                dao.samples == old(dao.samples) && dao.storages == old(dao.storages)
      ensures Permitted(account, sample) ==>
                (r.Success? <==> !StoreThrows(sample, fault)) &&
                (r.Failure? ==> r.error == ControllerFailure)
      ensures Permitted(account, sample) && fault.SampleDeleteFails? ==>
                dao.samples == old(dao.samples) && dao.storages == old(dao.storages)
      ensures Permitted(account, sample) && !fault.SampleDeleteFails? ==>
                dao.samples == old(dao.samples) - {sample} &&
                dao.storages == old(dao.storages) -
                  (if sample.storage.storageType == Tube && r.Success? then {sample.storage} else {})
      ensures rebuildsScheduled == old(rebuildsScheduled) + if r.Success? && scheduleIndexRebuild then 1 else 0
    {
      var check := HasWritePermission(account, sample);
      if check.Failure? {
        return Failure(check.error);
      }
      if !check.value {
        return Failure(PermissionDenied);
      }
      var storage := sample.storage;
      if fault.SampleDeleteFails? {
        return Failure(ControllerFailure);
      }
      dao.samples := dao.samples - {sample};
      if storage.storageType == Tube {
        if fault.StorageDeleteFails? {
          return Failure(ControllerFailure);
        }
        dao.storages := dao.storages - {storage};
      }
      if scheduleIndexRebuild {
        rebuildsScheduled := rebuildsScheduled + 1;
      }
      r := Success(());
    }

    /**
     * `deleteSample(account, sample)`: deletes with a rebuild scheduled on
     * success; the outcome and the store are as for `deleteSample` with the
     * flag set.
     */
    method DeleteSampleAndReindex(account: Account, sample: Sample?, fault: DeleteFault)
      returns (r: Result<()>)
      requires Permitted(account, sample) ==> sample.storage != null
      modifies this, dao
      ensures HasWritePermission(account, sample).Failure? ==> r == Failure(ControllerFailure)
      ensures HasWritePermission(account, sample) == Success(false) ==> r == Failure(PermissionDenied)
      ensures !Permitted(account, sample) ==>
                dao.samples == old(dao.samples) && dao.storages == old(dao.storages)
      ensures Permitted(account, sample) ==>
                (r.Success? <==> !StoreThrows(sample, fault)) &&
                (r.Failure? ==> r.error == ControllerFailure)
      ensures Permitted(account, sample) && fault.SampleDeleteFails? ==>
                dao.samples == old(dao.samples) && dao.storages == old(dao.storages)
      ensures Permitted(account, sample) && !fault.SampleDeleteFails? ==>
                dao.samples == old(dao.samples) - {sample} &&
                dao.storages == old(dao.storages) -
                  (if sample.storage.storageType == Tube && r.Success? then {sample.storage} else {})
      ensures rebuildsScheduled == old(rebuildsScheduled) + if r.Success? then 1 else 0
    {
      r := DeleteSample(account, sample, true, fault);
    }
  }

  /**
   * Deleting, with permission, a sample kept in a TUBE and a sample kept in a
   * shared plate well: the tube goes with its sample, the plate stays, and
   * both samples are gone.
   */
  method TubeCascadeScenario(entry: EntryModel.Entry) returns (tubeKept: bool, plateKept: bool, samplesLeft: nat)
    ensures !tubeKept && plateKept && samplesLeft == 0
  {
    var tube := new Storage(Tube);
    var plate := new Storage(OtherStorage("PLATE96"));
    var inTube := CreateSample(Some("t1"), None, None, None, None, None);
    inTube.entry, inTube.storage := entry, tube;
    var inPlate := CreateSample(Some("p1"), None, None, None, None, None);
    inPlate.entry, inPlate.storage := entry, plate;
    var dao := new SampleDao({inTube, inPlate}, {tube, plate});
    var controller := new SampleController(dao, (a: Account, e: EntryModel.Entry) => true);
    var r1 := controller.DeleteSample(Account("a@x.org"), inTube, true, NoFault);
    var r2 := controller.DeleteSample(Account("a@x.org"), inPlate, true, NoFault);
    tubeKept := tube in dao.storages;
    plateKept := plate in dao.storages;
    samplesLeft := |dao.samples|;
  }
}
