/**
 * The activity log repository (data/repository/LogRepositoryImpl.kt). The
 * clock read by `logEvent` is the parameter `now`.
 */
module LogRepository {
  import opened LogTable

  class LogRepositoryImpl {
    const dao: LogDao

    constructor (dao: LogDao)
      ensures this.dao == dao
    {
      this.dao := dao;
    }

    /** `getAllLogs`: the DAO's ordered view, unchanged. */
    function GetAllLogs(): (r: seq<LogEntity>)
      reads dao
      ensures multiset(r) == multiset(dao.rows)
      ensures forall i, j :: 0 <= i < j < |r| ==> r[i].timestamp >= r[j].timestamp
    {
      dao.GetAllLogs()
    }

    /**
     * `logEvent`: stores one record with the given name, type and message,
     * stamped `now`, under the next auto-generated id.
     */
    method LogEvent(targetName: string, eventType: LogEventType, message: string, now: int)
      requires Valid(dao.Contents())
      modifies dao
      ensures Valid(dao.Contents())
      ensures dao.Contents() == Insert(old(dao.Contents()), NewLog(targetName, eventType, now, message)).value
      ensures dao.rows == old(dao.rows) + [LogEntity(old(dao.sequence) + 1, targetName, eventType, now, message)]
    {
      var log := NewLog(targetName, eventType, now, message);
      AutoIdFresh(dao.Contents(), log);
      var ok := dao.InsertLog(log);
    }

    /** `clearAll` */
    method ClearAll()
      requires Valid(dao.Contents())
      modifies dao
      ensures Valid(dao.Contents())
      ensures dao.rows == [] && dao.sequence == old(dao.sequence)
    {
      dao.ClearLogs();
    }
  }
}
