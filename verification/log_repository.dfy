/** CommunicationLogRepository in mock mode: the communication logs kept in
    memory, with lookups, filters, deletion and update. */
module LogRepository {
  import opened Wrappers
  import opened Exceptions
  import opened Seqs
  import opened MockStores
  import opened CommunicationLogs

  type LogStore = Store<CommunicationLog>

  const NotFound: string := "Communication log not found: "
  const NotFoundForUpdate: string := "Communication log not found for update: "

  function LogId(l: CommunicationLog): int {
    l.communicationId
  }

  /** create: stores the log as given (its id is not assigned). */
  function CreateLog(st: LogStore, l: CommunicationLog): (r: (LogStore, CommunicationLog))
    ensures r.1 == l && r.0.storage == st.storage + [l] && r.0.nextMockId == st.nextMockId + 1
  {
    Create(st, l)
  }

  function GetLogById(st: LogStore, id: int): (r: Result<CommunicationLog, Exception>)
    ensures r.Ok? <==> exists i :: 0 <= i < |st.storage| && st.storage[i].communicationId == id
    ensures r.Ok? ==> r.value.communicationId == id && r.value in st.storage
    ensures r.Err? ==> r.error == Database(DatabaseException(NotFound + Text.IntToDecimal(id), RecordNotFound))
  {
    GetById(st, id, LogId, NotFound)
  }

  function GetAllLogs(st: LogStore): (r: seq<CommunicationLog>)
    ensures r == st.storage
  {
    st.storage
  }

  /** The selection predicates of the queries; the date range is inclusive at both ends. */
  function ByAccount(accountId: int): CommunicationLog -> bool {
    (l: CommunicationLog) => l.accountId == accountId
  }

  function ByBorrower(borrowerId: int): CommunicationLog -> bool {
    (l: CommunicationLog) => l.borrowerId == borrowerId
  }

  function ByChannel(channel: CommunicationLogs.ChannelType): CommunicationLog -> bool {
    (l: CommunicationLog) => l.channelType == channel
  }

  function ByStatus(status: MessageStatus): CommunicationLog -> bool {
    (l: CommunicationLog) => l.messageStatus == status
  }

  function ByDateRange(from: int, to: int): CommunicationLog -> bool {
    (l: CommunicationLog) => from <= l.createdAt <= to
  }

  function GetLogsByAccountId(st: LogStore, accountId: int): (r: seq<CommunicationLog>)
    ensures forall l :: l in r ==> l in st.storage && l.accountId == accountId
    ensures forall i :: 0 <= i < |st.storage| && st.storage[i].accountId == accountId ==> st.storage[i] in r
  {
    Query(st, ByAccount(accountId))
  }

  function GetLogsByBorrowerId(st: LogStore, borrowerId: int): (r: seq<CommunicationLog>)
    ensures forall l :: l in r ==> l in st.storage && l.borrowerId == borrowerId
    ensures forall i :: 0 <= i < |st.storage| && st.storage[i].borrowerId == borrowerId ==> st.storage[i] in r
  {
    Query(st, ByBorrower(borrowerId))
  }

  function GetLogsByChannelType(st: LogStore, channel: CommunicationLogs.ChannelType): (r: seq<CommunicationLog>)
    ensures forall l :: l in r ==> l in st.storage && l.channelType == channel
    ensures forall i :: 0 <= i < |st.storage| && st.storage[i].channelType == channel ==> st.storage[i] in r
  {
    Query(st, ByChannel(channel))
  }

  function GetLogsByStatus(st: LogStore, status: MessageStatus): (r: seq<CommunicationLog>)
    ensures forall l :: l in r ==> l in st.storage && l.messageStatus == status
    ensures forall i :: 0 <= i < |st.storage| && st.storage[i].messageStatus == status ==> st.storage[i] in r
  {
    Query(st, ByStatus(status))
  }

  function GetLogsByDateRange(st: LogStore, from: int, to: int): (r: seq<CommunicationLog>)
    ensures forall l :: l in r ==> l in st.storage && from <= l.createdAt <= to
    ensures forall i :: 0 <= i < |st.storage| && from <= st.storage[i].createdAt <= to ==> st.storage[i] in r
  {
    Query(st, ByDateRange(from, to))
  }

  /** A log created exactly at either bound is found; an empty window at a
      single instant finds exactly the logs of that instant. */
  lemma DateRangeInclusive(st: LogStore, l: CommunicationLog, t: int)
    requires l in st.storage && l.createdAt == t
    ensures l in GetLogsByDateRange(st, t, t)
    ensures l in GetLogsByDateRange(st, t, t + 1) && l in GetLogsByDateRange(st, t - 1, t)
  {
  }

  /** A window whose start lies after its end selects nothing. */
  lemma EmptyRangeFindsNothing(st: LogStore, from: int, to: int)
    requires from > to
    ensures GetLogsByDateRange(st, from, to) == []
  {
    FilterNone(st.storage, ByDateRange(from, to));
  }

  function DeleteLog(st: LogStore, id: int): (r: (LogStore, bool))
    ensures r.1 <==> exists i :: 0 <= i < |st.storage| && st.storage[i].communicationId == id
    ensures !r.1 ==> r.0 == st
    ensures r.1 ==> |r.0.storage| == |st.storage| - 1 && r.0.nextMockId == st.nextMockId
  {
    DeleteById(st, id, LogId)
  }

  function UpdateLog(st: LogStore, l: CommunicationLog): (r: Result<(LogStore, CommunicationLog), Exception>)
    ensures r.Ok? <==> exists i :: 0 <= i < |st.storage| && st.storage[i].communicationId == l.communicationId
    ensures r.Ok? ==> |r.value.0.storage| == |st.storage| && l in r.value.0.storage && r.value.1 == l
    ensures r.Err? ==> r.error == Database(DatabaseException(NotFoundForUpdate + Text.IntToDecimal(l.communicationId), RecordNotFound))
  {
    Update(st, l, LogId, NotFoundForUpdate)
  }

  /** Each query result grows by a newly created log exactly when the log
      matches it, at the end, so every result keeps storage order. */
  lemma QueriesAfterCreate(st: LogStore, l: CommunicationLog, accountId: int, status: MessageStatus, from: int, to: int)
    ensures GetLogsByAccountId(CreateLog(st, l).0, accountId)
            == GetLogsByAccountId(st, accountId) + (if l.accountId == accountId then [l] else [])
    ensures GetLogsByStatus(CreateLog(st, l).0, status)
            == GetLogsByStatus(st, status) + (if l.messageStatus == status then [l] else [])
    ensures GetLogsByDateRange(CreateLog(st, l).0, from, to)
            == GetLogsByDateRange(st, from, to) + (if from <= l.createdAt <= to then [l] else [])
  {
    QueryAfterCreate(st, l, ByAccount(accountId));
    QueryAfterCreate(st, l, ByStatus(status));
    QueryAfterCreate(st, l, ByDateRange(from, to));
  }

  /** A stored log whose id no other log carries can be fetched, updated
      in place and deleted. */
  lemma LookupUpdateDelete(st: LogStore, l: CommunicationLog, l2: CommunicationLog)
    requires forall i :: 0 <= i < |st.storage| ==> st.storage[i].communicationId != l.communicationId
    requires l2.communicationId == l.communicationId
    ensures GetLogById(CreateLog(st, l).0, l.communicationId) == Ok(l)
    ensures UpdateLog(CreateLog(st, l).0, l2) == Ok((Store(st.storage + [l2], st.nextMockId + 1), l2))
    ensures DeleteLog(CreateLog(st, l).0, l.communicationId) == (Store(st.storage, st.nextMockId + 1), true)
  {
    CreateThenLookup(st, l, LogId, NotFound);
    var s := CreateLog(st, l).0.storage;
    var k := FirstIndex(s, HasId(LogId, l.communicationId)).value;
    assert HasId(LogId, l.communicationId)(s[|st.storage|]);
    assert k == |st.storage|;
    assert s[k := l2] == st.storage + [l2];
  }

  /** Logs built by the constructor carry id 0 and the store never assigns
      one (`MockStores.IdsNeverAssigned`), so a store holding only such logs
      answers every other id with RecordNotFound. */
  lemma FreshLogsUnreachableById(st: LogStore, id: int)
    requires forall i :: 0 <= i < |st.storage| ==> st.storage[i].communicationId == 0
    requires id != 0
    ensures GetLogById(st, id).Err?
  {
  }
}
