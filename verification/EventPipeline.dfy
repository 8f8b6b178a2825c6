/** The event pipeline of the server: `IncomingEventListener.onMessage` runs INSERT, UPDATE
    and DELETE of `EventServiceImpl.processEvent` for each message, and any number of
    consumers do so at once on one table and one queue of notifications. */
module EventPipeline {
  import opened Text

  datatype Action = INSERT | DELETE | UPDATE | ERROR

  datatype EventDto = EventDto(id: Option<int>, name: Option<Str>, timestamp: Option<Str>, updatedBy: Option<int>)

  datatype Event = Event(id: Option<int>, name: Option<Str>, timestamp: Option<Str>, updatedBy: Option<int>)

  /** A row of the table `events`, without its key. */
  datatype Row = Row(name: Option<Str>, timestamp: Option<Str>, updatedBy: Option<int>)

  datatype EventStatusChange = EventStatusChange(eventDto: EventDto, action: Action)

  const MAX_USER_ID := 10000

  type UserId = n: int | 0 <= n < MAX_USER_ID

  // EventEventDtoMapper; None is a null entity

  function ConvertEntityToDto(entity: Option<Event>): EventDto {
    match entity
    case None => EventDto(None, None, None, None)
    case Some(e) => EventDto(e.id, e.name, e.timestamp, e.updatedBy)
  }

  function ConvertDtoToEntity(dto: EventDto): Event {
    Event(dto.id, dto.name, dto.timestamp, dto.updatedBy)
  }

  /** The mapper loses nothing in either direction, and makes an empty dto of no entity. */
  lemma MapperRoundTrip(dto: EventDto, entity: Event)
    ensures ConvertEntityToDto(None) == EventDto(None, None, None, None)
    ensures ConvertEntityToDto(Some(ConvertDtoToEntity(dto))) == dto
    ensures ConvertDtoToEntity(ConvertEntityToDto(Some(entity))) == entity
  {
  }

  // The table, with the generator of its keys

  datatype Db = Db(table: map<int, Row>, nextId: int)

  ghost predicate DbOk(db: Db) {
    forall id :: id in db.table ==> id < db.nextId
  }

  function RowOf(e: Event): Row {
    Row(e.name, e.timestamp, e.updatedBy)
  }

  /** `eventDao.save`: a row that is there is updated; otherwise one is added under a key
      that was never used. */
  function Save(db: Db, e: Event): (Db, Event) {
    if e.id.Some? && e.id.value in db.table then (db.(table := db.table[e.id.value := RowOf(e)]), e)
    else (Db(db.table[db.nextId := RowOf(e)], db.nextId + 1), e.(id := Some(db.nextId)))
  }

  function Delete(db: Db, e: Event): Db {
    if e.id.None? then db else db.(table := map id | id in db.table && id != e.id.value :: db.table[id])
  }

  /** The row that a save of the event replaces. */
  function Replaced(db: Db, e: Event): Option<Row> {
    if e.id.Some? && e.id.value in db.table then Some(db.table[e.id.value]) else None
  }

  /** A save of the event is rolled back; a key that was generated is not used again. */
  function Undo(db: Db, e: Event, before: Option<Row>): Db {
    if before.Some? && e.id.Some? then db.(table := db.table[e.id.value := before.value]) else Delete(db, e)
  }

  // One message, step by step. A step ends where another consumer may be seen in between.

  datatype Stage =
    | Received
    | Saved(before: Option<Row>)    // INSERT: the row is there, its notification is not
    | InsertNotified
    | Updated(before: Option<Row>)  // UPDATE: the row is saved again, its notification is not there
    | UpdateNotified
    | DeleteNotified                // DELETE: notified, the row is still there
    | Finished
    | Failed(notified: nat, rowLeft: bool)

  /** A consumer with its message: `dto` and `event` are the locals of that name, `before` the
      row a save has replaced. */
  datatype Worker = Worker(stage: Stage, incoming: EventDto, dto: EventDto, event: Event)

  datatype World = World(db: Db, log: seq<EventStatusChange>, workers: seq<Worker>)

  /** A message is taken from the queue; a consumer does its next step, with the random user
      and the time it would use; or that step throws and its transaction is rolled back. */
  datatype Move = Take(incoming: EventDto) | Advance(i: nat, user: UserId, time: Str) | Fail(i: nat)

  function Notify(w: World, dto: EventDto, action: Action): World {
    w.(log := w.log + [EventStatusChange(dto, action)])
  }

  function With(w: World, i: nat, worker: Worker): (r: World)
    requires i < |w.workers|
    ensures |r.workers| == |w.workers|
  {
    w.(workers := w.workers[i := worker])
  }

  function AdvanceWorker(w: World, i: nat, user: UserId, time: Str): World
    requires i < |w.workers|
  {
    var x := w.workers[i];
    match x.stage
    case Received =>
      var event := ConvertDtoToEntity(x.dto).(updatedBy := Some(user), timestamp := Some(time));
      var (db, saved) := Save(w.db, event);
      With(w.(db := db), i, x.(stage := Saved(Replaced(w.db, event)), event := saved))
    case Saved(_) =>
      var dto := ConvertEntityToDto(Some(x.event));
      With(Notify(w, dto, INSERT), i, x.(stage := InsertNotified, dto := dto))
    case InsertNotified =>
      var event := ConvertDtoToEntity(x.dto);
      var (db, saved) := Save(w.db, event);
      With(w.(db := db), i, x.(stage := Updated(Replaced(w.db, event)), event := saved))
    case Updated(_) =>
      With(Notify(w, x.dto, UPDATE), i, x.(stage := UpdateNotified, dto := ConvertEntityToDto(Some(x.event))))
    case UpdateNotified =>
      With(Notify(w, x.dto, DELETE), i, x.(stage := DeleteNotified, event := ConvertDtoToEntity(x.dto)))
    case DeleteNotified =>
      With(w.(db := Delete(w.db, x.event)), i, x.(stage := Finished))
    case Finished => w
    case Failed(_, _) => w
  }

  function FailWorker(w: World, i: nat): World
    requires i < |w.workers|
  {
    var x := w.workers[i];
    match x.stage
    case Received => With(w, i, x.(stage := Failed(0, false)))
    case Saved(before) => With(w.(db := Undo(w.db, x.event, before)), i, x.(stage := Failed(0, false)))
    case InsertNotified => With(w, i, x.(stage := Failed(1, true)))
    case Updated(before) => With(w.(db := Undo(w.db, x.event, before)), i, x.(stage := Failed(1, true)))
    case UpdateNotified => With(w, i, x.(stage := Failed(2, true)))
    case DeleteNotified => With(w, i, x.(stage := Failed(3, true)))
    case Finished => w
    case Failed(_, _) => w
  }

  function Step(w: World, m: Move): World {
    match m
    case Take(incoming) =>
      w.(workers := w.workers + [Worker(Received, incoming, incoming, ConvertDtoToEntity(incoming))])
    case Advance(i, user, time) => if i < |w.workers| then AdvanceWorker(w, i, user, time) else w
    case Fail(i) => if i < |w.workers| then FailWorker(w, i) else w
  }

  function Run(w: World, ms: seq<Move>): World
    decreases |ms|
  {
    if ms == [] then w else Run(Step(w, ms[0]), ms[1..])
  }

  function Initial(db: Db): World {
    World(db, [], [])
  }

  /** The row that a dto describes is in the table, under its id. */
  predicate Stored(db: Db, dto: EventDto) {
    && dto.id.Some? && dto.id.value in db.table
    && var row := db.table[dto.id.value];
       row.name == dto.name && row.timestamp == dto.timestamp && row.updatedBy == dto.updatedBy
  }

  /** The row under one key may have come, gone or changed; all others are as before. */
  ghost predicate OnlyKey(db: Db, after: Db, key: int) {
    forall id :: id != key ==>
      (id in after.table <==> id in db.table) && (id in db.table ==> after.table[id] == db.table[id])
  }

  /** The save of INSERT: the row that the message names, or a new one, holds the name of the
      message, the user and the time. */
  lemma InsertSaves(w: World, i: nat, user: UserId, time: Str)
    requires i < |w.workers| && w.workers[i].stage == Received
    ensures var dto := w.workers[i].dto;
            var t := AdvanceWorker(w, i, user, time);
            var key := if dto.id.Some? && dto.id.value in w.db.table then dto.id.value else w.db.nextId;
            && Stored(t.db, EventDto(Some(key), dto.name, Some(time), Some(user)))
            && OnlyKey(w.db, t.db, key) && t.log == w.log
  {
  }

  /** The save of UPDATE: the row that the dto names holds what the dto says. */
  lemma UpdateSaves(w: World, i: nat, user: UserId, time: Str)
    requires i < |w.workers| && w.workers[i].stage == InsertNotified
    ensures var dto := w.workers[i].dto;
            var t := AdvanceWorker(w, i, user, time);
            var key := if dto.id.Some? && dto.id.value in w.db.table then dto.id.value else w.db.nextId;
            && Stored(t.db, dto.(id := Some(key))) && OnlyKey(w.db, t.db, key) && t.log == w.log
  {
  }

  // What the log should hold

  /** The notifications about one row, in order. */
  function About(log: seq<EventStatusChange>, id: int): seq<EventStatusChange> {
    if log == [] then []
    else
      var last := log[|log| - 1];
      About(log[..|log| - 1], id) + if last.eventDto.id == Some(id) then [last] else []
  }

  /** How many notifications a consumer has sent. */
  function Notified(stage: Stage): (n: nat)
  {
    match stage
    case Received | Saved(_) => 0
    case InsertNotified | Updated(_) => 1
    case UpdateNotified => 2
    case DeleteNotified | Finished => 3
    case Failed(notified, _) => notified
  }

  function Lifecycle(dto: EventDto): seq<EventStatusChange> {
    [EventStatusChange(dto, INSERT), EventStatusChange(dto, UPDATE), EventStatusChange(dto, DELETE)]
  }

  /** A consumer that has taken a key for its event. */
  predicate HasId(x: Worker) {
    x.stage != Received && !(x.stage.Failed? && x.stage.notified == 0)
  }

  /** A consumer whose event is in the table. */
  predicate HasRow(x: Worker) {
    x.stage != Received && x.stage != Finished && !(x.stage.Failed? && !x.stage.rowLeft)
  }

  function Dto(x: Worker): EventDto {
    ConvertEntityToDto(Some(x.event))
  }

  /** The key of a consumer's event. */
  function Key(x: Worker): int {
    if x.event.id.Some? then x.event.id.value else 0
  }

  /** What a consumer has sent so far: the beginning of INSERT, UPDATE, DELETE, all about
      the same dto. */
  function Sent(x: Worker): seq<EventStatusChange> {
    var all, n := Lifecycle(Dto(x)), Notified(x.stage);
    if n <= 3 then all[..n] else all
  }
}
