/** The two classes of the server: `EventServiceImpl` and the listener that calls it. */
module EventService {
  import opened Text
  import opened EventPipeline

  /** One call of `processEvent` with nobody else at work. `deleted` is what the repository
      returns from a delete, which may be null. */
  function Process(db: Db, log: seq<EventStatusChange>, dto: EventDto, action: Action, user: UserId, time: Str,
                   deleted: Option<Event>): (Db, seq<EventStatusChange>, EventDto)
  {
    var event := ConvertDtoToEntity(dto);
    match action
    case INSERT =>
      var (after, saved) := Save(db, event.(updatedBy := Some(user), timestamp := Some(time)));
      (after, log + [EventStatusChange(ConvertEntityToDto(Some(saved)), INSERT)], ConvertEntityToDto(Some(saved)))
    case UPDATE =>
      var (after, saved) := Save(db, event);
      (after, log + [EventStatusChange(dto, UPDATE)], ConvertEntityToDto(Some(saved)))
    case DELETE =>
      (Delete(db, event), log + [EventStatusChange(dto, DELETE)], ConvertEntityToDto(deleted))
    case ERROR =>
      (db, log + [EventStatusChange(dto, ERROR)], dto)
  }

  /** Every call notifies once, of its own action; INSERT of the dto it returns, the others of
      the one they were given. INSERT and UPDATE leave the row of the dto they return, DELETE
      removes the row it was given, ERROR changes nothing. */
  lemma ProcessNotifiesOnce(db: Db, log: seq<EventStatusChange>, dto: EventDto, action: Action, user: UserId, time: Str,
                            deleted: Option<Event>)
    ensures var (after, notified, r) := Process(db, log, dto, action, user, time, deleted);
            && notified == log + [EventStatusChange(if action == INSERT then r else dto, action)]
            && match action
               case INSERT =>
                 && Stored(after, r) && OnlyKey(db, after, r.id.value)
                 && r.name == dto.name && r.timestamp == Some(time) && r.updatedBy == Some(user)
               case UPDATE => Stored(after, r) && OnlyKey(db, after, r.id.value) && r == dto.(id := r.id)
               case DELETE =>
                 if dto.id.None? then after == db
                 else dto.id.value !in after.table && OnlyKey(db, after, dto.id.value)
               case ERROR => after == db && r == dto
  {
  }

  /** The two steps of a consumer that make up one call, taken at once, do what the call does:
      to the table, the notifications and the consumer's dto. The listener drops what DELETE
      returns. */
  lemma TwoStepsAreOneCall(w: World, i: nat, user: UserId, time: Str, deleted: Option<Event>)
    requires i < |w.workers|
    requires w.workers[i].stage in {Received, InsertNotified, UpdateNotified}
    ensures var x := w.workers[i];
            var t := AdvanceWorker(AdvanceWorker(w, i, user, time), i, user, time);
            var action := if x.stage == Received then INSERT else if x.stage == InsertNotified then UPDATE else DELETE;
            var (db, log, dto) := Process(w.db, w.log, x.dto, action, user, time, deleted);
            && t.db == db && t.log == log
            && (if action == DELETE then t.workers[i].dto == x.dto && dto == ConvertEntityToDto(deleted)
                else t.workers[i].dto == dto)
  {
    var x := w.workers[i];
    var t := AdvanceWorker(w, i, user, time);
    match x.stage
    case Received =>
      assert t.workers[i].stage.Saved? && t.log == w.log;
    case InsertNotified =>
      assert t.workers[i].stage.Updated? && t.workers[i].dto == x.dto && t.log == w.log;
    case UpdateNotified =>
      assert t.workers[i].stage == DeleteNotified && t.workers[i].dto == x.dto && t.db == w.db;
      assert t.workers[i].event == ConvertDtoToEntity(x.dto);
  }

  /** The key a message's event gets: its own when there is such a row, a new one otherwise. */
  function KeyGiven(db: Db, incoming: EventDto): int {
    if incoming.id.Some? && incoming.id.value in db.table then incoming.id.value else db.nextId
  }

  class EventServiceImpl {
    var db: Db
    var processedEventQueue: seq<EventStatusChange>

    constructor (db: Db)
      ensures this.db == db && processedEventQueue == []
    {
      this.db := db;
      processedEventQueue := [];
    }

    /** The random user, the clock and what the repository returns from a delete are parameters;
        the delay of UPDATE is not modelled. */
    method ProcessEvent(eventDto: EventDto, action: Action, user: UserId, time: Str,
                        deleted: Option<Event>) returns (r: EventDto)
      modifies this
      ensures (db, processedEventQueue, r)
              == Process(old(db), old(processedEventQueue), eventDto, action, user, time, deleted)
    {
      var event := ConvertDtoToEntity(eventDto);
      var result := Some(event);
      match action {
        case INSERT =>
          event := event.(updatedBy := Some(user));
          event := event.(timestamp := Some(time));
          event := EventDaoSave(event);
          result := Some(event);
          SaveProcessedEvent(ConvertEntityToDto(Some(event)), action);
        case UPDATE =>
          event := UpdateEvent(event);
          result := Some(event);
          SaveProcessedEvent(eventDto, action);
        case DELETE =>
          SaveProcessedEvent(eventDto, action);
          db := Delete(db, event);
          result := deleted;
        case ERROR =>
          SaveProcessedEvent(eventDto, ERROR);
      }
      r := ConvertEntityToDto(result);
    }

    method SaveProcessedEvent(eventDto: EventDto, action: Action)
      modifies this`processedEventQueue
      ensures processedEventQueue == old(processedEventQueue) + [EventStatusChange(eventDto, action)]
    {
      processedEventQueue := processedEventQueue + [EventStatusChange(eventDto, action)];
    }

    method EventDaoSave(event: Event) returns (saved: Event)
      modifies this`db
      ensures (db, saved) == Save(old(db), event)
    {
      var (after, e) := Save(db, event);
      db, saved := after, e;
    }

    method UpdateEvent(event: Event) returns (saved: Event)
      modifies this`db
      ensures (db, saved) == Save(old(db), event)
    {
      saved := EventDaoSave(event);
    }
  }

  class IncomingEventListener {
    const eventService: EventServiceImpl

    constructor (eventService: EventServiceImpl)
      ensures this.eventService == eventService
    {
      this.eventService := eventService;
    }

    /** `message` is None when the object is not an EventDto. One message alone leaves the
        table as it was, without the row it named if there was one, and three notifications
        of one dto. */
    method OnMessage(message: Option<EventDto>, user: UserId, time: Str, deleted: Option<Event>)
      requires DbOk(eventService.db)
      modifies eventService
      ensures DbOk(eventService.db)
      ensures message == None ==>
                && eventService.db == old(eventService.db)
                && eventService.processedEventQueue == old(eventService.processedEventQueue)
      ensures message.Some? ==>
                var key := KeyGiven(old(eventService.db), message.value);
                var dto := EventDto(Some(key), message.value.name, Some(time), Some(user));
                && eventService.db.table == old(eventService.db.table) - {key}
                && eventService.processedEventQueue == old(eventService.processedEventQueue) + Lifecycle(dto)
    {
      if message.Some? {
        ghost var db0, key := eventService.db, KeyGiven(eventService.db, message.value);
        ghost var sent := EventDto(Some(key), message.value.name, Some(time), Some(user));
        var eventDto := message.value;
        eventDto := eventService.ProcessEvent(eventDto, INSERT, user, time, deleted);
        assert eventDto == sent && eventService.db.table == db0.table[key := RowOf(ConvertDtoToEntity(sent))];
        eventDto := eventService.ProcessEvent(eventDto, UPDATE, user, time, deleted);
        assert eventDto == sent && eventService.db.table == db0.table[key := RowOf(ConvertDtoToEntity(sent))];
        var _ := eventService.ProcessEvent(eventDto, DELETE, user, time, deleted);
        assert eventService.db.table == db0.table - {key};
      }
    }
  }
}
