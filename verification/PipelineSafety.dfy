/** What holds of every run of the event pipeline, for any number of consumers and any
    interleaving of their steps and failures. */
module PipelineSafety {
  import opened Text
  import opened EventPipeline

  // Whose a key is

  /** Some consumer has taken the key. */
  ghost predicate Claims(xs: seq<Worker>, id: int) {
    exists k :: 0 <= k < |xs| && HasId(xs[k]) && Key(xs[k]) == id
  }

  /** Some consumer's event is in the table under the key. */
  ghost predicate Owns(xs: seq<Worker>, id: int) {
    exists k :: 0 <= k < |xs| && HasRow(xs[k]) && Key(xs[k]) == id
  }

  ghost predicate OthersClaim(xs: seq<Worker>, i: nat, id: int) {
    exists k :: 0 <= k < |xs| && k != i && HasId(xs[k]) && Key(xs[k]) == id
  }

  ghost predicate OthersOwn(xs: seq<Worker>, i: nat, id: int) {
    exists k :: 0 <= k < |xs| && k != i && HasRow(xs[k]) && Key(xs[k]) == id
  }

  lemma ClaimsOrOthers(xs: seq<Worker>, i: nat, id: int)
    requires i < |xs|
    ensures Claims(xs, id) <==> (HasId(xs[i]) && Key(xs[i]) == id) || OthersClaim(xs, i, id)
    ensures Owns(xs, id) <==> (HasRow(xs[i]) && Key(xs[i]) == id) || OthersOwn(xs, i, id)
  {
    if HasId(xs[i]) && Key(xs[i]) == id {
      assert Claims(xs, id);
    }
    if HasRow(xs[i]) && Key(xs[i]) == id {
      assert Owns(xs, id);
    }
  }

  lemma OthersStay(xs: seq<Worker>, i: nat, x: Worker, id: int)
    requires i < |xs|
    ensures OthersClaim(xs[i := x], i, id) <==> OthersClaim(xs, i, id)
    ensures OthersOwn(xs[i := x], i, id) <==> OthersOwn(xs, i, id)
  {
    var ys := xs[i := x];
    assert forall k :: 0 <= k < |xs| && k != i ==> ys[k] == xs[k];
  }

  /** What a change of consumer `i` does to claims and rows. */
  lemma ClaimsAfter(xs: seq<Worker>, i: nat, x: Worker)
    requires i < |xs|
    ensures forall id :: Claims(xs[i := x], id) <==> (HasId(x) && Key(x) == id) || OthersClaim(xs, i, id)
    ensures forall id :: Owns(xs[i := x], id) <==> (HasRow(x) && Key(x) == id) || OthersOwn(xs, i, id)
    ensures forall id :: Claims(xs, id) <==> (HasId(xs[i]) && Key(xs[i]) == id) || OthersClaim(xs, i, id)
    ensures forall id :: Owns(xs, id) <==> (HasRow(xs[i]) && Key(xs[i]) == id) || OthersOwn(xs, i, id)
  {
    forall id
      ensures Claims(xs[i := x], id) <==> (HasId(x) && Key(x) == id) || OthersClaim(xs, i, id)
      ensures Owns(xs[i := x], id) <==> (HasRow(x) && Key(x) == id) || OthersOwn(xs, i, id)
      ensures Claims(xs, id) <==> (HasId(xs[i]) && Key(xs[i]) == id) || OthersClaim(xs, i, id)
      ensures Owns(xs, id) <==> (HasRow(xs[i]) && Key(xs[i]) == id) || OthersOwn(xs, i, id)
    {
      ClaimsOrOthers(xs, i, id);
      ClaimsOrOthers(xs[i := x], i, id);
      OthersStay(xs, i, x, id);
    }
  }

  // Invariant

  /** A consumer's event is its message, with a key, a user and a time. A key that was there
      from the start is the one the message named. */
  ghost predicate WorkerOk(base: Db, x: Worker) {
    && Notified(x.stage) <= 3
    && (x.stage == Received ==> x.dto == x.incoming)
    && (HasId(x) ==> x.event.id.Some? && x.event.name == x.incoming.name
                     && x.event.timestamp.Some? && x.event.updatedBy.Some?
                     && 0 <= x.event.updatedBy.value < MAX_USER_ID)
    && (HasId(x) && Key(x) in base.table ==> x.incoming.id == Some(Key(x)))
    && (HasId(x) && !x.stage.Saved? ==> x.dto == Dto(x))
    && (x.stage.Saved? ==> x.stage.before == if Key(x) in base.table then Some(base.table[Key(x)]) else None)
    && (x.stage.Updated? ==> x.stage.before == Some(RowOf(x.event)))
    && (x.stage.Failed? ==> (x.stage.rowLeft <==> x.stage.notified > 0))
  }

  /** Consumers have different keys, new ones or ones of rows that were there. */
  ghost predicate WorkersOk(base: Db, w: World) {
    && (forall i :: 0 <= i < |w.workers| ==> WorkerOk(base, w.workers[i]))
    && (forall i :: 0 <= i < |w.workers| && HasId(w.workers[i]) ==>
          Key(w.workers[i]) in base.table || base.nextId <= Key(w.workers[i]) < w.db.nextId)
    && (forall i :: 0 <= i < |w.workers| && HasId(w.workers[i]) ==> !OthersClaim(w.workers, i, Key(w.workers[i])))
  }

  /** The table holds the rows of the consumers that have one, and of those that were there at
      the start all that no consumer has taken. */
  ghost predicate RowsOk(base: Db, w: World) {
    && (forall id :: id in base.table && !Claims(w.workers, id) ==>
        id in w.db.table && w.db.table[id] == base.table[id])
    && (forall i :: 0 <= i < |w.workers| && HasRow(w.workers[i]) ==>
          Key(w.workers[i]) in w.db.table && w.db.table[Key(w.workers[i])] == RowOf(w.workers[i].event))
    && (forall i :: 0 <= i < |w.workers| && HasId(w.workers[i]) && !HasRow(w.workers[i]) ==>
        Key(w.workers[i]) !in w.db.table)
    && (forall id :: id in w.db.table ==> id in base.table || Owns(w.workers, id))
  }

  /** The notifications about a row are those its consumer has sent; there are no others. */
  ghost predicate LogOk(w: World) {
    && (forall i :: 0 <= i < |w.workers| && HasId(w.workers[i]) ==>
        About(w.log, Key(w.workers[i])) == Sent(w.workers[i]))
    && (forall id :: About(w.log, id) == [] || Claims(w.workers, id))
    && |w.log| == TotalNotified(w.workers)
  }

  ghost predicate Inv(base: Db, w: World) {
    DbOk(base) && base.nextId <= w.db.nextId && DbOk(w.db) && WorkersOk(base, w) && RowsOk(base, w) && LogOk(w)
  }

  function TotalNotified(xs: seq<Worker>): nat {
    if xs == [] then 0 else TotalNotified(xs[..|xs| - 1]) + Notified(xs[|xs| - 1].stage)
  }

  // What one change of a consumer keeps

  lemma {:induction false} TotalWith(xs: seq<Worker>, i: nat, x: Worker)
    requires i < |xs|
    ensures TotalNotified(xs[i := x]) == TotalNotified(xs) - Notified(xs[i].stage) + Notified(x.stage)
  {
    var n := |xs| - 1;
    if i == n {
      assert xs[i := x][..n] == xs[..n];
    } else {
      TotalWith(xs[..n], i, x);
      assert xs[i := x][..n] == xs[..n][i := x];
    }
  }

  lemma AboutSnoc(log: seq<EventStatusChange>, entry: EventStatusChange, id: int)
    ensures About(log + [entry], id) == About(log, id) + if entry.eventDto.id == Some(id) then [entry] else []
  {
    assert (log + [entry])[..|log|] == log;
  }

  /** The key of the consumer that changes is nobody else's. */
  ghost predicate KeyIsOwn(w: World, i: nat, x: Worker)
    requires i < |w.workers|
  {
    && (HasId(x) ==> !OthersClaim(w.workers, i, Key(x)))
    && (HasId(w.workers[i]) ==> Key(w.workers[i]) == Key(x))
  }

  lemma WorkersChange(base: Db, w: World, i: nat, x: Worker, db: Db)
    requires WorkersOk(base, w) && i < |w.workers| && w.db.nextId <= db.nextId
    requires WorkerOk(base, x) && KeyIsOwn(w, i, x)
    requires HasId(x) ==> Key(x) in base.table || base.nextId <= Key(x) < db.nextId
    ensures WorkersOk(base, With(w.(db := db), i, x))
  {
    var xs, ys := w.workers, w.workers[i := x];
    assert forall k :: 0 <= k < |xs| && k != i ==> ys[k] == xs[k];
    forall k | 0 <= k < |ys| && HasId(ys[k]) ensures !OthersClaim(ys, k, Key(ys[k])) {
      forall j | 0 <= j < |ys| && j != k && HasId(ys[j]) ensures Key(ys[j]) != Key(ys[k]) {
        KeysDiffer(base, w, i, x, j, k);
      }
    }
  }

  lemma KeysDiffer(base: Db, w: World, i: nat, x: Worker, j: nat, k: nat)
    requires WorkersOk(base, w) && i < |w.workers| && KeyIsOwn(w, i, x)
    requires j < |w.workers| && k < |w.workers| && j != k
    requires var ys := w.workers[i := x]; HasId(ys[j]) && HasId(ys[k])
    ensures var ys := w.workers[i := x]; Key(ys[j]) != Key(ys[k])
  {
    var xs, ys := w.workers, w.workers[i := x];
    assert j != i ==> ys[j] == xs[j];
    assert k != i ==> ys[k] == xs[k];
    assert i != j && i != k ==> !OthersClaim(xs, k, Key(xs[k]));
  }

  /** The table changes at one key, the consumer's, and as its change of stage demands. */
  ghost predicate TableFollows(base: Db, w: World, i: nat, x: Worker, db: Db)
    requires i < |w.workers|
  {
    var K := Key(x);
    && (forall id :: id != K ==> (id in db.table <==> id in w.db.table))
    && (forall id :: id != K && id in db.table && id in w.db.table ==> db.table[id] == w.db.table[id])
    && (HasRow(x) ==> K in db.table && db.table[K] == RowOf(x.event))
    && (HasId(x) && !HasRow(x) ==> K !in db.table)
    && (K in db.table ==> K in base.table || HasRow(x))
    && (!HasId(x) && K in base.table ==> K in db.table && db.table[K] == base.table[K])
  }

  lemma OthersHaveOtherKeys(base: Db, w: World, i: nat, x: Worker, k: nat)
    requires WorkersOk(base, w) && i < |w.workers| && k < |w.workers| && k != i
    requires !OthersClaim(w.workers, i, Key(x)) && HasId(w.workers[k])
    ensures Key(w.workers[k]) != Key(x)
  {
  }

  lemma RowsChange(base: Db, w: World, i: nat, x: Worker, db: Db)
    requires WorkersOk(base, w) && RowsOk(base, w) && i < |w.workers|
    requires !OthersClaim(w.workers, i, Key(x)) && (HasId(w.workers[i]) ==> Key(w.workers[i]) == Key(x))
    requires HasRow(w.workers[i]) ==> HasId(w.workers[i])
    requires TableFollows(base, w, i, x, db)
    ensures RowsOk(base, With(w.(db := db), i, x))
  {
    var xs, ys := w.workers, w.workers[i := x];
    ClaimsAfter(xs, i, x);
    assert forall k :: 0 <= k < |xs| && k != i ==> ys[k] == xs[k];
    forall k | 0 <= k < |ys| && k != i && (HasId(ys[k]) || HasRow(ys[k]))
      ensures HasId(ys[k]) && Key(ys[k]) != Key(x)
    {
      assert WorkerOk(base, xs[k]);
      OthersHaveOtherKeys(base, w, i, x, k);
    }
    forall id | id in db.table && id !in base.table ensures Owns(ys, id) {
      ClaimsOrOthers(xs, i, id);
      ClaimsOrOthers(ys, i, id);
      OthersStay(xs, i, x, id);
    }
  }

  /** Nothing changes for a consumer without a key. */
  lemma RowsIdle(base: Db, w: World, i: nat, x: Worker)
    requires RowsOk(base, w) && i < |w.workers|
    requires !HasId(x) && !HasRow(x) && !HasId(w.workers[i]) && !HasRow(w.workers[i])
    ensures RowsOk(base, With(w, i, x))
  {
    ClaimsAfter(w.workers, i, x);
    var ys := w.workers[i := x];
    assert forall k :: 0 <= k < |ys| && k != i ==> ys[k] == w.workers[k];
  }

  /** Consumers other than the one that moves keep their notifications. */
  lemma LogStays(w: World, i: nat, x: Worker, db: Db)
    requires LogOk(w) && i < |w.workers| && Notified(x.stage) == Notified(w.workers[i].stage)
    requires HasId(x) ==> About(w.log, Key(x)) == Sent(x)
    requires HasId(w.workers[i]) ==> (HasId(x) && Key(x) == Key(w.workers[i])) || About(w.log, Key(w.workers[i])) == []
    ensures LogOk(With(w.(db := db), i, x))
  {
    TotalWith(w.workers, i, x);
    ClaimsAfter(w.workers, i, x);
    var ys := w.workers[i := x];
    assert forall k :: 0 <= k < |ys| && k != i ==> ys[k] == w.workers[k];
  }

  /** One consumer changes its stage and nothing else about itself. */
  ghost predicate SameEvent(base: Db, x: Worker, y: Worker) {
    && WorkerOk(base, x) && HasId(x) && HasId(y) && (HasRow(x) <==> HasRow(y))
    && x.event == y.event && x.incoming == y.incoming
  }

  lemma SameKeeps(base: Db, w: World, i: nat, x: Worker)
    requires Inv(base, w) && i < |w.workers| && SameEvent(base, x, w.workers[i])
    ensures WorkersOk(base, With(w, i, x)) && RowsOk(base, With(w, i, x))
  {
    assert With(w.(db := w.db), i, x) == With(w, i, x);
    WorkersChange(base, w, i, x, w.db);
    SameTableFollows(base, w, i, x);
    RowsChange(base, w, i, x, w.db);
  }

  lemma SameTableFollows(base: Db, w: World, i: nat, x: Worker)
    requires WorkersOk(base, w) && RowsOk(base, w) && i < |w.workers| && SameEvent(base, x, w.workers[i])
    ensures TableFollows(base, w, i, x, w.db)
  {
    if Key(x) in w.db.table && Key(x) !in base.table {
      ClaimsAfter(w.workers, i, x);
      assert !OthersClaim(w.workers, i, Key(x));
      if OthersOwn(w.workers, i, Key(x)) {
        OwnersClaim(base, w, i, Key(x));
      }
    }
  }

  lemma OwnersClaim(base: Db, w: World, i: nat, id: int)
    requires WorkersOk(base, w) && OthersOwn(w.workers, i, id)
    ensures OthersClaim(w.workers, i, id)
  {
    var k :| 0 <= k < |w.workers| && k != i && HasRow(w.workers[k]) && Key(w.workers[k]) == id;
    assert WorkerOk(base, w.workers[k]) && HasId(w.workers[k]);
  }

  /** A change of stage that shows neither in the table nor in the log. */
  lemma QuietKeeps(base: Db, w: World, i: nat, x: Worker)
    requires Inv(base, w) && i < |w.workers|
    requires SameEvent(base, x, w.workers[i]) && Notified(x.stage) == Notified(w.workers[i].stage)
    ensures Inv(base, With(w, i, x))
  {
    SameKeeps(base, w, i, x);
    assert With(w.(db := w.db), i, x) == With(w, i, x);
    LogStays(w, i, x, w.db);
  }

  /** A notification about the consumer's own row. */
  lemma NotifyKeeps(base: Db, w: World, i: nat, x: Worker, entry: EventStatusChange)
    requires Inv(base, w) && i < |w.workers|
    requires var y := w.workers[i];
             && SameEvent(base, x, y)
             && entry.eventDto.id == Some(Key(y)) && Sent(x) == Sent(y) + [entry]
             && Notified(x.stage) == Notified(y.stage) + 1
    ensures Inv(base, With(w.(log := w.log + [entry]), i, x))
  {
    SameKeeps(base, w, i, x);
    NotifyLog(base, w, i, x, entry);
  }

  lemma NotifyLog(base: Db, w: World, i: nat, x: Worker, entry: EventStatusChange)
    requires WorkersOk(base, w) && LogOk(w) && i < |w.workers|
    requires var y := w.workers[i];
             && SameEvent(base, x, y)
             && entry.eventDto.id == Some(Key(y)) && Sent(x) == Sent(y) + [entry]
             && Notified(x.stage) == Notified(y.stage) + 1
    ensures LogOk(With(w.(log := w.log + [entry]), i, x))
  {
    var t := With(w.(log := w.log + [entry]), i, x);
    TotalWith(w.workers, i, x);
    ClaimsAfter(w.workers, i, x);
    forall id ensures About(t.log, id) == About(w.log, id) + if id == Key(x) then [entry] else [] {
      AboutSnoc(w.log, entry, id);
    }
    assert forall id :: id != Key(x) ==> About(t.log, id) == About(w.log, id) + [];
    assert forall k :: 0 <= k < |w.workers| && k != i ==> t.workers[k] == w.workers[k];
    forall k | 0 <= k < |w.workers| && k != i && HasId(w.workers[k]) ensures Key(w.workers[k]) != Key(x) {
      OthersHaveOtherKeys(base, w, i, x, k);
    }
  }

  // Steps

  // INSERT

  /** What a message may name: no row, or a row that no other consumer uses. */
  ghost predicate Admissible(w: World, m: Move) {
    m.Advance? && m.i < |w.workers| && w.workers[m.i].stage == Received && w.workers[m.i].dto.id.Some? ==>
      !OthersOwn(w.workers, m.i, w.workers[m.i].dto.id.value)
  }

  /** A key that a save may give: a new one, or that of a row that was there and is nobody's. */
  ghost predicate IsFree(base: Db, w: World, key: int) {
    && !Claims(w.workers, key)
    && (key == w.db.nextId || (key in base.table && key in w.db.table && w.db.table[key] == base.table[key]))
  }

  lemma RowIsFree(base: Db, w: World, i: nat, id: int)
    requires Inv(base, w) && i < |w.workers| && w.workers[i].stage == Received
    requires id in w.db.table && !OthersOwn(w.workers, i, id)
    ensures IsFree(base, w, id) && id in base.table
  {
    ClaimsOrOthers(w.workers, i, id);
    assert !Owns(w.workers, id);
    forall k | 0 <= k < |w.workers| && HasId(w.workers[k]) ensures Key(w.workers[k]) != id {
    }
  }

  lemma NextIsFree(base: Db, w: World)
    requires Inv(base, w)
    ensures IsFree(base, w, w.db.nextId) && w.db.nextId !in w.db.table && w.db.nextId !in base.table
  {
  }

  lemma InsertKeeps(base: Db, w: World, i: nat, x: Worker, db: Db)
    requires Inv(base, w) && i < |w.workers| && w.workers[i].stage == Received
    requires WorkerOk(base, x) && x.stage.Saved? && IsFree(base, w, Key(x))
    requires db.table == w.db.table[Key(x) := RowOf(x.event)]
    requires db.nextId == if Key(x) == w.db.nextId then w.db.nextId + 1 else w.db.nextId
    ensures Inv(base, With(w.(db := db), i, x))
  {
    ClaimsOrOthers(w.workers, i, Key(x));
    WorkersChange(base, w, i, x, db);
    RowsChange(base, w, i, x, db);
    assert About(w.log, Key(x)) == [] && Sent(x) == [];
    LogStays(w, i, x, db);
  }

  lemma AdvanceReceived(base: Db, w: World, i: nat, user: UserId, time: Str)
    requires Inv(base, w) && i < |w.workers| && w.workers[i].stage == Received
    requires Admissible(w, Advance(i, user, time))
    ensures Inv(base, AdvanceWorker(w, i, user, time))
  {
    var x := w.workers[i];
    assert WorkerOk(base, x);
    var event := ConvertDtoToEntity(x.dto).(updatedBy := Some(user), timestamp := Some(time));
    if event.id.Some? && event.id.value in w.db.table {
      RowIsFree(base, w, i, event.id.value);
      var db := w.db.(table := w.db.table[event.id.value := RowOf(event)]);
      assert Save(w.db, event) == (db, event);
      InsertKeeps(base, w, i, x.(stage := Saved(Replaced(w.db, event)), event := event), db);
    } else {
      NextIsFree(base, w);
      var saved := event.(id := Some(w.db.nextId));
      var db := Db(w.db.table[w.db.nextId := RowOf(saved)], w.db.nextId + 1);
      assert Save(w.db, event) == (db, saved);
      InsertKeeps(base, w, i, x.(stage := Saved(None), event := saved), db);
    }
  }

  lemma AdvanceSaved(base: Db, w: World, i: nat, user: UserId, time: Str)
    requires Inv(base, w) && i < |w.workers| && w.workers[i].stage.Saved?
    ensures Inv(base, AdvanceWorker(w, i, user, time))
  {
    var x := w.workers[i];
    assert WorkerOk(base, x);
    NotifyKeeps(base, w, i, x.(stage := InsertNotified, dto := Dto(x)), EventStatusChange(Dto(x), INSERT));
  }

  // UPDATE

  /** UPDATE saves the row it finds, unchanged. */
  lemma SaveAgain(db: Db, e: Event)
    requires e.id.Some? && e.id.value in db.table && db.table[e.id.value] == RowOf(e)
    ensures db.table[e.id.value := RowOf(e)] == db.table && Save(db, e) == (db, e) && Undo(db, e, Replaced(db, e)) == db
  {
    assert db.table[e.id.value := RowOf(e)] == db.table;
  }

  /** The consumer's dto and event say the same, and the row holds it. */
  lemma OwnRow(base: Db, w: World, i: nat)
    requires Inv(base, w) && i < |w.workers| && HasRow(w.workers[i]) && !w.workers[i].stage.Saved?
    ensures var x := w.workers[i];
            && HasId(x) && ConvertDtoToEntity(x.dto) == x.event && x.dto == Dto(x) && x.event.id == Some(Key(x))
            && Key(x) in w.db.table && w.db.table[Key(x)] == RowOf(x.event)
  {
    assert WorkerOk(base, w.workers[i]);
  }

  lemma AdvanceInsertNotified(base: Db, w: World, i: nat, user: UserId, time: Str)
    requires Inv(base, w) && i < |w.workers| && w.workers[i].stage == InsertNotified
    ensures Inv(base, AdvanceWorker(w, i, user, time))
  {
    var x := w.workers[i];
    assert WorkerOk(base, x);
    OwnRow(base, w, i);
    SaveAgain(w.db, x.event);
    var y := x.(stage := Updated(Some(RowOf(x.event))));
    QuietKeeps(base, w, i, y);
    assert AdvanceWorker(w, i, user, time) == With(w, i, y);
  }

  lemma AdvanceUpdated(base: Db, w: World, i: nat, user: UserId, time: Str)
    requires Inv(base, w) && i < |w.workers| && w.workers[i].stage.Updated?
    ensures Inv(base, AdvanceWorker(w, i, user, time))
  {
    var x := w.workers[i];
    assert WorkerOk(base, x);
    OwnRow(base, w, i);
    var y := x.(stage := UpdateNotified);
    NotifyKeeps(base, w, i, y, EventStatusChange(x.dto, UPDATE));
    assert AdvanceWorker(w, i, user, time) == With(Notify(w, x.dto, UPDATE), i, y);
  }

  // DELETE

  lemma AdvanceUpdateNotified(base: Db, w: World, i: nat, user: UserId, time: Str)
    requires Inv(base, w) && i < |w.workers| && w.workers[i].stage == UpdateNotified
    ensures Inv(base, AdvanceWorker(w, i, user, time))
  {
    var x := w.workers[i];
    assert WorkerOk(base, x);
    OwnRow(base, w, i);
    var y := x.(stage := DeleteNotified);
    NotifyKeeps(base, w, i, y, EventStatusChange(x.dto, DELETE));
    assert AdvanceWorker(w, i, user, time) == With(Notify(w, x.dto, DELETE), i, y);
  }

  lemma AdvanceDeleteNotified(base: Db, w: World, i: nat, user: UserId, time: Str)
    requires Inv(base, w) && i < |w.workers| && w.workers[i].stage == DeleteNotified
    ensures Inv(base, AdvanceWorker(w, i, user, time))
  {
    var x := w.workers[i];
    assert WorkerOk(base, x);
    var y, db := x.(stage := Finished), Delete(w.db, x.event);
    WorkersChange(base, w, i, y, db);
    RowsChange(base, w, i, y, db);
    LogStays(w, i, y, db);
  }

  lemma AdvanceKeeps(base: Db, w: World, i: nat, user: UserId, time: Str)
    requires Inv(base, w) && i < |w.workers| && Admissible(w, Advance(i, user, time))
    ensures Inv(base, AdvanceWorker(w, i, user, time))
  {
    match w.workers[i].stage
    case Received => AdvanceReceived(base, w, i, user, time);
    case Saved(_) => AdvanceSaved(base, w, i, user, time);
    case InsertNotified => AdvanceInsertNotified(base, w, i, user, time);
    case Updated(_) => AdvanceUpdated(base, w, i, user, time);
    case UpdateNotified => AdvanceUpdateNotified(base, w, i, user, time);
    case DeleteNotified => AdvanceDeleteNotified(base, w, i, user, time);
    case Finished =>
    case Failed(_, _) =>
  }

  // Failures

  lemma FailEarly(base: Db, w: World, i: nat)
    requires Inv(base, w) && i < |w.workers| && w.workers[i].stage == Received
    ensures Inv(base, FailWorker(w, i))
  {
    var y := w.workers[i].(stage := Failed(0, false));
    assert WorkerOk(base, y);
    assert With(w.(db := w.db), i, y) == With(w, i, y);
    WorkersChange(base, w, i, y, w.db);
    RowsIdle(base, w, i, y);
    LogStays(w, i, y, w.db);
  }

  /** The save of INSERT is rolled back: a new row goes, one that was there is as before. */
  lemma FailSaved(base: Db, w: World, i: nat)
    requires Inv(base, w) && i < |w.workers| && w.workers[i].stage.Saved?
    ensures Inv(base, FailWorker(w, i))
  {
    var x := w.workers[i];
    assert WorkerOk(base, x);
    var y, db := x.(stage := Failed(0, false)), Undo(w.db, x.event, x.stage.before);
    UndoFollows(base, w, i);
    WorkersChange(base, w, i, y, db);
    RowsChange(base, w, i, y, db);
    assert About(w.log, Key(x)) == Sent(x) == [];
    LogStays(w, i, y, db);
  }

  lemma UndoFollows(base: Db, w: World, i: nat)
    requires Inv(base, w) && i < |w.workers| && w.workers[i].stage.Saved?
    ensures var x := w.workers[i];
            var db := Undo(w.db, x.event, x.stage.before);
            && TableFollows(base, w, i, x.(stage := Failed(0, false)), db) && DbOk(db) && db.nextId == w.db.nextId
  {
    assert WorkerOk(base, w.workers[i]);
  }

  lemma FailQuiet(base: Db, w: World, i: nat, stage: Stage)
    requires Inv(base, w) && i < |w.workers|
    requires var x := w.workers[i];
             && stage == Failed(Notified(x.stage), true) && HasRow(x) && !x.stage.Saved?
    ensures Inv(base, With(w, i, w.workers[i].(stage := stage)))
  {
    OwnRow(base, w, i);
    assert WorkerOk(base, w.workers[i]);
    QuietKeeps(base, w, i, w.workers[i].(stage := stage));
  }

  lemma FailUpdated(base: Db, w: World, i: nat)
    requires Inv(base, w) && i < |w.workers| && w.workers[i].stage.Updated?
    ensures Inv(base, FailWorker(w, i))
  {
    var x := w.workers[i];
    assert WorkerOk(base, x);
    OwnRow(base, w, i);
    SaveAgain(w.db, x.event);
    FailQuiet(base, w, i, Failed(1, true));
    assert FailWorker(w, i) == With(w, i, x.(stage := Failed(1, true)));
  }

  lemma FailKeeps(base: Db, w: World, i: nat)
    requires Inv(base, w) && i < |w.workers|
    ensures Inv(base, FailWorker(w, i))
  {
    match w.workers[i].stage
    case Received => FailEarly(base, w, i);
    case Saved(_) => FailSaved(base, w, i);
    case InsertNotified => FailQuiet(base, w, i, Failed(1, true));
    case Updated(_) => FailUpdated(base, w, i);
    case UpdateNotified => FailQuiet(base, w, i, Failed(2, true));
    case DeleteNotified => FailQuiet(base, w, i, Failed(3, true));
    case Finished =>
    case Failed(_, _) =>
  }

  // A message is taken

  function AfterTake(w: World, x: Worker): World {
    w.(workers := w.workers + [x])
  }

  lemma ClaimsAppend(xs: seq<Worker>, x: Worker)
    requires !HasId(x) && !HasRow(x)
    ensures forall id :: Claims(xs + [x], id) <==> Claims(xs, id)
    ensures forall id :: Owns(xs + [x], id) <==> Owns(xs, id)
    ensures forall i: nat, id :: i < |xs| ==> (OthersClaim(xs + [x], i, id) <==> OthersClaim(xs, i, id))
  {
    var ys := xs + [x];
    assert forall k :: 0 <= k < |xs| ==> ys[k] == xs[k];
    forall id ensures (Claims(ys, id) <==> Claims(xs, id)) && (Owns(ys, id) <==> Owns(xs, id)) {
      if k :| 0 <= k < |xs| && HasId(xs[k]) && Key(xs[k]) == id {
        assert HasId(ys[k]) && Key(ys[k]) == id;
      }
      if k :| 0 <= k < |xs| && HasRow(xs[k]) && Key(xs[k]) == id {
        assert HasRow(ys[k]) && Key(ys[k]) == id;
      }
    }
    forall i: nat, id | i < |xs| ensures OthersClaim(ys, i, id) <==> OthersClaim(xs, i, id) {
      if k :| 0 <= k < |xs| && k != i && HasId(xs[k]) && Key(xs[k]) == id {
        assert HasId(ys[k]) && Key(ys[k]) == id;
      }
    }
  }

  lemma TakeKeeps(base: Db, w: World, incoming: EventDto)
    requires Inv(base, w)
    ensures Inv(base, Step(w, Take(incoming)))
  {
    var x := Worker(Received, incoming, incoming, ConvertDtoToEntity(incoming));
    TakeWorkers(base, w, x);
    TakeRows(base, w, x);
    TakeLog(w, x);
  }

  lemma TakeWorkers(base: Db, w: World, x: Worker)
    requires WorkersOk(base, w) && WorkerOk(base, x) && x.stage == Received
    ensures WorkersOk(base, AfterTake(w, x))
  {
    ClaimsAppend(w.workers, x);
    var xs := w.workers + [x];
    assert forall k :: 0 <= k < |w.workers| ==> xs[k] == w.workers[k];
    assert !HasId(xs[|w.workers|]);
  }

  lemma TakeRows(base: Db, w: World, x: Worker)
    requires RowsOk(base, w) && x.stage == Received
    ensures RowsOk(base, AfterTake(w, x))
  {
    ClaimsAppend(w.workers, x);
    var xs := w.workers + [x];
    assert forall k :: 0 <= k < |w.workers| ==> xs[k] == w.workers[k];
    assert !HasId(xs[|w.workers|]) && !HasRow(xs[|w.workers|]);
  }

  lemma TakeLog(w: World, x: Worker)
    requires LogOk(w) && x.stage == Received
    ensures LogOk(AfterTake(w, x))
  {
    ClaimsAppend(w.workers, x);
    var xs := w.workers + [x];
    assert forall k :: 0 <= k < |w.workers| ==> xs[k] == w.workers[k];
    assert !HasId(xs[|w.workers|]) && xs[..|xs| - 1] == w.workers;
  }

  // Runs

  /** At each save of INSERT the message names no row that another consumer uses. */
  ghost predicate Guarded(w: World, ms: seq<Move>)
    decreases |ms|
  {
    ms != [] ==> Admissible(w, ms[0]) && Guarded(Step(w, ms[0]), ms[1..])
  }

  lemma StepKeeps(base: Db, w: World, m: Move)
    requires Inv(base, w) && Admissible(w, m)
    ensures Inv(base, Step(w, m))
  {
    match m
    case Take(incoming) => TakeKeeps(base, w, incoming);
    case Advance(i, user, time) =>
      if i < |w.workers| {
        AdvanceKeeps(base, w, i, user, time);
      }
    case Fail(i) =>
      if i < |w.workers| {
        FailKeeps(base, w, i);
      }
  }

  lemma {:induction false} RunKeeps(base: Db, w: World, ms: seq<Move>)
    requires Inv(base, w) && Guarded(w, ms)
    ensures Inv(base, Run(w, ms))
    decreases |ms|
  {
    if ms != [] {
      StepKeeps(base, w, ms[0]);
      RunKeeps(base, Step(w, ms[0]), ms[1..]);
    }
  }

  lemma InitialInv(base: Db)
    requires DbOk(base)
    ensures Inv(base, Initial(base))
  {
  }

  /** The notifications about a row are a beginning of INSERT, UPDATE, DELETE that carry one
      and the same dto. */
  ghost predicate Ordered(log: seq<EventStatusChange>, id: int) {
    exists dto :: About(log, id) <= Lifecycle(dto)
  }

  lemma InvOrdered(base: Db, w: World, id: int)
    requires Inv(base, w)
    ensures Ordered(w.log, id)
  {
    if Claims(w.workers, id) {
      var k :| 0 <= k < |w.workers| && HasId(w.workers[k]) && Key(w.workers[k]) == id;
      assert About(w.log, id) == Sent(w.workers[k]) <= Lifecycle(Dto(w.workers[k]));
    } else {
      assert About(w.log, id) <= Lifecycle(EventDto(None, None, None, None));
    }
  }

  /** For any number of consumers, every interleaving of their steps and failures, and all
      messages, as long as none names at its save a row that another consumer uses: the log
      about a row is in order; each consumer that has a key has sent its own share of it; and
      the table is that of the start, but for the rows that consumers have taken or added. */
  lemma PipelineIsOrdered(base: Db, ms: seq<Move>, w: World)
    requires DbOk(base) && Guarded(Initial(base), ms) && w == Run(Initial(base), ms)
    ensures forall id :: Ordered(w.log, id)
    ensures forall i :: 0 <= i < |w.workers| && HasId(w.workers[i]) ==>
            About(w.log, Key(w.workers[i])) == Sent(w.workers[i])
    ensures RowsOk(base, w)
    ensures |w.log| == TotalNotified(w.workers)
  {
    InitialInv(base);
    RunKeeps(base, Initial(base), ms);
    forall id ensures Ordered(w.log, id) {
      InvOrdered(base, w, id);
    }
  }

  lemma {:induction false} TotalFinished(xs: seq<Worker>)
    requires forall i :: 0 <= i < |xs| ==> xs[i].stage == Finished
    ensures TotalNotified(xs) == 3 * |xs|
  {
    if xs != [] {
      TotalFinished(xs[..|xs| - 1]);
    }
  }

  function Keys(xs: seq<Worker>): set<int> {
    set k | 0 <= k < |xs| :: Key(xs[k])
  }

  /** When every consumer has finished: the table is as it was, less the rows that were taken,
      each by a message that named it; the log holds three entries per message, and each
      message's three notifications carry one dto with its name. */
  lemma PipelineLeavesNoTrace(base: Db, ms: seq<Move>, w: World)
    requires DbOk(base) && Guarded(Initial(base), ms) && w == Run(Initial(base), ms)
    requires forall i :: 0 <= i < |w.workers| ==> w.workers[i].stage == Finished
    ensures w.db.table == base.table - Keys(w.workers)
    ensures forall i :: 0 <= i < |w.workers| && Key(w.workers[i]) in base.table ==>
              w.workers[i].incoming.id == Some(Key(w.workers[i]))
    ensures |w.log| == 3 * |w.workers|
    ensures forall i :: 0 <= i < |w.workers| ==>
              var x := w.workers[i];
              About(w.log, Key(x)) == Lifecycle(Dto(x)) && Dto(x).name == x.incoming.name
  {
    InitialInv(base);
    RunKeeps(base, Initial(base), ms);
    TotalFinished(w.workers);
    forall i | 0 <= i < |w.workers|
      ensures var x := w.workers[i];
              About(w.log, Key(x)) == Lifecycle(Dto(x)) && Dto(x).name == x.incoming.name
              && (Key(x) in base.table ==> x.incoming.id == Some(Key(x)))
    {
      assert WorkerOk(base, w.workers[i]) && HasId(w.workers[i]);
    }
    NoRowsLeft(base, w);
  }

  lemma NoRowsLeft(base: Db, w: World)
    requires RowsOk(base, w)
    requires forall i :: 0 <= i < |w.workers| ==> w.workers[i].stage == Finished
    ensures w.db.table == base.table - Keys(w.workers)
  {
    assert forall i :: 0 <= i < |w.workers| ==> HasId(w.workers[i]) && !HasRow(w.workers[i]);
    forall id ensures Claims(w.workers, id) <==> id in Keys(w.workers) {
    }
    SameTable(w.db.table, base.table - Keys(w.workers));
  }

  lemma SameTable(a: map<int, Row>, b: map<int, Row>)
    requires forall id :: id in a ==> id in b
    requires forall id :: id in b ==> id in a && a[id] == b[id]
    ensures a == b
  {
    assert forall id :: id in a.Keys <==> id in b.Keys;
    assert a.Keys == b.Keys;
    assert forall id <- a.Keys :: a[id] == b[id];
  }

  // The guard is exact

  lemma NotInOrder(log: seq<EventStatusChange>, id: int)
    requires var about := About(log, id); |about| >= 2 && about[|about| - 1].action == INSERT
    ensures !Ordered(log, id)
  {
  }

  /** The moves of a consumer that saves under another's key and notifies, and of the other's
      own notification if it has not sent that. */
  function Takeover(w: World, i: nat, k: nat, user: UserId, time: Str): seq<Move>
    requires k < |w.workers|
  {
    [Advance(i, user, time), Advance(i, user, time)]
    + if w.workers[k].stage.Saved? then [Advance(k, user, time)] else []
  }

  /** In every state: a message that names at its save a row that another consumer uses puts
      the log about that row out of order. */
  lemma SharedIdBreaksOrder(base: Db, w: World, i: nat, k: nat, user: UserId, time: Str)
    requires Inv(base, w) && i < |w.workers| && k < |w.workers| && i != k
    requires w.workers[i].stage == Received && HasRow(w.workers[k]) && w.workers[i].dto.id == Some(Key(w.workers[k]))
    ensures !Ordered(Run(w, Takeover(w, i, k, user, time)).log, Key(w.workers[k]))
  {
    assert WorkerOk(base, w.workers[k]) && HasId(w.workers[k]);
    TakesOver(base, w, i, k, user, time);
    var w2 := Step(Step(w, Advance(i, user, time)), Advance(i, user, time));
    if w.workers[k].stage.Saved? {
      ThenNotifies(w2, k, user, time);
      RunOfThree(w, Advance(i, user, time), Advance(i, user, time), Advance(k, user, time));
    } else {
      NotInOrder(w2.log, Key(w.workers[k]));
      RunOfTwo(w, Advance(i, user, time), Advance(i, user, time));
    }
  }

  lemma ThenNotifies(w: World, k: nat, user: UserId, time: Str)
    requires k < |w.workers| && w.workers[k].stage.Saved? && w.workers[k].event.id.Some?
    requires About(w.log, Key(w.workers[k])) != []
    ensures !Ordered(Step(w, Advance(k, user, time)).log, Key(w.workers[k]))
  {
    var x := w.workers[k];
    AboutSnoc(w.log, EventStatusChange(Dto(x), INSERT), Key(x));
    NotInOrder(Step(w, Advance(k, user, time)).log, Key(x));
  }

  lemma TakesOver(base: Db, w: World, i: nat, k: nat, user: UserId, time: Str)
    requires Inv(base, w) && i < |w.workers| && k < |w.workers| && i != k
    requires w.workers[i].stage == Received && HasRow(w.workers[k]) && HasId(w.workers[k])
    requires w.workers[i].dto.id == Some(Key(w.workers[k]))
    ensures var id := Key(w.workers[k]);
            var w2 := AdvanceWorker(AdvanceWorker(w, i, user, time), i, user, time);
            && |w2.workers| == |w.workers| && w2.workers[k] == w.workers[k]
            && |About(w2.log, id)| == Notified(w.workers[k].stage) + 1
            && About(w2.log, id)[|About(w2.log, id)| - 1].action == INSERT
  {
    var id, x := Key(w.workers[k]), w.workers[i];
    var event := ConvertDtoToEntity(x.dto).(updatedBy := Some(user), timestamp := Some(time));
    var w1 := AdvanceWorker(w, i, user, time);
    assert id in w.db.table && event.id == Some(id);
    assert w1.workers[i].stage.Saved? && w1.workers[i].event == event && w1.log == w.log;
    AboutSnoc(w.log, EventStatusChange(ConvertEntityToDto(Some(event)), INSERT), id);
    assert WorkerOk(base, w.workers[k]);
    assert About(w.log, id) == Sent(w.workers[k]);
  }

  lemma RunOfTwo(w: World, a: Move, b: Move)
    ensures Run(w, [a, b] + []) == Step(Step(w, a), b)
  {
    var none: seq<Move> := [];
    assert [a, b] + none == [a, b] && [a, b][1..] == [b] && [b][1..] == none;
    assert Run(Step(w, a), [b]) == Run(Step(Step(w, a), b), none);
  }

  lemma RunOfThree(w: World, a: Move, b: Move, c: Move)
    ensures Run(w, [a, b] + [c]) == Step(Step(Step(w, a), b), c)
  {
    var all := [a, b] + [c];
    assert all[1..] == [b, c];
    RunOfTwo(Step(w, a), b, c);
    var none: seq<Move> := [];
    assert [b, c] + none == [b, c];
  }

  /** Some continuation puts the log about some row out of order. */
  ghost predicate Breaks(w: World, ms: seq<Move>) {
    exists id :: !Ordered(Run(w, ms).log, id)
  }

  /** A save of INSERT keeps the order in all that follows under the same guard, if the guard
      holds there; if it does not, some continuation breaks it. */
  lemma InsertGuardIsExact(base: Db, w: World, i: nat, user: UserId, time: Str)
    requires Inv(base, w) && i < |w.workers| && w.workers[i].stage == Received
    ensures Admissible(w, Advance(i, user, time)) ==>
              forall ms :: Guarded(Step(w, Advance(i, user, time)), ms) ==> !Breaks(Step(w, Advance(i, user, time)), ms)
    ensures !Admissible(w, Advance(i, user, time)) ==> exists ms :: Breaks(w, [Advance(i, user, time)] + ms)
  {
    var m := Advance(i, user, time);
    if Admissible(w, m) {
      StepKeeps(base, w, m);
      forall ms | Guarded(Step(w, m), ms) ensures !Breaks(Step(w, m), ms) {
        RunKeeps(base, Step(w, m), ms);
        forall id ensures Ordered(Run(Step(w, m), ms).log, id) {
          InvOrdered(base, Run(Step(w, m), ms), id);
        }
      }
    } else {
      var id := w.workers[i].dto.id.value;
      var k :| 0 <= k < |w.workers| && k != i && HasRow(w.workers[k]) && Key(w.workers[k]) == id;
      SharedIdBreaksOrder(base, w, i, k, user, time);
      var all := Takeover(w, i, k, user, time);
      assert [m] + all[1..] == all;
      assert Breaks(w, [m] + all[1..]);
    }
  }

  /** Messages without ids always pass the guard. */
  lemma {:induction false} NoIdsAreGuarded(w: World, ms: seq<Move>)
    requires forall i :: 0 <= i < |w.workers| && w.workers[i].stage == Received ==> w.workers[i].dto.id == None
    requires forall j :: 0 <= j < |ms| && ms[j].Take? ==> ms[j].incoming.id == None
    ensures Guarded(w, ms)
    decreases |ms|
  {
    if ms != [] {
      NoIdStep(w, ms[0]);
      NoIdsAreGuarded(Step(w, ms[0]), ms[1..]);
    }
  }

  lemma NoIdStep(w: World, m: Move)
    requires forall i :: 0 <= i < |w.workers| && w.workers[i].stage == Received ==> w.workers[i].dto.id == None
    requires m.Take? ==> m.incoming.id == None
    ensures Admissible(w, m)
    ensures var t := Step(w, m);
            forall i :: 0 <= i < |t.workers| && t.workers[i].stage == Received ==> t.workers[i].dto.id == None
  {
    var t := Step(w, m);
    if m.Take? {
      assert forall i :: 0 <= i < |w.workers| ==> t.workers[i] == w.workers[i];
    } else {
      var i := m.i;
      assert forall k :: 0 <= k < |w.workers| && k != i ==> t.workers[k] == w.workers[k];
    }
  }
}
