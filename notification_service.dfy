/**
 * The notification service: a registry of live emitters keyed by username,
 * and the record operations over the notification store. The store is an
 * in-memory table from id to record; the repository's membership queries
 * become filters over it.
 */
module NotificationServices {
  import opened Wrappers
  import opened Models
  import opened Emitters

  /** `Long.MAX_VALUE`, the timeout given to every new emitter (no expiry in practice). */
  const LONG_MAX_VALUE: int := 0x7FFF_FFFF_FFFF_FFFF

  datatype ServiceError = EntityNotFound

  // ---------------------------------------------------------------------------
  // The store, as a value
  // ---------------------------------------------------------------------------

  /** Every stored record carries the id it is stored under. */
  predicate KeysMatch(store: map<Uuid, Notification>) {
    forall id | id in store :: store[id].id == Some(id)
  }

  /** Records naming `username` among their recipients. */
  function ByUsername(store: map<Uuid, Notification>, username: string): (r: set<Notification>)
    ensures forall n :: n in r <==> n in store.Values && username in n.recipients
  {
    set id | id in store && username in store[id].recipients :: store[id]
  }

  /** Records naming `username` among their recipients that are not read. */
  function UnreadByUsername(store: map<Uuid, Notification>, username: string): (r: set<Notification>)
    ensures forall n :: n in r <==> n in store.Values && username in n.recipients && !n.isRead
  {
    set id | id in store && username in store[id].recipients && !store[id].isRead :: store[id]
  }

  /** The unread list is the part of the full list that is not read. */
  lemma UnreadIsUnreadPartOfAll(store: map<Uuid, Notification>, username: string)
    ensures UnreadByUsername(store, username) == set n | n in ByUsername(store, username) && !n.isRead
  {
  }

  /** After saving a record under its id, each of its recipients finds it in the full list, and
      in the unread list when it is unread; when the id is new, that recipient's full list keeps
      every record it listed before. */
  lemma {:induction false} ListedAfterSave(store: map<Uuid, Notification>, id: Uuid, rec: Notification, username: string)
    requires username in rec.recipients
    ensures rec in ByUsername(store[id := rec], username)
    ensures !rec.isRead ==> rec in UnreadByUsername(store[id := rec], username)
    ensures id !in store ==> ByUsername(store, username) <= ByUsername(store[id := rec], username)
  {
    var s' := store[id := rec];
    assert s'[id] == rec;
    if id !in store {
      forall n | n in ByUsername(store, username) ensures n in ByUsername(s', username) {
        var k :| k in store && store[k] == n;
        assert s'[k] == n;
      }
    }
  }

  /** Saving a record under a new id drops nothing from any user's full or unread list. */
  lemma {:induction false} SaveUnderNewIdKeepsLists(store: map<Uuid, Notification>, id: Uuid, rec: Notification, username: string)
    requires id !in store
    ensures ByUsername(store, username) <= ByUsername(store[id := rec], username)
    ensures UnreadByUsername(store, username) <= UnreadByUsername(store[id := rec], username)
  {
    var s' := store[id := rec];
    forall n | n in ByUsername(store, username) ensures n in ByUsername(s', username) {
      var k :| k in store && store[k] == n;
      assert s'[k] == n;
    }
    forall n | n in UnreadByUsername(store, username) ensures n in UnreadByUsername(s', username) {
      var k :| k in store && store[k] == n;
      assert s'[k] == n;
    }
  }

  /** Marking a stored record read takes it out of every unread list and keeps it in every full
      list; marking it unread again restores the store exactly when it was unread before. */
  lemma {:induction false} ReadStateRoundTrip(store: map<Uuid, Notification>, id: Uuid, username: string)
    requires KeysMatch(store) && id in store
    ensures
      var read := store[id := store[id].(isRead := true)];
      && KeysMatch(read)
      && (forall n | n in UnreadByUsername(read, username) :: n.id != Some(id))
      && (username in store[id].recipients ==> read[id] in ByUsername(read, username))
      && (!store[id].isRead ==> read[id := read[id].(isRead := false)] == store)
  {
    var read := store[id := store[id].(isRead := true)];
    forall n | n in UnreadByUsername(read, username) ensures n.id != Some(id) {
      var k :| k in read && read[k] == n;
      assert k != id;
      assert n == store[k];
    }
    assert read[id] in read.Values;
  }

  class NotificationService {
    /** The registry: the live emitter of each subscribed user. */
    var emitters: map<string, Emitter>
    /** The notification store. */
    var store: map<Uuid, Notification>

    /** Each registry entry is the emitter subscribed for that very key (so no emitter is
        registered under two keys), and each record is stored under its own id. */
    ghost predicate Valid()
      reads this
    {
      && (forall u | u in emitters :: emitters[u].owner == u)
      && KeysMatch(store)
    }

    /** State and events of every registered emitter, by username. */
    ghost function View(): map<string, Conn>
      reads this, emitters.Values
    {
      map u | u in emitters :: emitters[u].Snapshot()
    }

    constructor (store: map<Uuid, Notification>)
      requires KeysMatch(store)
      ensures Valid() && emitters == map[] && this.store == store
    {
      emitters := map[];
      this.store := store;
    }

    // -------------------------------------------------------------------------
    // Records
    // -------------------------------------------------------------------------

    /** Stamps the creation time, forces the record unread whatever the request said, and
        saves it under the id the store generates. */
    method CreateNotification(n: Notification, now: Timestamp, generatedId: Uuid) returns (saved: Notification)
      requires Valid()
      requires n.id == None && generatedId !in store
      modifies this
      ensures Valid()
      ensures saved == n.(id := Some(generatedId), createdAt := now, isRead := false)
      ensures store == old(store)[generatedId := saved] && emitters == old(emitters)
    {
      var stamped := n.(createdAt := now, isRead := false);
      saved := stamped.(id := Some(generatedId));
      store := store[generatedId := saved];
    }

    function GetNotificationsByUsername(username: string): (r: set<Notification>)
      reads this
      ensures forall n :: n in r <==> n in store.Values && username in n.recipients
    {
      ByUsername(store, username)
    }

    function GetUnreadNotificationsByUsername(username: string): (r: set<Notification>)
      reads this
      ensures forall n :: n in r <==> n in store.Values && username in n.recipients && !n.isRead
    {
      UnreadByUsername(store, username)
    }

    method MarkAsRead(id: Uuid) returns (r: Result<Notification, ServiceError>)
      requires Valid()
      modifies this
      ensures Valid() && emitters == old(emitters)
      ensures id !in old(store) ==> r == Failure(EntityNotFound) && store == old(store)
      ensures id in old(store) ==>
        r == Success(old(store)[id].(isRead := true)) && store == old(store)[id := r.value]
    {
      if id !in store {
        return Failure(EntityNotFound);
      }
      var n := store[id].(isRead := true);
      store := store[id := n];
      r := Success(n);
    }

    method MarkAsUnread(id: Uuid) returns (r: Result<Notification, ServiceError>)
      requires Valid()
      modifies this
      ensures Valid() && emitters == old(emitters)
      ensures id !in old(store) ==> r == Failure(EntityNotFound) && store == old(store)
      ensures id in old(store) ==>
        r == Success(old(store)[id].(isRead := false)) && store == old(store)[id := r.value]
    {
      if id !in store {
        return Failure(EntityNotFound);
      }
      var n := store[id].(isRead := false);
      store := store[id := n];
      r := Success(n);
    }

    // -------------------------------------------------------------------------
    // Registry and emitter callbacks
    // -------------------------------------------------------------------------

    /** Creates an open emitter with the maximal timeout and registers it under `username`,
        replacing any earlier entry (the replaced emitter is not closed). */
    method Subscribe(username: string) returns (e: Emitter)
      requires Valid()
      modifies this
      ensures Valid() && fresh(e)
      ensures e.owner == username && e.timeout == LONG_MAX_VALUE && e.Snapshot() == Conn(Open, [])
      ensures emitters == old(emitters)[username := e] && store == old(store)
    {
      e := new Emitter(username, LONG_MAX_VALUE);
      emitters := emitters[username := e];
    }

    /** The completion callback registered by `Subscribe` for `e`: removes the entry under the
        username `e` was subscribed for, whichever emitter that entry now holds. */
    method OnCompletion(e: Emitter)
      requires Valid()
      modifies this, e
      ensures Valid()
      ensures emitters == old(emitters) - {e.owner} && store == old(store)
      ensures e.Snapshot() == Conn(Close(old(e.state), Completed), old(e.events))
    {
      emitters := emitters - {e.owner};
      e.Complete();
    }

    /** The timeout callback registered by `Subscribe` for `e`: removal by key only. */
    method OnTimeout(e: Emitter)
      requires Valid()
      modifies this, e
      ensures Valid()
      ensures emitters == old(emitters) - {e.owner} && store == old(store)
      ensures e.Snapshot() == Conn(Close(old(e.state), TimedOut), old(e.events))
    {
      emitters := emitters - {e.owner};
      e.Expire();
    }

    /** The error callback registered by `Subscribe` for `e`: removal by key only, then `e`
        is completed with the error. */
    method OnError(e: Emitter)
      requires Valid()
      modifies this, e
      ensures Valid()
      ensures emitters == old(emitters) - {e.owner} && store == old(store)
      ensures e.Snapshot() == Conn(Close(old(e.state), Errored), old(e.events))
    {
      emitters := emitters - {e.owner};
      e.CompleteWithError();
    }
  }

  // ---------------------------------------------------------------------------
  // Registry scenarios
  // ---------------------------------------------------------------------------

  /** Subscribing twice for one user leaves one entry, holding the second emitter. */
  method SubscribeTwiceScenario(username: string) returns (entries: nat, holdsSecond: bool, distinct: bool)
    ensures entries == 1 && holdsSecond && distinct
  {
    var service := new NotificationService(map[]);
    var first := service.Subscribe(username);
    var second := service.Subscribe(username);
    entries := |service.emitters|;
    holdsSecond := username in service.emitters && service.emitters[username] == second;
    distinct := first != second;
  }

  /** A superseded emitter's completion removes the newer entry, which stays open but is no
      longer reachable through the registry. */
  method SupersededCallbackScenario(username: string) returns (registered: bool, newerState: EmitterState)
    ensures !registered && newerState == Open
  {
    var service := new NotificationService(map[]);
    var first := service.Subscribe(username);
    var second := service.Subscribe(username);
    service.OnCompletion(first);
    registered := username in service.emitters;
    newerState := second.state;
  }

  /** Racing terminal callbacks are harmless: the first one decides the state, every one
      leaves the user unregistered, and other users keep their entries. */
  method RepeatedCallbacksScenario(username: string, other: string)
    returns (registered: bool, otherRegistered: bool, finalState: EmitterState)
    requires username != other
    ensures !registered && otherRegistered && finalState == TimedOut
  {
    var service := new NotificationService(map[]);
    var e := service.Subscribe(username);
    var o := service.Subscribe(other);
    service.OnTimeout(e);
    service.OnError(e);
    service.OnCompletion(e);
    registered := username in service.emitters;
    otherRegistered := other in service.emitters && service.emitters[other] == o;
    finalState := e.state;
  }

  /** After the error callback the emitter refuses to send. */
  method ErrorThenSendScenario(username: string, data: string, ioFails: bool)
    returns (registered: bool, result: SendResult)
    ensures !registered && result == IllegalState
  {
    var service := new NotificationService(map[]);
    var e := service.Subscribe(username);
    service.OnError(e);
    registered := username in service.emitters;
    result := e.Send(data, ioFails);
  }
}
