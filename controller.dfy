/**
 * The Canary controller (pkg/controller/controller.go, pkg/controller/events.go):
 * the informer's add/update/delete handlers, enqueueing into the work queue,
 * the sync handler that mirrors the lister into the snapshot table and
 * records an event, and one worker step that takes an item off the queue.
 *
 * The functions of client-go's cache package are not part of this model;
 * they are supplied as function values when the controller is built, and
 * every property below holds whatever they compute. fmt.Sprintf enters as a
 * function value only for recordEventInfof's template; the fixed "%s.%s" key
 * is written as concatenation, which is what %s produces for strings.
 */
module Controller {
  import opened Wrappers
  import opened CanaryApi
  import opened WorkQueue

  /** An object delivered by the informer: a Canary, or anything else (a tombstone, say). */
  datatype Obj = CanaryObj(canary: Canary) | Other

  /** cache.MetaNamespaceKeyFunc: the queue key of an object, or None when it has no metadata. */
  type KeyFunc = Obj -> Option<string>

  /** cache.SplitMetaNamespaceKey: a queue key split into (namespace, name), or None when malformed. */
  type SplitFunc = string -> Option<(string, string)>

  /** fmt.Sprintf applied to a template and its arguments. */
  type Formatter = (string, seq<string>) -> string

  /** The lister's cache: what `Canaries(namespace).Get(name)` finds, keyed by (namespace, name). */
  type Lister = map<(string, string), Canary>

  const EventTypeNormal: string := "Normal"
  const SyncedReason: string := "Synced"
  const SyncedTemplate: string := "Successed canary %s.%s"

  /** An event handed to the event recorder. */
  datatype Event = Event(involved: Canary, eventType: string, reason: string, message: string)

  /** An info line written by recordEventInfof, with its `canary` field. */
  datatype LogLine = LogLine(canary: string, text: string)

  /** The type test every handler but add performs. */
  function CheckCustomResourceType(obj: Obj): (r: (Canary, bool))
    ensures r.1 <==> obj.CanaryObj?
    ensures r.1 ==> r.0 == obj.canary
    ensures !r.1 ==> r.0 == ZeroCanary
  {
    match obj
    case CanaryObj(c) => (c, true)
    case Other => (ZeroCanary, false)
  }

  /** The "name.namespace" string that keys the snapshot table and tags log lines. */
  function DottedName(c: Canary): string
  {
    c.meta.name + "." + c.meta.namespace
  }

  /** Two strings joined by a dot split back uniquely when the right part has no dot. */
  lemma JoinedAtLastDot(a: string, b: string, a': string, b': string)
    requires '.' !in b && '.' !in b'
    requires a + "." + b == a' + "." + b'
    ensures a == a' && b == b'
  {
    var s := a + "." + b;
    assert forall i | |a| < i < |s| :: s[i] == b[i - |a| - 1];
    assert forall i | |a'| < i < |s| :: s[i] == b'[i - |a'| - 1];
    assert s[|a|] == '.' && s[|a'|] == '.';
    assert |a| == |a'|;
    assert a == s[..|a|] && a' == s[..|a'|];
    assert b == s[|a| + 1..] && b' == s[|a'| + 1..];
  }

  /**
   * Namespaces are DNS labels and hold no dot, so distinct Canaries never share
   * a snapshot key: a delete removes exactly the entry of the Canary deleted.
   */
  lemma DottedNameInjective(c: Canary, d: Canary)
    requires '.' !in c.meta.namespace && '.' !in d.meta.namespace
    requires DottedName(c) == DottedName(d)
    ensures c.meta.name == d.meta.name && c.meta.namespace == d.meta.namespace
  {
    JoinedAtLastDot(c.meta.name, c.meta.namespace, d.meta.name, d.meta.namespace);
  }

  /** Every snapshot entry is stored under its own "name.namespace". */
  ghost predicate Keyed(canaries: map<string, Canary>)
  {
    forall k | k in canaries :: k == DottedName(canaries[k])
  }

  /** No snapshot entry has a dot in its namespace, as Kubernetes validation ensures. */
  ghost predicate DotFreeNamespaces(canaries: map<string, Canary>)
  {
    forall k | k in canaries :: '.' !in canaries[k].meta.namespace
  }

  // ---------------------------------------------------------------------------
  // The informer's notifications and what the handlers make of them
  // ---------------------------------------------------------------------------

  datatype Notification = Added(obj: Obj) | Updated(oldObj: Obj, newObj: Obj) | Deleted(obj: Obj)

  /** The state the handlers touch: the snapshot table and the pending queue. */
  datatype HandlerView = HandlerView(canaries: map<string, Canary>, pending: seq<Item>)

  /** What `enqueue` adds for an object: its key, or nothing when the key function fails. */
  function KeyItems(kf: KeyFunc, obj: Obj): seq<Item>
  {
    match kf(obj)
    case Some(k) => [KeyItem(k)]
    case None => []
  }

  /** The queue-log entries for adding `items` through the rate-limited path. */
  function RateLimitedAdds(items: seq<Item>): seq<Call>
  {
    seq(|items|, i requires 0 <= i < |items| => AddedRateLimited(items[i]))
  }

  /** An update between two Canaries whose resource versions differ. */
  predicate IsVersionChange(oldObj: Obj, newObj: Obj)
  {
    oldObj.CanaryObj? && newObj.CanaryObj? &&
    oldObj.canary.meta.resourceVersion != newObj.canary.meta.resourceVersion
  }

  /**
   * The effect of one handler on the snapshot table and the queue. Handlers
   * never add or overwrite snapshot entries; only deletes touch the table,
   * and deletes never touch the queue.
   */
  function Handle(kf: KeyFunc, s: HandlerView, n: Notification): (r: HandlerView)
    ensures r.canaries.Keys <= s.canaries.Keys
    ensures forall k | k in r.canaries :: r.canaries[k] == s.canaries[k]
    ensures n.Added? ==> r.canaries == s.canaries && r.pending == s.pending + KeyItems(kf, n.obj)
    ensures n.Updated? && !IsVersionChange(n.oldObj, n.newObj) ==> r == s
    ensures n.Updated? && IsVersionChange(n.oldObj, n.newObj) ==>
              r.canaries == s.canaries && r.pending == s.pending + KeyItems(kf, n.newObj)
    ensures n.Deleted? ==> r.pending == s.pending
    ensures n.Deleted? && n.obj.CanaryObj? ==> r.canaries == s.canaries - {DottedName(n.obj.canary)}
    ensures n.Deleted? && !n.obj.CanaryObj? ==> r == s
  {
    match n
    case Added(obj) =>
      s.(pending := s.pending + KeyItems(kf, obj))
    case Updated(oldObj, newObj) =>
      var (oldCanary, oldOk) := CheckCustomResourceType(oldObj);
      if !oldOk then s
      else
        var (newCanary, newOk) := CheckCustomResourceType(newObj);
        if !newOk then s
        else if oldCanary.meta.resourceVersion == newCanary.meta.resourceVersion then s
        else s.(pending := s.pending + KeyItems(kf, newObj))
    case Deleted(obj) =>
      var (c, ok) := CheckCustomResourceType(obj);
      if ok then s.(canaries := s.canaries - {DottedName(c)}) else s
  }

  /** A stream of notifications handled in order. */
  function HandleAll(kf: KeyFunc, s: HandlerView, ns: seq<Notification>): HandlerView
    decreases |ns|
  {
    if ns == [] then s else HandleAll(kf, Handle(kf, s, ns[0]), ns[1..])
  }

  /** The snapshot key a notification removes: that of a deleted Canary, if any. */
  function DeletedKey(n: Notification): set<string>
  {
    if n.Deleted? && n.obj.CanaryObj? then {DottedName(n.obj.canary)} else {}
  }

  /** The items a notification enqueues: the key of an add, or of an update that changes the version. */
  function EnqueuedItem(kf: KeyFunc, n: Notification): seq<Item>
  {
    match n
    case Added(obj) => KeyItems(kf, obj)
    case Updated(oldObj, newObj) => if IsVersionChange(oldObj, newObj) then KeyItems(kf, newObj) else []
    case Deleted(_) => []
  }

  /** The snapshot keys of the Canaries a stream deletes. */
  function DeletedKeys(ns: seq<Notification>): set<string>
  {
    if ns == [] then {} else DeletedKey(ns[0]) + DeletedKeys(ns[1..])
  }

  /** The items a stream enqueues, in notification order. */
  function EnqueuedItems(kf: KeyFunc, ns: seq<Notification>): seq<Item>
  {
    if ns == [] then [] else EnqueuedItem(kf, ns[0]) + EnqueuedItems(kf, ns[1..])
  }

  /** One handler step, stated through DeletedKey and EnqueuedItem. */
  lemma HandleSeparates(kf: KeyFunc, s: HandlerView, n: Notification)
    ensures Handle(kf, s, n) == HandlerView(s.canaries - DeletedKey(n), s.pending + EnqueuedItem(kf, n))
  {
  }

  /**
   * Handling a stream keeps the table and the queue apart: the table only
   * loses the entries of deleted Canaries, whatever the order, and the queue
   * only gains keys, in notification order.
   */
  lemma {:induction false} HandleAllSeparates(kf: KeyFunc, s: HandlerView, ns: seq<Notification>)
    ensures HandleAll(kf, s, ns) == HandlerView(s.canaries - DeletedKeys(ns), s.pending + EnqueuedItems(kf, ns))
    decreases |ns|
  {
    if ns == [] {
      assert s.canaries - {} == s.canaries;
      assert s.pending + [] == s.pending;
    } else {
      var s1 := Handle(kf, s, ns[0]);
      assert HandleAll(kf, s, ns) == HandleAll(kf, s1, ns[1..]);
      HandleSeparates(kf, s, ns[0]);
      HandleAllSeparates(kf, s1, ns[1..]);
      var d0, ds := DeletedKey(ns[0]), DeletedKeys(ns[1..]);
      assert DeletedKeys(ns) == d0 + ds;
      assert s.canaries - d0 - ds == s.canaries - (d0 + ds);
      var e0, es := EnqueuedItem(kf, ns[0]), EnqueuedItems(kf, ns[1..]);
      assert EnqueuedItems(kf, ns) == e0 + es;
      assert s.pending + e0 + es == s.pending + (e0 + es);
    }
  }

  /**
   * Deleting a Canary drops exactly the entries holding a Canary with its
   * name and namespace, and no other entry.
   */
  lemma DeleteRemovesOnlyThatCanary(kf: KeyFunc, s: HandlerView, c: Canary)
    requires Keyed(s.canaries) && DotFreeNamespaces(s.canaries)
    requires '.' !in c.meta.namespace
    ensures forall k | k in s.canaries ::
              k !in Handle(kf, s, Deleted(CanaryObj(c))).canaries <==>
              s.canaries[k].meta.name == c.meta.name && s.canaries[k].meta.namespace == c.meta.namespace
  {
    forall k | k in s.canaries
      ensures k !in Handle(kf, s, Deleted(CanaryObj(c))).canaries <==>
              s.canaries[k].meta.name == c.meta.name && s.canaries[k].meta.namespace == c.meta.namespace
    {
      if k == DottedName(c) {
        DottedNameInjective(s.canaries[k], c);
      }
    }
  }

  /** No stream of notifications creates a snapshot entry or breaks the keying invariant. */
  lemma HandleAllKeepsKeyed(kf: KeyFunc, s: HandlerView, ns: seq<Notification>)
    requires Keyed(s.canaries)
    ensures Keyed(HandleAll(kf, s, ns).canaries)
    ensures HandleAll(kf, s, ns).canaries.Keys <= s.canaries.Keys
  {
    HandleAllSeparates(kf, s, ns);
  }

  // ---------------------------------------------------------------------------
  // The sync handler, as functions of the lister
  // ---------------------------------------------------------------------------

  /** The object a key leads to: None when the key does not split or the lister does not find it. */
  function Lookup(split: SplitFunc, lister: Lister, key: string): Option<Canary>
  {
    match split(key)
    case None => None
    case Some(namespaceName) => if namespaceName in lister then Some(lister[namespaceName]) else None
  }

  /**
   * The snapshot table after syncing a key: the found object is stored under
   * its own "name.namespace", every other entry is left as it was, and
   * nothing is written when the key does not split or the object is gone.
   */
  function Synced(split: SplitFunc, lister: Lister, canaries: map<string, Canary>, key: string): (r: map<string, Canary>)
    ensures Lookup(split, lister, key).None? ==> r == canaries
    ensures Lookup(split, lister, key).Some? ==>
              var cd := Lookup(split, lister, key).value;
              && r.Keys == canaries.Keys + {DottedName(cd)}
              && r[DottedName(cd)] == cd
              && forall k | k in canaries && k != DottedName(cd) :: r[k] == canaries[k]
  {
    match Lookup(split, lister, key)
    case None => canaries
    case Some(cd) => canaries[DottedName(cd) := cd]
  }

  /** The event a successful sync of `cd` records. */
  function SyncEvent(format: Formatter, cd: Canary): Event
  {
    Event(cd, EventTypeNormal, SyncedReason, format(SyncedTemplate, [cd.meta.name, cd.meta.namespace]))
  }

  /** The events a sync records: exactly one when the object was found, none otherwise. */
  function SyncEvents(format: Formatter, found: Option<Canary>): seq<Event>
  {
    match found
    case None => []
    case Some(cd) => [SyncEvent(format, cd)]
  }

  /** Syncing the same key twice against an unchanged lister leaves the table as one sync did. */
  lemma SyncIdempotent(split: SplitFunc, lister: Lister, canaries: map<string, Canary>, key: string)
    ensures Synced(split, lister, Synced(split, lister, canaries, key), key) == Synced(split, lister, canaries, key)
  {
  }

  /** A sync keeps every entry stored under its own key. */
  lemma SyncKeepsKeyed(split: SplitFunc, lister: Lister, canaries: map<string, Canary>, key: string)
    requires Keyed(canaries)
    ensures Keyed(Synced(split, lister, canaries, key))
  {
  }

  // ---------------------------------------------------------------------------
  // The controller object
  // ---------------------------------------------------------------------------

  class Controller {
    /** The snapshot table (a sync.Map in the source). */
    var canaries: map<string, Canary>
    const workqueue: RateLimitingQueue
    /** What the event recorder has been given, in order. */
    ghost var events: seq<Event>
    /** The info lines recordEventInfof has written, in order. */
    ghost var infoLog: seq<LogLine>

    const metaNamespaceKey: KeyFunc
    const splitMetaNamespaceKey: SplitFunc
    const sprintf: Formatter

    /**
     * Every snapshot entry sits under its own "name.namespace"; every event is
     * a Normal "Synced" event; and each event was logged with the same text.
     */
    ghost predicate Valid()
      reads this
    {
      && Keyed(canaries)
      && |infoLog| == |events|
      && forall i | 0 <= i < |events| ::
           && events[i].eventType == EventTypeNormal
           && events[i].reason == SyncedReason
           && infoLog[i] == LogLine(DottedName(events[i].involved), events[i].message)
    }

    function View(): HandlerView
      reads this, workqueue
    {
      HandlerView(canaries, workqueue.pending)
    }

    /** NewController without the event broadcaster: an empty table, an empty queue, no events. */
    constructor (keyFunc: KeyFunc, split: SplitFunc, format: Formatter)
      ensures Valid() && fresh(workqueue)
      ensures canaries == map[] && events == [] && infoLog == []
      ensures workqueue.pending == [] && workqueue.processing == multiset{}
      ensures !workqueue.shuttingDown && workqueue.calls == []
      ensures metaNamespaceKey == keyFunc && splitMetaNamespaceKey == split && sprintf == format
    {
      canaries := map[];
      workqueue := new RateLimitingQueue();
      events, infoLog := [], [];
      metaNamespaceKey, splitMetaNamespaceKey, sprintf := keyFunc, split, format;
    }

    /**
     * Adds the object's key through the rate-limited path, or drops the object
     * when it has no key. A queue that is shutting down keeps nothing.
     */
    method Enqueue(obj: Obj)
      modifies workqueue
      ensures !old(workqueue.shuttingDown) ==>
                workqueue.pending == old(workqueue.pending) + KeyItems(metaNamespaceKey, obj)
      ensures old(workqueue.shuttingDown) ==> workqueue.pending == old(workqueue.pending)
      ensures workqueue.calls == old(workqueue.calls) + RateLimitedAdds(KeyItems(metaNamespaceKey, obj))
      ensures workqueue.processing == old(workqueue.processing)
      ensures workqueue.shuttingDown == old(workqueue.shuttingDown)
    {
      match metaNamespaceKey(obj)
      case None =>
      case Some(key) =>
        workqueue.AddRateLimited(KeyItem(key));
    }

    /** AddFunc: every added object goes to `enqueue`, with no type test. */
    method OnAdd(obj: Obj)
      requires Valid()
      modifies workqueue
      ensures Valid()
      ensures !old(workqueue.shuttingDown) ==> View() == Handle(metaNamespaceKey, old(View()), Added(obj))
      ensures old(workqueue.shuttingDown) ==> View() == old(View())
      ensures workqueue.calls == old(workqueue.calls) + RateLimitedAdds(KeyItems(metaNamespaceKey, obj))
      ensures workqueue.processing == old(workqueue.processing)
      ensures workqueue.shuttingDown == old(workqueue.shuttingDown)
    {
      Enqueue(obj);
    }

    /** UpdateFunc: enqueues the new object only when both are Canaries and the version changed. */
    method OnUpdate(oldObj: Obj, newObj: Obj)
      requires Valid()
      modifies workqueue
      ensures Valid()
      ensures !old(workqueue.shuttingDown) ==>
                View() == Handle(metaNamespaceKey, old(View()), Updated(oldObj, newObj))
      ensures old(workqueue.shuttingDown) ==> View() == old(View())
      ensures IsVersionChange(oldObj, newObj) ==>
                workqueue.calls == old(workqueue.calls) + RateLimitedAdds(KeyItems(metaNamespaceKey, newObj))
      ensures !IsVersionChange(oldObj, newObj) ==> workqueue.calls == old(workqueue.calls)
      ensures workqueue.processing == old(workqueue.processing)
      ensures workqueue.shuttingDown == old(workqueue.shuttingDown)
    {
      var (oldCanary, oldOk) := CheckCustomResourceType(oldObj);
      if !oldOk {
        return;
      }
      var (newCanary, newOk) := CheckCustomResourceType(newObj);
      if !newOk {
        return;
      }
      if oldCanary.meta.resourceVersion == newCanary.meta.resourceVersion {
        return;
      }
      Enqueue(newObj);
    }

    /** DeleteFunc: a deleted Canary leaves the snapshot table at once; the queue is not involved. */
    method OnDelete(obj: Obj)
      requires Valid()
      modifies this`canaries
      ensures Valid()
      ensures View() == Handle(metaNamespaceKey, old(View()), Deleted(obj))
    {
      var (r, ok) := CheckCustomResourceType(obj);
      if ok {
        canaries := canaries - {DottedName(r)};
      }
    }

    /**
     * recordEventInfof: logs the formatted message tagged with the Canary and
     * hands one Normal "Synced" event with the same message to the recorder.
     * Nothing else is touched; in particular no notifier is called.
     */
    method RecordEventInfof(r: Canary, template: string, args: seq<string>)
      requires Valid()
      modifies this`events, this`infoLog
      ensures Valid()
      ensures events == old(events) + [Event(r, EventTypeNormal, SyncedReason, sprintf(template, args))]
      ensures infoLog == old(infoLog) + [LogLine(DottedName(r), sprintf(template, args))]
    {
      var message := sprintf(template, args);
      infoLog := infoLog + [LogLine(DottedName(r), message)];
      events := events + [Event(r, EventTypeNormal, SyncedReason, message)];
    }

    /**
     * syncHandler: a key that does not split and an object the lister no
     * longer has are both dropped without error; a found object is stored
     * under its "name.namespace" and one event is recorded. Never fails.
     */
    method SyncHandler(key: string, lister: Lister) returns (err: Option<string>)
      requires Valid()
      modifies this`canaries, this`events, this`infoLog
      ensures Valid()
      ensures err == None
      ensures canaries == Synced(splitMetaNamespaceKey, lister, old(canaries), key)
      ensures events == old(events) + SyncEvents(sprintf, Lookup(splitMetaNamespaceKey, lister, key))
    {
      err := None;
      var split := splitMetaNamespaceKey(key);
      if split.None? {
        return;
      }
      var (namespace, name) := split.value;
      if (namespace, name) !in lister {
        return;
      }
      var cd := lister[(namespace, name)];
      RecordEventInfof(cd, SyncedTemplate, [cd.meta.name, cd.meta.namespace]);
      canaries := canaries[DottedName(cd) := cd];
    }

    /**
     * processNextWorkItem: false exactly when Get reports shutdown. Otherwise
     * the item is synced when it is a string, forgotten (non-strings at once,
     * strings after a successful sync), and released with exactly one Done.
     */
    method ProcessNextWorkItem(lister: Lister) returns (more: bool)
      requires Valid()
      requires workqueue.pending != [] || workqueue.shuttingDown
      modifies this`canaries, this`events, this`infoLog, workqueue
      ensures Valid()
      ensures more <==> old(workqueue.pending) != []
      ensures workqueue.processing == old(workqueue.processing)
      ensures workqueue.shuttingDown == old(workqueue.shuttingDown)
      ensures !more ==>
                && workqueue.pending == old(workqueue.pending)
                && workqueue.calls == old(workqueue.calls) + [GotShutdown]
                && canaries == old(canaries) && events == old(events)
      ensures more ==>
                var item := old(workqueue.pending)[0];
                && workqueue.pending == old(workqueue.pending)[1..]
                && workqueue.calls == old(workqueue.calls) + [GotItem(item), Forgot(item), MarkedDone(item)]
                && (item.NonString? ==> canaries == old(canaries) && events == old(events))
                && (item.KeyItem? ==>
                      && canaries == Synced(splitMetaNamespaceKey, lister, old(canaries), item.key)
                      && events == old(events) + SyncEvents(sprintf, Lookup(splitMetaNamespaceKey, lister, item.key)))
    {
      var obj, shutdown := workqueue.Get();
      if shutdown {
        return false;
      }
      var err: Option<string> := None;
      match obj {
        case NonString =>
          workqueue.Forget(obj);
        case KeyItem(key) =>
          var syncErr := SyncHandler(key, lister);
          match syncErr {
            case Some(e) =>
              err := Some("error syncing '" + key + "': " + e);
            case None =>
              workqueue.Forget(obj);
          }
      }
      // The Some arm mirrors the error report of controller.go:149-150 and
      // cannot occur, since SyncHandler always returns None. Then the
      // deferred Done; an error would only be reported, never re-queued.
      workqueue.Done(obj);
      return true;
    }
  }
}
