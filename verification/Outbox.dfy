/** The offline queue of a browser: reports and photos made without a signal are kept in the device's database and sent
    later, possibly by several tabs at once, over a network that loses messages, to a server that recognises resends.
    Every await of the original is a point where anything else may happen; one event is what happens in between. */
module Outbox {
  import opened Listings

  /** Where a photo belongs: to an object whose id is known, or to a report that may itself still be queued. */
  datatype PhotoTarget = Known(id: int) | Awaiting(report: string) | Unset

  /** A queued item; its id is the client id the server recognises. An item without payload is malformed. */
  datatype Item =
    | Report(id: string, user: string, payload: bool, tries: nat)
    | Photo(id: string, user: string, payload: bool, tries: nat, target: PhotoTarget)

  predicate SameItem(a: Item, b: Item) {
    a.id == b.id && a.user == b.user && a.payload == b.payload && a.Report? == b.Report?
      && (a.Photo? && b.Photo? ==> a.target == b.target)
  }

  /** The item after one more refusal. */
  function Retried(item: Item): Item {
    match item
    case Report(id, user, payload, tries) => Report(id, user, payload, tries + 1)
    case Photo(id, user, payload, tries, target) => Photo(id, user, payload, tries + 1, target)
  }

  /** A refusal is counted, and nothing else about the item changes. */
  lemma OnceMore(item: Item)
    ensures var again := Retried(item);
      && again.tries == item.tries + 1 && again.id == item.id && again.user == item.user
      && again.payload == item.payload && again.Report? == item.Report?
      && (item.Photo? ==> again.target == item.target)
  {
  }

  /** The same item with `more` tries more. */
  ghost predicate TriedMore(before: Item, after: Item, more: nat) {
    && after.tries == before.tries + more && after.id == before.id && after.user == before.user
    && after.payload == before.payload && after.Report? == before.Report?
    && (before.Photo? && after.Photo? ==> after.target == before.target)
  }

  datatype Reply = Accepted(id: int) | Refused

  /** A request on its way: sent, past the server's look for an earlier record, or answered. */
  datatype Phase = Sent | Checked | Answered(reply: Reply)

  datatype Request =
    | ReportRequest(client: string, phase: Phase)
    | PhotoRequest(client: string, target: int, phase: Phase)

  datatype PhotoRow = PhotoRow(client: string, target: int)

  /** Where a tab is in its flush: between items, waiting for a reply, holding the id of a report not yet noted,
      about to remove an item, about to note a refusal. */
  datatype Tab =
    | Idle
    | Flushing(todo: seq<Item>)
    | Waiting(item: Item, rest: seq<Item>, request: int)
    | GotId(item: Item, rest: seq<Item>, serverId: int)
    | Confirmed(item: Item, rest: seq<Item>)
    | Rejected(item: Item, rest: seq<Item>)

  /** `items` and `ids` are the two stores of the device; `reports` and `photos` the server's tables by id;
      `made` remembers every item by its client id, `queued` those ever put in the queue, `deleted` what the user
      removed from it since. */
  datatype State = State(
    items: map<string, Item>, ids: map<string, int>, tabs: map<int, Tab>,
    requests: map<int, Request>, reports: map<int, string>, photos: map<int, PhotoRow>,
    made: map<string, Item>, queued: set<string>, deleted: set<string>)

  const EMPTY := State(map[], map[], map[], map[], map[], map[], map[], {}, {})

  function TabOf(s: State, tab: int): Tab {
    if tab in s.tabs then s.tabs[tab] else Idle
  }

  datatype Event =
    | Attempt(item: Item, request: int)
    | Add(item: Item)
    | Delete(id: string)
    | StartFlush(tab: int, todo: seq<Item>)
    | Send(tab: int, request: int)
    | EndFlush(tab: int)
    | Look(request: int)
    | Insert(request: int, newId: int)
    | Refuse(request: int)
    | Receive(tab: int)
    | NoteId(tab: int)
    | Remove(tab: int)
    | NoteRefusal(tab: int)
    | Stop(tab: int)

  /** What a flush takes on: the queued items of one user, reports before photos. */
  ghost predicate Snapshot(items: map<string, Item>, todo: seq<Item>) {
    && (forall k :: 0 <= k < |todo| ==> todo[k].id in items && items[todo[k].id] == todo[k])
    && (forall i, j :: 0 <= i < j < |todo| && todo[i].Photo? ==> todo[j].Photo?)
    && (forall i, j :: 0 <= i < j < |todo| ==> todo[i].id != todo[j].id && todo[i].user == todo[j].user)
    && (forall id :: id in items && todo != [] && items[id].user == todo[0].user ==> items[id] in todo)
  }

  /** The id a photo is to be sent for, if it is known by now. */
  function TargetOf(s: State, item: Item): Option<int>
    requires item.Photo?
  {
    match item.target
    case Known(id) => if id != 0 then Some(id) else None
    case Awaiting(report) => if report in s.ids && s.ids[report] != 0 then Some(s.ids[report]) else None
    case Unset => None
  }

  /** A photo may name only a report queued before it. */
  predicate MayName(s: State, item: Item) {
    item.Photo? && item.target.Awaiting? ==>
      var r := item.target.report;
      r in s.queued && r in s.made && s.made[r].Report? && s.made[r].payload
  }

  /** A client id is drawn for one item; that item may be put in the queue again. */
  predicate MayAdd(s: State, item: Item) {
    MayName(s, item) && (item.id in s.made ==> SameItem(item, s.made[item.id]))
  }

  function AddStep(s: State, item: Item): State {
    s.(items := s.items[item.id := item], made := if item.id in s.made then s.made else s.made[item.id := item],
       queued := s.queued + {item.id}, deleted := s.deleted - {item.id})
  }

  /** The page may post an item that it has just made, before it queues it. */
  predicate MayAttempt(s: State, item: Item, request: int) {
    && request !in s.requests && item.id !in s.made && item.payload
    && (item.Photo? ==> item.target.Known? && item.target.id != 0)
  }

  function AttemptStep(s: State, item: Item, request: int): State {
    s.(made := s.made[item.id := item],
       requests := s.requests[request :=
         if item.Photo? && item.target.Known? then PhotoRequest(item.id, item.target.id, Sent)
         else ReportRequest(item.id, Sent)])
  }

  function SendStep(s: State, tab: int, request: int): State {
    match TabOf(s, tab)
    case Flushing(todo) =>
      if todo == [] || request in s.requests then s
      else
        var item, rest := todo[0], todo[1..];
        if !item.payload then s.(tabs := s.tabs[tab := Confirmed(item, rest)])
        else if item.Report? then
          s.(tabs := s.tabs[tab := Waiting(item, rest, request)],
             requests := s.requests[request := ReportRequest(item.id, Sent)])
        else if TargetOf(s, item).Some? then
          s.(tabs := s.tabs[tab := Waiting(item, rest, request)],
             requests := s.requests[request := PhotoRequest(item.id, TargetOf(s, item).value, Sent)])
        else s.(tabs := s.tabs[tab := Flushing(rest)])
    case _ => s
  }

  function Answer(s: State, request: int, reply: Reply): State
    requires request in s.requests
  {
    s.(requests := s.requests[request := s.requests[request].(phase := Answered(reply))])
  }

  /** The server looks for an earlier record with the same client id. */
  ghost function LookStep(s: State, request: int): State {
    if request !in s.requests || s.requests[request].phase != Sent then s
    else
      var q := s.requests[request];
      if q.ReportRequest? && exists id :: id in s.reports && s.reports[id] == q.client then
        var id :| id in s.reports && s.reports[id] == q.client;
        Answer(s, request, Accepted(id))
      else if q.PhotoRequest? && exists id :: id in s.photos && s.photos[id].client == q.client then
        var id :| id in s.photos && s.photos[id].client == q.client;
        Answer(s, request, Accepted(id))
      else s.(requests := s.requests[request := q.(phase := Checked)])
  }

  /** Inserting a report: the unique index refuses a second one with the same client id. */
  ghost function InsertReport(s: State, request: int, client: string, newId: int): State
    requires request in s.requests
  {
    if exists id :: id in s.reports && s.reports[id] == client then Answer(s, request, Refused)
    else if newId <= 0 || newId in s.reports then s
    else Answer(s.(reports := s.reports[newId := client]), request, Accepted(newId))
  }

  /** Inserting a photo: with the same client id, the first one is handed back. */
  ghost function InsertPhoto(s: State, request: int, client: string, target: int, newId: int): State
    requires request in s.requests
  {
    if exists id :: id in s.photos && s.photos[id].client == client then
      var id :| id in s.photos && s.photos[id].client == client;
      Answer(s, request, Accepted(id))
    else if newId <= 0 || newId in s.photos then s
    else Answer(s.(photos := s.photos[newId := PhotoRow(client, target)]), request, Accepted(newId))
  }

  ghost function InsertStep(s: State, request: int, newId: int): State {
    if request !in s.requests || s.requests[request].phase != Checked then s
    else
      match s.requests[request]
      case ReportRequest(client, _) => InsertReport(s, request, client, newId)
      case PhotoRequest(client, target, _) => InsertPhoto(s, request, client, target, newId)
  }

  function ReceiveStep(s: State, tab: int): State {
    match TabOf(s, tab)
    case Waiting(item, rest, request) =>
      if request !in s.requests || !s.requests[request].phase.Answered? then s
      else
        (match s.requests[request].phase.reply
         case Refused => s.(tabs := s.tabs[tab := Rejected(item, rest)])
         case Accepted(id) =>
           if item.Report? then s.(tabs := s.tabs[tab := GotId(item, rest, id)])
           else s.(tabs := s.tabs[tab := Confirmed(item, rest)]))
    case _ => s
  }

  /** One event; an event that is not possible changes nothing. */
  ghost function Next(s: State, e: Event): State {
    match e
    case Attempt(item, request) => if MayAttempt(s, item, request) then AttemptStep(s, item, request) else s
    case Add(item) => if MayAdd(s, item) then AddStep(s, item) else s
    case Delete(id) => s.(items := s.items - {id}, deleted := s.deleted + {id})
    case StartFlush(tab, todo) =>
      if TabOf(s, tab) != Idle || !Snapshot(s.items, todo) then s else s.(tabs := s.tabs[tab := Flushing(todo)])
    case Send(tab, request) => SendStep(s, tab, request)
    case EndFlush(tab) =>
      (match TabOf(s, tab)
       case Flushing(todo) => if todo == [] then s.(tabs := s.tabs[tab := Idle]) else s
       case _ => s)
    case Look(request) => LookStep(s, request)
    case Insert(request, newId) => InsertStep(s, request, newId)
    case Refuse(request) =>
      if request !in s.requests || s.requests[request].phase.Answered? then s
      else Answer(s, request, Refused)
    case Receive(tab) => ReceiveStep(s, tab)
    case NoteId(tab) =>
      (match TabOf(s, tab)
       case GotId(item, rest, id) =>
         s.(ids := s.ids[item.id := id], tabs := s.tabs[tab := Confirmed(item, rest)])
       case _ => s)
    case Remove(tab) =>
      (match TabOf(s, tab)
       case Confirmed(item, rest) =>
         s.(items := s.items - {item.id}, tabs := s.tabs[tab := Flushing(rest)])
       case _ => s)
    case NoteRefusal(tab) =>
      (match TabOf(s, tab)
       case Rejected(item, rest) =>
         s.(items := s.items[item.id := Retried(item)], tabs := s.tabs[tab := Flushing(rest)])
       case _ => s)
    case Stop(tab) => s.(tabs := s.tabs[tab := Idle])
  }

  /** A request that comes to insert after another with the same client id did: a report is refused, a photo is answered
      with the record that is there, and neither table changes. */
  lemma LateInsert(s: State, request: int, newId: int, id: int)
    requires request in s.requests && s.requests[request].phase == Checked
    requires match s.requests[request]
             case ReportRequest(client, _) => id in s.reports && s.reports[id] == client
             case PhotoRequest(client, _, _) => id in s.photos && s.photos[id].client == client
    ensures var s' := Next(s, Insert(request, newId));
      && s'.reports == s.reports && s'.photos == s.photos && request in s'.requests
      && match s'.requests[request]
         case ReportRequest(client, phase) => phase == Answered(Refused)
         case PhotoRequest(client, _, phase) =>
           phase.Answered? && phase.reply.Accepted?
           && phase.reply.id in s.photos && s.photos[phase.reply.id].client == client
  {
  }

  // ------------------------------------------------------------------ what holds at every moment

  ghost predicate Known(s: State, item: Item) {
    item.id in s.made && SameItem(item, s.made[item.id])
  }

  ghost predicate AllKnown(s: State, items: seq<Item>) {
    forall k :: 0 <= k < |items| ==> Known(s, items[k])
  }

  ghost predicate ReportRecorded(s: State, client: string) {
    exists id :: id in s.reports && s.reports[id] == client
  }

  ghost predicate PhotoRecorded(s: State, client: string) {
    exists id :: id in s.photos && s.photos[id].client == client
  }

  /** The id is the one the photo's item asks for; for a photo of a queued report, the id the server gave that
      report. */
  ghost predicate RightTarget(s: State, client: string, target: int) {
    client in s.made && s.made[client].Photo?
    && match s.made[client].target
       case Unset => false
       case Known(id) => target == id
       case Awaiting(report) => target in s.reports && s.reports[target] == report
  }

  ghost predicate RequestFits(s: State, q: Request) {
    match q
    case ReportRequest(client, phase) =>
      && client in s.made && s.made[client].Report?
      && (phase.Answered? && phase.reply.Accepted? ==>
            phase.reply.id in s.reports && s.reports[phase.reply.id] == client)
    case PhotoRequest(client, target, phase) =>
      && RightTarget(s, client, target)
      && (phase.Answered? && phase.reply.Accepted? ==>
            phase.reply.id in s.photos && s.photos[phase.reply.id].client == client)
  }

  ghost predicate TabFits(s: State, t: Tab) {
    match t
    case Idle => true
    case Flushing(todo) => AllKnown(s, todo)
    case Waiting(item, rest, request) =>
      && Known(s, item) && AllKnown(s, rest) && item.payload
      && request in s.requests && s.requests[request].client == item.id
      && s.requests[request].ReportRequest? == item.Report?
    case GotId(item, rest, id) =>
      && Known(s, item) && AllKnown(s, rest) && item.payload && item.Report?
      && id in s.reports && s.reports[id] == item.id
    case Confirmed(item, rest) =>
      && Known(s, item) && AllKnown(s, rest)
      && (item.payload ==> if item.Report? then item.id in s.ids else PhotoRecorded(s, item.id))
    case Rejected(item, rest) => Known(s, item) && AllKnown(s, rest) && item.payload
  }

  ghost predicate StoresFit(s: State) {
    && (forall c :: c in s.items ==> s.items[c].id == c && Known(s, s.items[c]))
    && (forall c :: c in s.made ==> s.made[c].id == c)
    && (forall c :: c in s.queued ==> c in s.made)
    && (forall c :: c in s.ids ==> s.ids[c] in s.reports && s.reports[s.ids[c]] == c)
  }

  /** The server's tables hold no client id twice, and every photo hangs on the right object. */
  ghost predicate ServerFits(s: State) {
    && (forall i :: i in s.reports ==> i > 0)
    && (forall i, j :: i in s.reports && j in s.reports && s.reports[i] == s.reports[j] ==> i == j)
    && (forall i, j :: i in s.photos && j in s.photos && s.photos[i].client == s.photos[j].client ==> i == j)
    && (forall i :: i in s.photos ==> RightTarget(s, s.photos[i].client, s.photos[i].target))
  }

  ghost predicate NamesFit(s: State) {
    forall c :: c in s.made ==> MayName(s, s.made[c])
  }

  /** Nothing well-formed that the user kept is lost: a report is queued or its id is noted, a photo is queued or
      recorded. */
  ghost predicate NothingLost(s: State) {
    forall c :: c in s.queued && c !in s.deleted && c in s.made && s.made[c].payload ==>
      c in s.items || (if s.made[c].Report? then c in s.ids else PhotoRecorded(s, c))
  }

  ghost predicate TabsFit(s: State) {
    forall t :: t in s.tabs ==> TabFits(s, s.tabs[t])
  }

  ghost predicate RequestsFit(s: State) {
    forall q :: q in s.requests ==> RequestFits(s, s.requests[q])
  }

  ghost predicate Inv(s: State) {
    StoresFit(s) && ServerFits(s) && NamesFit(s) && NothingLost(s) && TabsFit(s) && RequestsFit(s)
  }

  // ------------------------------------------------------------------ what only grows

  ghost predicate Sub<K, V>(a: map<K, V>, b: map<K, V>) {
    forall k :: k in a ==> k in b && a[k] == b[k]
  }

  predicate SameSubject(a: Request, b: Request) {
    a.client == b.client && a.ReportRequest? == b.ReportRequest?
  }

  /** The queue's memory, the server's tables and the noted ids only grow; requests keep their subject. */
  ghost predicate Grows(s: State, s': State) {
    && Sub(s.made, s'.made) && s.queued <= s'.queued && Sub(s.reports, s'.reports) && Sub(s.photos, s'.photos)
    && (forall c :: c in s.ids ==> c in s'.ids)
    && (forall q :: q in s.requests ==> q in s'.requests && SameSubject(s.requests[q], s'.requests[q]))
  }

  lemma PhotoRecordedGrows(s: State, s': State, c: string)
    requires Grows(s, s') && PhotoRecorded(s, c)
    ensures PhotoRecorded(s', c)
  {
    var id :| id in s.photos && s.photos[id].client == c;
    assert id in s'.photos && s'.photos[id].client == c;
  }

  lemma TabGrows(s: State, s': State, t: Tab)
    requires Grows(s, s') && TabFits(s, t)
    ensures TabFits(s', t)
  {
    if t.Confirmed? && t.item.payload && t.item.Photo? {
      PhotoRecordedGrows(s, s', t.item.id);
    }
  }

  lemma RequestGrows(s: State, s': State, q: Request)
    requires Grows(s, s') && RequestFits(s, q)
    ensures RequestFits(s', q)
  {
  }

  /** Whatever fitted still fits, so an event needs to be looked at only where it changes something. */
  lemma FitsGrow(s: State, s': State)
    requires Grows(s, s') && TabsFit(s) && RequestsFit(s)
    ensures forall t :: t in s.tabs ==> TabFits(s', s.tabs[t])
    ensures forall q :: q in s.requests ==> RequestFits(s', s.requests[q])
  {
    forall t | t in s.tabs ensures TabFits(s', s.tabs[t]) {
      TabGrows(s, s', s.tabs[t]);
    }
    forall q | q in s.requests ensures RequestFits(s', s.requests[q]) {
      RequestGrows(s, s', s.requests[q]);
    }
  }

  lemma LostGrows(s: State, s': State)
    requires Grows(s, s') && NothingLost(s) && s'.made == s.made && s'.queued == s.queued && s.deleted <= s'.deleted
    requires forall c :: c in s.items && c !in s'.deleted && c in s.made && s.made[c].payload ==>
      c in s'.items || (if s.made[c].Report? then c in s'.ids else PhotoRecorded(s', c))
    ensures NothingLost(s')
  {
    forall c | c in s'.queued && c !in s'.deleted && c in s'.made && s'.made[c].payload
      ensures c in s'.items || (if s'.made[c].Report? then c in s'.ids else PhotoRecorded(s', c))
    {
      if c !in s.items && s.made[c].Photo? {
        PhotoRecordedGrows(s, s', c);
      }
    }
  }

  // ------------------------------------------------------------------ the events, one by one

  lemma AddLosesNothing(s: State, item: Item)
    requires NothingLost(s) && MayAdd(s, item)
    ensures NothingLost(AddStep(s, item))
  {
    var s' := AddStep(s, item);
    forall c | c in s'.queued && c !in s'.deleted && c in s'.made && s'.made[c].payload
      ensures c in s'.items || (if s'.made[c].Report? then c in s'.ids else PhotoRecorded(s', c))
    {
      if c != item.id && c !in s.items && s.made[c].Photo? {
        var id :| id in s.photos && s.photos[id].client == c;
        assert id in s'.photos;
      }
    }
  }

  /** Making an item, whether or not it is queued, leaves the tables as they are. */
  lemma MadeFits(s: State, s': State)
    requires StoresFit(s) && ServerFits(s) && NamesFit(s) && Sub(s.made, s'.made) && s.queued <= s'.queued
    requires s'.ids == s.ids && s'.reports == s.reports && s'.photos == s.photos
    requires forall c :: c in s'.made && c !in s.made ==> s'.made[c].id == c && MayName(s, s'.made[c])
    requires forall c :: c in s'.queued ==> c in s'.made
    requires forall c :: c in s'.items ==> s'.items[c].id == c && Known(s', s'.items[c])
    ensures StoresFit(s') && ServerFits(s') && NamesFit(s')
  {
    forall i | i in s'.photos ensures RightTarget(s', s'.photos[i].client, s'.photos[i].target) {
      assert RightTarget(s, s.photos[i].client, s.photos[i].target);
    }
    forall c | c in s'.made ensures MayName(s', s'.made[c]) {
      assert MayName(s, s'.made[c]);
    }
  }

  lemma AddFits(s: State, item: Item)
    requires StoresFit(s) && ServerFits(s) && NamesFit(s) && MayAdd(s, item)
    ensures var s' := AddStep(s, item); StoresFit(s') && ServerFits(s') && NamesFit(s') && Grows(s, s')
  {
    hide ServerFits, NamesFit;
    MadeFits(s, AddStep(s, item));
  }

  /** The stores and the server fit again, and what fitted in tabs and requests still does. */
  lemma ChangeKeeps(s: State, s': State)
    requires Inv(s) && Grows(s, s') && StoresFit(s') && ServerFits(s') && NamesFit(s') && NothingLost(s')
    requires s'.tabs == s.tabs
    requires forall q :: q in s'.requests ==>
      (q in s.requests && s'.requests[q] == s.requests[q]) || RequestFits(s', s'.requests[q])
    ensures Inv(s')
  {
    hide NothingLost, StoresFit, ServerFits, NamesFit, Grows, TabFits, RequestFits;
    FitsGrow(s, s');
  }

  lemma AddKeeps(s: State, item: Item)
    requires Inv(s)
    ensures Inv(Next(s, Add(item)))
  {
    if MayAdd(s, item) {
      AddFits(s, item);
      AddLosesNothing(s, item);
      hide NothingLost, StoresFit, ServerFits, NamesFit, Grows, MayAdd, RequestFits, TabFits;
      ChangeKeeps(s, AddStep(s, item));
    }
  }

  lemma AttemptLosesNothing(s: State, item: Item, request: int)
    requires NothingLost(s) && StoresFit(s) && MayAttempt(s, item, request)
    ensures NothingLost(AttemptStep(s, item, request))
  {
    var s' := AttemptStep(s, item, request);
    forall c | c in s'.queued && c !in s'.deleted && c in s'.made && s'.made[c].payload
      ensures c in s'.items || (if s'.made[c].Report? then c in s'.ids else PhotoRecorded(s', c))
    {
      if c !in s.items && s.made[c].Photo? {
        var id :| id in s.photos && s.photos[id].client == c;
        assert id in s'.photos;
      }
    }
  }

  lemma AttemptFits(s: State, item: Item, request: int)
    requires StoresFit(s) && ServerFits(s) && NamesFit(s) && MayAttempt(s, item, request)
    ensures var s' := AttemptStep(s, item, request);
      StoresFit(s') && ServerFits(s') && NamesFit(s') && Grows(s, s') && RequestFits(s', s'.requests[request])
  {
    hide ServerFits, NamesFit;
    MadeFits(s, AttemptStep(s, item, request));
  }

  lemma AttemptKeeps(s: State, item: Item, request: int)
    requires Inv(s)
    ensures Inv(Next(s, Attempt(item, request)))
  {
    if MayAttempt(s, item, request) {
      AttemptFits(s, item, request);
      AttemptLosesNothing(s, item, request);
      hide NothingLost, StoresFit, ServerFits, NamesFit, Grows, MayAttempt, RequestFits, TabFits;
      ChangeKeeps(s, AttemptStep(s, item, request));
    }
  }

  lemma DeleteKeeps(s: State, id: string)
    requires Inv(s)
    ensures Inv(Next(s, Delete(id)))
  {
    var s' := Next(s, Delete(id));
    FitsGrow(s, s');
    LostGrows(s, s');
  }

  /** Events that only move one tab. */
  lemma MoveKeeps(s: State, s': State, tab: int, t: Tab)
    requires Inv(s) && s' == s.(tabs := s.tabs[tab := t]) && TabFits(s', t)
    ensures Inv(s')
  {
    FitsGrow(s, s');
    LostGrows(s, s');
  }

  /** Events that only change one request. */
  lemma RequestKeeps(s: State, s': State, request: int, q: Request)
    requires Inv(s) && s' == s.(requests := s.requests[request := q]) && RequestFits(s', q)
    requires request in s.requests ==> SameSubject(s.requests[request], q)
    ensures Inv(s')
  {
    FitsGrow(s, s');
    LostGrows(s, s');
  }

  lemma SendKeeps(s: State, tab: int, request: int)
    requires Inv(s)
    ensures Inv(SendStep(s, tab, request))
  {
    var t := TabOf(s, tab);
    if t.Flushing? && t.todo != [] && request !in s.requests {
      assert TabFits(s, t);
      var item, rest := t.todo[0], t.todo[1..];
      assert Known(s, item) && AllKnown(s, rest);
      if !item.payload {
        MoveKeeps(s, SendStep(s, tab, request), tab, Confirmed(item, rest));
      } else if item.Photo? && TargetOf(s, item).None? {
        MoveKeeps(s, SendStep(s, tab, request), tab, Flushing(rest));
      } else {
        var q := if item.Report? then ReportRequest(item.id, Sent)
                 else PhotoRequest(item.id, TargetOf(s, item).value, Sent);
        var s1 := s.(requests := s.requests[request := q]);
        RequestKeeps(s, s1, request, q);
        MoveKeeps(s1, SendStep(s, tab, request), tab, Waiting(item, rest, request));
      }
    }
  }

  lemma RequestOf(s: State, request: int)
    requires Inv(s) && request in s.requests
    ensures RequestFits(s, s.requests[request]) && ServerFits(s)
  {
  }

  /** A request that is still in progress may be answered: refused, or accepted with the id of its record. */
  lemma AnswerKeeps(s: State, request: int, reply: Reply)
    requires Inv(s) && request in s.requests
    requires reply.Accepted? ==>
      match s.requests[request]
      case ReportRequest(client, _) => reply.id in s.reports && s.reports[reply.id] == client
      case PhotoRequest(client, _, _) => reply.id in s.photos && s.photos[reply.id].client == client
    ensures Inv(Answer(s, request, reply))
  {
    RequestOf(s, request);
    hide Inv, ServerFits, RightTarget;
    var s' := Answer(s, request, reply);
    RightTargetSame(s, s');
    RequestKeeps(s, s', request, s'.requests[request]);
  }

  lemma LookHitKeeps(s: State, request: int)
    requires Inv(s) && request in s.requests && s.requests[request].phase == Sent
    requires LookStep(s, request).requests[request].phase.Answered?
    ensures Inv(LookStep(s, request))
  {
    var s' := LookStep(s, request);
    var reply := s'.requests[request].phase.reply;
    assert s' == Answer(s, request, reply);
    hide Inv;
    AnswerKeeps(s, request, reply);
  }

  lemma LookMissKeeps(s: State, request: int)
    requires Inv(s) && request in s.requests && s.requests[request].phase == Sent
    ensures Inv(s.(requests := s.requests[request := s.requests[request].(phase := Checked)]))
  {
    var s' := s.(requests := s.requests[request := s.requests[request].(phase := Checked)]);
    RequestOf(s, request);
    hide Inv, RightTarget;
    RightTargetSame(s, s');
    RequestKeeps(s, s', request, s'.requests[request]);
  }

  lemma LookKeeps(s: State, request: int)
    requires Inv(s)
    ensures Inv(LookStep(s, request))
  {
    hide Inv;
    if request in s.requests && s.requests[request].phase == Sent {
      if LookStep(s, request).requests[request].phase.Answered? {
        LookHitKeeps(s, request);
      } else {
        LookMissKeeps(s, request);
      }
    }
  }

  /** Which target is right depends only on the queue's memory and the reports. */
  lemma RightTargetSame(s: State, s': State)
    requires s'.made == s.made && s'.reports == s.reports
    ensures forall client, target :: RightTarget(s, client, target) <==> RightTarget(s', client, target)
  {
  }

  /** The server's tables change by one new row. */
  lemma RowKeeps(s: State, s': State)
    requires Inv(s) && Grows(s, s')
    requires s' == s.(reports := s'.reports, photos := s'.photos) && ServerFits(s')
    ensures Inv(s')
  {
    FitsGrow(s, s');
    LostGrows(s, s');
  }

  lemma NewReportFits(s: State, client: string, id: int)
    requires ServerFits(s) && id > 0 && id !in s.reports && !ReportRecorded(s, client)
    ensures ServerFits(s.(reports := s.reports[id := client]))
  {
    var s' := s.(reports := s.reports[id := client]);
    forall i | i in s'.photos ensures RightTarget(s', s'.photos[i].client, s'.photos[i].target) {
      assert RightTarget(s, s.photos[i].client, s.photos[i].target);
    }
  }

  lemma NewPhotoFits(s: State, client: string, target: int, id: int)
    requires ServerFits(s) && id !in s.photos && !PhotoRecorded(s, client) && RightTarget(s, client, target)
    ensures ServerFits(s.(photos := s.photos[id := PhotoRow(client, target)]))
  {
    var s' := s.(photos := s.photos[id := PhotoRow(client, target)]);
    forall i | i in s'.photos ensures RightTarget(s', s'.photos[i].client, s'.photos[i].target) {
      if i != id { assert RightTarget(s, s.photos[i].client, s.photos[i].target); }
    }
  }

  lemma InsertReportKeeps(s: State, request: int, newId: int)
    requires Inv(s) && request in s.requests && s.requests[request].phase == Checked
      && s.requests[request].ReportRequest?
    requires !ReportRecorded(s, s.requests[request].client) && newId > 0 && newId !in s.reports
    ensures Inv(InsertReport(s, request, s.requests[request].client, newId))
  {
    var q := s.requests[request];
    RequestOf(s, request);
    var s1 := s.(reports := s.reports[newId := q.client]);
    NewReportFits(s, q.client, newId);
    hide Inv, ServerFits;
    RowKeeps(s, s1);
    var q' := ReportRequest(q.client, Answered(Accepted(newId)));
    RequestKeeps(s1, s1.(requests := s1.requests[request := q']), request, q');
  }

  lemma InsertPhotoKeeps(s: State, request: int, newId: int)
    requires Inv(s) && request in s.requests && s.requests[request].phase == Checked
      && s.requests[request].PhotoRequest?
    requires !PhotoRecorded(s, s.requests[request].client) && newId > 0 && newId !in s.photos
    ensures Inv(InsertPhoto(s, request, s.requests[request].client, s.requests[request].target, newId))
  {
    var q := s.requests[request];
    RequestOf(s, request);
    var s1 := s.(photos := s.photos[newId := PhotoRow(q.client, q.target)]);
    NewPhotoFits(s, q.client, q.target, newId);
    hide Inv, ServerFits;
    RowKeeps(s, s1);
    var q' := PhotoRequest(q.client, q.target, Answered(Accepted(newId)));
    RequestKeeps(s1, s1.(requests := s1.requests[request := q']), request, q');
  }

  lemma InsertKeeps(s: State, request: int, newId: int)
    requires Inv(s)
    ensures Inv(InsertStep(s, request, newId))
  {
    if request in s.requests && s.requests[request].phase == Checked {
      var q := s.requests[request];
      var s' := InsertStep(s, request, newId);
      if if q.ReportRequest? then ReportRecorded(s, q.client) else PhotoRecorded(s, q.client) {
        hide Inv;
        AnswerKeeps(s, request, s'.requests[request].phase.reply);
      } else if newId > 0 {
        if q.ReportRequest? && newId !in s.reports { InsertReportKeeps(s, request, newId); }
        if q.PhotoRequest? && newId !in s.photos { InsertPhotoKeeps(s, request, newId); }
      }
    }
  }

  lemma RefuseKeeps(s: State, request: int)
    requires Inv(s)
    ensures Inv(Next(s, Refuse(request)))
  {
    if request in s.requests && !s.requests[request].phase.Answered? {
      AnswerKeeps(s, request, Refused);
    }
  }

  lemma TabAt(s: State, tab: int)
    requires Inv(s)
    ensures TabFits(s, TabOf(s, tab))
  {
  }

  lemma ReceiveKeeps(s: State, tab: int)
    requires Inv(s)
    ensures Inv(ReceiveStep(s, tab))
  {
    TabAt(s, tab);
    var s' := ReceiveStep(s, tab);
    if s' != s {
      RequestOf(s, s.tabs[tab].request);
      hide Inv, ServerFits;
      MoveKeeps(s, s', tab, s'.tabs[tab]);
    }
  }

  lemma NoteIdKeeps(s: State, tab: int)
    requires Inv(s)
    ensures Inv(Next(s, NoteId(tab)))
  {
    TabAt(s, tab);
    if TabOf(s, tab).GotId? {
      var GotId(item, rest, id) := TabOf(s, tab);
      var s1 := s.(ids := s.ids[item.id := id]);
      NotedKeeps(s, item.id, id);
      hide Inv;
      MoveKeeps(s1, Next(s, NoteId(tab)), tab, Confirmed(item, rest));
    }
  }

  /** Noting the id of a report that the server holds. */
  lemma NotedKeeps(s: State, client: string, id: int)
    requires Inv(s) && id in s.reports && s.reports[id] == client
    ensures Inv(s.(ids := s.ids[client := id]))
  {
    var s' := s.(ids := s.ids[client := id]);
    FitsGrow(s, s');
    LostGrows(s, s');
  }

  lemma RemoveKeeps(s: State, tab: int)
    requires Inv(s)
    ensures Inv(Next(s, Remove(tab)))
  {
    TabAt(s, tab);
    if TabOf(s, tab).Confirmed? {
      var Confirmed(item, rest) := TabOf(s, tab);
      DroppedKeeps(s, item);
      var s1 := s.(items := s.items - {item.id});
      hide Inv;
      MoveKeeps(s1, Next(s, Remove(tab)), tab, Flushing(rest));
    }
  }

  /** Taking an item out of the queue that is noted or recorded, or that is malformed. */
  lemma DroppedKeeps(s: State, item: Item)
    requires Inv(s) && Known(s, item)
    requires item.payload ==> if item.Report? then item.id in s.ids else PhotoRecorded(s, item.id)
    ensures Inv(s.(items := s.items - {item.id}))
  {
    var s' := s.(items := s.items - {item.id});
    FitsGrow(s, s');
    LostGrows(s, s');
  }

  lemma NoteRefusalKeeps(s: State, tab: int)
    requires Inv(s)
    ensures Inv(Next(s, NoteRefusal(tab)))
  {
    TabAt(s, tab);
    if TabOf(s, tab).Rejected? {
      var Rejected(item, rest) := TabOf(s, tab);
      var again := Retried(item);
      PutBackKeeps(s, again);
      var s1 := s.(items := s.items[item.id := again]);
      hide Inv;
      MoveKeeps(s1, Next(s, NoteRefusal(tab)), tab, Flushing(rest));
    }
  }

  /** Putting an item back, even one that another tab or the user has taken out meanwhile. */
  lemma PutBackKeeps(s: State, item: Item)
    requires Inv(s) && Known(s, item)
    ensures Inv(s.(items := s.items[item.id := item]))
  {
    var s' := s.(items := s.items[item.id := item]);
    FitsGrow(s, s');
    LostGrows(s, s');
  }

  lemma StartFlushKeeps(s: State, tab: int, todo: seq<Item>)
    requires Inv(s)
    ensures Inv(Next(s, StartFlush(tab, todo)))
  {
    if TabOf(s, tab) == Idle && Snapshot(s.items, todo) {
      assert AllKnown(s, todo);
      MoveKeeps(s, Next(s, StartFlush(tab, todo)), tab, Flushing(todo));
    }
  }

  lemma IdleKeeps(s: State, tab: int)
    requires Inv(s)
    ensures Inv(s.(tabs := s.tabs[tab := Idle]))
  {
    MoveKeeps(s, s.(tabs := s.tabs[tab := Idle]), tab, Idle);
  }

  /** Whatever happens next, in whatever tab, on the network or at the server, the invariant is kept. */
  lemma NextKeeps(s: State, e: Event)
    requires Inv(s)
    ensures Inv(Next(s, e))
  {
    hide Inv, SendStep, LookStep, InsertStep, ReceiveStep, AddStep, AttemptStep, MayAdd, MayAttempt, Snapshot;
    match e
    case Attempt(item, request) => AttemptKeeps(s, item, request);
    case Add(item) => AddKeeps(s, item);
    case Delete(id) => DeleteKeeps(s, id);
    case StartFlush(tab, todo) => StartFlushKeeps(s, tab, todo);
    case Send(tab, request) => SendKeeps(s, tab, request);
    case EndFlush(tab) => IdleKeeps(s, tab);
    case Look(request) => LookKeeps(s, request);
    case Insert(request, newId) => InsertKeeps(s, request, newId);
    case Refuse(request) => RefuseKeeps(s, request);
    case Receive(tab) => ReceiveKeeps(s, tab);
    case NoteId(tab) => NoteIdKeeps(s, tab);
    case Remove(tab) => RemoveKeeps(s, tab);
    case NoteRefusal(tab) => NoteRefusalKeeps(s, tab);
    case Stop(tab) => IdleKeeps(s, tab);
  }

  // ------------------------------------------------------------------ runs

  ghost function Run(s: State, events: seq<Event>): State {
    if events == [] then s else Next(Run(s, events[..|events| - 1]), events[|events| - 1])
  }

  lemma {:induction false} RunKeeps(s: State, events: seq<Event>)
    requires Inv(s)
    ensures Inv(Run(s, events))
  {
    if events != [] {
      RunKeeps(s, events[..|events| - 1]);
      NextKeeps(Run(s, events[..|events| - 1]), events[|events| - 1]);
    }
  }

  lemma EmptyFits()
    ensures Inv(EMPTY)
  {
  }

  /** After any run: the server holds no client id twice. */
  lemma {:induction false} NoDuplicates(events: seq<Event>)
    ensures var s := Run(EMPTY, events);
      && (forall i, j :: i in s.reports && j in s.reports && s.reports[i] == s.reports[j] ==> i == j)
      && (forall i, j :: i in s.photos && j in s.photos && s.photos[i].client == s.photos[j].client ==> i == j)
  {
    EmptyFits();
    RunKeeps(EMPTY, events);
  }

  lemma LostNothing(s: State, c: string)
    requires Inv(s) && c in s.queued && c in s.made && s.made[c].payload && c !in s.deleted
    ensures c in s.items || (if s.made[c].Report? then ReportRecorded(s, c) else PhotoRecorded(s, c))
  {
    if c !in s.items && s.made[c].Report? {
      var id: int := s.ids[c];
      assert id in s.reports && s.reports[id] == c;
    }
  }

  /** After any run: every well-formed item that the user did not delete is still queued or recorded on the server. */
  lemma {:induction false} QueuedOrRecorded(events: seq<Event>, c: string)
    requires var s := Run(EMPTY, events); c in s.queued && c !in s.deleted && c in s.made && s.made[c].payload
    ensures var s := Run(EMPTY, events);
      c in s.items || (if s.made[c].Report? then ReportRecorded(s, c) else PhotoRecorded(s, c))
  {
    EmptyFits();
    RunKeeps(EMPTY, events);
    var s := Run(EMPTY, events);
    hide Run, Next;
    LostNothing(s, c);
  }

  /** A queued photo waits in vain when its report is neither queued nor noted: it will never be sent. */
  ghost predicate Stranded(s: State, c: string) {
    && c in s.items && s.items[c].Photo? && s.items[c].target.Awaiting?
    && s.items[c].target.report !in s.items && s.items[c].target.report !in s.ids
  }

  /** After any run: no photo is stranded unless the user deleted its report. */
  lemma {:induction false} NoPhotoStranded(events: seq<Event>, c: string)
    requires Stranded(Run(EMPTY, events), c)
    ensures var s := Run(EMPTY, events); s.items[c].target.report in s.deleted
  {
    EmptyFits();
    RunKeeps(EMPTY, events);
    var s := Run(EMPTY, events);
    hide Run, Next;
    assert Known(s, s.items[c]);
    assert MayName(s, s.made[c]);
  }

  /** After any run: the id noted for a report is the one under which the server holds that very report. */
  lemma {:induction false} NotedIdIsRight(events: seq<Event>, c: string)
    requires c in Run(EMPTY, events).ids
    ensures var s := Run(EMPTY, events); s.ids[c] in s.reports && s.reports[s.ids[c]] == c
  {
    EmptyFits();
    RunKeeps(EMPTY, events);
    hide Run, Next;
  }

  /** After any run: a photo taken for a queued report is recorded only with the id the server gave that report. */
  lemma {:induction false} PhotosOnRightReport(events: seq<Event>, i: int)
    requires i in Run(EMPTY, events).photos
    ensures var s := Run(EMPTY, events); RightTarget(s, s.photos[i].client, s.photos[i].target)
  {
    EmptyFits();
    RunKeeps(EMPTY, events);
  }

  // ------------------------------------------------------------------ one flush, start to end

  /** What the network does with the k-th item: brings the reply back, brings a refusal back, or loses the
      connection, before or after the server has handled the request. */
  datatype Fate = Replied | Turned | Lost(handled: bool)

  lemma RunSnoc(s: State, events: seq<Event>, e: Event)
    ensures Run(s, events + [e]) == Next(Run(s, events), e)
  {
    assert (events + [e])[..|events|] == events;
  }

  // How one picture is recorded twice.

  /** A photo just made, for an object whose id is known. */
  function NewPhoto(client: string, target: int): Item {
    Photo(client, "", true, 0, PhotoTarget.Known(target))
  }

  /** The server holds the photo; the reply may still be on its way. */
  function Recorded(a: string, target: int): State {
    EMPTY.(made := map[a := NewPhoto(a, target)], photos := map[1 := PhotoRow(a, target)],
           requests := map[1 := PhotoRequest(a, target, Answered(Accepted(1)))])
  }

  /** The same picture is queued under another client id, taken on by a flush and sent. */
  function SentAgain(a: string, b: string, target: int): State {
    var item := NewPhoto(b, target);
    var s := Recorded(a, target);
    s.(made := s.made[b := item], items := map[b := item], queued := {b}, tabs := map[0 := Waiting(item, [], 2)],
       requests := s.requests[2 := PhotoRequest(b, target, Sent)])
  }

  lemma PostedDirectly(a: string, target: int) returns (events: seq<Event>)
    requires target != 0
    ensures Run(EMPTY, events) == Recorded(a, target)
  {
    hide Run;
    assert Run(EMPTY, []) == EMPTY by { NoEvents(EMPTY); }
    var e1, e2, e3 := Attempt(NewPhoto(a, target), 1), Look(1), Insert(1, 1);
    var s1 := Next(EMPTY, e1);
    assert s1.requests == map[1 := PhotoRequest(a, target, Sent)];
    LookMisses(s1, 1);
    var s2 := Next(s1, e2);
    assert s2.requests == map[1 := PhotoRequest(a, target, Checked)];
    assert s2.photos[1 := PhotoRow(a, target)] == map[1 := PhotoRow(a, target)];
    assert Next(s2, e3) == Recorded(a, target);
    RunSnoc(EMPTY, [], e1);
    RunSnoc(EMPTY, [] + [e1], e2);
    RunSnoc(EMPTY, [] + [e1] + [e2], e3);
    events := [] + [e1] + [e2] + [e3];
  }

  lemma NoEvents(s: State)
    ensures Run(s, []) == s
  {
  }

  /** The same picture queued under another client id, and taken on by a flush. */
  function TakenOn(a: string, b: string, target: int): State {
    var item := NewPhoto(b, target);
    var s := Recorded(a, target);
    s.(made := s.made[b := item], items := map[b := item], queued := {b}, tabs := map[0 := Flushing([item])])
  }

  lemma QueuedAgain(a: string, b: string, target: int)
    requires a != b && target != 0
    ensures Next(Next(Recorded(a, target), Add(NewPhoto(b, target))), StartFlush(0, [NewPhoto(b, target)]))
         == TakenOn(a, b, target)
  {
    var item := NewPhoto(b, target);
    var s0 := Recorded(a, target);
    var s1 := Next(s0, Add(item));
    assert s1 == s0.(made := s0.made[b := item], items := map[b := item], queued := {b});
  }

  lemma SentOnce(a: string, b: string, target: int)
    requires a != b && target != 0
    ensures Next(TakenOn(a, b, target), Send(0, 2)) == SentAgain(a, b, target)
  {
    var item := NewPhoto(b, target);
    assert [item] + [] == [item];
    SendIs(TakenOn(a, b, target), item, [], 2);
  }

  lemma QueuedAndSent(a: string, b: string, target: int, before: seq<Event>) returns (events: seq<Event>)
    requires a != b && target != 0 && Run(EMPTY, before) == Recorded(a, target)
    ensures Run(EMPTY, events) == SentAgain(a, b, target)
  {
    hide Run, Next, Recorded, TakenOn, SentAgain;
    QueuedAgain(a, b, target);
    SentOnce(a, b, target);
    var e1, e2, e3 := Add(NewPhoto(b, target)), StartFlush(0, [NewPhoto(b, target)]), Send(0, 2);
    RunSnoc(EMPTY, before, e1);
    RunSnoc(EMPTY, before + [e1], e2);
    RunSnoc(EMPTY, before + [e1] + [e2], e3);
    events := before + [e1] + [e2] + [e3];
  }

  /** A form that posts a picture under one client id and, because another picture failed or no reply came, queues it
      under a fresh one leaves two records of it: the server knows a resend by its client id only. */
  lemma {:induction false} PictureRecordedTwice(a: string, b: string, target: int) returns (events: seq<Event>)
    requires a != b && target != 0
    ensures var s := Run(EMPTY, events);
      s.photos == map[1 := PhotoRow(a, target), 2 := PhotoRow(b, target)] && s.queued == {b}
  {
    hide Run;
    var before := PostedDirectly(a, target);
    before := QueuedAndSent(a, b, target, before);
    var s := SentAgain(a, b, target);
    LookMisses(s, 2);
    var s1 := Next(s, Look(2));
    assert s1.requests[2] == PhotoRequest(b, target, Checked);
    var s2 := Next(s1, Insert(2, 2));
    assert s2.photos == map[1 := PhotoRow(a, target), 2 := PhotoRow(b, target)];
    RunSnoc(EMPTY, before, Look(2));
    RunSnoc(EMPTY, before + [Look(2)], Insert(2, 2));
    events := before + [Look(2)] + [Insert(2, 2)];
  }

  ghost predicate Reaches(s: State, s': State) {
    exists events :: Run(s, events) == s'
  }

  lemma ReachesSelf(s: State)
    ensures Reaches(s, s)
  {
    assert Run(s, []) == s;
  }

  lemma ReachesNext(s: State, s': State, e: Event)
    requires Reaches(s, s')
    ensures Reaches(s, Next(s', e))
  {
    var events :| Run(s, events) == s';
    RunSnoc(s, events, e);
  }

  /** The device's stores, the server's tables, and one tab that flushes while no other tab does. */
  class Device {
    var items: map<string, Item>
    var ids: map<string, int>
    var reports: map<int, string>
    var photos: map<int, PhotoRow>
    var nextId: int
    ghost var requests: map<int, Request>
    ghost var nextRequest: int
    ghost var made: map<string, Item>
    ghost var queued: set<string>
    ghost var deleted: set<string>

    ghost function World(tab: Tab): State
      reads this
    {
      State(items, ids, map[0 := tab], requests, reports, photos, made, queued, deleted)
    }

    ghost predicate Valid(tab: Tab)
      reads this
    {
      && Inv(World(tab)) && nextId > 0
      && (forall id :: id in reports || id in photos ==> id < nextId)
      && (forall q :: q in requests ==> q < nextRequest)
    }

    constructor ()
      ensures Valid(Idle) && items == map[]
    {
      items, ids, reports, photos, nextId := map[], map[], map[], map[], 1;
      requests, nextRequest, made, queued, deleted := map[], 0, map[], {}, {};
    }

    /** Puts an item in the store, over whatever is there under its id. With an id drawn for this item, it is the event
        of queueing it. */
    method OutboxAdd(item: Item)
      requires Valid(Idle)
      modifies this
      ensures items == old(items)[item.id := item] && ids == old(ids)
      ensures reports == old(reports) && photos == old(photos) && nextId == old(nextId)
      ensures MayAdd(old(World(Idle)), item) ==> Valid(Idle) && World(Idle) == Next(old(World(Idle)), Add(item))
    {
      hide Inv, MayAdd;
      NextKeeps(World(Idle), Add(item));
      items := items[item.id := item];
      if item.id !in made { made := made[item.id := item]; }
      queued, deleted := queued + {item.id}, deleted - {item.id};
    }

    method OutboxRemove(id: string)
      requires Valid(Idle)
      modifies this
      ensures Valid(Idle) && World(Idle) == Next(old(World(Idle)), Delete(id))
    {
      hide Inv;
      NextKeeps(World(Idle), Delete(id));
      items, deleted := items - {id}, deleted + {id};
    }

    /** The server's look for an earlier report, or photo, with the same client id. */
    method EarlierReport(client: string) returns (id: Option<int>)
      ensures id.Some? ==> id.value in reports && reports[id.value] == client
      ensures id.None? ==> forall i :: i in reports ==> reports[i] != client
    {
      var known := set i | i in reports && reports[i] == client;
      if known == {} {
        forall i | i in reports ensures reports[i] != client { assert i !in known; }
        return None;
      }
      var i := Pick(known);
      return Some(i);
    }

    method EarlierPhoto(client: string) returns (id: Option<int>)
      ensures id.Some? ==> id.value in photos && photos[id.value].client == client
      ensures id.None? ==> forall i :: i in photos ==> photos[i].client != client
    {
      var known := set i | i in photos && photos[i].client == client;
      if known == {} {
        forall i | i in photos ensures photos[i].client != client { assert i !in known; }
        return None;
      }
      var i := Pick(known);
      return Some(i);
    }

    /** The server's handler for reports: the id of the earlier record, or of a new one. */
    method HandleReport(client: string, ghost tab: Tab) returns (id: int)
      requires Valid(tab) && nextRequest - 1 in requests && requests[nextRequest - 1] == ReportRequest(client, Sent)
      modifies this`reports, this`nextId, this`requests
      ensures Valid(tab) && Reaches(old(World(tab)), World(tab))
      ensures id in reports && reports[id] == client
      ensures requests == old(requests)[nextRequest - 1 := ReportRequest(client, Answered(Accepted(id)))]
    {
      hide Inv, Next, Reaches;
      ghost var q, w := nextRequest - 1, World(tab);
      var known := EarlierReport(client);
      if known.Some? {
        id := known.value;
        LookFinds(w, q, client, id);
        requests := requests[q := ReportRequest(client, Answered(Accepted(id)))];
        assert World(tab) == w.(requests := requests);
      } else {
        id := nextId;
        LookInserts(w, q, client, id);
        reports, nextId := reports[id := client], nextId + 1;
        requests := requests[q := ReportRequest(client, Answered(Accepted(id)))];
        assert World(tab) == w.(reports := reports, requests := requests);
      }
    }

    /** The server's handler for photos; a report that a photo is for must exist, which it does here. */
    method HandlePhoto(client: string, target: int, ghost tab: Tab) returns (id: int)
      requires Valid(tab) && nextRequest - 1 in requests
      requires requests[nextRequest - 1] == PhotoRequest(client, target, Sent)
      modifies this`photos, this`nextId, this`requests
      ensures Valid(tab) && Reaches(old(World(tab)), World(tab))
      ensures id in photos && photos[id].client == client
      ensures requests == old(requests)[nextRequest - 1 := PhotoRequest(client, target, Answered(Accepted(id)))]
    {
      hide Inv, Next, Reaches;
      ghost var q, w := nextRequest - 1, World(tab);
      var known := EarlierPhoto(client);
      if known.Some? {
        id := known.value;
        PhotoFinds(w, q, client, target, id);
        requests := requests[q := PhotoRequest(client, target, Answered(Accepted(id)))];
        assert World(tab) == w.(requests := requests);
      } else {
        id := nextId;
        PhotoInserts(w, q, client, target, id);
        photos, nextId := photos[id := PhotoRow(client, target)], nextId + 1;
        requests := requests[q := PhotoRequest(client, target, Answered(Accepted(id)))];
        assert World(tab) == w.(photos := photos, requests := requests);
      }
    }

    /** The tab takes the next item and posts it; the photo's target has been looked up. */
    ghost method Post(item: Item, rest: seq<Item>)
      requires Valid(Flushing([item] + rest)) && item.payload
      requires item.Report? || TargetOf(World(Idle), item).Some?
      modifies this`requests, this`nextRequest
      ensures Valid(Waiting(item, rest, nextRequest - 1)) && nextRequest == old(nextRequest) + 1
      ensures Reaches(old(World(Flushing([item] + rest))), World(Waiting(item, rest, nextRequest - 1)))
      ensures requests == old(requests)[nextRequest - 1 := RequestFor(old(World(Idle)), item)]
    {
      hide Inv, Reaches, Next;
      OneTab(Flushing([item] + rest), Waiting(item, rest, nextRequest));
      Posted(World(Flushing([item] + rest)), item, rest, nextRequest);
      requests := requests[nextRequest := RequestFor(World(Idle), item)];
      nextRequest := nextRequest + 1;
    }

    /** The tab gives up: the connection is lost, or the flush is over. */
    ghost method Leave(tab: Tab)
      requires Valid(tab)
      ensures Valid(Idle) && Reaches(World(tab), World(Idle))
    {
      hide Inv, Reaches;
      OneTab(tab, Idle);
      Continues(World(tab), Event.Stop(0));
    }

    /** The reply to a report is in: its id is noted first, then the item removed. */
    method AcceptReport(item: Item, ghost rest: seq<Item>, id: int)
      requires Valid(Waiting(item, rest, nextRequest - 1)) && item.Report? && nextRequest - 1 in requests
      requires requests[nextRequest - 1] == ReportRequest(item.id, Answered(Accepted(id)))
      modifies this`ids, this`items
      ensures Valid(Flushing(rest)) && Reaches(old(World(Waiting(item, rest, nextRequest - 1))), World(Flushing(rest)))
      ensures ids == old(ids)[item.id := id] && items == old(items) - {item.id}
    {
      hide Inv, Reaches, Next;
      OneTab(Waiting(item, rest, nextRequest - 1), Flushing(rest));
      ReportAccepted(World(Waiting(item, rest, nextRequest - 1)), item, rest, nextRequest - 1, id);
      ids := ids[item.id := id];
      items := items - {item.id};
    }

    /** The reply to a photo is in: it is removed. */
    method AcceptPhoto(item: Item, ghost rest: seq<Item>, id: int)
      requires Valid(Waiting(item, rest, nextRequest - 1)) && item.Photo? && nextRequest - 1 in requests
      requires requests[nextRequest - 1].phase == Answered(Accepted(id))
      modifies this`items
      ensures Valid(Flushing(rest)) && Reaches(old(World(Waiting(item, rest, nextRequest - 1))), World(Flushing(rest)))
      ensures items == old(items) - {item.id}
    {
      hide Inv, Reaches, Next;
      OneTab(Waiting(item, rest, nextRequest - 1), Flushing(rest));
      PhotoAccepted(World(Waiting(item, rest, nextRequest - 1)), item, rest, nextRequest - 1, id);
      items := items - {item.id};
    }

    /** A malformed item is removed without being sent. */
    method DropMalformed(item: Item, ghost rest: seq<Item>)
      requires Valid(Flushing([item] + rest)) && !item.payload
      modifies this`items
      ensures Valid(Flushing(rest)) && Reaches(old(World(Flushing([item] + rest))), World(Flushing(rest)))
      ensures items == old(items) - {item.id}
    {
      hide Inv, Reaches, Next;
      OneTab(Flushing([item] + rest), Flushing(rest));
      MalformedDropped(World(Flushing([item] + rest)), item, rest, nextRequest);
      items := items - {item.id};
    }

    /** A photo whose report has no id yet stays where it is. */
    ghost method PassOver(item: Item, rest: seq<Item>)
      requires Valid(Flushing([item] + rest)) && item.payload && item.Photo? && TargetOf(World(Idle), item).None?
      ensures Valid(Flushing(rest)) && Reaches(World(Flushing([item] + rest)), World(Flushing(rest)))
    {
      hide Inv, Reaches, Next;
      OneTab(Flushing([item] + rest), Flushing(rest));
      PassedOver(World(Flushing([item] + rest)), item, rest, nextRequest);
    }

    /** The server refused: the item goes back with one more try. */
    method AcceptRefusal(item: Item, ghost rest: seq<Item>)
      requires Valid(Waiting(item, rest, nextRequest - 1)) && nextRequest - 1 in requests
      requires requests[nextRequest - 1].phase == Sent
      modifies this`items, this`requests
      ensures Valid(Flushing(rest)) && Reaches(old(World(Waiting(item, rest, nextRequest - 1))), World(Flushing(rest)))
      ensures items == old(items)[item.id := Retried(item)]
    {
      hide Inv, Reaches, Next;
      ghost var q := nextRequest - 1;
      OneTab(Waiting(item, rest, q), Flushing(rest));
      RefusalNoted(World(Waiting(item, rest, q)), item, rest, q);
      requests := requests[q := requests[q].(phase := Answered(Refused))];
      items := items[item.id := Retried(item)];
    }

    /** What becomes of a report that has been posted. */
    method FinishReport(item: Item, ghost rest: seq<Item>, fate: Fate) returns (goesOn: bool)
      requires Valid(Waiting(item, rest, nextRequest - 1)) && item.Report? && nextRequest - 1 in requests
      requires requests[nextRequest - 1] == ReportRequest(item.id, Sent)
      modifies this
      ensures Valid(if goesOn then Flushing(rest) else Idle) && goesOn == !fate.Lost?
      ensures Reaches(old(World(Waiting(item, rest, nextRequest - 1))), World(if goesOn then Flushing(rest) else Idle))
      ensures items == match fate
        case Replied => old(items) - {item.id}
        case Turned => old(items)[item.id := Retried(item)]
        case Lost(_) => old(items)
      ensures ids.Keys == old(ids).Keys + (if fate == Replied then {item.id} else {})
    {
      hide Inv, Reaches, Next;
      ghost var tab := Waiting(item, rest, nextRequest - 1);
      ghost var w := World(tab);
      match fate {
        case Turned =>
          AcceptRefusal(item, rest);
          return true;
        case Replied =>
          var id := HandleReport(item.id, tab);
          ghost var w1 := World(tab);
          AcceptReport(item, rest, id);
          ReachesBoth(w, w1, World(Flushing(rest)));
          return true;
        case Lost(handled) =>
          ReachesSelf(w);
          if handled {
            var id := HandleReport(item.id, tab);
          }
          ghost var w1 := World(tab);
          Leave(tab);
          ReachesBoth(w, w1, World(Idle));
          return false;
      }
    }

    /** What becomes of a photo that has been posted. */
    method FinishPhoto(item: Item, ghost rest: seq<Item>, target: int, fate: Fate) returns (goesOn: bool)
      requires Valid(Waiting(item, rest, nextRequest - 1)) && item.Photo? && nextRequest - 1 in requests
      requires requests[nextRequest - 1] == PhotoRequest(item.id, target, Sent)
      modifies this
      ensures Valid(if goesOn then Flushing(rest) else Idle) && goesOn == !fate.Lost?
      ensures Reaches(old(World(Waiting(item, rest, nextRequest - 1))), World(if goesOn then Flushing(rest) else Idle))
      ensures items == match fate
        case Replied => old(items) - {item.id}
        case Turned => old(items)[item.id := Retried(item)]
        case Lost(_) => old(items)
      ensures ids == old(ids)
    {
      hide Inv, Reaches, Next;
      ghost var tab := Waiting(item, rest, nextRequest - 1);
      ghost var w := World(tab);
      match fate {
        case Turned =>
          AcceptRefusal(item, rest);
          return true;
        case Replied =>
          var id := HandlePhoto(item.id, target, tab);
          ghost var w1 := World(tab);
          AcceptPhoto(item, rest, id);
          ReachesBoth(w, w1, World(Flushing(rest)));
          return true;
        case Lost(handled) =>
          ReachesSelf(w);
          if handled {
            var id := HandlePhoto(item.id, target, tab);
          }
          ghost var w1 := World(tab);
          Leave(tab);
          ReachesBoth(w, w1, World(Idle));
          return false;
      }
    }

    /** Sends a report. */
    method SendReport(item: Item, ghost rest: seq<Item>, fate: Fate) returns (goesOn: bool)
      requires Valid(Flushing([item] + rest)) && item.payload && item.Report?
      modifies this
      ensures Valid(if goesOn then Flushing(rest) else Idle) && goesOn == !fate.Lost?
      ensures Reaches(old(World(Flushing([item] + rest))), World(if goesOn then Flushing(rest) else Idle))
      ensures items == match fate
        case Replied => old(items) - {item.id}
        case Turned => old(items)[item.id := Retried(item)]
        case Lost(_) => old(items)
      ensures ids.Keys == old(ids).Keys + (if fate == Replied then {item.id} else {})
    {
      hide Inv, Reaches, Next, Valid, World, Retried;
      ghost var w := World(Flushing([item] + rest));
      Post(item, rest);
      ghost var w1 := World(Waiting(item, rest, nextRequest - 1));
      goesOn := FinishReport(item, rest, fate);
      ReachesBoth(w, w1, World(if goesOn then Flushing(rest) else Idle));
    }

    /** The id a photo is to be sent for, 0 when it is not known. */
    method LookUpTarget(item: Item) returns (target: int)
      requires item.Photo?
      ensures (target != 0 <==> TargetOf(World(Idle), item).Some?)
      ensures target != 0 ==> TargetOf(World(Idle), item) == Some(target)
    {
      target := match item.target
        case Known(id) => id
        case Awaiting(report) => if report in ids then ids[report] else 0
        case Unset => 0;
    }

    /** Sends a photo, unless the report it is for has no id yet. */
    method SendPhoto(item: Item, ghost rest: seq<Item>, fate: Fate) returns (goesOn: bool, posted: bool)
      requires Valid(Flushing([item] + rest)) && item.payload && item.Photo?
      modifies this
      ensures Valid(if goesOn then Flushing(rest) else Idle) && posted == TargetOf(old(World(Idle)), item).Some?
      ensures goesOn == !(posted && fate.Lost?)
      ensures Reaches(old(World(Flushing([item] + rest))), World(if goesOn then Flushing(rest) else Idle))
      ensures items == if !posted then old(items) else match fate
        case Replied => old(items) - {item.id}
        case Turned => old(items)[item.id := Retried(item)]
        case Lost(_) => old(items)
      ensures ids == old(ids)
    {
      hide Inv, Reaches, Next, Valid, World, TargetOf, Retried;
      ghost var w := World(Flushing([item] + rest));
      var target := LookUpTarget(item);
      if target == 0 {
        PassOver(item, rest);
        return true, false;
      }
      Post(item, rest);
      ghost var w1 := World(Waiting(item, rest, nextRequest - 1));
      goesOn := FinishPhoto(item, rest, target, fate);
      ReachesBoth(w, w1, World(if goesOn then Flushing(rest) else Idle));
      posted := true;
    }

    /** Sends one item. Says whether the flush goes on, and what became of the item. */
    method SendOne(item: Item, ghost rest: seq<Item>, fate: Fate) returns (goesOn: bool, sent: bool, failed: bool)
      requires Valid(Flushing([item] + rest))
      modifies this
      ensures Valid(if goesOn then Flushing(rest) else Idle)
      ensures Reaches(old(World(Flushing([item] + rest))), World(if goesOn then Flushing(rest) else Idle))
      ensures var posted := item.payload && (item.Report? || TargetOf(old(World(Idle)), item).Some?);
        && sent == (!item.payload || (posted && fate == Replied))
        && failed == (posted && fate == Turned)
        && goesOn == !(posted && fate.Lost?)
      ensures items == if sent then old(items) - {item.id}
                       else if failed then old(items)[item.id := Retried(item)] else old(items)
      ensures ids.Keys == old(ids).Keys + (if sent && item.Report? && item.payload then {item.id} else {})
    {
      hide Inv, Reaches, Next, Valid, World, TargetOf, Retried;
      if !item.payload {
        DropMalformed(item, rest);
        return true, true, false;
      }
      var posted := true;
      if item.Report? {
        goesOn := SendReport(item, rest, fate);
      } else {
        goesOn, posted := SendPhoto(item, rest, fate);
      }
      sent, failed := posted && fate == Replied, posted && fate == Turned;
    }

    /** The tab takes on a list of queued items. */
    ghost method Begin(todo: seq<Item>)
      requires Valid(Idle) && Snapshot(items, todo)
      ensures Valid(Flushing(todo)) && Reaches(World(Idle), World(Flushing(todo)))
    {
      OneTab(Idle, Flushing(todo));
      Started(World(Idle), todo);
      hide Inv, Reaches, Next, Snapshot;
    }

    /** Whether the next item is posted. */
    lemma PostedIff(todo: seq<Item>, ids0: map<string, int>, fate: nat -> Fate, k: nat)
      requires k < |todo| && Valid(Flushing(todo[k..])) && Noted(todo, ids0, ids, fate, k)
      ensures Posts(todo, ids0, fate, k) <==>
        todo[k].payload && (todo[k].Report? || TargetOf(World(Idle), todo[k]).Some?)
    {
      hide Inv, Reaches, Next, Noted, Posts, TargetOf;
      WillBePosted(World(Idle), World(Flushing(todo[k..])), todo, ids0, fate, k);
    }

    /** Sends the queue of one user: reports first, then photos. `n` is where the connection was lost, or the end. Every
        item before that is gone, or back in the queue with one more try, or where it was, as its request fared. */
    method FlushOutbox(todo: seq<Item>, fate: nat -> Fate) returns (sent: nat, failed: nat, ghost n: nat)
      requires Valid(Idle) && Snapshot(items, todo)
      modifies this
      ensures Valid(Idle) && Reaches(old(World(Idle)), World(Idle))
      ensures EndsAt(todo, old(ids), fate, n) && Flushed(old(items), items, todo, old(ids), fate, n)
      ensures sent == Leaving(todo, old(ids), fate, n) && failed == Bouncing(todo, old(ids), fate, n)
      ensures CountsTries(old(items), items, todo, old(ids), fate, n)
    {
      hide Inv, Reaches, Next, Snapshot, TargetOf, Retried, Valid, World, Posts, Flushed, Noted, CountsTries;
      sent, failed, n := 0, 0, 0;
      ghost var start := World(Idle);
      Begin(todo);
      ghost var ids0, items0 := ids, items;
      NothingFlushed(items0, todo, ids0, fate);
      var k := 0;
      assert todo[0..] == todo;
      while k < |todo|
        invariant 0 <= k <= |todo| && n == k
        invariant Valid(Flushing(todo[k..])) && Reaches(start, World(Flushing(todo[k..])))
        invariant Noted(todo, ids0, ids, fate, k) && Flushed(items0, items, todo, ids0, fate, k)
        invariant forall i :: 0 <= i < k ==> !Breaks(todo, ids0, fate, i)
        invariant sent == Leaving(todo, ids0, fate, k) && failed == Bouncing(todo, ids0, fate, k)
      {
        ghost var before := World(Flushing(todo[k..]));
        assert todo[k..] == [todo[k]] + todo[k + 1..];
        PostedIff(todo, ids0, fate, k);
        ghost var items1, ids1 := items, ids;
        var goesOn, wasSent, wasRefused := SendOne(todo[k], todo[k + 1..], fate(k));
        ReachesBoth(start, before, World(if goesOn then Flushing(todo[k + 1..]) else Idle));
        if !goesOn {
          TriesCounted(items0, items, todo, ids0, fate, n);
          return;
        }
        if wasSent { sent := sent + 1; }
        if wasRefused { failed := failed + 1; }
        FlushedOne(items0, items1, items, todo, ids0, fate, k);
        NotedOne(todo, ids0, ids1, ids, fate, k);
        k := k + 1;
        n := k;
      }
      ghost var last := World(Flushing(todo[k..]));
      Leave(Flushing(todo[k..]));
      ReachesBoth(start, last, World(Idle));
      TriesCounted(items0, items, todo, ids0, fate, n);
    }
  }

  // How the items of one flush fare.

  /** A report that gets its id noted before the k-th item's turn. */
  ghost predicate NotedBy(todo: seq<Item>, fate: nat -> Fate, report: string, k: nat)
    requires k <= |todo|
  {
    exists i :: 0 <= i < k && todo[i].id == report && todo[i].Report? && todo[i].payload && fate(i) == Replied
  }

  /** The k-th item is posted: it is well-formed, and a photo has a target by then. */
  ghost predicate Posts(todo: seq<Item>, ids0: map<string, int>, fate: nat -> Fate, k: nat)
    requires k < |todo|
  {
    && todo[k].payload
    && (todo[k].Photo? ==>
          match todo[k].target
          case Known(id) => id != 0
          case Awaiting(report) => report in ids0 || NotedBy(todo, fate, report, k)
          case Unset => false)
  }

  ghost predicate Leaves(todo: seq<Item>, ids0: map<string, int>, fate: nat -> Fate, k: nat)
    requires k < |todo|
  {
    !todo[k].payload || (Posts(todo, ids0, fate, k) && fate(k) == Replied)
  }

  ghost predicate Bounces(todo: seq<Item>, ids0: map<string, int>, fate: nat -> Fate, k: nat)
    requires k < |todo|
  {
    Posts(todo, ids0, fate, k) && fate(k) == Turned
  }

  ghost predicate Breaks(todo: seq<Item>, ids0: map<string, int>, fate: nat -> Fate, k: nat)
    requires k < |todo|
  {
    Posts(todo, ids0, fate, k) && fate(k).Lost?
  }

  ghost function Leaving(todo: seq<Item>, ids0: map<string, int>, fate: nat -> Fate, n: nat): nat
    requires n <= |todo|
  {
    if n == 0 then 0 else Leaving(todo, ids0, fate, n - 1) + (if Leaves(todo, ids0, fate, n - 1) then 1 else 0)
  }

  ghost function Bouncing(todo: seq<Item>, ids0: map<string, int>, fate: nat -> Fate, n: nat): nat
    requires n <= |todo|
  {
    if n == 0 then 0 else Bouncing(todo, ids0, fate, n - 1) + (if Bounces(todo, ids0, fate, n - 1) then 1 else 0)
  }

  /** The first item on which the connection is lost, or the end of the list. */
  ghost predicate EndsAt(todo: seq<Item>, ids0: map<string, int>, fate: nat -> Fate, n: nat) {
    n <= |todo| && (forall i :: 0 <= i < n ==> !Breaks(todo, ids0, fate, i))
      && (n < |todo| ==> Breaks(todo, ids0, fate, n))
  }

  ghost predicate LeftBy(todo: seq<Item>, ids0: map<string, int>, fate: nat -> Fate, id: string, n: nat)
    requires n <= |todo|
  {
    exists i :: 0 <= i < n && todo[i].id == id && Leaves(todo, ids0, fate, i)
  }

  ghost predicate BouncedBy(todo: seq<Item>, ids0: map<string, int>, fate: nat -> Fate, id: string, n: nat)
    requires n <= |todo|
  {
    exists i :: 0 <= i < n && todo[i].id == id && Bounces(todo, ids0, fate, i)
  }

  /** The queue once the first `n` items have had their turn. */
  ghost predicate Flushed(before: map<string, Item>, after: map<string, Item>, todo: seq<Item>, ids0: map<string, int>,
                          fate: nat -> Fate, n: nat)
    requires n <= |todo|
  {
    && Snapshot(before, todo)
    && (forall id :: id in after <==> id in before && !LeftBy(todo, ids0, fate, id, n))
    && (forall id :: id in after && id in before ==>
          after[id] == if BouncedBy(todo, ids0, fate, id, n) then Retried(before[id]) else before[id])
  }

  /** What stays in the queue has one try more if it was refused, and is otherwise as it was. */
  ghost predicate CountsTries(before: map<string, Item>, after: map<string, Item>, todo: seq<Item>,
                              ids0: map<string, int>, fate: nat -> Fate, n: nat)
    requires n <= |todo|
  {
    forall id :: id in after ==>
      id in before && TriedMore(before[id], after[id], if BouncedBy(todo, ids0, fate, id, n) then 1 else 0)
  }

  lemma TriesCounted(before: map<string, Item>, after: map<string, Item>, todo: seq<Item>, ids0: map<string, int>,
                     fate: nat -> Fate, n: nat)
    requires n <= |todo| && Flushed(before, after, todo, ids0, fate, n)
    ensures CountsTries(before, after, todo, ids0, fate, n)
  {
    hide BouncedBy, LeftBy, Snapshot;
    forall id | id in after
      ensures id in before && TriedMore(before[id], after[id], if BouncedBy(todo, ids0, fate, id, n) then 1 else 0)
    {
      OnceMore(before[id]);
    }
  }

  lemma NothingFlushed(items: map<string, Item>, todo: seq<Item>, ids: map<string, int>, fate: nat -> Fate)
    requires Snapshot(items, todo)
    ensures Flushed(items, items, todo, ids, fate, 0) && Noted(todo, ids, ids, fate, 0)
  {
  }

  lemma TurnOf(todo: seq<Item>, ids0: map<string, int>, fate: nat -> Fate, id: string, k: nat)
    requires k < |todo|
    ensures LeftBy(todo, ids0, fate, id, k + 1) <==>
      LeftBy(todo, ids0, fate, id, k) || (id == todo[k].id && Leaves(todo, ids0, fate, k))
    ensures BouncedBy(todo, ids0, fate, id, k + 1) <==>
      BouncedBy(todo, ids0, fate, id, k) || (id == todo[k].id && Bounces(todo, ids0, fate, k))
  {
    hide Leaves, Bounces;
  }

  /** An item is in the queue as it was until its turn comes. */
  lemma NotYet(before: map<string, Item>, todo: seq<Item>, ids0: map<string, int>, fate: nat -> Fate, k: nat)
    requires k < |todo| && Snapshot(before, todo)
    ensures !LeftBy(todo, ids0, fate, todo[k].id, k) && !BouncedBy(todo, ids0, fate, todo[k].id, k)
    ensures todo[k].id in before && before[todo[k].id] == todo[k]
  {
    hide Leaves, Bounces;
  }

  lemma FlushedOne(before: map<string, Item>, items: map<string, Item>, items': map<string, Item>, todo: seq<Item>,
                   ids0: map<string, int>, fate: nat -> Fate, k: nat)
    requires k < |todo| && Flushed(before, items, todo, ids0, fate, k)
    requires items' == if Leaves(todo, ids0, fate, k) then items - {todo[k].id}
                       else if Bounces(todo, ids0, fate, k) then items[todo[k].id := Retried(todo[k])] else items
    ensures Flushed(before, items', todo, ids0, fate, k + 1)
  {
    hide Posts, Retried, Snapshot, LeftBy, BouncedBy, Leaves, Bounces;
    NotYet(before, todo, ids0, fate, k);
    forall id ensures
      && (LeftBy(todo, ids0, fate, id, k + 1) <==>
            LeftBy(todo, ids0, fate, id, k) || (id == todo[k].id && Leaves(todo, ids0, fate, k)))
      && (BouncedBy(todo, ids0, fate, id, k + 1) <==>
            BouncedBy(todo, ids0, fate, id, k) || (id == todo[k].id && Bounces(todo, ids0, fate, k)))
    {
      TurnOf(todo, ids0, fate, id, k);
    }
  }

  /** Exactly the ids known at first and those of the reports that were answered are noted. */
  ghost predicate Noted(todo: seq<Item>, ids0: map<string, int>, ids: map<string, int>, fate: nat -> Fate, k: nat)
    requires k <= |todo|
  {
    forall c :: c in ids <==> c in ids0 || NotedBy(todo, fate, c, k)
  }

  lemma NotedOne(todo: seq<Item>, ids0: map<string, int>, ids: map<string, int>, ids': map<string, int>,
                 fate: nat -> Fate, k: nat)
    requires k < |todo| && Noted(todo, ids0, ids, fate, k)
    requires ids'.Keys == ids.Keys
      + (if todo[k].Report? && todo[k].payload && fate(k) == Replied then {todo[k].id} else {})
    ensures Noted(todo, ids0, ids', fate, k + 1)
  {
  }

  lemma WillBePosted(s: State, flushing: State, todo: seq<Item>, ids0: map<string, int>, fate: nat -> Fate, k: nat)
    requires Inv(flushing) && s.ids == flushing.ids && k < |todo| && Noted(todo, ids0, s.ids, fate, k)
    ensures Posts(todo, ids0, fate, k) <==> todo[k].payload && (todo[k].Report? || TargetOf(s, todo[k]).Some?)
  {
    if todo[k].Photo? && todo[k].target.Awaiting? {
      var r := todo[k].target.report;
      if r in s.ids { assert flushing.ids[r] in flushing.reports; }
    }
  }

  /** Every photo of the list has a known target or is for a report that has its id or comes in the same list. */
  ghost predicate Sendable(todo: seq<Item>, ids: map<string, int>) {
    forall k :: 0 <= k < |todo| && todo[k].Photo? && todo[k].payload ==>
      match todo[k].target
      case Known(id) => id != 0
      case Awaiting(report) =>
        report in ids || exists i :: 0 <= i < |todo| && todo[i].id == report && todo[i].Report? && todo[i].payload
      case Unset => false
  }

  /** When every reply arrives and every photo has somewhere to go, each item of the list leaves: photos find the ids of
      the reports sent just before them. */
  lemma {:induction false} AllLeave(items: map<string, Item>, todo: seq<Item>, ids0: map<string, int>,
                                    fate: nat -> Fate, k: nat)
    requires Snapshot(items, todo) && Sendable(todo, ids0) && k < |todo|
    requires forall i: nat :: i < |todo| ==> fate(i) == Replied
    ensures Leaves(todo, ids0, fate, k) && !Breaks(todo, ids0, fate, k)
  {
    if todo[k].Photo? && todo[k].payload && todo[k].target.Awaiting? && todo[k].target.report !in ids0 {
      var r := todo[k].target.report;
      var i :| 0 <= i < |todo| && todo[i].id == r && todo[i].Report? && todo[i].payload;
      assert i < k;
      assert NotedBy(todo, fate, r, k);
    }
  }

  /** Then one flush goes to the end and empties its list: what is left in the queue is what was not listed, as
      it was. */
  lemma {:induction false} FlushEmpties(before: map<string, Item>, after: map<string, Item>, todo: seq<Item>,
                                        ids0: map<string, int>, fate: nat -> Fate, n: nat)
    requires EndsAt(todo, ids0, fate, n) && Flushed(before, after, todo, ids0, fate, n)
    requires Sendable(todo, ids0) && forall i: nat :: i < |todo| ==> fate(i) == Replied
    ensures n == |todo| && Leaving(todo, ids0, fate, n) == |todo| && Bouncing(todo, ids0, fate, n) == 0
    ensures after == before - (set k | 0 <= k < |todo| :: todo[k].id)
  {
    hide Posts, Retried, Sendable, NotedBy, Snapshot, LeftBy, BouncedBy, Leaves, Breaks, Leaving, Bouncing;
    assert Snapshot(before, todo);
    forall k: nat | k < |todo| ensures Leaves(todo, ids0, fate, k) && !Breaks(todo, ids0, fate, k) {
      AllLeave(before, todo, ids0, fate, k);
    }
    assert n == |todo|;
    AllCounted(todo, ids0, fate, n);
    forall id ensures LeftBy(todo, ids0, fate, id, n) <==> exists k :: 0 <= k < |todo| && todo[k].id == id {
      AllLeft(todo, ids0, fate, id);
    }
    forall id | id in after ensures !BouncedBy(todo, ids0, fate, id, n) {
      NoneBounced(todo, ids0, fate, id, n);
    }
  }

  lemma AllLeft(todo: seq<Item>, ids0: map<string, int>, fate: nat -> Fate, id: string)
    requires forall k: nat :: k < |todo| ==> Leaves(todo, ids0, fate, k)
    ensures LeftBy(todo, ids0, fate, id, |todo|) <==> exists k :: 0 <= k < |todo| && todo[k].id == id
  {
    hide Leaves;
    if k :| 0 <= k < |todo| && todo[k].id == id { assert Leaves(todo, ids0, fate, k); }
  }

  lemma NoneBounced(todo: seq<Item>, ids0: map<string, int>, fate: nat -> Fate, id: string, n: nat)
    requires n <= |todo| && forall i: nat :: i < |todo| ==> fate(i) == Replied
    ensures !BouncedBy(todo, ids0, fate, id, n)
  {
    hide Posts;
  }

  lemma {:induction false} AllCounted(todo: seq<Item>, ids0: map<string, int>, fate: nat -> Fate, n: nat)
    requires n <= |todo| && forall k: nat :: k < |todo| ==> Leaves(todo, ids0, fate, k) && fate(k) == Replied
    ensures Leaving(todo, ids0, fate, n) == n && Bouncing(todo, ids0, fate, n) == 0
  {
    hide Posts;
    if n > 0 {
      AllCounted(todo, ids0, fate, n - 1);
      assert Leaves(todo, ids0, fate, n - 1);
    }
  }

  lemma Started(s: State, todo: seq<Item>)
    requires Inv(s) && TabOf(s, 0) == Idle && Snapshot(s.items, todo)
    ensures var s' := s.(tabs := s.tabs[0 := Flushing(todo)]); Inv(s') && Reaches(s, s')
  {
    Continues(s, StartFlush(0, todo));
  }

  function RequestFor(s: State, item: Item): Request
    requires item.Report? || TargetOf(s, item).Some?
  {
    if item.Report? then ReportRequest(item.id, Sent) else PhotoRequest(item.id, TargetOf(s, item).value, Sent)
  }

  // What single events of tab 0 come to.

  lemma ReceiveReport(s: State, item: Item, rest: seq<Item>, q: int, id: int)
    requires TabOf(s, 0) == Waiting(item, rest, q) && item.Report? && q in s.requests
    requires s.requests[q].phase == Answered(Accepted(id))
    ensures Next(s, Receive(0)) == s.(tabs := s.tabs[0 := GotId(item, rest, id)])
  {
  }

  lemma ReceivePhoto(s: State, item: Item, rest: seq<Item>, q: int, id: int)
    requires TabOf(s, 0) == Waiting(item, rest, q) && item.Photo? && q in s.requests
    requires s.requests[q].phase == Answered(Accepted(id))
    ensures Next(s, Receive(0)) == s.(tabs := s.tabs[0 := Confirmed(item, rest)])
  {
  }

  lemma ReceiveRefusal(s: State, item: Item, rest: seq<Item>, q: int)
    requires TabOf(s, 0) == Waiting(item, rest, q) && q in s.requests && s.requests[q].phase == Answered(Refused)
    ensures Next(s, Receive(0)) == s.(tabs := s.tabs[0 := Rejected(item, rest)])
  {
  }

  lemma NoteIdIs(s: State, item: Item, rest: seq<Item>, id: int)
    requires TabOf(s, 0) == GotId(item, rest, id)
    ensures Next(s, NoteId(0)) == s.(ids := s.ids[item.id := id], tabs := s.tabs[0 := Confirmed(item, rest)])
  {
  }

  lemma RemoveIs(s: State, item: Item, rest: seq<Item>)
    requires TabOf(s, 0) == Confirmed(item, rest)
    ensures Next(s, Event.Remove(0)) == s.(items := s.items - {item.id}, tabs := s.tabs[0 := Flushing(rest)])
  {
  }

  lemma NoteRefusalIs(s: State, item: Item, rest: seq<Item>)
    requires TabOf(s, 0) == Rejected(item, rest)
    ensures Next(s, NoteRefusal(0))
         == s.(items := s.items[item.id := Retried(item)], tabs := s.tabs[0 := Flushing(rest)])
  {
  }

  lemma RefuseIs(s: State, q: int)
    requires q in s.requests && s.requests[q].phase == Sent
    ensures Next(s, Event.Refuse(q)) == Answer(s, q, Refused)
  {
  }

  lemma LookMisses(s: State, q: int)
    requires q in s.requests && s.requests[q].phase == Sent
    requires if s.requests[q].ReportRequest? then !ReportRecorded(s, s.requests[q].client)
             else !PhotoRecorded(s, s.requests[q].client)
    ensures Next(s, Look(q)) == s.(requests := s.requests[q := s.requests[q].(phase := Checked)])
  {
  }

  lemma SendIs(s: State, item: Item, rest: seq<Item>, q: int)
    requires TabOf(s, 0) == Flushing([item] + rest) && q !in s.requests
    ensures Next(s, Send(0, q)) ==
      if !item.payload then s.(tabs := s.tabs[0 := Confirmed(item, rest)])
      else if item.Photo? && TargetOf(s, item).None? then s.(tabs := s.tabs[0 := Flushing(rest)])
      else s.(tabs := s.tabs[0 := Waiting(item, rest, q)], requests := s.requests[q := RequestFor(s, item)])
  {
    assert ([item] + rest)[1..] == rest && ([item] + rest)[0] == item;
  }

  // What the stretches of a flush come to.

  lemma Posted(s: State, item: Item, rest: seq<Item>, q: int)
    requires Inv(s) && TabOf(s, 0) == Flushing([item] + rest) && q !in s.requests && item.payload
    requires item.Report? || TargetOf(s, item).Some?
    ensures var s' := s.(tabs := s.tabs[0 := Waiting(item, rest, q)], requests := s.requests[q := RequestFor(s, item)]);
            Inv(s') && Reaches(s, s')
  {
    hide Inv, Next, Reaches;
    SendIs(s, item, rest, q);
    Continues(s, Send(0, q));
  }

  lemma PassedOver(s: State, item: Item, rest: seq<Item>, q: int)
    requires Inv(s) && TabOf(s, 0) == Flushing([item] + rest) && q !in s.requests && item.payload
    requires item.Photo? && TargetOf(s, item).None?
    ensures var s' := s.(tabs := s.tabs[0 := Flushing(rest)]); Inv(s') && Reaches(s, s')
  {
    hide Inv, Next, Reaches;
    SendIs(s, item, rest, q);
    Continues(s, Send(0, q));
  }

  lemma MalformedDropped(s: State, item: Item, rest: seq<Item>, q: int)
    requires Inv(s) && TabOf(s, 0) == Flushing([item] + rest) && q !in s.requests && !item.payload
    ensures var s' := s.(items := s.items - {item.id}, tabs := s.tabs[0 := Flushing(rest)]); Inv(s') && Reaches(s, s')
  {
    hide Inv, Next, Reaches;
    SendIs(s, item, rest, q);
    Continues(s, Send(0, q));
    SameTabs(s, Confirmed(item, rest), Flushing(rest));
    ConfirmedRemoved(s, s.(tabs := s.tabs[0 := Confirmed(item, rest)]), item, rest);
  }

  lemma ConfirmedRemoved(s: State, s1: State, item: Item, rest: seq<Item>)
    requires Inv(s1) && Reaches(s, s1) && TabOf(s1, 0) == Confirmed(item, rest)
    ensures var s' := s1.(items := s1.items - {item.id}, tabs := s1.tabs[0 := Flushing(rest)]);
            Inv(s') && Reaches(s, s')
  {
    hide Inv, Next, Reaches;
    RemoveIs(s1, item, rest);
    Continues(s1, Event.Remove(0));
    ReachesBoth(s, s1, Next(s1, Event.Remove(0)));
  }

  lemma OneTab(a: Tab, b: Tab)
    ensures (map[0 := a])[0 := b] == map[0 := b]
  {
  }

  lemma SameTabs(s: State, a: Tab, b: Tab)
    ensures s.tabs[0 := a][0 := b] == s.tabs[0 := b]
  {
  }

  lemma ReportAccepted(s: State, item: Item, rest: seq<Item>, q: int, id: int)
    requires Inv(s) && TabOf(s, 0) == Waiting(item, rest, q) && item.Report? && q in s.requests
    requires s.requests[q].phase == Answered(Accepted(id))
    ensures var s' := s.(ids := s.ids[item.id := id], items := s.items - {item.id},
      tabs := s.tabs[0 := Flushing(rest)]);
            Inv(s') && Reaches(s, s')
  {
    hide Inv, Next, Reaches;
    var s1 := s.(tabs := s.tabs[0 := GotId(item, rest, id)]);
    ReceiveReport(s, item, rest, q, id);
    Continues(s, Receive(0));
    SameTabs(s, GotId(item, rest, id), Confirmed(item, rest));
    var s2 := s.(ids := s.ids[item.id := id], tabs := s.tabs[0 := Confirmed(item, rest)]);
    NoteIdIs(s1, item, rest, id);
    Continues(s1, NoteId(0));
    ReachesBoth(s, s1, s2);
    SameTabs(s, Confirmed(item, rest), Flushing(rest));
    ConfirmedRemoved(s, s2, item, rest);
  }

  lemma PhotoAccepted(s: State, item: Item, rest: seq<Item>, q: int, id: int)
    requires Inv(s) && TabOf(s, 0) == Waiting(item, rest, q) && item.Photo? && q in s.requests
    requires s.requests[q].phase == Answered(Accepted(id))
    ensures var s' := s.(items := s.items - {item.id}, tabs := s.tabs[0 := Flushing(rest)]);
            Inv(s') && Reaches(s, s')
  {
    hide Inv, Next, Reaches;
    var s1 := s.(tabs := s.tabs[0 := Confirmed(item, rest)]);
    ReceivePhoto(s, item, rest, q, id);
    Continues(s, Receive(0));
    SameTabs(s, Confirmed(item, rest), Flushing(rest));
    ConfirmedRemoved(s, s1, item, rest);
  }

  lemma RefusalNoted(s: State, item: Item, rest: seq<Item>, q: int)
    requires Inv(s) && TabOf(s, 0) == Waiting(item, rest, q) && q in s.requests && s.requests[q].phase == Sent
    ensures var s' := s.(items := s.items[item.id := Retried(item)],
                         requests := s.requests[q := s.requests[q].(phase := Answered(Refused))],
                         tabs := s.tabs[0 := Flushing(rest)]);
            Inv(s') && Reaches(s, s')
  {
    hide Inv, Next, Reaches;
    var s1 := Answer(s, q, Refused);
    RefuseIs(s, q);
    Continues(s, Event.Refuse(q));
    var s2 := s1.(tabs := s.tabs[0 := Rejected(item, rest)]);
    ReceiveRefusal(s1, item, rest, q);
    Continues(s1, Receive(0));
    ReachesBoth(s, s1, s2);
    SameTabs(s, Rejected(item, rest), Flushing(rest));
    NoteRefusalIs(s2, item, rest);
    Continues(s2, NoteRefusal(0));
    ReachesBoth(s, s2, Next(s2, NoteRefusal(0)));
  }

  lemma ReachesBoth(a: State, b: State, c: State)
    requires Reaches(a, b) && Reaches(b, c)
    ensures Reaches(a, c)
  {
    var one :| Run(a, one) == b;
    var two :| Run(b, two) == c;
    RunConcat(a, one, two);
  }

  lemma {:induction false} RunConcat(s: State, one: seq<Event>, two: seq<Event>)
    ensures Run(s, one + two) == Run(Run(s, one), two)
    decreases |two|
  {
    if two == [] {
      assert one + two == one;
    } else {
      var init, e := two[..|two| - 1], two[|two| - 1];
      RunConcat(s, one, init);
      assert one + two == (one + init) + [e];
      RunSnoc(s, one + init, e);
    }
  }

  lemma Continues(s: State, e: Event)
    requires Inv(s)
    ensures Inv(Next(s, e)) && Reaches(s, Next(s, e))
  {
    NextKeeps(s, e);
    ReachesSelf(s);
    ReachesNext(s, s, e);
  }

  lemma LookFinds(s: State, q: int, client: string, id: int)
    requires Inv(s) && q in s.requests && s.requests[q] == ReportRequest(client, Sent)
    requires id in s.reports && s.reports[id] == client
    ensures var s' := s.(requests := s.requests[q := ReportRequest(client, Answered(Accepted(id)))]);
            Inv(s') && Reaches(s, s')
  {
    Continues(s, Look(q));
  }

  lemma LookInserts(s: State, q: int, client: string, newId: int)
    requires Inv(s) && q in s.requests && s.requests[q] == ReportRequest(client, Sent)
    requires !ReportRecorded(s, client) && newId > 0 && newId !in s.reports
    ensures var s' := s.(reports := s.reports[newId := client],
                         requests := s.requests[q := ReportRequest(client, Answered(Accepted(newId)))]);
            Inv(s') && Reaches(s, s')
  {
    hide Inv, Next, Reaches;
    var s1 := s.(requests := s.requests[q := ReportRequest(client, Checked)]);
    LookMisses(s, q);
    Continues(s, Look(q));
    var s2 := InsertReport(s1, q, client, newId);
    InsertIs(s1, q, newId);
    Continues(s1, Insert(q, newId));
    ReachesBoth(s, s1, s2);
    assert s1.requests[q := ReportRequest(client, Answered(Accepted(newId)))]
        == s.requests[q := ReportRequest(client, Answered(Accepted(newId)))];
  }

  lemma InsertIs(s: State, q: int, newId: int)
    requires q in s.requests && s.requests[q].phase == Checked
    ensures Next(s, Insert(q, newId)) == match s.requests[q]
      case ReportRequest(client, _) => InsertReport(s, q, client, newId)
      case PhotoRequest(client, target, _) => InsertPhoto(s, q, client, target, newId)
  {
  }

  lemma PhotoFinds(s: State, q: int, client: string, target: int, id: int)
    requires Inv(s) && q in s.requests && s.requests[q] == PhotoRequest(client, target, Sent)
    requires id in s.photos && s.photos[id].client == client
    ensures var s' := s.(requests := s.requests[q := PhotoRequest(client, target, Answered(Accepted(id)))]);
            Inv(s') && Reaches(s, s')
  {
    Continues(s, Look(q));
  }

  lemma PhotoInserts(s: State, q: int, client: string, target: int, newId: int)
    requires Inv(s) && q in s.requests && s.requests[q] == PhotoRequest(client, target, Sent)
    requires !PhotoRecorded(s, client) && newId > 0 && newId !in s.photos
    ensures var s' := s.(photos := s.photos[newId := PhotoRow(client, target)],
                         requests := s.requests[q := PhotoRequest(client, target, Answered(Accepted(newId)))]);
            Inv(s') && Reaches(s, s')
  {
    hide Inv, Next, Reaches;
    var s1 := s.(requests := s.requests[q := PhotoRequest(client, target, Checked)]);
    LookMisses(s, q);
    Continues(s, Look(q));
    var s2 := InsertPhoto(s1, q, client, target, newId);
    InsertIs(s1, q, newId);
    Continues(s1, Insert(q, newId));
    ReachesBoth(s, s1, s2);
    assert s1.requests[q := PhotoRequest(client, target, Answered(Accepted(newId)))]
        == s.requests[q := PhotoRequest(client, target, Answered(Accepted(newId)))];
  }
}
