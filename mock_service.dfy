/**
 * The in-memory store that stands in for a backend (services/mockService.ts):
 * events seeded with three fixed entries, applications, certificates and one
 * append-only chat log per event id. The source wraps every result in an
 * already-resolved promise; here the operations return their results directly.
 * The two readings of the clock the source takes become parameters: `clock`,
 * whose decimal rendering is a message id, and `now`, a timestamp.
 */
module MockService {
  import opened Wrappers
  import opened Types
  import opened Seqs

  const SystemSenderId: string := "system"
  const SystemSenderName: string := "SYSTEM"
  const WelcomeId: string := "1"
  const WelcomeText: string := "Channel initialized. Welcome team."
  const JoinSuffix: string := " has joined the operation."
  /** How far in the past, in milliseconds, a new channel's welcome message is dated. */
  const WelcomeBacklog: int := 10000

  /** The events every session starts with: three events with distinct ids, two of them owned by "ngo1". */
  function SeedEvents(): (r: seq<Event>)
    ensures |r| == 3
    ensures forall i, j :: 0 <= i < j < |r| ==> r[i].id != r[j].id
    ensures forall e :: e in r ==> e.ngoId == "ngo1" || e.ngoId == "ngo2"
    ensures |Filter(r, NgoIs("ngo1"))| == 2
  {
    [ Event("e1", "ngo1", "Mula-Mutha River Cleanup",
            "Join us to clean the river banks near Koregaon Park. Gloves and masks provided.",
            "Koregaon Park, Pune", Coordinates(18.5362, 73.8940), "2024-11-15", "08:00 AM", 18,
            ["Environmental Awareness", "Teamwork"], "https://picsum.photos/800/400?random=1",
            "cleanriver@pune.org", Some(["Do you have any allergies?"])),
      Event("e2", "ngo1", "Digital Skills for Youth",
            "Teaching basic computer skills to students in Yerwada.",
            "Yerwada, Pune", Coordinates(18.5529, 73.8797), "2024-11-20", "04:00 PM", 20,
            ["Teaching", "Communication", "IT Basics"], "https://picsum.photos/800/400?random=2",
            "teach@pune.org", None),
      Event("e3", "ngo2", "Midnight Food Distribution",
            "Distributing meals to homeless individuals near Pune Station.",
            "Pune Railway Station", Coordinates(18.5289, 73.8744), "2024-11-22", "10:00 PM", 21,
            ["Logistics", "Empathy"], "https://picsum.photos/800/400?random=3",
            "feed@pune.org", None) ]
  }

  // ---------------------------------------------------------------------------
  // Rendering a clock reading as the string the source uses for an id
  // ---------------------------------------------------------------------------

  predicate IsDigit(c: char) { '0' <= c <= '9' }

  /** The decimal rendering of a non-negative integer (`Number.prototype.toString`). */
  function DecimalString(n: nat): (s: string)
    ensures |s| >= 1
    ensures forall i :: 0 <= i < |s| ==> IsDigit(s[i])
    ensures s[0] == '0' ==> n == 0
    decreases n
  {
    var last := ('0' as int + n % 10) as char;
    if n < 10 then [last] else DecimalString(n / 10) + [last]
  }

  /** The number a string of decimal digits denotes. */
  function DecimalValue(s: string): nat
    requires forall i :: 0 <= i < |s| ==> IsDigit(s[i])
  {
    if s == [] then 0
    else
      assert IsDigit(s[|s| - 1]);
      DecimalValue(s[..|s| - 1]) * 10 + (s[|s| - 1] as int - '0' as int)
  }

  /** Reading an id back gives the clock value it was made from, so distinct readings give distinct ids. */
  lemma {:induction false} DecimalRoundTrip(n: nat)
    ensures DecimalValue(DecimalString(n)) == n
    decreases n
  {
    var s := DecimalString(n);
    if n >= 10 {
      DecimalRoundTrip(n / 10);
      assert s[..|s| - 1] == DecimalString(n / 10);
    }
  }

  // ---------------------------------------------------------------------------
  // Messages the store writes itself
  // ---------------------------------------------------------------------------

  /** Sent by the platform: sender "system", shown as "SYSTEM", flagged as a system message. */
  predicate IsSystemMessage(m: ChatMessage): (r: bool)
    ensures r ==> m.isSystem == Some(true)
    ensures r ==> m.senderId != "" && m.senderName != ""
  {
    m.senderId == SystemSenderId && m.senderName == SystemSenderName && m.isSystem == Some(true)
  }

  /** The message that opens a channel, dated ten seconds before `now`. */
  function WelcomeMessage(now: int): (m: ChatMessage)
    ensures IsSystemMessage(m) && m.id == WelcomeId && m.timestamp < now
  {
    ChatMessage(WelcomeId, SystemSenderId, SystemSenderName, WelcomeText, now - WelcomeBacklog, Some(true))
  }

  /** The announcement that a volunteer was accepted. */
  function JoinMessage(volunteerName: string, clock: nat, now: int): (m: ChatMessage)
    ensures IsSystemMessage(m) && m.timestamp == now
    ensures forall i :: 0 <= i < |m.id| ==> IsDigit(m.id[i])
    ensures DecimalValue(m.id) == clock
    ensures |m.text| == |volunteerName| + |JoinSuffix|
    ensures m.text[..|volunteerName|] == volunteerName
    ensures m.text[|volunteerName|..] == JoinSuffix
  {
    DecimalRoundTrip(clock);
    ChatMessage(DecimalString(clock), SystemSenderId, SystemSenderName, volunteerName + JoinSuffix, now, Some(true))
  }

  // ---------------------------------------------------------------------------
  // Chat logs, keyed by event id
  // ---------------------------------------------------------------------------

  /** The log for `eventId`, or the empty log when the channel was never opened (`chats[id] || []`). */
  function Channel(chats: map<string, seq<ChatMessage>>, eventId: string): (log: seq<ChatMessage>)
    ensures eventId in chats ==> log == chats[eventId]
    ensures eventId !in chats ==> log == []
  {
    if eventId in chats then chats[eventId] else []
  }

  /** The chat logs after `m` is appended to the log of `eventId`, opening it empty first if absent. */
  function AppendToChannel(chats: map<string, seq<ChatMessage>>, eventId: string, m: ChatMessage)
    : (c: map<string, seq<ChatMessage>>)
    ensures c.Keys == chats.Keys + {eventId}
    ensures c[eventId] == Channel(chats, eventId) + [m]
    ensures forall k :: k in chats && k != eventId ==> c[k] == chats[k]
  {
    chats[eventId := Channel(chats, eventId) + [m]]
  }

  // ---------------------------------------------------------------------------
  // Selections used by the queries
  // ---------------------------------------------------------------------------

  function NgoIs(ngoId: string): Event -> bool { (e: Event) => e.ngoId == ngoId }
  function EventIdOf(e: Event): string { e.id }
  function EventAmong(ids: seq<string>): Application -> bool { (a: Application) => a.eventId in ids }
  function VolunteerIs(volunteerId: string): Application -> bool { (a: Application) => a.volunteerId == volunteerId }
  function HolderIs(volunteerId: string): Certificate -> bool { (c: Certificate) => c.volunteerId == volunteerId }

  /** Some stored event with id `eventId` belongs to the NGO `ngoId`. */
  ghost predicate OwnsEvent(events: seq<Event>, ngoId: string, eventId: string)
  {
    exists e :: e in events && e.ngoId == ngoId && e.id == eventId
  }

  /** The ids of the events `ngoId` owns, in stored order. */
  function EventIdsOf(events: seq<Event>, ngoId: string): (ids: seq<string>)
    ensures forall id :: id in ids <==> OwnsEvent(events, ngoId, id)
  {
    FilterMultiplicity(events, NgoIs(ngoId));
    var owned := Filter(events, NgoIs(ngoId));
    var ids := Map(owned, EventIdOf);
    assert forall e :: e in owned ==> EventIdOf(e) in ids by {
      forall e | e in owned ensures EventIdOf(e) in ids {
        var i :| 0 <= i < |owned| && owned[i] == e;
        assert ids[i] == EventIdOf(e);
      }
    }
    ids
  }

  /** Adding an event owned by another NGO leaves an NGO's event ids as they were. */
  lemma EventIdsOfAppendOther(events: seq<Event>, e: Event, ngoId: string)
    requires e.ngoId != ngoId
    ensures EventIdsOf(events + [e], ngoId) == EventIdsOf(events, ngoId)
  {
    FilterAppend(events, [e], NgoIs(ngoId));
    assert Filter([e], NgoIs(ngoId)) == [];
  }

  /** Appending an application extends a volunteer's view by it exactly when it is theirs. */
  lemma VolunteerViewAfterAppend(apps: seq<Application>, app: Application, volunteerId: string)
    ensures Filter(apps + [app], VolunteerIs(volunteerId))
         == Filter(apps, VolunteerIs(volunteerId)) + (if app.volunteerId == volunteerId then [app] else [])
  {
    FilterAppend(apps, [app], VolunteerIs(volunteerId));
  }

  /** Appending an application extends an NGO's view by it exactly when it is against one of its events. */
  lemma NgoViewAfterAppend(events: seq<Event>, apps: seq<Application>, app: Application, ngoId: string)
    ensures Filter(apps + [app], EventAmong(EventIdsOf(events, ngoId)))
         == Filter(apps, EventAmong(EventIdsOf(events, ngoId)))
            + (if OwnsEvent(events, ngoId, app.eventId) then [app] else [])
  {
    FilterAppend(apps, [app], EventAmong(EventIdsOf(events, ngoId)));
  }

  /** Issuing a certificate extends a volunteer's certificates by it exactly when it is theirs. */
  lemma CertificatesAfterAppend(certs: seq<Certificate>, cert: Certificate, volunteerId: string)
    ensures Filter(certs + [cert], HolderIs(volunteerId))
         == Filter(certs, HolderIs(volunteerId)) + (if cert.volunteerId == volunteerId then [cert] else [])
  {
    FilterAppend(certs, [cert], HolderIs(volunteerId));
  }

  // ---------------------------------------------------------------------------
  // Looking an application up by id (`Array.prototype.find`)
  // ---------------------------------------------------------------------------

  /** The index of the first application whose id is `appId`, or None when there is none. */
  function FindById(apps: seq<Application>, appId: string): (r: Option<nat>)
    ensures r.Some? ==> r.value < |apps| && apps[r.value].id == appId
    ensures r.Some? ==> forall j :: 0 <= j < r.value ==> apps[j].id != appId
    ensures r.None? ==> forall j :: 0 <= j < |apps| ==> apps[j].id != appId
  {
    if apps == [] then None
    else if apps[0].id == appId then Some(0)
    else match FindById(apps[1..], appId)
      case None => None
      case Some(k) => Some(k + 1)
  }

  /** No two applications share an id. */
  predicate UniqueIds(apps: seq<Application>)
  {
    forall i, j :: 0 <= i < j < |apps| ==> apps[i].id != apps[j].id
  }

  /** The patch a caller applies to its own copy of a list after a status change (NGODashboard.tsx). */
  function WithStatusFor(appId: string, status: ApplicationStatus): Application -> Application
  {
    (a: Application) => if a.id == appId then a.(status := status) else a
  }

  /** The patch changes the status of the applications with id `appId`, and nothing else of any application. */
  lemma PatchChangesOnlyStatus(appId: string, status: ApplicationStatus, a: Application)
    ensures WithStatusFor(appId, status)(a).(status := a.status) == a
    ensures a.id == appId ==> WithStatusFor(appId, status)(a).status == status
    ensures a.id != appId ==> WithStatusFor(appId, status)(a) == a
  {
  }

  /**
   * When ids are unique, changing the status of the first application with id
   * `appId` is the same as changing the status of every application with that id.
   */
  lemma StatusUpdateAsPatch(apps: seq<Application>, appId: string, status: ApplicationStatus)
    requires UniqueIds(apps)
    ensures FindById(apps, appId).None? ==> apps == Map(apps, WithStatusFor(appId, status))
    ensures FindById(apps, appId).Some? ==>
              var i := FindById(apps, appId).value;
              apps[i := apps[i].(status := status)] == Map(apps, WithStatusFor(appId, status))
  {
    var patched := Map(apps, WithStatusFor(appId, status));
    match FindById(apps, appId) {
      case None =>
        assert forall k :: 0 <= k < |apps| ==> patched[k] == apps[k];
      case Some(i) =>
        assert forall k :: 0 <= k < |apps| && k != i ==> apps[k].id != appId by {
          forall k | 0 <= k < |apps| && k != i ensures apps[k].id != appId {
            if k < i { assert apps[k].id != apps[i].id; } else { assert apps[i].id != apps[k].id; }
          }
        }
        assert forall k :: 0 <= k < |apps| ==> patched[k] == apps[i := apps[i].(status := status)][k];
    }
  }

  /** A status change neither adds nor removes an application from any filtered view; it patches it in place. */
  lemma ViewAfterStatusPatch(apps: seq<Application>, appId: string, status: ApplicationStatus, p: Application -> bool)
    requires forall a: Application :: p(a.(status := status)) == p(a)
    ensures Filter(Map(apps, WithStatusFor(appId, status)), p) == Map(Filter(apps, p), WithStatusFor(appId, status))
  {
    FilterMapCommute(apps, WithStatusFor(appId, status), p);
  }

  /** With unique ids, every NGO's and every volunteer's view is patched in place and ids stay unique. */
  lemma ViewsAfterStatusPatch(events: seq<Event>, apps: seq<Application>, appId: string, status: ApplicationStatus)
    requires UniqueIds(apps)
    ensures UniqueIds(Map(apps, WithStatusFor(appId, status)))
    ensures forall n :: Filter(Map(apps, WithStatusFor(appId, status)), EventAmong(EventIdsOf(events, n)))
                        == Map(Filter(apps, EventAmong(EventIdsOf(events, n))), WithStatusFor(appId, status))
    ensures forall v :: Filter(Map(apps, WithStatusFor(appId, status)), VolunteerIs(v))
                        == Map(Filter(apps, VolunteerIs(v)), WithStatusFor(appId, status))
  {
    forall n {
      ViewAfterStatusPatch(apps, appId, status, EventAmong(EventIdsOf(events, n)));
    }
    forall v {
      ViewAfterStatusPatch(apps, appId, status, VolunteerIs(v));
    }
  }

  // ---------------------------------------------------------------------------
  // The store
  // ---------------------------------------------------------------------------

  class MockStore {
    var events: seq<Event>
    var applications: seq<Application>
    var certificates: seq<Certificate>
    var chats: map<string, seq<ChatMessage>>

    /**
     * Events are never removed, so the seed events stay at the front; a channel,
     * once opened, always holds at least one message.
     */
    ghost predicate Valid()
      reads this
    {
      && SeedEvents() <= events
      && forall eventId :: eventId in chats ==> chats[eventId] != []
    }

    /** A fresh session: the seed events and nothing else. */
    constructor ()
      ensures Valid()
      ensures events == SeedEvents() && applications == [] && certificates == [] && chats == map[]
    {
      events := SeedEvents();
      applications := [];
      certificates := [];
      chats := map[];
    }

    /** Every stored event, in insertion order, beginning with the seed events. */
    function GetEvents(): (r: seq<Event>)
      reads this
      requires Valid()
      ensures r == events
      ensures SeedEvents() <= r
    {
      events
    }

    /** Appends `event` as given: no check of its id or of the owning NGO. */
    method CreateEvent(event: Event) returns (r: Event)
      requires Valid()
      modifies this
      ensures Valid()
      ensures r == event && events == old(events) + [event]
      ensures applications == old(applications) && certificates == old(certificates) && chats == old(chats)
      ensures forall ngoId :: ngoId != event.ngoId ==>
        GetApplicationsForNgo(ngoId) == old(GetApplicationsForNgo(ngoId))
    {
      forall ngoId | ngoId != event.ngoId
        ensures EventIdsOf(events + [event], ngoId) == EventIdsOf(events, ngoId)
      {
        EventIdsOfAppendOther(events, event, ngoId);
      }
      events := events + [event];
      r := event;
    }

    /** Appends `app` as given, even when the same volunteer already applied to the same event. */
    method ApplyToEvent(app: Application) returns (r: Application)
      requires Valid()
      modifies this
      ensures Valid()
      ensures r == app && applications == old(applications) + [app]
      ensures events == old(events) && certificates == old(certificates) && chats == old(chats)
      ensures forall v :: GetVolunteerApplications(v) ==
                  old(GetVolunteerApplications(v)) + (if app.volunteerId == v then [app] else [])
      ensures forall n :: GetApplicationsForNgo(n) ==
                  old(GetApplicationsForNgo(n)) + (if OwnsEvent(events, n, app.eventId) then [app] else [])
    {
      forall v {
        VolunteerViewAfterAppend(applications, app, v);
      }
      forall n {
        NgoViewAfterAppend(events, applications, app, n);
      }
      applications := applications + [app];
      r := app;
    }

    /**
     * The applications made against events `ngoId` owns: exactly those, in
     * stored order, each as often as it is stored.
     */
    function GetApplicationsForNgo(ngoId: string): (r: seq<Application>)
      reads this
      ensures IsSubsequence(r, applications)
      ensures forall a :: a in r <==> a in applications && OwnsEvent(events, ngoId, a.eventId)
      ensures forall a :: multiset(r)[a] ==
                  if OwnsEvent(events, ngoId, a.eventId) then multiset(applications)[a] else 0
    {
      FilterMultiplicity(applications, EventAmong(EventIdsOf(events, ngoId)));
      Filter(applications, EventAmong(EventIdsOf(events, ngoId)))
    }

    /** The applications `volunteerId` made: exactly those, in stored order. */
    function GetVolunteerApplications(volunteerId: string): (r: seq<Application>)
      reads this
      ensures IsSubsequence(r, applications)
      ensures forall a :: a in r <==> a in applications && a.volunteerId == volunteerId
      ensures forall a :: multiset(r)[a] ==
                  if a.volunteerId == volunteerId then multiset(applications)[a] else 0
    {
      FilterMultiplicity(applications, VolunteerIs(volunteerId));
      Filter(applications, VolunteerIs(volunteerId))
    }

    /**
     * Sets the status of the first application with id `appId` and returns it;
     * on acceptance also announces the volunteer in the event's chat log. An
     * unknown id changes nothing and returns None.
     */
    method UpdateApplicationStatus(appId: string, status: ApplicationStatus, clock: nat, now: int)
      returns (r: Option<Application>)
      requires Valid()
      modifies this
      ensures Valid()
      ensures events == old(events) && certificates == old(certificates)
      ensures FindById(old(applications), appId).None? ==>
        r == None && applications == old(applications) && chats == old(chats)
      ensures FindById(old(applications), appId).Some? ==>
        var i := FindById(old(applications), appId).value;
        var app := old(applications)[i].(status := status);
        && r == Some(app)
        && applications == old(applications)[i := app]
        && chats == (if status == Accepted
                     then AppendToChannel(old(chats), app.eventId, JoinMessage(app.volunteerName, clock, now))
                     else old(chats))
      ensures UniqueIds(old(applications)) ==> UniqueIds(applications)
      ensures UniqueIds(old(applications)) ==>
                forall n :: GetApplicationsForNgo(n) == Map(old(GetApplicationsForNgo(n)), WithStatusFor(appId, status))
      ensures UniqueIds(old(applications)) ==>
                forall v :: GetVolunteerApplications(v) == Map(old(GetVolunteerApplications(v)), WithStatusFor(appId, status))
    {
      if UniqueIds(applications) {
        StatusUpdateAsPatch(applications, appId, status);
        ViewsAfterStatusPatch(events, applications, appId, status);
      }
      var found := FindById(applications, appId);
      match found {
        case None =>
          r := None;
        case Some(i) =>
          var app := applications[i].(status := status);
          applications := applications[i := app];
          if status == Accepted {
            chats := AppendToChannel(chats, app.eventId, JoinMessage(app.volunteerName, clock, now));
          }
          r := Some(app);
      }
    }

    /**
     * The log of `eventId`. A channel opened here for the first time holds the
     * welcome message alone; an open channel is returned as it is, so asking
     * twice gives the same log.
     */
    method GetChatMessages(eventId: string, now: int) returns (log: seq<ChatMessage>)
      requires Valid()
      modifies this
      ensures Valid()
      ensures events == old(events) && applications == old(applications) && certificates == old(certificates)
      ensures old(eventId in chats) ==> chats == old(chats) && log == old(chats[eventId])
      ensures old(eventId !in chats) ==>
        chats == old(chats)[eventId := [WelcomeMessage(now)]] && log == [WelcomeMessage(now)]
      ensures eventId in chats && log == chats[eventId] && log != []
    {
      if eventId !in chats {
        chats := chats[eventId := [WelcomeMessage(now)]];
      }
      log := chats[eventId];
    }

    /** Appends `message` to the log of `eventId`, opening an empty channel first if needed. */
    method SendMessage(eventId: string, message: ChatMessage) returns (r: ChatMessage)
      requires Valid()
      modifies this
      ensures Valid()
      ensures r == message && chats == AppendToChannel(old(chats), eventId, message)
      ensures events == old(events) && applications == old(applications) && certificates == old(certificates)
    {
      chats := AppendToChannel(chats, eventId, message);
      r := message;
    }

    /** Appends `cert` as given. */
    method IssueCertificate(cert: Certificate) returns (r: Certificate)
      requires Valid()
      modifies this
      ensures Valid()
      ensures r == cert && certificates == old(certificates) + [cert]
      ensures events == old(events) && applications == old(applications) && chats == old(chats)
      ensures forall v :: GetMyCertificates(v) ==
                  old(GetMyCertificates(v)) + (if cert.volunteerId == v then [cert] else [])
    {
      forall v {
        CertificatesAfterAppend(certificates, cert, v);
      }
      certificates := certificates + [cert];
      r := cert;
    }

    /** The certificates issued to `volunteerId`: exactly those, in stored order. */
    function GetMyCertificates(volunteerId: string): (r: seq<Certificate>)
      reads this
      ensures IsSubsequence(r, certificates)
      ensures forall c :: c in r <==> c in certificates && c.volunteerId == volunteerId
      ensures forall c :: multiset(r)[c] ==
                  if c.volunteerId == volunteerId then multiset(certificates)[c] else 0
    {
      FilterMultiplicity(certificates, HolderIs(volunteerId));
      Filter(certificates, HolderIs(volunteerId))
    }
  }
}
