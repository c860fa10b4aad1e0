/**
 * The domain records shared by the store and its callers (types.ts).
 * Coordinates, the banner URL and the answers record are carried along
 * unchanged; no operation of the store inspects them.
 */
module Types {
  import opened Wrappers

  /** A latitude/longitude pair; the source keeps these as floating-point numbers. */
  datatype Coordinates = Coordinates(lat: real, lng: real)

  /** A volunteering event, owned by the NGO whose id is `ngoId`. */
  datatype Event = Event(
    id: string,
    ngoId: string,
    title: string,
    description: string,
    location: string,
    coordinates: Coordinates,
    date: string,
    time: string,
    ageRequirement: int,
    skillsGained: seq<string>,
    bannerUrl: string,
    contactEmail: string,
    requiredQuestions: Option<seq<string>>)

  datatype ApplicationStatus = Pending | Accepted | Rejected

  /** A volunteer's application to an event; `answers` maps question index to answer text. */
  datatype Application = Application(
    id: string,
    eventId: string,
    volunteerId: string,
    volunteerName: string,
    status: ApplicationStatus,
    answers: map<string, string>,
    appliedAt: string)

  /** One entry of an event's chat log; `isSystem` is absent on messages people send. */
  datatype ChatMessage = ChatMessage(
    id: string,
    senderId: string,
    senderName: string,
    text: string,
    timestamp: int,
    isSystem: Option<bool>)

  datatype Certificate = Certificate(
    id: string,
    volunteerId: string,
    eventId: string,
    eventName: string,
    issueDate: string,
    hours: real)
}
