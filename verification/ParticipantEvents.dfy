/**
 Keys, tickets and events of remote participants (src/core/participant_event.h).
 A ticket is modelled by what checking it can observe: whether the membership
 still exists, for which key, and whether it is active.
 */
module ParticipantEvents {
  import opened Common

  datatype ParticipantKey = ParticipantKey(generation: nat, incarnation: nat, sid: string, identity: string)

  datatype TrackKey = TrackKey(participant: ParticipantKey, incarnation: nat, sid: string)

  datatype Ticket<+K> = Lost | Ticket(key: K, active: bool)

  predicate IsActive<K(==)>(ticket: Ticket<K>, expected: K)
  {
    ticket.Ticket? && ticket.key == expected && ticket.active
  }

  datatype TrackKind = Audio | Video | UnknownKind

  datatype TrackSource = UnknownSource | Camera | Microphone | ScreenShareVideo | ScreenShareAudio

  datatype SubscriptionError = NoError | CodecUnsupported | TrackNotFound | UnknownError

  /** The state of a publication as the server reports it. */
  datatype TrackState = TrackState(
    name: string,
    kind: TrackKind,
    source: TrackSource,
    muted: bool,
    paused: bool,
    subscriptionAllowed: bool,
    subscriptionError: SubscriptionError)

  datatype PublicationEvent = PublicationEvent(key: TrackKey, ticket: Ticket<TrackKey>, state: TrackState)

  datatype EventKind =
    | Upsert
    | Departure
    | TrackAvailable
    | TrackUnavailable
    | TrackMuted
    | TrackStreamState
    | TrackSubscriptionPermission
    | TrackSubscriptionError
    | ConnectionQuality
    | ActiveSpeakers
    | DataReceived
    | TextStreamOpened
    | ByteStreamOpened

  datatype ParticipantSnapshot = ParticipantSnapshot(
    key: ParticipantKey,
    ticket: Ticket<ParticipantKey>,
    name: string,
    speaking: bool,
    audioLevel: int,
    publications: seq<PublicationEvent>,
    isLocal: bool)

  datatype ParticipantEvent = ParticipantEvent(
    kind: EventKind,
    generation: nat,
    participant: ParticipantSnapshot,
    trackKey: TrackKey,
    trackTicket: Ticket<TrackKey>,
    track: TrackState)

  datatype Speaker = Speaker(key: ParticipantKey, isLocal: bool, speaking: bool)
}
