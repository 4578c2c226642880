/** Viewport, seats and plans of the remote-video policy (src/core/video_demand_types.h). */
module DemandTypes {
  import opened Common
  import opened ParticipantEvents

  type U32 = x: nat | x < 0x1_0000_0000 witness 0

  datatype LayoutMode = Auto | Grid | SpeakerView | PictureInPicture

  datatype StageContent = VideoStage | Whiteboard

  datatype SeatRole = GridSeat | MainSeat | SidebarSeat | PipSeat

  datatype Reason =
    | Visible
    | Pinned
    | ActiveSpeaker
    | ScreenShare
    | Hidden
    | OnWhiteboard
    | PermissionDenied
    | Muted

  datatype Quality = NoVideo | P180 | P360 | P720 | P1080

  datatype Extent = Extent(width: U32, height: U32)

  /** placement stands for the parts of the intent that are only compared. */
  datatype Viewport = Viewport(
    session: nat,
    viewRevision: nat,
    catalogRevision: nat,
    mode: LayoutMode,
    page: nat,
    pageSize: nat,
    pageAnchor: Option<TrackKey>,
    pinned: Option<TrackKey>,
    selectedShare: Option<TrackKey>,
    content: StageContent,
    stage: Extent,
    placement: int,
    windowVisible: bool,
    minimized: bool)

  datatype Seat = Seat(
    key: TrackKey,
    source: TrackSource,
    role: SeatRole,
    width: nat,
    height: nat,
    quality: Quality,
    priority: nat,
    reason: Reason,
    subscriptionError: SubscriptionError)

  datatype Plan = Plan(
    session: nat,
    policyRevision: nat,
    catalogRevision: nat,
    requestedMode: LayoutMode,
    mode: LayoutMode,
    content: StageContent,
    page: nat,
    pageSize: nat,
    pageCount: nat,
    focused: Option<TrackKey>,
    stableSpeaker: Option<TrackKey>,
    seats: seq<Seat>,
    selectedVideo: seq<TrackKey>,
    selectedAudio: seq<TrackKey>,
    reason: Reason)
}
