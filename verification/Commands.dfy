/** The packets a session sends, and how the authentication gate classifies them. */
module Commands {

  /** The variants of the `Message` payload; their contents are irrelevant to ordering. */
  datatype MessageKind =
    | ChatMessage | CreateRoomMessage | JoinRoomMessage | LeaveRoomMessage | NewHostMessage
    | SelectChartMessage | GameStartMessage | ReadyMessage | CancelReadyMessage | CancelGameMessage
    | StartPlayingMessage | PlayedMessage | GameEndMessage | AbortMessage | LockRoomMessage | CycleRoomMessage

  /** The variants of `ServerCommand`. */
  datatype CommandKind =
    | Pong | Authenticate | Chat | Touches | Judges | Message(message: MessageKind)
    | ChangeState | ChangeHost | CreateRoom | JoinRoom | OnJoinRoom | LeaveRoom | LockRoom | CycleRoom
    | SelectChart | RequestStart | Ready | CancelReady | Played | Abort
    | RoomResponse | RoomEvent | UserVisit

  /** A packet: its variant, its payload (an opaque number) and the length of its wire encoding. */
  datatype Command = Command(kind: CommandKind, body: nat, wireSize: nat)

  datatype EventClass = SnapshotCovered | NonSnapshot | Telemetry

  predicate IsHighFrequencyTelemetry(k: CommandKind) {
    k.Touches? || k.Judges? || k.Pong?
  }

  function Classify(k: CommandKind): EventClass {
    if IsHighFrequencyTelemetry(k) then Telemetry
    else match k {
      case ChangeHost | ChangeState | LockRoom | CycleRoom | SelectChart | OnJoinRoom => SnapshotCovered
      case Message(m) => if IsCoveredMessage(m) then SnapshotCovered else NonSnapshot
      case _ => NonSnapshot
    }
  }

  predicate IsCoveredMessage(m: MessageKind) {
    m in {JoinRoomMessage, LeaveRoomMessage, NewHostMessage, LockRoomMessage, CycleRoomMessage, SelectChartMessage}
  }

  /** The class of every packet, by name: three kinds are telemetry, six commands and six messages are covered
      by a room snapshot, and all others are neither. */
  lemma ClassesByName(k: CommandKind)
    ensures Classify(k) == Telemetry <==> k in {Touches, Judges, Pong}
    ensures Classify(k) == SnapshotCovered <==>
      k in {ChangeHost, ChangeState, LockRoom, CycleRoom, SelectChart, OnJoinRoom,
            Message(JoinRoomMessage), Message(LeaveRoomMessage), Message(NewHostMessage),
            Message(LockRoomMessage), Message(CycleRoomMessage), Message(SelectChartMessage)}
  {}

  /** The variants that carry the result of a client's command, and nothing else. */
  predicate IsResponse(k: CommandKind) {
    match k
    case Authenticate | Chat | CreateRoom | JoinRoom | LeaveRoom | LockRoom | CycleRoom => true
    case SelectChart | RequestStart | Ready | CancelReady | Played | Abort | RoomResponse => true
    case _ => false
  }

  /** Responses are meant to stay out of the snapshot-covered class. Exactly three do not: a cutover can
      remove them if they are stamped. The state changes they answer are broadcast as messages. */
  lemma ResponsesCoveredIff(k: CommandKind)
    ensures IsResponse(k) && Classify(k) == SnapshotCovered <==> k in {LockRoom, CycleRoom, SelectChart}
  {}
}
