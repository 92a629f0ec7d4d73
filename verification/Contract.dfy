/** The wire contract the log is written in: envelopes and their payloads.
    A string is the sequence of bytes the program measures and compares it by;
    an absent message is None; a protobuf enum is its integer. */
module Contract {

  type byte = b: int | 0 <= b < 256
  type Text = seq<byte>
  type int32 = i: int | -0x8000_0000 <= i < 0x8000_0000

  datatype Option<+T> = None | Some(value: T)

  // ActorKind and NoteVisibility, open as protobuf enums are.
  const KIND_UNSPECIFIED: int32 := 0
  const KIND_PARTY_MEMBER: int32 := 1
  const KIND_NON_PARTY: int32 := 2
  const VISIBILITY_PUBLIC: int32 := 1

  datatype Position = Position(x: int32, y: int32)

  datatype TileRef = TileRef(kind: Text, material: Text, art: Text)

  /** A scene object as an event carries it; `at` may be absent. */
  datatype ObjectRef = ObjectRef(id: Text, kind: Text, at: Option<Position>, width: int32, height: int32,
                                 rotation: int32, blocksSight: bool, blocksMove: bool, art: Text)

  datatype Resource = Resource(current: int32, max: int32)

  datatype Actor = Actor(id: Text, name: Text, moduleId: Text, attributes: map<Text, int32>,
                         resources: map<Text, Resource>, controllerId: Text, controllerIds: seq<Text>, kind: int32)

  datatype Payload =
    | NoPayload
    | SessionStarted(sessionName: Text)
    | SessionEnded
    | SceneCreated(sceneId: Text, sceneName: Text, gridWidth: int32, gridHeight: int32,
                   tiles: map<Text, TileRef>, objects: seq<ObjectRef>)
    | ActorAdded(actor: Option<Actor>)
    | ActorControlGranted(actorId: Text, participantId: Text, kind: int32)
    | ActorControlRevoked(actorId: Text, participantId: Text)
    | TokenPlaced(tokenId: Text, tokenScene: Text, actorId: Text, position: Option<Position>,
                  name: Text, notes: Text, gmName: Text, gmNotes: Text)
    | TokenDescribed(tokenId: Text, name: Text, notes: Text, gmName: Text, gmNotes: Text)
    | TokenMoved(tokenId: Text, moveScene: Text, to: Option<Position>, reason: Text)
    | TokenRemoved(tokenId: Text)
    | ActorRemoved(actorId: Text)
    | DoorOpened(doorScene: Text, at: Option<Position>)
    | DoorClosed(doorScene: Text, at: Option<Position>)
    | AttackRolled
    | AbilityUsed(abilityId: Text)
    | AdventureLoaded(adventureId: Text, adventureName: Text)
    | ResourceChanged(actorId: Text, resource: Text, delta: int32, newValue: int32)
    | ConditionApplied(actorId: Text, conditionId: Text, source: Text)
    | ConditionRemoved(actorId: Text, conditionId: Text)
    | NarrationAdded(text: Text, speaker: Text, anchorFrom: int, anchorTo: int)
    | WhisperAdded(text: Text, toActorIds: seq<Text>, fromActorId: Text)
    | NoteUpserted(key: Text, title: Text, text: Text, visibility: int32)
    | NoteDeleted(key: Text)
    | TokenHidden(tokenId: Text)
    | SceneSeen(seenScene: Text, seenTiles: map<Text, TileRef>, seenObjects: seq<ObjectRef>, visibleSquares: seq<Text>)

  datatype Envelope = Envelope(sequence: int, sessionId: Text, payload: Payload)
}
