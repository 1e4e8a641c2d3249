/**
 * The lobby's value records `Session.Client`, `Session.Slot` and
 * `Session.Global`, and the values their fields start with when a fresh
 * record is created.
 */
module Records {
  import opened Outcomes

  /**
   * `Session.ClientState`. In the source `Disconnected` has the numeric value
   * 1000, leaving room for states between it and `Ready`.
   */
  datatype ClientState = NotReady | Ready | Disconnected

  /** A client's colour ramp; its components are carried through unchanged. */
  datatype ColorRamp = Ramp(components: seq<int>)

  /** `default(ColorRamp)`. */
  const DefaultRamp: ColorRamp := Ramp([])

  /**
   * `Session.Client`. A null string is `None`; `slot` is the index of the
   * slot the client is in, or -1 for an observer.
   */
  datatype Client = Client(
    index: int,
    colorRamp: ColorRamp,
    country: Option<string>,
    spawnPoint: int,
    name: Option<string>,
    state: ClientState,
    team: int,
    slot: int)

  /** `Session.Slot`. `bot` is the trait name of the bot in the slot, or null. */
  datatype Slot = Slot(
    index: int,
    bot: Option<string>,
    closed: bool,
    mapPlayer: Option<string>,
    spectator: bool)

  /** `Session.Global`. */
  datatype Global = Global(
    serverName: Option<string>,
    mapId: Option<string>,
    mods: seq<string>,
    orderLatency: int,
    randomSeed: int,
    lockTeams: bool,
    allowCheats: bool)

  /** `new Client()`: every field at the default of its type. */
  const NewClient: Client := Client(0, DefaultRamp, None, 0, None, NotReady, 0, 0)

  /** `new Slot()`. */
  const NewSlot: Slot := Slot(0, None, false, None, false)

  /** `new Global()`, with its field initialisers. */
  const NewGlobal: Global := Global(None, None, ["ra"], 3, 0, true, false)
}
