/**
 * The field codec that turns a record into the body of a block and back
 * (the role of `FieldSaver.Save` and `FieldLoader.Load`), declared field by
 * field for the three record kinds. A body is the ordered list of
 * `(field name, value)` pairs nested under a block's key; the text rendering
 * of a value is not modelled, its kind is.
 */
module FieldCodec {
  import opened Outcomes
  import opened Records

  datatype Value =
    | IntValue(n: int)
    | BoolValue(flag: bool)
    | TextValue(text: Option<string>)
    | ListValue(items: seq<string>)
    | RampValue(ramp: ColorRamp)

  type Field = (string, Value)

  type Body = seq<Field>

  /** Why a body could not be loaded: a field the record does not have, or a value of the wrong kind. */
  datatype DecodeError = UnknownField(field: string) | BadValue(field: string)

  /** True when some field of `b` is called `name`. */
  predicate Mentions(b: Body, name: string)
  {
    exists i :: 0 <= i < |b| && b[i].0 == name
  }

  /** Loads the fields of `b` one after the other into `r`; the first failing field fails the whole load. */
  function LoadFields<R>(r: R, b: Body, load: (R, Field) -> Result<R, DecodeError>): Result<R, DecodeError>
    decreases |b|
  {
    if b == [] then Success(r)
    else match load(r, b[0])
      case Failure(e) => Failure(e)
      case Success(r') => LoadFields(r', b[1..], load)
  }

  /**
   * When loading field `i` of `b` turns `rs[i]` into `rs[i + 1]` for every `i`,
   * loading all of `b` into `rs[0]` gives the last of `rs`.
   */
  lemma {:induction false} LoadFieldsSteps<R>(b: Body, load: (R, Field) -> Result<R, DecodeError>, rs: seq<R>)
    requires |rs| == |b| + 1
    requires forall i :: 0 <= i < |b| ==> load(rs[i], b[i]) == Success(rs[i + 1])
    ensures LoadFields(rs[0], b, load) == Success(rs[|b|])
  {
    if b != [] {
      assert load(rs[0], b[0]) == Success(rs[1]);
      LoadFieldsSteps(b[1..], load, rs[1..]);
    }
  }

  // ----- ClientState, saved by name

  function StateName(s: ClientState): (name: string)
    ensures ParseState(name) == Some(s)
  {
    match s
    case NotReady => "NotReady"
    case Ready => "Ready"
    case Disconnected => "Disconnected"
  }

  function ParseState(name: string): (r: Option<ClientState>)
  {
    if name == "NotReady" then Some(NotReady)
    else if name == "Ready" then Some(Ready)
    else if name == "Disconnected" then Some(Disconnected)
    else None
  }

  // ----- Client

  function SaveClient(c: Client): Body
  {
    [ ("Index", IntValue(c.index)),
      ("ColorRamp", RampValue(c.colorRamp)),
      ("Country", TextValue(c.country)),
      ("SpawnPoint", IntValue(c.spawnPoint)),
      ("Name", TextValue(c.name)),
      ("State", TextValue(Some(StateName(c.state)))),
      ("Team", IntValue(c.team)),
      ("Slot", IntValue(c.slot)) ]
  }

  function LoadClientField(c: Client, f: Field): Result<Client, DecodeError>
  {
    var (name, v) := f;
    if name == "Index" then
      if v.IntValue? then Success(c.(index := v.n)) else Failure(BadValue(name))
    else if name == "ColorRamp" then
      if v.RampValue? then Success(c.(colorRamp := v.ramp)) else Failure(BadValue(name))
    else if name == "Country" then
      if v.TextValue? then Success(c.(country := v.text)) else Failure(BadValue(name))
    else if name == "SpawnPoint" then
      if v.IntValue? then Success(c.(spawnPoint := v.n)) else Failure(BadValue(name))
    else if name == "Name" then
      if v.TextValue? then Success(c.(name := v.text)) else Failure(BadValue(name))
    else if name == "State" then
      if v.TextValue? && v.text.Some? && ParseState(v.text.value).Some?
      then Success(c.(state := ParseState(v.text.value).value))
      else Failure(BadValue(name))
    else if name == "Team" then
      if v.IntValue? then Success(c.(team := v.n)) else Failure(BadValue(name))
    else if name == "Slot" then
      if v.IntValue? then Success(c.(slot := v.n)) else Failure(BadValue(name))
    else Failure(UnknownField(name))
  }

  /** `FieldLoader.Load<Client>(body)`: a new client with the fields of `body` loaded into it. */
  function LoadClient(b: Body): Result<Client, DecodeError>
  {
    LoadFields(NewClient, b, LoadClientField)
  }

  /** Loading what was saved gives back the same client. */
  lemma ClientRoundTrip(c: Client)
    ensures LoadClient(SaveClient(c)) == Success(c)
  {
    var c1 := NewClient.(index := c.index);
    var c2 := c1.(colorRamp := c.colorRamp);
    var c3 := c2.(country := c.country);
    var c4 := c3.(spawnPoint := c.spawnPoint);
    var c5 := c4.(name := c.name);
    var c6 := c5.(state := c.state);
    var c7 := c6.(team := c.team);
    LoadFieldsSteps(SaveClient(c), LoadClientField, [NewClient, c1, c2, c3, c4, c5, c6, c7, c]);
  }

  // ----- Slot

  function SaveSlot(s: Slot): Body
  {
    [ ("Index", IntValue(s.index)),
      ("Bot", TextValue(s.bot)),
      ("Closed", BoolValue(s.closed)),
      ("MapPlayer", TextValue(s.mapPlayer)),
      ("Spectator", BoolValue(s.spectator)) ]
  }

  function LoadSlotField(s: Slot, f: Field): Result<Slot, DecodeError>
  {
    var (name, v) := f;
    if name == "Index" then
      if v.IntValue? then Success(s.(index := v.n)) else Failure(BadValue(name))
    else if name == "Bot" then
      if v.TextValue? then Success(s.(bot := v.text)) else Failure(BadValue(name))
    else if name == "Closed" then
      if v.BoolValue? then Success(s.(closed := v.flag)) else Failure(BadValue(name))
    else if name == "MapPlayer" then
      if v.TextValue? then Success(s.(mapPlayer := v.text)) else Failure(BadValue(name))
    else if name == "Spectator" then
      if v.BoolValue? then Success(s.(spectator := v.flag)) else Failure(BadValue(name))
    else Failure(UnknownField(name))
  }

  /** `FieldLoader.Load<Slot>(body)`. */
  function LoadSlot(b: Body): Result<Slot, DecodeError>
  {
    LoadFields(NewSlot, b, LoadSlotField)
  }

  lemma SlotRoundTrip(s: Slot)
    ensures LoadSlot(SaveSlot(s)) == Success(s)
  {
    var s1 := NewSlot.(index := s.index);
    var s2 := s1.(bot := s.bot);
    var s3 := s2.(closed := s.closed);
    var s4 := s3.(mapPlayer := s.mapPlayer);
    LoadFieldsSteps(SaveSlot(s), LoadSlotField, [NewSlot, s1, s2, s3, s4, s]);
  }

  // ----- Global

  function SaveGlobal(g: Global): Body
  {
    [ ("ServerName", TextValue(g.serverName)),
      ("Map", TextValue(g.mapId)),
      ("Mods", ListValue(g.mods)),
      ("OrderLatency", IntValue(g.orderLatency)),
      ("RandomSeed", IntValue(g.randomSeed)),
      ("LockTeams", BoolValue(g.lockTeams)),
      ("AllowCheats", BoolValue(g.allowCheats)) ]
  }

  function LoadGlobalField(g: Global, f: Field): Result<Global, DecodeError>
  {
    var (name, v) := f;
    if name == "ServerName" then
      if v.TextValue? then Success(g.(serverName := v.text)) else Failure(BadValue(name))
    else if name == "Map" then
      if v.TextValue? then Success(g.(mapId := v.text)) else Failure(BadValue(name))
    else if name == "Mods" then
      if v.ListValue? then Success(g.(mods := v.items)) else Failure(BadValue(name))
    else if name == "OrderLatency" then
      if v.IntValue? then Success(g.(orderLatency := v.n)) else Failure(BadValue(name))
    else if name == "RandomSeed" then
      if v.IntValue? then Success(g.(randomSeed := v.n)) else Failure(BadValue(name))
    else if name == "LockTeams" then
      if v.BoolValue? then Success(g.(lockTeams := v.flag)) else Failure(BadValue(name))
    else if name == "AllowCheats" then
      if v.BoolValue? then Success(g.(allowCheats := v.flag)) else Failure(BadValue(name))
    else Failure(UnknownField(name))
  }

  /** `FieldLoader.Load(global, body)`: the fields of `body` overwrite those of an existing `global`. */
  function LoadGlobalInto(g: Global, b: Body): Result<Global, DecodeError>
  {
    LoadFields(g, b, LoadGlobalField)
  }

  /** Every field is saved, so loading a saved body into any settings gives back exactly the saved ones. */
  lemma GlobalRoundTrip(g: Global, into: Global)
    ensures LoadGlobalInto(into, SaveGlobal(g)) == Success(g)
  {
    var g1 := into.(serverName := g.serverName);
    var g2 := g1.(mapId := g.mapId);
    var g3 := g2.(mods := g.mods);
    var g4 := g3.(orderLatency := g.orderLatency);
    var g5 := g4.(randomSeed := g.randomSeed);
    var g6 := g5.(lockTeams := g.lockTeams);
    LoadFieldsSteps(SaveGlobal(g), LoadGlobalField, [into, g1, g2, g3, g4, g5, g6, g]);
  }

  /** The value the settings' field called `name` is saved as, if they have such a field. */
  function GlobalField(g: Global, name: string): Option<Value>
  {
    if name == "ServerName" then Some(TextValue(g.serverName))
    else if name == "Map" then Some(TextValue(g.mapId))
    else if name == "Mods" then Some(ListValue(g.mods))
    else if name == "OrderLatency" then Some(IntValue(g.orderLatency))
    else if name == "RandomSeed" then Some(IntValue(g.randomSeed))
    else if name == "LockTeams" then Some(BoolValue(g.lockTeams))
    else if name == "AllowCheats" then Some(BoolValue(g.allowCheats))
    else None
  }

  /** Loading one field sets that field to the loaded value and leaves every other field as it was. */
  lemma GlobalFieldLoadFrames(g: Global, f: Field)
    requires LoadGlobalField(g, f).Success?
    ensures GlobalField(LoadGlobalField(g, f).value, f.0) == Some(f.1)
    ensures forall name :: name != f.0 ==>
      GlobalField(LoadGlobalField(g, f).value, name) == GlobalField(g, name)
  {
  }

  /**
   * Loading a body overwrites only the fields it mentions: every setting whose
   * field is absent from `b` keeps the value it had before.
   */
  lemma {:induction false} GlobalLoadKeepsUnmentioned(g: Global, b: Body)
    requires LoadGlobalInto(g, b).Success?
    ensures forall name :: !Mentions(b, name) ==>
      GlobalField(LoadGlobalInto(g, b).value, name) == GlobalField(g, name)
    decreases |b|
  {
    if b != [] {
      var g' := LoadGlobalField(g, b[0]).value;
      GlobalFieldLoadFrames(g, b[0]);
      forall name | Mentions(b[1..], name) ensures Mentions(b, name) {
        var i :| 0 <= i < |b[1..]| && b[1..][i].0 == name;
        assert b[i + 1].0 == name;
      }
      assert forall name :: !Mentions(b, name) ==> b[0].0 != name;
      GlobalLoadKeepsUnmentioned(g', b[1..]);
    }
  }

  /** Whether a body fails to load, and with which error, does not depend on the settings it is loaded into. */
  lemma {:induction false} GlobalLoadFailureIgnoresTarget(g: Global, h: Global, b: Body)
    ensures LoadGlobalInto(g, b).Failure? <==> LoadGlobalInto(h, b).Failure?
    ensures LoadGlobalInto(g, b).Failure? ==> LoadGlobalInto(g, b).error == LoadGlobalInto(h, b).error
    decreases |b|
  {
    if b != [] && LoadGlobalField(g, b[0]).Success? {
      GlobalLoadFailureIgnoresTarget(LoadGlobalField(g, b[0]).value, LoadGlobalField(h, b[0]).value, b[1..]);
    }
  }
}
