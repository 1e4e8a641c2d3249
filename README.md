# OpenRA lobby session model

A Dafny model of `OpenRA.Network.Session`, the pre-match lobby state of OpenRA. A session holds
an ordered list of clients (connected participants), an ordered list of slots (player
positions) and one set of global settings. The model covers:

- the lookup queries `ClientWithIndex`, `ClientInSlot` and `FirstEmptySlot`, with the LINQ
  semantics of `SingleOrDefault` and `First`, exceptions included;
- `Serialize`, which lays out one `Client@<index>` block per client, one `Slot@<index>` block
  per slot and a final `GlobalSettings` block;
- `Deserialize`, which starts from a fresh session and dispatches each block on the text
  before the first `@` of its key.

Modules:

- `Outcomes` (outcomes.dfy): `Option` (a C# `null`) and `Result` (a value or a thrown exception).
- `Keys` (keys.dfy): the decimal text of an `int`, and the tag of a key (`key.Split('@')[0]`).
- `Scans` (scans.dfy): `SingleOrDefault`, answering no match, a unique match, or ambiguous
  (the InvalidOperationException LINQ throws), and `First`, a scan whose predicate may itself
  throw.
- `Records` (records.dfy): `Client`, `Slot`, `Global` and `ClientState`, with the field
  defaults of a freshly created record.
- `FieldCodec` (codec.dfy): a field-by-field codec for the three records, in the role of
  `FieldSaver.Save` / `FieldLoader.Load`. A block body is an ordered list of
  `(field name, typed value)` pairs.
- `Network` (session.dfy): the `Session` class with its mutable `clients`, `slots` and
  `globalSettings` fields. Its `Serialize` and `Deserialize` methods are loops proved
  against the specification functions `Serialized` and `Decoded`, and the lemmas about
  those two functions sit beside them.

The serialized document is the list of top-level nodes, a `seq<(key, body)>`. It is not the
text MiniYaml prints. `Game.Settings.Game.Mods`, a global that `Deserialize` reads, is the
`defaultMods` parameter.

Behaviour of the code that the model keeps:

- `RoundTrip` holds for every lobby; no unique client or slot indices are needed.
- Two clients with the same index or in the same slot make `SingleOrDefault`, and so
  `ClientWithIndex` and `ClientInSlot`, throw; the model returns `Ambiguous`.
- `FirstEmptySlot` calls `ClientInSlot` inside its scan. It therefore also throws when an
  open slot that comes before every vacant slot holds two clients. The model returns
  `Failure(SharedSlot(index))` for this, besides `Failure(NoEmptySlot)`.
- Several `GlobalSettings` blocks all load into the same settings object. Later fields
  overwrite earlier ones, field by field.

## Model

| member | source | states |
|---|---|---|
| `Network.Session.ClientWithIndex` | OpenRA.Game/Network/Session.cs:24-27 | Returns none exactly when no client has that index. Returns the client when exactly one has it. Returns ambiguous (the exception) exactly when two list positions share it. |
| `Network.Session.ClientInSlot` | OpenRA.Game/Network/Session.cs:29-32 | The same none, one and ambiguous answers, for clients whose `Slot` equals the slot's `Index`. |
| `Network.ObserverNeverInSlot` | OpenRA.Game/Network/Session.cs:29-32 | Inserting an observer (slot -1) anywhere in the client list changes no `ClientInSlot` answer for a slot whose index is not -1. |
| `Network.EmptySlotTest` | OpenRA.Game/Network/Session.cs:36-37 | The predicate of `FirstEmptySlot` holds exactly when the slot is open, `ClientInSlot` finds no client and the slot has no bot. It throws exactly when the slot is open and `ClientInSlot` throws on it (two clients in it). |
| `Network.Session.FirstEmptySlot` | OpenRA.Game/Network/Session.cs:34-37 | A success is the `Index` of the earliest slot in list order that is open, has no client (`ClientInSlot` is none) and has no bot, and every earlier slot is closed, taken by one client or has a bot. Fails with no empty slot exactly when every slot is passed over, which includes an empty slot list. |
| `Network.FirstEmptySlotSkipsClosedAndTaken` | OpenRA.Game/Network/Session.cs:34-37 | With slot 0 closed and a client in slot 1, the result is slot 2. |
| `Network.FirstEmptySlotFollowsListOrder` | OpenRA.Game/Network/Session.cs:34-37 | Open, empty slots listed as 2, 0, 1 give 2: list order wins, not the lowest index. |
| `Network.Session.constructor` | OpenRA.Game/Network/Session.cs:80-83 | A new session has no clients, no slots, and default settings whose mods are the given ones. |
| `Network.Session.Serialize` | OpenRA.Game/Network/Session.cs:85-98 | The loops build exactly `Serialized` of the session's state: the client blocks in list order, then the slot blocks in list order, then the settings block. `SerializedLayout` and `RoundTrip` state what that document holds. |
| `Network.SerializedLayout` | OpenRA.Game/Network/Session.cs:87-97 | The serialized document has exactly \|clients\| + \|slots\| + 1 blocks. Block i is `"Client@" + index` with the saved client i. The next \|slots\| blocks are `"Slot@" + index` with the saved slots, in order. The last block is `GlobalSettings` with the saved settings. |
| `Network.Session.Deserialize` | OpenRA.Game/Network/Session.cs:100-126 | Succeeds exactly when `Decoded` does. On success it returns a fresh session whose state is the decoded lobby. On failure it returns the same error as `Decoded`. |
| `Network.RoundTrip` | OpenRA.Game/Network/Session.cs:85-126 | Deserializing the serialized lobby gives back the same clients and slots, in order, and the same settings, for any default mods. |
| `Network.UnknownTagIgnored` | OpenRA.Game/Network/Session.cs:107-122 | A block whose tag is not `GlobalSettings`, `Client` or `Slot` can be deleted without changing the result. |
| `Network.SuffixIgnored` | OpenRA.Game/Network/Session.cs:107-109 | Replacing a key with another key that has the same tag does not change the result. The text after `@` plays no part. |
| `Network.DecodedClients` | OpenRA.Game/Network/Session.cs:115-116 | The resulting clients are the decoded bodies of the `Client`-tagged blocks, one for one and in document order. |
| `Network.DecodedSlots` | OpenRA.Game/Network/Session.cs:119-120 | The resulting slots are the decoded bodies of the `Slot`-tagged blocks, one for one and in document order. |
| `Network.NoSettingsBlockKeepsDefaults` | OpenRA.Game/Network/Session.cs:100-112 | Without a `GlobalSettings` block, the settings are the defaults of a fresh session, carrying the default mods. |
| `Network.DefaultModsFallback` | OpenRA.Game/Network/Session.cs:100-112 | When no `GlobalSettings` block sets `Mods`, the resulting mods are the default mods passed in. |
| `Network.DecodeFailsIffMalformed` | OpenRA.Game/Network/Session.cs:109-121 | Deserializing fails exactly when some `GlobalSettings`, `Client` or `Slot` block has a body that cannot be loaded. |
| `Scans.SingleOrDefault` | OpenRA.Game/Network/Session.cs:26 | No match exactly when no element satisfies the predicate. Ambiguous exactly when two positions do. Otherwise the unique satisfying element. |
| `Scans.First` | OpenRA.Game/Network/Session.cs:36 | A found position satisfies the predicate, a throwing position throws, and every position before either fails it. Exhausted exactly when every element fails it. |
| `Keys.Tag` | OpenRA.Game/Network/Session.cs:107 | The tag is a prefix of the key without `@`. When it is shorter than the key, the key continues with `@`: the text before the first `@`. |
| `Keys.TagOfJoined` | OpenRA.Game/Network/Session.cs:107 | The tag of `prefix + "@" + rest` is `prefix` when the prefix has no `@`. |
| `Keys.IntToString` | OpenRA.Game/Network/Session.cs:90 | The decimal text of an index is non-empty, has no `@`, starts with `-` exactly when the index is negative, and is otherwise digits. |
| `Keys.IntToStringReadsBack` | OpenRA.Game/Network/Session.cs:90 | The text of an index, read back as a sign and decimal digits (`ParseInt`), is that index: the key suffix spells the client's or slot's `Index`. |
| `FieldCodec.ClientRoundTrip` | OpenRA.Game/Network/Session.cs:116 | Loading a saved client into a new client gives the same client. |
| `FieldCodec.SlotRoundTrip` | OpenRA.Game/Network/Session.cs:120 | Loading a saved slot into a new slot gives the same slot. |
| `FieldCodec.GlobalRoundTrip` | OpenRA.Game/Network/Session.cs:112 | Loading saved settings into any existing settings gives exactly the saved settings. |
| `FieldCodec.GlobalLoadKeepsUnmentioned` | OpenRA.Game/Network/Session.cs:112 | Loading into existing settings leaves every field that the body does not mention unchanged. |
| `FieldCodec.GlobalLoadFailureIgnoresTarget` | OpenRA.Game/Network/Session.cs:112 | Whether a settings body fails to load, and with which error, does not depend on the settings it is loaded into. |

## Left out

- MiniYaml text: `WriteToString` and `MiniYaml.FromString` are not part of this model. `Serialize` returns the node list and `Deserialize` takes one, so indentation and line syntax are not modelled.
- FieldSaver / FieldLoader: the reflection-based codec is not part of this model. It is replaced by a codec declared field by field. The text form of each value (numbers, booleans, comma-separated arrays) is not modelled; only the value's kind is.
- Unknown field names and values of the wrong kind make a load fail. Duplicate fields are applied in order, so the last one wins. These follow the loader's usual behaviour, whose code is not shown here.
- `ColorRamp` (System.Drawing): an opaque value that is carried through unchanged.
- `ClientState` numbering: the numeric values (`Disconnected = 1000`) are not modelled. A state is saved by its name.
- `Game.Settings`: the global configuration is not part of this model. Its mod list is the `defaultMods` parameter of `Deserialize`.
- Object identity: `Client`, `Slot` and `Global` are C# reference types but are modelled as values. The queries return a copy rather than a shared object, and loading into `GlobalSettings` reassigns the field instead of mutating the object in place. The copy made by `mods.ToArray()` is implicit in value semantics.
- Null references: a `null` entry in the client or slot list, or a `null` slot passed to `ClientInSlot`, would raise NullReferenceException. These cases are not modelled. A null string field is `None`, and a null `Mods` array is not modelled.
- Integer width: C# `int` fields are unbounded integers here. The model does no arithmetic on them, so 32-bit wrap-around cannot arise.
- Network transport, the lobby controller that mutates sessions, and concurrency are outside this file.
