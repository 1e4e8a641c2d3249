/**
 * `OpenRA.Network.Session`: the lobby state (clients, slots and global
 * settings), its lookup queries, and its conversion to and from the list of
 * tagged blocks that is sent between host and clients.
 */
module Network {
  import opened Outcomes
  import opened Records
  import opened FieldCodec
  import opened Keys
  import opened Scans

  /** A top-level node of the serialized document: a block key and the body nested under it. */
  type Node = (string, Body)

  type Document = seq<Node>

  /** What a session holds, as a value. */
  datatype Lobby = Lobby(clients: seq<Client>, slots: seq<Slot>, settings: Global)

  /**
   * Why `FirstEmptySlot` throws: no slot qualifies, or the slot being examined
   * has more than one client in it (`ClientInSlot` throws inside the scan).
   */
  datatype SlotError = NoEmptySlot | SharedSlot(slot: int)

  /** The state of `new Session(mods)`: no clients, no slots, default settings with `mods`. */
  function Fresh(mods: seq<string>): Lobby
  {
    Lobby([], [], NewGlobal.(mods := mods))
  }

  // ----- Serialization

  /** `Client@<index>` over the saved fields of `c`. */
  function ClientBlock(c: Client): Node
  {
    ("Client@" + IntToString(c.index), SaveClient(c))
  }

  /** `Slot@<index>` over the saved fields of `s`. */
  function SlotBlock(s: Slot): Node
  {
    ("Slot@" + IntToString(s.index), SaveSlot(s))
  }

  /** `GlobalSettings` over the saved fields of `g`. */
  function GlobalBlock(g: Global): Node
  {
    ("GlobalSettings", SaveGlobal(g))
  }

  /** One block per element of `xs`, in order. */
  function Blocks<T>(xs: seq<T>, block: T -> Node): Document
  {
    if xs == [] then [] else Blocks(xs[..|xs| - 1], block) + [block(xs[|xs| - 1])]
  }

  function ClientBlocks(cs: seq<Client>): Document
  {
    Blocks(cs, ClientBlock)
  }

  function SlotBlocks(ss: seq<Slot>): Document
  {
    Blocks(ss, SlotBlock)
  }

  /** The serialized document: a block per client, then one per slot, then the settings. */
  function Serialized(l: Lobby): Document
  {
    ClientBlocks(l.clients) + SlotBlocks(l.slots) + [GlobalBlock(l.settings)]
  }

  lemma {:induction false} BlocksAt<T>(xs: seq<T>, block: T -> Node)
    ensures |Blocks(xs, block)| == |xs|
    ensures forall i :: 0 <= i < |xs| ==> Blocks(xs, block)[i] == block(xs[i])
  {
    if xs != [] {
      BlocksAt(xs[..|xs| - 1], block);
    }
  }

  /** The blocks of one more element of `xs` are one more block. */
  lemma BlocksStep<T>(xs: seq<T>, i: nat, block: T -> Node)
    requires i < |xs|
    ensures Blocks(xs[..i + 1], block) == Blocks(xs[..i], block) + [block(xs[i])]
  {
    assert xs[..i + 1][..i] == xs[..i];
  }

  /** The same step after a fixed prefix `pre`. */
  lemma BlocksStepAfter<T>(pre: Document, xs: seq<T>, i: nat, block: T -> Node)
    requires i < |xs|
    ensures pre + Blocks(xs[..i + 1], block) == pre + Blocks(xs[..i], block) + [block(xs[i])]
  {
    BlocksStep(xs, i, block);
    assert pre + (Blocks(xs[..i], block) + [block(xs[i])]) == pre + Blocks(xs[..i], block) + [block(xs[i])];
  }

  /**
   * The serialized document has exactly |clients| + |slots| + 1 blocks: the
   * block of each client in order, then the block of each slot in order, and
   * the settings block last.
   */
  lemma SerializedLayout(l: Lobby)
    ensures |Serialized(l)| == |l.clients| + |l.slots| + 1
    ensures forall i :: 0 <= i < |l.clients| ==> Serialized(l)[i] == ClientBlock(l.clients[i])
    ensures forall j :: 0 <= j < |l.slots| ==> Serialized(l)[|l.clients| + j] == SlotBlock(l.slots[j])
    ensures Serialized(l)[|l.clients| + |l.slots|] == GlobalBlock(l.settings)
  {
    LayoutAt(l.clients, ClientBlock, l.slots, SlotBlock, GlobalBlock(l.settings));
    assert Serialized(l) == Blocks(l.clients, ClientBlock) + Blocks(l.slots, SlotBlock) + [GlobalBlock(l.settings)];
  }

  /** Where the parts of two runs of blocks followed by one more node sit. */
  lemma LayoutAt<A, B>(xs: seq<A>, f: A -> Node, ys: seq<B>, g: B -> Node, z: Node)
    ensures var d := Blocks(xs, f) + Blocks(ys, g) + [z];
      && |d| == |xs| + |ys| + 1
      && (forall i :: 0 <= i < |xs| ==> d[i] == f(xs[i]))
      && (forall j :: 0 <= j < |ys| ==> d[|xs| + j] == g(ys[j]))
      && d[|xs| + |ys|] == z
  {
    BlocksAt(xs, f);
    BlocksAt(ys, g);
    var d := Blocks(xs, f) + Blocks(ys, g) + [z];
    forall j | 0 <= j < |ys| ensures d[|xs| + j] == g(ys[j]) {
      assert d[|xs| + j] == Blocks(ys, g)[j];
    }
  }

  // ----- Deserialization

  /**
   * One turn of the loop in `Deserialize`: dispatch on the text before the
   * first `@` of the key; any other tag leaves the lobby as it is.
   */
  function Apply(l: Lobby, n: Node): Result<Lobby, DecodeError>
  {
    var tag := Tag(n.0);
    if tag == "GlobalSettings" then ApplySettings(l, n.1)
    else if tag == "Client" then ApplyClient(l, n.1)
    else if tag == "Slot" then ApplySlot(l, n.1)
    else Success(l)
  }

  /** A `GlobalSettings` node loads its fields over the current settings. */
  function ApplySettings(l: Lobby, b: Body): Result<Lobby, DecodeError>
  {
    match LoadGlobalInto(l.settings, b)
    case Failure(e) => Failure(e)
    case Success(g) => Success(l.(settings := g))
  }

  /** A `Client` node adds the client loaded from it at the end of the list. */
  function ApplyClient(l: Lobby, b: Body): Result<Lobby, DecodeError>
  {
    match LoadClient(b)
    case Failure(e) => Failure(e)
    case Success(c) => Success(l.(clients := l.clients + [c]))
  }

  /** A `Slot` node adds the slot loaded from it at the end of the list. */
  function ApplySlot(l: Lobby, b: Body): Result<Lobby, DecodeError>
  {
    match LoadSlot(b)
    case Failure(e) => Failure(e)
    case Success(s) => Success(l.(slots := l.slots + [s]))
  }

  /** Applies the nodes of `doc` in order to `l`; the first failure is the result. */
  function Replay(l: Lobby, doc: Document): Result<Lobby, DecodeError>
    decreases |doc|
  {
    if doc == [] then Success(l)
    else match Replay(l, doc[..|doc| - 1])
      case Failure(e) => Failure(e)
      case Success(m) => Apply(m, doc[|doc| - 1])
  }

  /** What `Deserialize(doc)` yields when the configured default mods are `defaultMods`. */
  function Decoded(doc: Document, defaultMods: seq<string>): Result<Lobby, DecodeError>
  {
    Replay(Fresh(defaultMods), doc)
  }

  /** Replaying two documents one after the other is replaying their concatenation. */
  lemma {:induction false} ReplayAppend(l: Lobby, a: Document, b: Document)
    ensures Replay(l, a + b) ==
      match Replay(l, a)
      case Failure(e) => Failure(e)
      case Success(m) => Replay(m, b)
    decreases |b|
  {
    if b == [] {
      assert a + b == a;
    } else {
      assert (a + b)[..|a + b| - 1] == a + b[..|b| - 1];
      assert (a + b)[|a + b| - 1] == b[|b| - 1];
      ReplayAppend(l, a, b[..|b| - 1]);
    }
  }

  /** A client block turns into one more client, the one it was saved from. */
  lemma ApplyClientBlock(l: Lobby, c: Client)
    ensures Apply(l, ClientBlock(c)) == Success(l.(clients := l.clients + [c]))
  {
    var suffix := IntToString(c.index);
    assert "Client@" + suffix == "Client" + "@" + suffix;
    TagOfJoined("Client", suffix);
    ClientRoundTrip(c);
    assert ApplyClient(l, SaveClient(c)) == Success(l.(clients := l.clients + [c]));
  }

  /** A slot block turns into one more slot, the one it was saved from. */
  lemma ApplySlotBlock(l: Lobby, s: Slot)
    ensures Apply(l, SlotBlock(s)) == Success(l.(slots := l.slots + [s]))
  {
    var suffix := IntToString(s.index);
    assert "Slot@" + suffix == "Slot" + "@" + suffix;
    TagOfJoined("Slot", suffix);
    SlotRoundTrip(s);
    assert ApplySlot(l, SaveSlot(s)) == Success(l.(slots := l.slots + [s]));
  }

  /** The settings block replaces the settings with the ones it was saved from. */
  lemma ApplyGlobalBlock(l: Lobby, g: Global)
    ensures Apply(l, GlobalBlock(g)) == Success(l.(settings := g))
  {
    TagOfPlain("GlobalSettings");
    GlobalRoundTrip(g, l.settings);
    assert ApplySettings(l, SaveGlobal(g)) == Success(l.(settings := g));
  }

  /** Replaying `doc` and then one more node. */
  lemma ReplaySnoc(l: Lobby, doc: Document, n: Node)
    ensures Replay(l, doc + [n]) ==
      match Replay(l, doc)
      case Failure(e) => Failure(e)
      case Success(m) => Apply(m, n)
  {
    assert (doc + [n])[..|doc|] == doc;
  }

  lemma {:induction false} ReplayClientBlocks(l: Lobby, cs: seq<Client>)
    ensures Replay(l, ClientBlocks(cs)) == Success(l.(clients := l.clients + cs))
  {
    if cs == [] {
      assert l.clients + cs == l.clients;
    } else {
      var init, c := cs[..|cs| - 1], cs[|cs| - 1];
      var m := l.(clients := l.clients + init);
      assert cs == init + [c];
      assert m.clients + [c] == l.clients + cs;
      assert ClientBlocks(cs) == ClientBlocks(init) + [ClientBlock(c)];
      ReplayClientBlocks(l, init);
      ReplaySnoc(l, ClientBlocks(init), ClientBlock(c));
      ApplyClientBlock(m, c);
    }
  }

  lemma {:induction false} ReplaySlotBlocks(l: Lobby, ss: seq<Slot>)
    ensures Replay(l, SlotBlocks(ss)) == Success(l.(slots := l.slots + ss))
  {
    if ss == [] {
      assert l.slots + ss == l.slots;
    } else {
      var init, s := ss[..|ss| - 1], ss[|ss| - 1];
      var m := l.(slots := l.slots + init);
      assert ss == init + [s];
      assert m.slots + [s] == l.slots + ss;
      assert SlotBlocks(ss) == SlotBlocks(init) + [SlotBlock(s)];
      ReplaySlotBlocks(l, init);
      ReplaySnoc(l, SlotBlocks(init), SlotBlock(s));
      ApplySlotBlock(m, s);
    }
  }

  /**
   * Deserializing what `Serialize` produced gives back the same clients, in
   * the same order, the same slots, in the same order, and the same settings,
   * whatever the default mods.
   */
  lemma RoundTrip(l: Lobby, defaultMods: seq<string>)
    ensures Decoded(Serialized(l), defaultMods) == Success(l)
  {
    var f := Fresh(defaultMods);
    var cb, sb := ClientBlocks(l.clients), SlotBlocks(l.slots);
    ReplayAppend(f, cb, sb);
    ReplayClientBlocks(f, l.clients);
    ReplaySlotBlocks(f.(clients := l.clients), l.slots);
    assert [] + l.clients == l.clients && [] + l.slots == l.slots;
    assert Replay(f, cb) == Success(Lobby(l.clients, [], f.settings));
    assert Replay(f, cb + sb) == Success(Lobby(l.clients, l.slots, f.settings));
    ReplaySnoc(f, cb + sb, GlobalBlock(l.settings));
    ApplyGlobalBlock(Lobby(l.clients, l.slots, f.settings), l.settings);
    assert Serialized(l) == cb + sb + [GlobalBlock(l.settings)];
  }

  /** Bodies of the blocks tagged `Client`, in document order. */
  function ClientBodies(doc: Document): seq<Body>
  {
    if doc == [] then []
    else ClientBodies(doc[..|doc| - 1]) + (if Tag(doc[|doc| - 1].0) == "Client" then [doc[|doc| - 1].1] else [])
  }

  /** Bodies of the blocks tagged `Slot`, in document order. */
  function SlotBodies(doc: Document): seq<Body>
  {
    if doc == [] then []
    else SlotBodies(doc[..|doc| - 1]) + (if Tag(doc[|doc| - 1].0) == "Slot" then [doc[|doc| - 1].1] else [])
  }

  /** The decoded clients are the decoded `Client`-tagged bodies, one for one and in document order. */
  lemma {:induction false} DecodedClients(doc: Document, defaultMods: seq<string>)
    requires Decoded(doc, defaultMods).Success?
    ensures var cs := Decoded(doc, defaultMods).value.clients;
      && |cs| == |ClientBodies(doc)|
      && forall i :: 0 <= i < |cs| ==> LoadClient(ClientBodies(doc)[i]) == Success(cs[i])
  {
    if doc != [] {
      DecodedClients(doc[..|doc| - 1], defaultMods);
    }
  }

  /** The decoded slots are the decoded `Slot`-tagged bodies, one for one and in document order. */
  lemma {:induction false} DecodedSlots(doc: Document, defaultMods: seq<string>)
    requires Decoded(doc, defaultMods).Success?
    ensures var ss := Decoded(doc, defaultMods).value.slots;
      && |ss| == |SlotBodies(doc)|
      && forall i :: 0 <= i < |ss| ==> LoadSlot(SlotBodies(doc)[i]) == Success(ss[i])
  {
    if doc != [] {
      DecodedSlots(doc[..|doc| - 1], defaultMods);
    }
  }

  /** Without a `GlobalSettings` block the settings are those of a fresh session: the default mods and field defaults. */
  lemma {:induction false} NoSettingsBlockKeepsDefaults(doc: Document, defaultMods: seq<string>)
    requires forall i :: 0 <= i < |doc| ==> Tag(doc[i].0) != "GlobalSettings"
    requires Decoded(doc, defaultMods).Success?
    ensures Decoded(doc, defaultMods).value.settings == NewGlobal.(mods := defaultMods)
  {
    if doc != [] {
      NoSettingsBlockKeepsDefaults(doc[..|doc| - 1], defaultMods);
    }
  }

  /** When no `GlobalSettings` block sets `Mods`, the mods are the defaults passed in. */
  lemma {:induction false} DefaultModsFallback(doc: Document, defaultMods: seq<string>)
    requires forall i :: 0 <= i < |doc| && Tag(doc[i].0) == "GlobalSettings" ==> !Mentions(doc[i].1, "Mods")
    requires Decoded(doc, defaultMods).Success?
    ensures Decoded(doc, defaultMods).value.settings.mods == defaultMods
  {
    if doc != [] {
      var init := doc[..|doc| - 1];
      DefaultModsFallback(init, defaultMods);
      var n := doc[|doc| - 1];
      if Tag(n.0) == "GlobalSettings" {
        GlobalLoadKeepsUnmentioned(Decoded(init, defaultMods).value.settings, n.1);
      }
    }
  }

  /** A node that leaves every lobby as it is can be dropped from any document. */
  lemma ReplayDrop(l: Lobby, a: Document, n: Node, b: Document)
    requires forall m :: Apply(m, n) == Success(m)
    ensures Replay(l, a + [n] + b) == Replay(l, a + b)
  {
    ReplayAppend(l, a + [n], b);
    ReplaySnoc(l, a, n);
    ReplayAppend(l, a, b);
  }

  /** A node can be swapped for one that acts the same on every lobby. */
  lemma ReplaySwap(l: Lobby, a: Document, n: Node, n': Node, b: Document)
    requires forall m :: Apply(m, n) == Apply(m, n')
    ensures Replay(l, a + [n] + b) == Replay(l, a + [n'] + b)
  {
    ReplayAppend(l, a + [n], b);
    ReplayAppend(l, a + [n'], b);
    ReplaySnoc(l, a, n);
    ReplaySnoc(l, a, n');
  }

  lemma ApplyUnknownTag(m: Lobby, n: Node)
    requires Tag(n.0) !in {"GlobalSettings", "Client", "Slot"}
    ensures Apply(m, n) == Success(m)
  {
  }

  lemma ApplySameTag(m: Lobby, n: Node, n': Node)
    requires Tag(n.0) == Tag(n'.0) && n.1 == n'.1
    ensures Apply(m, n) == Apply(m, n')
  {
  }

  /** A block whose tag is none of `GlobalSettings`, `Client` and `Slot` contributes nothing. */
  lemma UnknownTagIgnored(doc: Document, k: nat, defaultMods: seq<string>)
    requires k < |doc|
    requires Tag(doc[k].0) !in {"GlobalSettings", "Client", "Slot"}
    ensures Decoded(doc, defaultMods) == Decoded(doc[..k] + doc[k + 1..], defaultMods)
  {
    forall m | true ensures Apply(m, doc[k]) == Success(m) {
      ApplyUnknownTag(m, doc[k]);
    }
    assert doc == doc[..k] + [doc[k]] + doc[k + 1..];
    ReplayDrop(Fresh(defaultMods), doc[..k], doc[k], doc[k + 1..]);
  }

  /** Only a key's tag matters: the suffix after `@` can be anything. */
  lemma SuffixIgnored(doc: Document, k: nat, key: string, defaultMods: seq<string>)
    requires k < |doc|
    requires Tag(key) == Tag(doc[k].0)
    ensures Decoded(doc[k := (key, doc[k].1)], defaultMods) == Decoded(doc, defaultMods)
  {
    var n := (key, doc[k].1);
    forall m | true ensures Apply(m, n) == Apply(m, doc[k]) {
      ApplySameTag(m, n, doc[k]);
    }
    assert doc == doc[..k] + [doc[k]] + doc[k + 1..];
    assert doc[k := n] == doc[..k] + [n] + doc[k + 1..];
    ReplaySwap(Fresh(defaultMods), doc[..k], n, doc[k], doc[k + 1..]);
  }

  /** A block of a known kind whose body cannot be loaded. */
  predicate Malformed(n: Node)
  {
    var tag := Tag(n.0);
    || (tag == "GlobalSettings" && LoadGlobalInto(NewGlobal, n.1).Failure?)
    || (tag == "Client" && LoadClient(n.1).Failure?)
    || (tag == "Slot" && LoadSlot(n.1).Failure?)
  }

  /** A single malformed block of a known kind makes the whole document fail to deserialize, and only that does. */
  lemma {:induction false} DecodeFailsIffMalformed(doc: Document, defaultMods: seq<string>)
    ensures Decoded(doc, defaultMods).Failure? <==> exists i :: 0 <= i < |doc| && Malformed(doc[i])
  {
    if doc != [] {
      var init, n := doc[..|doc| - 1], doc[|doc| - 1];
      DecodeFailsIffMalformed(init, defaultMods);
      assert forall i :: 0 <= i < |init| ==> init[i] == doc[i];
      if Decoded(init, defaultMods).Success? {
        GlobalLoadFailureIgnoresTarget(Decoded(init, defaultMods).value.settings, NewGlobal, n.1);
      }
      assert Malformed(n) ==> Malformed(doc[|doc| - 1]);
    }
  }

  // ----- The session object

  /**
   * `s => !s.Closed && ClientInSlot(s) == null && s.Bot == null` for a session
   * whose clients are `clients`, evaluated left to right with short-circuiting:
   * `ClientInSlot` is asked only about an open slot, and may throw.
   */
  function EmptySlotTest(clients: seq<Client>, s: Slot): (v: Verdict)
    ensures v == Holds <==> !s.closed && SingleOrDefault(clients, SitsIn(s)).NoMatch? && s.bot.None?
    ensures v == Throws <==> !s.closed && SingleOrDefault(clients, SitsIn(s)).Ambiguous?
  {
    if s.closed then Fails
    else match SingleOrDefault(clients, SitsIn(s))
      case Ambiguous => Throws
      case Unique(_) => Fails
      case NoMatch => if s.bot.None? then Holds else Fails
  }

  /** The predicate of `FirstEmptySlot` as a function value. */
  function IsEmptySlot(clients: seq<Client>): Slot -> Verdict
  {
    (s: Slot) => EmptySlotTest(clients, s)
  }

  /** `c => c.Index == clientID`. */
  function HasIndex(clientId: int): Client -> bool
  {
    (c: Client) => c.index == clientId
  }

  /** `c => c.Slot == slot.Index`. */
  function SitsIn(slot: Slot): Client -> bool
  {
    (c: Client) => c.slot == slot.index
  }

  class Session {
    var clients: seq<Client>
    var slots: seq<Slot>
    var globalSettings: Global

    /** `new Session(mods)`: the default settings with a copy of `mods`. */
    constructor (mods: seq<string>)
      ensures Snapshot() == Fresh(mods)
    {
      clients := [];
      slots := [];
      globalSettings := NewGlobal.(mods := mods);
    }

    function Snapshot(): Lobby
      reads this
    {
      Lobby(clients, slots, globalSettings)
    }

    /** The client with index `clientId`: none, that one, or an error when several share it. */
    function ClientWithIndex(clientId: int): (r: Single<Client>)
      reads this
      ensures r.NoMatch? <==> forall i :: 0 <= i < |clients| ==> clients[i].index != clientId
      ensures r.Unique? ==>
        exists i :: 0 <= i < |clients| && clients[i] == r.value && r.value.index == clientId &&
          forall j :: 0 <= j < |clients| && j != i ==> clients[j].index != clientId
      ensures r.Ambiguous? <==>
        exists i, j :: 0 <= i < j < |clients| && clients[i].index == clientId && clients[j].index == clientId
    {
      SingleOrDefault(clients, HasIndex(clientId))
    }

    /** The client sitting in `slot`: none, that one, or an error when several sit there. */
    function ClientInSlot(slot: Slot): (r: Single<Client>)
      reads this
      ensures r.NoMatch? <==> forall i :: 0 <= i < |clients| ==> clients[i].slot != slot.index
      ensures r.Unique? ==>
        exists i :: 0 <= i < |clients| && clients[i] == r.value && r.value.slot == slot.index &&
          forall j :: 0 <= j < |clients| && j != i ==> clients[j].slot != slot.index
      ensures r.Ambiguous? <==>
        exists i, j :: 0 <= i < j < |clients| && clients[i].slot == slot.index && clients[j].slot == slot.index
    {
      SingleOrDefault(clients, SitsIn(slot))
    }

    /**
     * `Slots.First(s => !s.Closed && ClientInSlot(s) == null && s.Bot == null).Index`:
     * the index of the first slot in list order that is open, has nobody in it
     * and has no bot, every slot before it being closed, taken by one client or
     * given to a bot. Fails when every slot is passed over (also when there are
     * none), or when `ClientInSlot` throws on an open slot with several clients
     * before any slot qualifies.
     */
    function FirstEmptySlot(): (r: Result<int, SlotError>)
      reads this
      ensures r.Success? ==>
        exists i :: 0 <= i < |slots| && slots[i].index == r.value && EmptySlotTest(clients, slots[i]) == Holds &&
          forall j :: 0 <= j < i ==> EmptySlotTest(clients, slots[j]) == Fails
      ensures r.Failure? && r.error.SharedSlot? ==>
        exists i :: 0 <= i < |slots| && slots[i].index == r.error.slot && EmptySlotTest(clients, slots[i]) == Throws &&
          forall j :: 0 <= j < i ==> EmptySlotTest(clients, slots[j]) == Fails
      ensures r == Failure(NoEmptySlot) <==> forall j :: 0 <= j < |slots| ==> EmptySlotTest(clients, slots[j]) == Fails
    {
      match First(slots, IsEmptySlot(clients))
      case Found(at) => Success(slots[at].index)
      case ThrewAt(at) => Failure(SharedSlot(slots[at].index))
      case Exhausted => Failure(NoEmptySlot)
    }

    /** `Serialize`: a `Client@<index>` block per client, a `Slot@<index>` block per slot, then `GlobalSettings`. */
    method Serialize() returns (doc: Document)
      ensures doc == Serialized(Snapshot())
    {
      var cs, ss := clients, slots;
      doc := [];
      for i := 0 to |cs|
        invariant doc == Blocks(cs[..i], ClientBlock)
      {
        BlocksStep(cs, i, ClientBlock);
        doc := doc + [ClientBlock(cs[i])];
      }
      assert cs[..|cs|] == cs;
      ghost var clientPart := doc;
      for j := 0 to |ss|
        invariant doc == clientPart + Blocks(ss[..j], SlotBlock)
      {
        BlocksStepAfter(clientPart, ss, j, SlotBlock);
        doc := doc + [SlotBlock(ss[j])];
      }
      assert ss[..|ss|] == ss;
      doc := doc + [GlobalBlock(globalSettings)];
      assert doc == Serialized(Snapshot());
    }

    /**
     * `Deserialize`: a fresh session seeded with `defaultMods`, into which the
     * blocks are loaded in order; a block that cannot be loaded makes the whole
     * call fail.
     */
    static method Deserialize(doc: Document, defaultMods: seq<string>) returns (r: Result<Session, DecodeError>)
      ensures r.Success? <==> Decoded(doc, defaultMods).Success?
      ensures r.Success? ==> fresh(r.value) && r.value.Snapshot() == Decoded(doc, defaultMods).value
      ensures r.Failure? ==> r.error == Decoded(doc, defaultMods).error
    {
      var session := new Session(defaultMods);
      for i := 0 to |doc|
        invariant fresh(session)
        invariant Replay(Fresh(defaultMods), doc[..i]) == Success(session.Snapshot())
      {
        assert doc[..i + 1][..i] == doc[..i];
        var (key, body) := doc[i];
        var tag := Tag(key);
        if tag == "GlobalSettings" {
          var g := LoadGlobalInto(session.globalSettings, body);
          if g.Failure? {
            ReplayAppend(Fresh(defaultMods), doc[..i + 1], doc[i + 1..]);
            assert doc[..i + 1] + doc[i + 1..] == doc;
            return Failure(g.error);
          }
          session.globalSettings := g.value;
        } else if tag == "Client" {
          var c := LoadClient(body);
          if c.Failure? {
            ReplayAppend(Fresh(defaultMods), doc[..i + 1], doc[i + 1..]);
            assert doc[..i + 1] + doc[i + 1..] == doc;
            return Failure(c.error);
          }
          session.clients := session.clients + [c.value];
        } else if tag == "Slot" {
          var s := LoadSlot(body);
          if s.Failure? {
            ReplayAppend(Fresh(defaultMods), doc[..i + 1], doc[i + 1..]);
            assert doc[..i + 1] + doc[i + 1..] == doc;
            return Failure(s.error);
          }
          session.slots := session.slots + [s.value];
        }
      }
      assert doc[..|doc|] == doc;
      return Success(session);
    }
  }

  /** An observer (slot -1) is never the client in a real slot: adding one anywhere changes no `ClientInSlot` answer. */
  lemma ObserverNeverInSlot(a: Session, b: Session, k: nat, observer: Client, slot: Slot)
    requires observer.slot == -1 && slot.index != -1
    requires k <= |a.clients| && b.clients == a.clients[..k] + [observer] + a.clients[k..]
    ensures b.ClientInSlot(slot) == a.ClientInSlot(slot)
  {
    SingleOrDefaultSkips(a.clients, k, observer, SitsIn(slot));
  }

  /**
   * Slots 0, 1 and 2 where 0 is closed and a client sits in 1: the scan yields
   * slot 2.
   */
  lemma FirstEmptySlotSkipsClosedAndTaken(s: Session, c: Client)
    requires s.slots == [Slot(0, None, true, None, false), Slot(1, None, false, None, false), Slot(2, None, false, None, false)]
    requires s.clients == [c] && c.slot == 1
    ensures s.FirstEmptySlot() == Success(2)
  {
    assert EmptySlotTest(s.clients, s.slots[0]) == Fails;
    assert EmptySlotTest(s.clients, s.slots[1]) == Fails;
    assert EmptySlotTest(s.clients, s.slots[2]) == Holds;
  }

  /** Open, empty slots listed with indices 2, 0, 1: the first in the list wins, not the lowest index. */
  lemma FirstEmptySlotFollowsListOrder(s: Session)
    requires s.slots == [Slot(2, None, false, None, false), Slot(0, None, false, None, false), Slot(1, None, false, None, false)]
    requires s.clients == []
    ensures s.FirstEmptySlot() == Success(2)
  {
    assert EmptySlotTest(s.clients, s.slots[0]) == Holds;
  }
}
