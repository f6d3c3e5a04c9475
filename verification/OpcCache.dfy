/** The subscription cache of a plant connection (app/ingestion/opcua_session.py).  Connecting,
    with its seeding reads, is one atomic step. */
module OpcCache {
  import opened Options

  datatype Sample = Sample(value: Option<real>, good: bool)

  const SENSOR_FIELDS: seq<string> := ["electricity_power_mw", "fuel_gas_flow_km3h", "steam_flow_tonh",
                                       "feed_flow_tonh", "reactor_temp_c", "pressure_bar"]

  datatype Tag = Tag(field: string, node: string)
  datatype Plant = Plant(code: string, tags: seq<Tag>)

  /** Dictionaries: plant codes are distinct, and so are the fields of a plant. */
  ghost predicate WellFormed(plants: seq<Plant>) {
    && (forall p, q :: 0 <= p < q < |plants| ==> plants[p].code != plants[q].code)
    && forall p, i, j :: 0 <= p < |plants| && 0 <= i < j < |plants[p].tags| ==>
      plants[p].tags[i].field != plants[p].tags[j].field
  }

  /** No two tags of the map share a node. */
  ghost predicate DistinctNodes(plants: seq<Plant>) {
    forall p, i, q, j | 0 <= p < |plants| && 0 <= i < |plants[p].tags| && 0 <= q < |plants|
      && 0 <= j < |plants[q].tags| ::
      plants[p].tags[i].node == plants[q].tags[j].node ==> p == q && i == j
  }

  function NodeOf(tags: seq<Tag>, field: string): (n: Option<string>)
    ensures n.Some? ==> exists i :: 0 <= i < |tags| && tags[i] == Tag(field, n.value)
  {
    if tags == [] then None
    else if tags[0].field == field then Some(tags[0].node)
    else NodeOf(tags[1..], field)
  }

  /** The sensor fields the plant has a tag for. */
  function Mapped(fields: seq<string>, tags: seq<Tag>): set<string> {
    set f | f in fields && NodeOf(tags, f).Some?
  }

  type Cache = map<string, map<string, Sample>>

  /** A value that reached the client: by a seeding read or by a notification. */
  datatype Delivery = Delivery(node: string, sample: Sample)

  datatype State = State(cache: Cache, connected: bool, log: seq<Delivery>)

  function Last(log: seq<Delivery>, node: string): Option<Sample> {
    if log == [] then None
    else if log[|log| - 1].node == node then Some(log[|log| - 1].sample)
    else Last(log[..|log| - 1], node)
  }

  function Entry(cache: Cache, code: string): map<string, Sample> {
    if code in cache then cache[code] else map[]
  }

  /** The server's answer to a read of a node. */
  type Server = string -> Sample

  // ----- connecting ---------------------------------------------------------------------------

  /** Seeding the first `k` sensor fields of one plant. */
  function SeededFields(fields: seq<string>, entry: map<string, Sample>, tags: seq<Tag>, server: Server,
                        k: nat): map<string, Sample>
    requires k <= |fields|
  {
    if k == 0 then entry
    else
      var f := fields[k - 1];
      var before := SeededFields(fields, entry, tags, server, k - 1);
      if NodeOf(tags, f).Some? then before[f := server(NodeOf(tags, f).value)] else before
  }

  function FieldsLog(fields: seq<string>, tags: seq<Tag>, server: Server, k: nat): seq<Delivery>
    requires k <= |fields|
  {
    if k == 0 then []
    else
      var n := NodeOf(tags, fields[k - 1]);
      FieldsLog(fields, tags, server, k - 1) + (if n.Some? then [Delivery(n.value, server(n.value))] else [])
  }

  function SeededPlant(fields: seq<string>, s: State, p: Plant, server: Server): State {
    s.(cache := s.cache[p.code := SeededFields(fields, Entry(s.cache, p.code), p.tags, server, |fields|)],
       log := s.log + FieldsLog(fields, p.tags, server, |fields|))
  }

  function SeededPlants(fields: seq<string>, s: State, plants: seq<Plant>, server: Server, k: nat): State
    requires k <= |plants|
  {
    if k == 0 then s
    else
      var before := SeededPlants(fields, s, plants, server, k - 1);
      var p := plants[k - 1];
      SeededPlant(fields, before, p, server)
  }

  function Connected(fields: seq<string>, s: State, plants: seq<Plant>, subscribe: bool, server: Server): State {
    if s.connected then s
    else if subscribe then SeededPlants(fields, s.(connected := true), plants, server, |plants|)
    else s.(connected := true)
  }

  // ----- notifications ------------------------------------------------------------------------

  /** The first tag of the map with this node, plants and tags in their order. */
  function FieldWithNode(tags: seq<Tag>, node: string): Option<string> {
    if tags == [] then None
    else if tags[0].node == node then Some(tags[0].field)
    else FieldWithNode(tags[1..], node)
  }

  function Owner(plants: seq<Plant>, node: string): Option<(string, string)> {
    if plants == [] then None
    else
      match FieldWithNode(plants[0].tags, node)
      case Some(f) => Some((plants[0].code, f))
      case None => Owner(plants[1..], node)
  }

  function Notified(s: State, plants: seq<Plant>, node: string, sample: Sample): State {
    var s' := s.(log := s.log + [Delivery(node, sample)]);
    match Owner(plants, node)
    case None => s'
    case Some((code, field)) => s'.(cache := s.cache[code := Entry(s.cache, code)[field := sample]])
  }

  // ----- reading ------------------------------------------------------------------------------

  function Polled(fields: seq<string>, tags: seq<Tag>, server: Server): (m: map<string, Sample>)
    ensures m.Keys == Mapped(fields, tags)
  {
    map f | f in Mapped(fields, tags) :: server(NodeOf(tags, f).value)
  }

  /** `read_plant`: connects if need be, answers from a full cache, else polls. */
  function Read(fields: seq<string>, s: State, plants: seq<Plant>, p: Plant, subscribe: bool, server: Server)
    : (State, map<string, Sample>)
  {
    var c := Connected(fields, s, plants, subscribe, server);
    if subscribe && p.code in c.cache && |c.cache[p.code]| >= |Mapped(fields, p.tags)| then (c, c.cache[p.code])
    else (c.(cache := c.cache[p.code := Polled(fields, p.tags, server)]), Polled(fields, p.tags, server))
  }

  class PlantConnectSession {
    const fields: seq<string>
    const plants: seq<Plant>
    const subscribe: bool
    var cache: Cache
    var connected: bool
    ghost var log: seq<Delivery>

    ghost function View(): State
      reads this
    {
      State(cache, connected, log)
    }

    constructor (plants: seq<Plant>, subscribe: bool)
      ensures fields == SENSOR_FIELDS && this.plants == plants && this.subscribe == subscribe
      ensures View() == FRESH
    {
      fields, this.plants, this.subscribe := SENSOR_FIELDS, plants, subscribe;
      cache, connected, log := map[], false, [];
    }

    method Connect(server: Server)
      modifies this
      ensures View() == Connected(fields, old(View()), plants, subscribe, server)
    {
      if connected { return; }
      connected := true;
      if subscribe { SetupSubscriptions(server); }
    }

    method SetupSubscriptions(server: Server)
      modifies this`cache, this`log
      ensures View() == SeededPlants(fields, old(View()), plants, server, |plants|)
    {
      for k := 0 to |plants|
        invariant View() == SeededPlants(fields, old(View()), plants, server, k)
      {
        SeedPlant(plants[k], server);
      }
    }

    method SeedPlant(p: Plant, server: Server)
      modifies this`cache, this`log
      ensures cache == old(cache)[p.code := SeededFields(fields, Entry(old(cache), p.code), p.tags, server, |fields|)]
      ensures log == old(log) + FieldsLog(fields, p.tags, server, |fields|)
    {
      if p.code !in cache { cache := cache[p.code := map[]]; }
      ghost var entry := Entry(old(cache), p.code);
      for i := 0 to |fields|
        invariant p.code in cache && cache == old(cache)[p.code := SeededFields(fields, entry, p.tags, server, i)]
        invariant log == old(log) + FieldsLog(fields, p.tags, server, i)
      {
        var node := NodeOf(p.tags, fields[i]);
        if node == None { continue; }
        var sample := server(node.value);
        cache := cache[p.code := cache[p.code][fields[i] := sample]];
        log := log + [Delivery(node.value, sample)];
      }
    }

    /** `update_cache`, called by the subscription handler. */
    method UpdateCache(node: string, sample: Sample)
      modifies this`cache, this`log
      ensures View() == Notified(old(View()), plants, node, sample)
    {
      log := log + [Delivery(node, sample)];
      var owner := Owner(plants, node);
      if owner.Some? {
        var (code, field) := owner.value;
        if code !in cache { cache := cache[code := map[]]; }
        cache := cache[code := cache[code][field := sample]];
      }
    }

    method Disconnect()
      modifies this`connected
      ensures View() == old(View()).(connected := false)
    {
      connected := false;
    }

    method ReadPlant(p: Plant, server: Server) returns (r: map<string, Sample>)
      modifies this
      ensures (View(), r) == Read(fields, old(View()), plants, p, subscribe, server)
    {
      Connect(server);
      if subscribe && p.code in cache {
        if |cache[p.code]| >= |Mapped(fields, p.tags)| { return cache[p.code]; }
      }
      r := Poll(p, server);
      cache := cache[p.code := r];
    }

    method Poll(p: Plant, server: Server) returns (r: map<string, Sample>)
      ensures r == Polled(fields, p.tags, server)
    {
      r := map[];
      for i := 0 to |fields|
        invariant forall f :: f in r <==> f in fields[..i] && NodeOf(p.tags, f).Some?
        invariant forall f :: f in r ==> r[f] == server(NodeOf(p.tags, f).value)
      {
        var node := NodeOf(p.tags, fields[i]);
        if node.Some? { r := r[fields[i] := server(node.value)]; }
      }
      assert fields[..|fields|] == fields;
    }
  }

  // ----- coherence ----------------------------------------------------------------------------

  datatype Op =
    | Connect(server: Server)
    | Notify(node: string, sample: Sample)
    | ReadPlant(plant: nat, server: Server)
    | Disconnect

  /** Notifications come for subscribed nodes only: those of the mapped sensor fields. */
  ghost predicate Allowed(fields: seq<string>, plants: seq<Plant>, op: Op) {
    match op
    case Notify(node, _) => exists p, f :: 0 <= p < |plants| && f in fields && NodeOf(plants[p].tags, f) == Some(node)
    case ReadPlant(plant, _) => plant < |plants|
    case _ => true
  }

  ghost function Step(fields: seq<string>, s: State, plants: seq<Plant>, op: Op): State
    requires Allowed(fields, plants, op)
  {
    match op
    case Connect(server) => Connected(fields, s, plants, true, server)
    case Notify(node, sample) => Notified(s, plants, node, sample)
    case ReadPlant(plant, server) => Read(fields, s, plants, plants[plant], true, server).0
    case Disconnect => s.(connected := false)
  }

  ghost function Run(fields: seq<string>, s: State, plants: seq<Plant>, ops: seq<Op>): State
    requires forall k :: 0 <= k < |ops| ==> Allowed(fields, plants, ops[k])
    decreases |ops|
  {
    if ops == [] then s else Run(fields, Step(fields, s, plants, ops[0]), plants, ops[1..])
  }

  /** A cached entry holds mapped fields only, each with the last value delivered for its node. */
  ghost predicate EntryTrue(fields: seq<string>, entry: map<string, Sample>, tags: seq<Tag>, log: seq<Delivery>) {
    forall f :: f in entry ==> f in Mapped(fields, tags) && Last(log, NodeOf(tags, f).value) == Some(entry[f])
  }

  ghost predicate Coherent(fields: seq<string>, s: State, plants: seq<Plant>) {
    EntriesTrue(fields, s, plants) && (s.connected ==> FullUpTo(fields, s, plants, |plants|))
  }

  lemma {:induction false} FieldFound(tags: seq<Tag>, i: nat)
    requires i < |tags| && forall j, k :: 0 <= j < k < |tags| ==> tags[j].node != tags[k].node
    ensures FieldWithNode(tags, tags[i].node) == Some(tags[i].field)
  {
    if i > 0 { FieldFound(tags[1..], i - 1); }
  }

  lemma {:induction false} NoField(tags: seq<Tag>, node: string)
    requires forall i :: 0 <= i < |tags| ==> tags[i].node != node
    ensures FieldWithNode(tags, node) == None
  {
    if tags != [] { NoField(tags[1..], node); }
  }

  /** With distinct nodes the first match is the only one. */
  lemma {:induction false} OwnerFound(plants: seq<Plant>, p: nat, i: nat)
    requires DistinctNodes(plants) && p < |plants| && i < |plants[p].tags|
    ensures Owner(plants, plants[p].tags[i].node) == Some((plants[p].code, plants[p].tags[i].field))
    decreases p
  {
    var node := plants[p].tags[i].node;
    if p == 0 {
      FieldFound(plants[0].tags, i);
    } else {
      NoField(plants[0].tags, node);
      var rest := plants[1..];
      assert forall q :: 0 <= q < |rest| ==> rest[q] == plants[q + 1];
      OwnerFound(rest, p - 1, i);
    }
  }

  lemma {:induction false} LastAppended(log: seq<Delivery>, d: Delivery, node: string)
    ensures Last(log + [d], node) == if d.node == node then Some(d.sample) else Last(log, node)
  {
    assert (log + [d])[..|log|] == log;
  }

  ghost predicate DistinctCodes(plants: seq<Plant>) {
    forall p, q :: 0 <= p < q < |plants| ==> plants[p].code != plants[q].code
  }

  /** Every mapped sensor field is the one its node's notifications are stored under. */
  ghost predicate Owned(fields: seq<string>, plants: seq<Plant>) {
    forall p, f :: 0 <= p < |plants| && f in Mapped(fields, plants[p].tags) ==>
      Owner(plants, NodeOf(plants[p].tags, f).value) == Some((plants[p].code, f))
  }

  lemma DistinctNodesAreOwned(fields: seq<string>, plants: seq<Plant>)
    requires WellFormed(plants) && DistinctNodes(plants)
    ensures Owned(fields, plants) && DistinctCodes(plants)
  {
    forall p, f | 0 <= p < |plants| && f in Mapped(fields, plants[p].tags)
      ensures Owner(plants, NodeOf(plants[p].tags, f).value) == Some((plants[p].code, f))
    {
      var node := NodeOf(plants[p].tags, f).value;
      var i :| 0 <= i < |plants[p].tags| && plants[p].tags[i] == Tag(f, node);
      OwnerFound(plants, p, i);
    }
  }

  /** One delivery: stored under `f` if it is for the node of `f`, ignored if for no field here. */
  lemma {:induction false} EntryUpdated(fields: seq<string>, entry: map<string, Sample>, tags: seq<Tag>,
                                        log: seq<Delivery>, f: string,
                     d: Delivery)
    requires EntryTrue(fields, entry, tags, log) && f in Mapped(fields, tags) && NodeOf(tags, f) == Some(d.node)
    requires forall g :: g in Mapped(fields, tags) && NodeOf(tags, g) == Some(d.node) ==> g == f
    ensures EntryTrue(fields, entry[f := d.sample], tags, log + [d])
  {
    forall g | g in entry[f := d.sample]
      ensures g in Mapped(fields, tags) && Last(log + [d], NodeOf(tags, g).value) == Some(entry[f := d.sample][g])
    {
      LastAppended(log, d, NodeOf(tags, g).value);
    }
  }

  lemma {:induction false} EntryKept(fields: seq<string>, entry: map<string, Sample>, tags: seq<Tag>,
                                     log: seq<Delivery>, d: Delivery)
    requires EntryTrue(fields, entry, tags, log)
    requires forall g :: g in Mapped(fields, tags) ==> NodeOf(tags, g) != Some(d.node)
    ensures EntryTrue(fields, entry, tags, log + [d])
  {
    forall g | g in entry
      ensures Last(log + [d], NodeOf(tags, g).value) == Some(entry[g])
    {
      LastAppended(log, d, NodeOf(tags, g).value);
    }
  }

  /** Two plants never share the node of a field. */
  lemma {:induction false} NodeElsewhere(fields: seq<string>, plants: seq<Plant>, p: nat, f: string, q: nat, g: string)
    requires DistinctCodes(plants) && Owned(fields, plants) && p < |plants| && q < |plants|
    requires f in Mapped(fields, plants[p].tags) && g in Mapped(fields, plants[q].tags)
    requires NodeOf(plants[q].tags, g) == NodeOf(plants[p].tags, f)
    ensures p == q && f == g
  {
  }

  lemma {:induction false} NotifyKeepsEntry(fields: seq<string>, s: State, plants: seq<Plant>, p: nat, f: string,
                                            q: nat, sample: Sample)
    requires DistinctCodes(plants) && Owned(fields, plants) && p < |plants| && q < |plants|
    requires f in Mapped(fields, plants[p].tags)
    requires EntryTrue(fields, Entry(s.cache, plants[q].code), plants[q].tags, s.log)
    ensures var s' := Notified(s, plants, NodeOf(plants[p].tags, f).value, sample);
            EntryTrue(fields, Entry(s'.cache, plants[q].code), plants[q].tags, s'.log)
  {
    var node := NodeOf(plants[p].tags, f).value;
    var s' := Notified(s, plants, node, sample);
    assert s'.cache == s.cache[plants[p].code := Entry(s.cache, plants[p].code)[f := sample]];
    var was := Entry(s.cache, plants[q].code);
    forall g | g in Mapped(fields, plants[q].tags) && NodeOf(plants[q].tags, g) == Some(node)
      ensures p == q && f == g
    {
      NodeElsewhere(fields, plants, p, f, q, g);
    }
    if q == p {
      EntryUpdated(fields, was, plants[q].tags, s.log, f, Delivery(node, sample));
    } else {
      EntryKept(fields, was, plants[q].tags, s.log, Delivery(node, sample));
    }
  }

  lemma NotifyKeeps(fields: seq<string>, s: State, plants: seq<Plant>, node: string, sample: Sample)
    requires DistinctCodes(plants) && Owned(fields, plants) && Coherent(fields, s, plants)
             && Allowed(fields, plants, Notify(node, sample))
    ensures Coherent(fields, Notified(s, plants, node, sample), plants)
  {
    var p, f :| 0 <= p < |plants| && f in fields && NodeOf(plants[p].tags, f) == Some(node);
    NotifyKeepsEntries(fields, s, plants, p, f, sample);
    if s.connected { NotifyKeepsFull(fields, s, plants, p, f, sample); }
  }

  lemma {:induction false} NotifyKeepsEntries(fields: seq<string>, s: State, plants: seq<Plant>, p: nat, f: string,
                                              sample: Sample)
    requires DistinctCodes(plants) && Owned(fields, plants) && p < |plants| && f in Mapped(fields, plants[p].tags)
    requires EntriesTrue(fields, s, plants)
    ensures EntriesTrue(fields, Notified(s, plants, NodeOf(plants[p].tags, f).value, sample), plants)
  {
    var s' := Notified(s, plants, NodeOf(plants[p].tags, f).value, sample);
    forall q | 0 <= q < |plants|
      ensures EntryTrue(fields, Entry(s'.cache, plants[q].code), plants[q].tags, s'.log)
    {
      assert EntryTrue(fields, Entry(s.cache, plants[q].code), plants[q].tags, s.log);
      NotifyKeepsEntry(fields, s, plants, p, f, q, sample);
    }
  }

  lemma {:induction false} NotifyKeepsFull(fields: seq<string>, s: State, plants: seq<Plant>, p: nat, f: string,
                                           sample: Sample)
    requires DistinctCodes(plants) && Owned(fields, plants) && p < |plants| && f in Mapped(fields, plants[p].tags)
    requires FullUpTo(fields, s, plants, |plants|)
    ensures FullUpTo(fields, Notified(s, plants, NodeOf(plants[p].tags, f).value, sample), plants, |plants|)
  {
    var s' := Notified(s, plants, NodeOf(plants[p].tags, f).value, sample);
    assert s'.cache == s.cache[plants[p].code := Entry(s.cache, plants[p].code)[f := sample]];
    forall q | 0 <= q < |plants|
      ensures Full(fields, s', plants[q])
    {
      assert Full(fields, s, plants[q]);
    }
  }

  /** After seeding, the entry covers the mapped fields among the first `k`, and the old ones. */
  lemma {:induction false} FieldsSeeded(fields: seq<string>, entry: map<string, Sample>, tags: seq<Tag>,
                                        server: Server, k: nat)
    requires k <= |fields|
    ensures forall f :: f in SeededFields(fields, entry, tags, server, k) <==>
            f in entry || (f in fields[..k] && NodeOf(tags, f).Some?)
    ensures forall f :: f in SeededFields(fields, entry, tags, server, k) ==>
              SeededFields(fields, entry, tags, server, k)[f]
              == if f in fields[..k] && NodeOf(tags, f).Some? then server(NodeOf(tags, f).value) else entry[f]
  {
    if k > 0 {
      FieldsSeeded(fields, entry, tags, server, k - 1);
      assert fields[..k] == fields[..k - 1] + [fields[k - 1]];
    }
  }

  /** The seeding log: afterwards the last value of each seeded node is the server's answer. */
  lemma {:induction false} FieldsLogged(fields: seq<string>, log: seq<Delivery>, tags: seq<Tag>, server: Server,
                                        k: nat, node: string)
    requires k <= |fields|
    ensures Last(log + FieldsLog(fields, tags, server, k), node) ==
            if exists f :: f in fields[..k] && NodeOf(tags, f) == Some(node) then Some(server(node))
            else Last(log, node)
  {
    if k == 0 {
      assert log + [] == log;
    } else {
      FieldsLogged(fields, log, tags, server, k - 1, node);
      assert fields[..k] == fields[..k - 1] + [fields[k - 1]];
      var n := NodeOf(tags, fields[k - 1]);
      var before := log + FieldsLog(fields, tags, server, k - 1);
      if n.Some? {
        LastAppended(before, Delivery(n.value, server(n.value)), node);
        assert log + FieldsLog(fields, tags, server, k) == before + [Delivery(n.value, server(n.value))];
        if n.value == node { assert fields[k - 1] in fields[..k]; }
      } else {
        assert log + FieldsLog(fields, tags, server, k) == before;
      }
    }
  }

  ghost predicate EntriesTrue(fields: seq<string>, s: State, plants: seq<Plant>) {
    forall p :: 0 <= p < |plants| ==> EntryTrue(fields, Entry(s.cache, plants[p].code), plants[p].tags, s.log)
  }

  ghost predicate FullUpTo(fields: seq<string>, s: State, plants: seq<Plant>, k: nat)
    requires k <= |plants|
  {
    forall p :: 0 <= p < k ==> Full(fields, s, plants[p])
  }

  ghost predicate Full(fields: seq<string>, s: State, p: Plant) {
    p.code in s.cache && s.cache[p.code].Keys == Mapped(fields, p.tags)
  }

  lemma {:induction false} SeedKeeps(fields: seq<string>, s: State, plants: seq<Plant>, server: Server, k: nat)
    requires DistinctCodes(plants) && Owned(fields, plants) && k <= |plants| && EntriesTrue(fields, s, plants)
    ensures EntriesTrue(fields, SeededPlants(fields, s, plants, server, k), plants)
    ensures FullUpTo(fields, SeededPlants(fields, s, plants, server, k), plants, k)
  {
    if k > 0 {
      SeedKeeps(fields, s, plants, server, k - 1);
      var before := SeededPlants(fields, s, plants, server, k - 1);
      SeedOneKeeps(fields, before, plants, server, k - 1);
      assert SeededPlants(fields, s, plants, server, k) == SeededPlant(fields, before, plants[k - 1], server);
    }
  }

  lemma SeedOneKeeps(fields: seq<string>, s: State, plants: seq<Plant>, server: Server, k: nat)
    requires DistinctCodes(plants) && Owned(fields, plants) && k < |plants| && EntriesTrue(fields, s, plants)
    requires FullUpTo(fields, s, plants, k)
    ensures var s' := SeededPlant(fields, s, plants[k], server);
            EntriesTrue(fields, s', plants) && FullUpTo(fields, s', plants, k + 1)
  {
    var s' := SeededPlant(fields, s, plants[k], server);
    assert EntryTrue(fields, Entry(s.cache, plants[k].code), plants[k].tags, s.log);
    SeedFills(fields, s, plants[k], server);
    forall q | 0 <= q < |plants|
      ensures EntryTrue(fields, Entry(s'.cache, plants[q].code), plants[q].tags, s'.log)
    {
      SeedKeepsEntry(fields, s, s', plants, server, k, q);
    }
    forall p | 0 <= p <= k
      ensures Full(fields, s', plants[p])
    {
      if p < k { assert Full(fields, s, plants[p]); }
    }
  }

  lemma {:induction false} SeedFills(fields: seq<string>, s: State, p: Plant, server: Server)
    requires EntryTrue(fields, Entry(s.cache, p.code), p.tags, s.log)
    ensures SeededFields(fields, Entry(s.cache, p.code), p.tags, server, |fields|).Keys == Mapped(fields, p.tags)
  {
    FieldsSeeded(fields, Entry(s.cache, p.code), p.tags, server, |fields|);
    assert fields[..|fields|] == fields;
  }

  lemma {:induction false} SeedKeepsEntry(fields: seq<string>, before: State, s': State, plants: seq<Plant>,
                                          server: Server, k: nat,
                       q: nat)
    requires DistinctCodes(plants) && Owned(fields, plants) && k < |plants| && q < |plants|
    requires EntryTrue(fields, Entry(before.cache, plants[q].code), plants[q].tags, before.log)
    requires s'.log == before.log + FieldsLog(fields, plants[k].tags, server, |fields|)
    requires s'.cache == before.cache[plants[k].code := SeededFields(fields, Entry(before.cache, plants[k].code),
                                                                     plants[k].tags, server, |fields|)]
    ensures EntryTrue(fields, Entry(s'.cache, plants[q].code), plants[q].tags, s'.log)
  {
    FieldsSeeded(fields, Entry(before.cache, plants[k].code), plants[k].tags, server, |fields|);
    assert fields[..|fields|] == fields;
    forall g | g in Entry(s'.cache, plants[q].code)
      ensures g in Mapped(fields, plants[q].tags)
              && Last(s'.log, NodeOf(plants[q].tags, g).value) == Some(Entry(s'.cache, plants[q].code)[g])
    {
      var node := NodeOf(plants[q].tags, g).value;
      FieldsLogged(fields, before.log, plants[k].tags, server, |fields|, node);
      if q == k {
        assert g in fields && NodeOf(plants[k].tags, g) == Some(node);
      } else {
        forall f | f in fields && NodeOf(plants[k].tags, f) == Some(node)
          ensures false
        {
          NodeElsewhere(fields, plants, k, f, q, g);
        }
      }
    }
  }

  lemma ConnectKeeps(fields: seq<string>, s: State, plants: seq<Plant>, server: Server)
    requires DistinctCodes(plants) && Owned(fields, plants) && Coherent(fields, s, plants)
    ensures Coherent(fields, Connected(fields, s, plants, true, server), plants)
            && Connected(fields, s, plants, true, server).connected
  {
    if !s.connected {
      SeedKeeps(fields, s.(connected := true), plants, server, |plants|);
      SeedConnected(fields, s.(connected := true), plants, server, |plants|);
    }
  }

  lemma {:induction false} SeedConnected(fields: seq<string>, s: State, plants: seq<Plant>, server: Server, k: nat)
    requires k <= |plants|
    ensures SeededPlants(fields, s, plants, server, k).connected == s.connected
  {
    if k > 0 { SeedConnected(fields, s, plants, server, k - 1); }
  }

  /** A read of a mapped plant answers from the cache: exactly the mapped fields, each with the
      last value delivered for its node, and it changes nothing beyond connecting. */
  lemma ReadReturnsLast(fields: seq<string>, s: State, plants: seq<Plant>, p: nat, server: Server)
    requires DistinctCodes(plants) && Owned(fields, plants) && Coherent(fields, s, plants) && p < |plants|
    ensures var (s', r) := Read(fields, s, plants, plants[p], true, server);
            && s' == Connected(fields, s, plants, true, server)
            && r.Keys == Mapped(fields, plants[p].tags)
            && forall f :: f in r ==> Last(s'.log, NodeOf(plants[p].tags, f).value) == Some(r[f])
  {
    ConnectKeeps(fields, s, plants, server);
    var c := Connected(fields, s, plants, true, server);
    assert Full(fields, c, plants[p]);
    assert |c.cache[plants[p].code]| == |c.cache[plants[p].code].Keys|;
    assert EntryTrue(fields, Entry(c.cache, plants[p].code), plants[p].tags, c.log);
  }

  /** Coherence holds in every run of connecting, notifying, reading and disconnecting. */
  lemma {:induction false} RunCoherent(fields: seq<string>, s: State, plants: seq<Plant>, ops: seq<Op>)
    requires DistinctCodes(plants) && Owned(fields, plants) && Coherent(fields, s, plants)
    requires forall k :: 0 <= k < |ops| ==> Allowed(fields, plants, ops[k])
    ensures Coherent(fields, Run(fields, s, plants, ops), plants)
    decreases |ops|
  {
    if ops != [] {
      assert Allowed(fields, plants, ops[0]);
      match ops[0] {
        case Connect(server) => ConnectKeeps(fields, s, plants, server);
        case Notify(node, sample) => NotifyKeeps(fields, s, plants, node, sample);
        case ReadPlant(plant, server) =>
          ReadReturnsLast(fields, s, plants, plant, server);
          ConnectKeeps(fields, s, plants, server);
        case Disconnect =>
      }
      RunCoherent(fields, Step(fields, s, plants, ops[0]), plants, ops[1..]);
    }
  }

  const FRESH := State(map[], false, [])

  ghost predicate AllAllowed(fields: seq<string>, plants: seq<Plant>, ops: seq<Op>) {
    forall k :: 0 <= k < |ops| ==> Allowed(fields, plants, ops[k])
  }

  /** Once every mapped field is cached it stays cached over every run, across disconnections as well. */
  lemma {:induction false} RunStaysFull(fields: seq<string>, s: State, plants: seq<Plant>, ops: seq<Op>)
    requires DistinctCodes(plants) && Owned(fields, plants) && EntriesTrue(fields, s, plants)
    requires FullUpTo(fields, s, plants, |plants|) && AllAllowed(fields, plants, ops)
    ensures FullUpTo(fields, Run(fields, s, plants, ops), plants, |plants|)
    decreases |ops|
  {
    if ops != [] {
      assert Allowed(fields, plants, ops[0]);
      var s' := Step(fields, s, plants, ops[0]);
      match ops[0] {
        case Connect(server) => ConnectKeeps(fields, s, plants, server);
        case Notify(node, sample) => NotifyKeeps(fields, s.(connected := true), plants, node, sample);
        case ReadPlant(plant, server) =>
          ReadReturnsLast(fields, s, plants, plant, server);
          ConnectKeeps(fields, s, plants, server);
        case Disconnect =>
      }
      assert forall q :: 0 <= q < |plants| ==> Full(fields, s', plants[q]);
      RunStaysFull(fields, s', plants, ops[1..]);
    }
  }

  /** After the run a read in subscription mode returns for every mapped field the last seed or
      notification delivered for it. */
  ghost predicate ReadsLast(fields: seq<string>, plants: seq<Plant>, ops: seq<Op>, p: nat, server: Server)
    requires AllAllowed(fields, plants, ops) && p < |plants|
  {
    var (s', r) := Read(fields, Run(fields, FRESH, plants, ops), plants, plants[p], true, server);
    && r.Keys == Mapped(fields, plants[p].tags)
    && forall f :: f in r ==> Last(s'.log, NodeOf(plants[p].tags, f).value) == Some(r[f])
  }

  /** Every read of every run from a fresh session does, exactly when each mapped sensor field owns
      its node: its tag is the first of the tag map with that node, among those of all plants and
      of fields that are not sensors as well. */
  lemma ReadsLastIff(fields: seq<string>, plants: seq<Plant>)
    requires DistinctCodes(plants)
    ensures (forall ops, p: nat, server :: AllAllowed(fields, plants, ops) && p < |plants| ==>
               ReadsLast(fields, plants, ops, p, server))
            <==> Owned(fields, plants)
  {
    if Owned(fields, plants) {
      forall ops: seq<Op>, p: nat, server: Server | AllAllowed(fields, plants, ops) && p < |plants|
        ensures ReadsLast(fields, plants, ops, p, server)
      {
        OwnedReadsLast(fields, plants, ops, p, server);
      }
    } else {
      var p, f :| 0 <= p < |plants| && f in Mapped(fields, plants[p].tags)
                  && Owner(plants, NodeOf(plants[p].tags, f).value) != Some((plants[p].code, f));
      var ops, server := UnownedGoesStale(fields, plants, p, f);
      assert !ReadsLast(fields, plants, ops, p, server);
    }
  }

  lemma OwnedReadsLast(fields: seq<string>, plants: seq<Plant>, ops: seq<Op>, p: nat, server: Server)
    requires DistinctCodes(plants) && Owned(fields, plants) && AllAllowed(fields, plants, ops) && p < |plants|
    ensures ReadsLast(fields, plants, ops, p, server)
  {
    RunCoherent(fields, FRESH, plants, ops);
    ReadReturnsLast(fields, Run(fields, FRESH, plants, ops), plants, p, server);
  }

  /** In particular with distinct node ids. */
  lemma ReadAfterAnyRun(fields: seq<string>, plants: seq<Plant>, ops: seq<Op>, p: nat, server: Server)
    requires WellFormed(plants) && DistinctNodes(plants) && p < |plants| && AllAllowed(fields, plants, ops)
    ensures ReadsLast(fields, plants, ops, p, server)
  {
    DistinctNodesAreOwned(fields, plants);
    OwnedReadsLast(fields, plants, ops, p, server);
  }

  /** The first `k` plants are polled and the others are not in the cache. */
  ghost predicate PolledUpTo(fields: seq<string>, s: State, plants: seq<Plant>, server: Server, k: nat) {
    && s.connected
    && forall q :: 0 <= q < |plants| ==>
         if q < k then PolledEntry(fields, s, plants[q], server) else plants[q].code !in s.cache
  }

  ghost predicate PolledEntry(fields: seq<string>, s: State, p: Plant, server: Server) {
    p.code in s.cache && s.cache[p.code] == Polled(fields, p.tags, server)
  }

  /** Seeding an empty cache polls every plant once. */
  lemma {:induction false} SeededFromEmpty(fields: seq<string>, s: State, plants: seq<Plant>, server: Server, k: nat)
    requires DistinctCodes(plants) && k <= |plants| && PolledUpTo(fields, s, plants, server, 0)
    ensures PolledUpTo(fields, SeededPlants(fields, s, plants, server, k), plants, server, k)
  {
    if k > 0 {
      SeededFromEmpty(fields, s, plants, server, k - 1);
      OneMorePolled(fields, SeededPlants(fields, s, plants, server, k - 1), plants, server, k - 1);
    }
  }

  lemma OneMorePolled(fields: seq<string>, s: State, plants: seq<Plant>, server: Server, k: nat)
    requires DistinctCodes(plants) && k < |plants| && PolledUpTo(fields, s, plants, server, k)
    ensures PolledUpTo(fields, SeededPlant(fields, s, plants[k], server), plants, server, k + 1)
  {
    SeedingPolls(fields, plants[k].tags, server);
    var s' := SeededPlant(fields, s, plants[k], server);
    assert s'.cache == s.cache[plants[k].code := Polled(fields, plants[k].tags, server)];
  }

  lemma {:induction false} SeedingPolls(fields: seq<string>, tags: seq<Tag>, server: Server)
    ensures SeededFields(fields, map[], tags, server, |fields|) == Polled(fields, tags, server)
  {
    FieldsSeeded(fields, map[], tags, server, |fields|);
    assert fields[..|fields|] == fields;
  }

  /** A mapped field that does not own its node: one notification for the node leaves it at the
      value it was seeded with. */
  lemma UnownedGoesStale(fields: seq<string>, plants: seq<Plant>, p: nat, f: string)
    returns (ops: seq<Op>, server: Server)
    requires DistinctCodes(plants) && p < |plants| && f in Mapped(fields, plants[p].tags)
    requires Owner(plants, NodeOf(plants[p].tags, f).value) != Some((plants[p].code, f))
    ensures AllAllowed(fields, plants, ops) && !ReadsLast(fields, plants, ops, p, server)
  {
    var old', new' := Sample(None, true), Sample(None, false);
    var node, code := NodeOf(plants[p].tags, f).value, plants[p].code;
    server := n => old';
    ops := [Connect(server), Notify(node, new')];
    var c := Connected(fields, FRESH, plants, true, server);
    SeededFromEmpty(fields, FRESH.(connected := true), plants, server, |plants|);
    assert PolledEntry(fields, c, plants[p], server);
    var s := Notified(c, plants, node, new');
    NotificationReachesIff(c, plants, p, f, node, new');
    assert ops[1..] == [Notify(node, new')] && ops[1..][1..] == [];
    assert Run(fields, FRESH, plants, ops) == Run(fields, c, plants, ops[1..]) == Run(fields, s, plants, []) == s;
    KeysOnlyGrow(c, s, plants, node, new', code);
    assert Read(fields, s, plants, plants[p], true, server) == (s, s.cache[code]);
  }

  lemma KeysOnlyGrow(c: State, s: State, plants: seq<Plant>, node: string, sample: Sample, code: string)
    requires s == Notified(c, plants, node, sample) && code in c.cache
    ensures s.connected == c.connected && code in s.cache && |s.cache[code]| >= |c.cache[code].Keys|
  {
    if s.cache[code] != c.cache[code] {
      var field := Owner(plants, node).value.1;
      assert s.cache[code].Keys == c.cache[code].Keys + {field};
      if field in c.cache[code] {
        assert c.cache[code].Keys + {field} == c.cache[code].Keys;
      } else {
        assert |c.cache[code].Keys + {field}| == |c.cache[code].Keys| + 1;
      }
      assert |s.cache[code]| == |s.cache[code].Keys|;
    } else {
      assert |c.cache[code]| == |c.cache[code].Keys|;
    }
  }

  /** While keys stay inside the mapped fields, comparing lengths is comparing the key sets. */
  lemma LengthTestIsExact(fields: seq<string>, entry: map<string, Sample>, tags: seq<Tag>)
    requires entry.Keys <= Mapped(fields, tags)
    ensures |entry| >= |Mapped(fields, tags)| <==> entry.Keys == Mapped(fields, tags)
  {
    var missing := Mapped(fields, tags) - entry.Keys;
    assert Mapped(fields, tags) == entry.Keys + missing;
    assert |Mapped(fields, tags)| == |entry.Keys| + |missing|;
    if missing == {} { assert entry.Keys == Mapped(fields, tags); }
  }

  /** Without distinct nodes coherence breaks: a notification refreshes a cached field of its
      node exactly when that field is the first of the tag map with the node (or already held
      the value); every other field on the node goes stale. */
  lemma {:induction false} NotificationReachesIff(s: State, plants: seq<Plant>, p: nat, field: string, node: string,
                                                  sample: Sample)
    requires p < |plants| && NodeOf(plants[p].tags, field) == Some(node) && field in Entry(s.cache, plants[p].code)
    ensures var s' := Notified(s, plants, node, sample);
            && Last(s'.log, node) == Some(sample)
            && field in Entry(s'.cache, plants[p].code)
            && (Entry(s'.cache, plants[p].code)[field] == sample <==>
                Owner(plants, node) == Some((plants[p].code, field)) || Entry(s.cache, plants[p].code)[field] == sample)
  {
    LastAppended(s.log, Delivery(node, sample), node);
  }

  /** Two sensor fields on one node: after connecting and one notification, a read returns the new
      value for the first and still the old one for the second. */
  lemma {:induction false} SharedNodeGoesStale(fields: seq<string>, code: string, f: string, g: string, node: string,
                                               a: Sample, b: Sample)
    requires f in fields && g in fields && f != g && a != b
    ensures var plants := [Plant(code, [Tag(f, node), Tag(g, node)])];
            var server := (n: string) => a;
            var s := Notified(Connected(fields, FRESH, plants, true, server), plants, node, b);
            var (s', r) := Read(fields, s, plants, plants[0], true, server);
            && Allowed(fields, plants, Notify(node, b))
            && Last(s'.log, node) == Some(b) && r == map[f := b, g := a]
  {
    var tags := [Tag(f, node), Tag(g, node)];
    var plants := [Plant(code, tags)];
    var server := (n: string) => a;
    TwoTags(f, g, node);
    assert NodeOf(plants[0].tags, f) == Some(node);
    var c := Connected(fields, FRESH, plants, true, server);
    assert c == SeededPlant(fields, SeededPlants(fields, State(map[], true, []), plants, server, 0), plants[0], server);
    FieldsSeeded(fields, map[], tags, server, |fields|);
    assert fields[..|fields|] == fields;
    assert c.cache[code] == map[f := a, g := a];
    var s := Notified(c, plants, node, b);
    assert Owner(plants, node) == Some((code, f));
    assert s.cache[code] == map[f := b, g := a];
    assert s.cache[code].Keys == {f, g} == Mapped(fields, tags);
    LengthTestIsExact(fields, s.cache[code], tags);
    LastAppended(c.log, Delivery(node, b), node);
  }

  lemma TwoTags(f: string, g: string, node: string)
    requires f != g
    ensures var tags := [Tag(f, node), Tag(g, node)];
            forall h :: NodeOf(tags, h) == if h == f || h == g then Some(node) else None
  {
    var tags := [Tag(f, node), Tag(g, node)];
    assert tags[1..] == [Tag(g, node)] && tags[1..][1..] == [];
  }

  /** Without subscription, whatever the state, a read returns the server's present answer for every
      mapped field, and leaves it in the cache. */
  lemma PollingReadsPresent(fields: seq<string>, s: State, plants: seq<Plant>, p: Plant, server: Server)
    ensures var (s', r) := Read(fields, s, plants, p, false, server);
            && r.Keys == Mapped(fields, p.tags) && (forall f :: f in r ==> r[f] == server(NodeOf(p.tags, f).value))
            && s'.connected && s'.cache == s.cache[p.code := r]
  {
  }
}
