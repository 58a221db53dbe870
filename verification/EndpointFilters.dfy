/**
 Installing and removing the topology and wave filters of an endpoint, with the rollback of a failed installation.
 The outcome of every platform call is a parameter.
 */
module EndpointFilters {
  import opened Subdevices

  datatype Direction = TopologyOutput | WaveOutput

  datatype Link = Link(direction: Direction, topologyPin: nat, wavePin: nat)

  datatype Connection = Connection(from: Interface, fromPin: nat, to: Interface, toPin: nat)

  function Wire(topology: Interface, wave: Interface, link: Link): Connection {
    match link.direction
    case TopologyOutput => Connection(topology, link.topologyPin, wave, link.wavePin)
    case WaveOutput => Connection(wave, link.wavePin, topology, link.topologyPin)
  }

  function Wires(topology: Interface, wave: Interface, links: seq<Link>): set<Connection> {
    set i | 0 <= i < |links| :: Wire(topology, wave, links[i])
  }

  datatype Minipair = Minipair(topoName: string, waveName: string, links: seq<Link>)

  /** What the platform does about one filter: create and register it, find room for its record, offer the
      optional interfaces. */
  datatype HalfOutcome = HalfOutcome(installs: bool, caches: bool, hasPower: bool, hasChange: bool)

  /** `connects` tells how many connections are made before one fails, `stuck` which ones the platform refuses
      to undo. */
  datatype Outcomes = Outcomes(
    topo: HalfOutcome,
    wave: HalfOutcome,
    connects: nat,
    stuck: set<Connection>,
    unregisters: bool)

  /** Whether `p` is a reference on `x`. */
  function On(p: Option<Interface>, x: Interface): nat {
    if p == Some(x) then 1 else 0
  }

  class Adapter {
    var cache: seq<Record>
    var registered: set<Interface>
    var connections: set<Connection>
    var refs: multiset<Interface>         // every reference this code and its clients hold
    var next: Interface                   // objects from here on do not exist yet
    ghost var outside: multiset<Interface>  // the references that no cache record owns

    ghost predicate Valid()
      reads this
    {
      Sound(View()) && Accounted()
    }

    ghost predicate Accounted()
      reads this
    {
      forall x: Interface :: refs[x] == outside[x] + CacheOwns(cache, x)
    }

    method AddRef(x: Interface)
      requires Accounted()
      modifies `refs, `outside
      ensures Accounted() && forall y: Interface :: outside[y] == old(outside[y]) + On(Some(x), y)
    {
      refs := refs + multiset{x};
      outside := outside + multiset{x};
    }

    /** A client gives back a reference it holds. */
    method Release(x: Option<Interface>)
      requires Accounted() && (x.Some? ==> outside[x.value] > 0)
      modifies `refs, `outside
      ensures Accounted() && forall y: Interface :: outside[y] == old(outside[y]) - On(x, y)
    {
      if x.Some? {
        assert refs[x.value] >= outside[x.value];
        refs := refs - multiset{x.value};
        outside := outside - multiset{x.value};
      }
    }

    // ----- the cache

    method GetCachedSubdevice(name: string) returns (port: Option<Interface>, miniport: Option<Interface>)
      requires Accounted()
      modifies `refs, `outside
      ensures Accounted() && forall x: Interface :: outside[x] == old(outside[x]) + On(port, x) + On(miniport, x)
      ensures Named(cache, name) ==>
        port == Some(cache[Index(cache, name)].port) && miniport == Some(cache[Index(cache, name)].miniport)
      ensures !Named(cache, name) ==> port == None && miniport == None
    {
      var le := 0;
      while le < |cache|
        invariant 0 <= le <= |cache| && Accounted() && outside == old(outside)
        invariant forall j :: 0 <= j < le ==> cache[j].name != name
      {
        if cache[le].name == name {
          assert Named(cache, name) && Index(cache, name) == le;
          AddRef(cache[le].port);
          AddRef(cache[le].miniport);
          return Some(cache[le].port), Some(cache[le].miniport);
        }
        le := le + 1;
      }
      return None, None;
    }

    method CacheSubdevice(name: string, port: Interface, miniport: Interface, outcome: HalfOutcome) returns (ok: bool)
      requires Accounted()
      modifies `refs, `cache
      ensures Accounted() && ok == outcome.caches
      ensures cache == if ok then old(cache) + [Record(name, port, miniport, outcome.hasPower, outcome.hasChange)]
        else old(cache)
    {
      if !outcome.caches {
        return false;
      }
      var r := Record(name, port, miniport, outcome.hasPower, outcome.hasChange);
      AcquireRecord(r);
      forall x: Interface
        ensures refs[x] == outside[x] + CacheOwns(cache + [r], x)
      {
        OwnsAppend(cache, r, x);
      }
      cache := cache + [r];
      ok := true;
    }

    /** Takes the references a new record owns. */
    method AcquireRecord(r: Record)
      modifies `refs
      ensures forall x: Interface :: refs[x] == old(refs[x]) + Owns(r, x)
    {
      refs := refs + multiset{r.port};
      refs := refs + multiset{r.miniport};
      if r.hasPower {
        refs := refs + multiset{r.miniport};
      }
      if r.hasChange {
        refs := refs + multiset{r.miniport};
      }
    }

    /** Gives back what a record owns. */
    method ReleaseRecord(r: Record)
      requires forall x: Interface :: refs[x] >= Owns(r, x)
      modifies `refs
      ensures forall x: Interface :: refs[x] == old(refs[x]) - Owns(r, x)
    {
      assert refs[r.port] >= Owns(r, r.port) && refs[r.miniport] >= Owns(r, r.miniport);
      ReleaseReference(r.port);
      ReleaseReference(r.miniport);
      if r.hasPower {
        ReleaseReference(r.miniport);
      }
      if r.hasChange {
        ReleaseReference(r.miniport);
      }
    }

    method ReleaseReference(x: Interface)
      requires refs[x] > 0
      modifies `refs
      ensures forall y: Interface :: refs[y] == old(refs[y]) - On(Some(x), y)
    {
      refs := refs - multiset{x};
    }

    method RemoveCachedSubdevice(name: string) returns (removed: bool)
      requires Accounted()
      modifies `refs, `cache
      ensures Accounted() && removed == Named(old(cache), name) && cache == Removed(old(cache), name)
    {
      var le := 0;
      while le < |cache|
        invariant 0 <= le <= |cache| && cache == old(cache) && refs == old(refs)
        invariant forall j :: 0 <= j < le ==> cache[j].name != name
      {
        if cache[le].name == name {
          assert Named(cache, name) && Index(cache, name) == le;
          var r, shorter := cache[le], cache[..le] + cache[le + 1..];
          forall x: Interface
            ensures refs[x] == outside[x] + CacheOwns(shorter, x) + Owns(r, x)
          {
            OwnsRemove(cache, le, x);
          }
          ReleaseRecord(r);
          cache := shorter;
          return true;
        }
        le := le + 1;
      }
      assert !Named(cache, name);
      return false;
    }

    method EmptySubdeviceCache()
      requires Valid()
      modifies `refs, `cache
      ensures Valid() && View() == old(View()).(cache := [])
      ensures forall x: Interface :: refs[x] == outside[x]
    {
      while cache != []
        invariant Accounted() && outside == old(outside)
        decreases |cache|
      {
        var r, rest := cache[0], cache[1..];
        assert forall x: Interface :: refs[x] == outside[x] + CacheOwns(rest, x) + Owns(r, x);
        ReleaseRecord(r);
        cache := rest;
      }
      assert forall x: Interface :: CacheOwns(cache, x) == 0;
    }

    // ----- physical connections

    /** Each connection of the pair is undone unless the platform refuses; a refusal does not end the loop. */
    method DisconnectTopologies(topology: Interface, wave: Interface, links: seq<Link>, stuck: set<Connection>)
      modifies `connections
      ensures connections == old(connections) - (Wires(topology, wave, links) - stuck)
    {
      var i := 0;
      while i < |links|
        invariant 0 <= i <= |links|
        invariant connections == old(connections) - (Wires(topology, wave, links[..i]) - stuck)
      {
        var wire := Wire(topology, wave, links[i]);
        if wire !in stuck {
          connections := connections - {wire};
        }
        WiresNext(topology, wave, links, i);
        i := i + 1;
      }
      assert links[..i] == links;
    }

    method ConnectTopologies(topology: Interface, wave: Interface, links: seq<Link>, connects: nat,
                             stuck: set<Connection>)
      returns (ok: bool)
      modifies `connections
      ensures ok <==> connects >= |links|
      ensures ok ==> connections == old(connections) + Wires(topology, wave, links)
      ensures ok ==> forall i :: 0 <= i < |links| ==>
        (if links[i].direction == TopologyOutput
         then Connection(topology, links[i].topologyPin, wave, links[i].wavePin)
         else Connection(wave, links[i].wavePin, topology, links[i].topologyPin)) in connections
      ensures !ok ==>
        connections == old(connections) + Wires(topology, wave, links[..connects])
                       - (Wires(topology, wave, links) - stuck)
    {
      ok := true;
      var i := 0;
      while i < |links| && ok
        invariant 0 <= i <= |links|
        invariant ok ==> i <= connects && connections == old(connections) + Wires(topology, wave, links[..i])
        invariant !ok ==>
          connects < |links| && connections == old(connections) + Wires(topology, wave, links[..connects])
      {
        if i < connects {
          connections := connections + {Wire(topology, wave, links[i])};
          WiresNext(topology, wave, links, i);
        } else {
          ok := false;
        }
        i := i + 1;
      }
      if ok {
        assert links[..i] == links;
        assert forall j :: 0 <= j < |links| ==> Wire(topology, wave, links[j]) in Wires(topology, wave, links);
      } else {
        DisconnectTopologies(topology, wave, links, stuck);
      }
    }

    // ----- installing

    ghost function View(): Filters
      reads this
    {
      Filters(cache, registered, connections, next)
    }

    /** Creates and registers a port and a miniport, or leaves nothing behind. */
    method InstallSubdevice(installs: bool) returns (port: Option<Interface>, miniport: Option<Interface>)
      requires Accounted()
      modifies `refs, `outside, `registered, `next
      ensures Accounted() && forall x: Interface :: outside[x] == old(outside[x]) + On(port, x) + On(miniport, x)
      ensures installs ==> port == Some(old(next)) && miniport == Some(old(next) + 1)
      ensures !installs ==> port == None && miniport == None
      ensures registered == if installs then old(registered) + {old(next)} else old(registered)
      ensures next == if installs then old(next) + 2 else old(next)
    {
      if !installs {
        return None, None;
      }
      port, miniport := Some(next), Some(next + 1);
      registered := registered + {next};
      next := next + 2;
      AddRef(port.value);
      AddRef(miniport.value);
    }

    method UnregisterSubdevice(port: Option<Interface>, works: bool)
      modifies `registered
      ensures registered == if port.Some? && works then old(registered) - {port.value} else old(registered)
    {
      if port.Some? && works {
        registered := registered - {port.value};
      }
    }

    /** A new filter, which is then cached. */
    method InstallAndCache(name: string, outcome: HalfOutcome)
      returns (port: Option<Interface>, miniport: Option<Interface>, ok: bool)
      requires Accounted() && !Named(cache, name)
      modifies `refs, `outside, `registered, `next, `cache
      ensures Accounted() && forall x: Interface :: outside[x] == old(outside[x]) + On(port, x) + On(miniport, x)
      ensures Half(View(), true, port, miniport, ok) == FindHalf(old(View()), name, outcome)
    {
      port, miniport := InstallSubdevice(outcome.installs);
      ok := port.Some?;
      if ok {
        ok := CacheSubdevice(name, port.value, miniport.value, outcome);
      }
    }

    /** One filter: the cached one, or a new one. */
    method FindOrInstall(name: string, outcome: HalfOutcome)
      returns (created: bool, port: Option<Interface>, miniport: Option<Interface>, ok: bool)
      requires Accounted()
      modifies `refs, `outside, `registered, `next, `cache
      ensures Accounted() && forall x: Interface :: outside[x] == old(outside[x]) + On(port, x) + On(miniport, x)
      ensures Half(View(), created, port, miniport, ok) == FindHalf(old(View()), name, outcome)
    {
      port, miniport := GetCachedSubdevice(name);
      created, ok := false, true;
      if port == None || miniport == None {
        created := true;
        port, miniport, ok := InstallAndCache(name, outcome);
      }
    }

    method UndoInstall(created: bool, name: string, port: Option<Interface>, works: bool)
      requires Accounted()
      modifies `refs, `cache, `registered
      ensures Accounted() && View() == UndoHalf(old(View()), created, name, port, works)
    {
      if created && port.Some? {
        UnregisterSubdevice(port, works);
        var _ := RemoveCachedSubdevice(name);
      }
    }

    /** Hands a reference on `x` to the caller. */
    method Return(x: Option<Interface>) returns (y: Option<Interface>)
      requires Accounted()
      modifies `refs, `outside
      ensures Accounted() && y == x && forall z: Interface :: outside[z] == old(outside[z]) + On(x, z)
    {
      if x.Some? {
        AddRef(x.value);
      }
      y := x;
    }

    /** Sets the output parameters. */
    method ReturnAll(a: Option<Interface>, b: Option<Interface>, c: Option<Interface>, d: Option<Interface>)
      returns (ra: Option<Interface>, rb: Option<Interface>, rc: Option<Interface>, rd: Option<Interface>)
      requires Accounted()
      modifies `refs, `outside
      ensures Accounted() && ra == a && rb == b && rc == c && rd == d
      ensures forall x: Interface :: outside[x] == old(outside[x]) + On(a, x) + On(b, x) + On(c, x) + On(d, x)
    {
      ra := Return(a);
      rb := Return(b);
      rc := Return(c);
      rd := Return(d);
    }

    /** Gives the local references back. */
    method ReleaseAll(a: Option<Interface>, b: Option<Interface>, c: Option<Interface>, d: Option<Interface>)
      requires Accounted() && forall x: Interface :: outside[x] >= On(a, x) + On(b, x) + On(c, x) + On(d, x)
      modifies `refs, `outside
      ensures Accounted()
      ensures forall x: Interface :: outside[x] == old(outside[x]) - On(a, x) - On(b, x) - On(c, x) - On(d, x)
    {
      Release(a);
      Release(b);
      Release(c);
      Release(d);
    }

    /** Both filters, and the connections between them. */
    method FindOrInstallBoth(pair: Minipair, o: Outcomes) returns (ghost t: Half, ghost w: Half,
        bTopologyCreated: bool, unknownTopology: Option<Interface>, unknownMiniTopo: Option<Interface>,
        bWaveCreated: bool, unknownWave: Option<Interface>, unknownMiniWave: Option<Interface>, status: bool)
      requires Accounted()
      modifies this
      ensures Accounted()
      ensures forall x: Interface ::
        outside[x] == old(outside[x]) + On(unknownTopology, x) + On(unknownMiniTopo, x)
                      + On(unknownWave, x) + On(unknownMiniWave, x)
      ensures t == FindHalf(old(View()), pair.topoName, o.topo) && w == FindHalf(t.after, pair.waveName, o.wave)
      ensures bTopologyCreated == t.created && unknownTopology == t.port && unknownMiniTopo == t.miniport
      ensures bWaveCreated == w.created && unknownWave == w.port && unknownMiniWave == w.miniport
      ensures View() == Joined(t, w, pair, o) && status == JoinedOk(t, w, pair, o)
    {
      bTopologyCreated, unknownTopology, unknownMiniTopo, status := FindOrInstall(pair.topoName, o.topo);
      t := FindHalf(old(View()), pair.topoName, o.topo);
      bWaveCreated, unknownWave, unknownMiniWave, status := FindOrInstall(pair.waveName, o.wave);
      w := FindHalf(t.after, pair.waveName, o.wave);
      if unknownTopology.Some? && unknownWave.Some? {
        status := ConnectTopologies(unknownTopology.value, unknownWave.value, pair.links, o.connects, o.stuck);
      }
    }

    /** Sets the output parameters, or undoes the halves that were created. */
    method ReturnOrUndo(pair: Minipair, unregisters: bool, status: bool,
                        bTopologyCreated: bool, unknownTopology: Option<Interface>, unknownMiniTopo: Option<Interface>,
                        bWaveCreated: bool, unknownWave: Option<Interface>, unknownMiniWave: Option<Interface>)
      returns (topo: Option<Interface>, wave: Option<Interface>,
               miniTopo: Option<Interface>, miniWave: Option<Interface>)
      requires Accounted()
      modifies `refs, `outside, `cache, `registered
      ensures Accounted()
      ensures status ==>
        && topo == unknownTopology && wave == unknownWave && miniTopo == unknownMiniTopo && miniWave == unknownMiniWave
        && View() == old(View())
      ensures !status ==>
        && topo == None && wave == None && miniTopo == None && miniWave == None
        && View() == UndoHalf(UndoHalf(old(View()), bTopologyCreated, pair.topoName, unknownTopology, unregisters),
                              bWaveCreated, pair.waveName, unknownWave, unregisters)
      ensures forall x: Interface ::
        outside[x] == old(outside[x]) + On(topo, x) + On(wave, x) + On(miniTopo, x) + On(miniWave, x)
    {
      topo, wave, miniTopo, miniWave := None, None, None, None;
      if status {
        topo, wave, miniTopo, miniWave := ReturnAll(unknownTopology, unknownWave, unknownMiniTopo, unknownMiniWave);
      } else {
        UndoInstall(bTopologyCreated, pair.topoName, unknownTopology, unregisters);
        UndoInstall(bWaveCreated, pair.waveName, unknownWave, unregisters);
      }
    }

    method InstallEndpointFilters(pair: Minipair, o: Outcomes)
      returns (ok: bool, topo: Option<Interface>, wave: Option<Interface>,
               miniTopo: Option<Interface>, miniWave: Option<Interface>)
      requires Valid()
      modifies this
      ensures Valid()
      ensures Installed(View(), ok, topo, wave, miniTopo, miniWave) == Install(old(View()), pair, o)
      ensures ok ==> ReturnsFilters(old(View()), pair, o, Installed(View(), ok, topo, wave, miniTopo, miniWave))
      ensures forall x: Interface ::
        outside[x] == old(outside[x]) + On(topo, x) + On(wave, x) + On(miniTopo, x) + On(miniWave, x)
      ensures !ok ==> cache == old(cache) && forall x: Interface :: refs[x] == old(refs[x])
    {
      InstallKeeps(View(), pair, o);
      if Install(View(), pair, o).ok {
        InstallReturnsFilters(View(), pair, o);
      }
      ok, topo, wave, miniTopo, miniWave := InstallPair(pair, o);
    }

    /** The routine itself, whatever the cache holds. */
    method InstallPair(pair: Minipair, o: Outcomes)
      returns (ok: bool, topo: Option<Interface>, wave: Option<Interface>,
               miniTopo: Option<Interface>, miniWave: Option<Interface>)
      requires Accounted()
      modifies this
      ensures Accounted()
      ensures Installed(View(), ok, topo, wave, miniTopo, miniWave) == Install(old(View()), pair, o)
      ensures forall x: Interface ::
        outside[x] == old(outside[x]) + On(topo, x) + On(wave, x) + On(miniTopo, x) + On(miniWave, x)
    {
      ghost var t, w;
      var bTopologyCreated, unknownTopology, unknownMiniTopo, bWaveCreated, unknownWave, unknownMiniWave;
      t, w, bTopologyCreated, unknownTopology, unknownMiniTopo, bWaveCreated, unknownWave, unknownMiniWave, ok :=
        FindOrInstallBoth(pair, o);
      topo, wave, miniTopo, miniWave := ReturnOrUndo(pair, o.unregisters, ok, bTopologyCreated, unknownTopology,
        unknownMiniTopo, bWaveCreated, unknownWave, unknownMiniWave);
      ReleaseAll(unknownMiniTopo, unknownTopology, unknownMiniWave, unknownWave);
    }

    method RemoveEndpointFilters(pair: Minipair, topo: Option<Interface>, wave: Option<Interface>,
                                 stuck: set<Connection>, unregisters: bool)
      requires Valid()
      modifies `refs, `cache, `registered, `connections
      ensures Valid() && View() == Remove(old(View()), pair, topo, wave, stuck, unregisters)
    {
      RemoveSound(View(), pair, topo, wave, stuck, unregisters);
      if topo.Some? && wave.Some? {
        DisconnectTopologies(topo.value, wave.value, pair.links, stuck);
      }
      assert View() == Cut(old(View()), topo, wave, pair.links, stuck);
      RemoveHalf(pair.waveName, wave, unregisters);
      RemoveHalf(pair.topoName, topo, unregisters);
    }

    method RemoveHalf(name: string, port: Option<Interface>, unregisters: bool)
      requires Accounted()
      modifies `refs, `cache, `registered
      ensures Accounted() && View() == Withdrawn(old(View()), name, port, unregisters)
    {
      var _ := RemoveCachedSubdevice(name);
      UnregisterSubdevice(port, unregisters);
    }
  }

  // ----- what these methods do to the cache, the registrations and the connections

  datatype Filters = Filters(
    cache: seq<Record>,
    registered: set<Interface>,
    connections: set<Connection>,
    next: Interface)

  ghost predicate Sound(s: Filters) {
    && Distinct(s.cache)
    && (forall r :: r in s.cache ==> r.port < s.next && r.miniport < s.next)
    && (forall x :: x in s.registered ==> x < s.next)
    && (forall c :: c in s.connections ==> c.from < s.next && c.to < s.next)
  }

  datatype Half = Half(after: Filters, created: bool, port: Option<Interface>, miniport: Option<Interface>, ok: bool)

  function FindHalf(s: Filters, name: string, o: HalfOutcome): Half {
    if Named(s.cache, name) then
      var r := s.cache[Index(s.cache, name)];
      Half(s, false, Some(r.port), Some(r.miniport), true)
    else if !o.installs then Half(s, true, None, None, false)
    else
      var r := Record(name, s.next, s.next + 1, o.hasPower, o.hasChange);
      Half(s.(registered := s.registered + {s.next}, next := s.next + 2,
              cache := if o.caches then s.cache + [r] else s.cache),
           true, Some(s.next), Some(s.next + 1), o.caches)
  }

  function UndoHalf(s: Filters, created: bool, name: string, port: Option<Interface>, works: bool): Filters {
    if created && port.Some?
    then s.(cache := Removed(s.cache, name), registered := if works then s.registered - {port.value} else s.registered)
    else s
  }

  function Connect(s: Filters, topo: Interface, wave: Interface, links: seq<Link>, o: Outcomes): Filters {
    s.(connections :=
      if o.connects >= |links| then s.connections + Wires(topo, wave, links)
      else s.connections + Wires(topo, wave, links[..o.connects]) - (Wires(topo, wave, links) - o.stuck))
  }

  datatype Installed = Installed(after: Filters, ok: bool, topo: Option<Interface>, wave: Option<Interface>,
                                 miniTopo: Option<Interface>, miniWave: Option<Interface>)

  function Joined(t: Half, w: Half, pair: Minipair, o: Outcomes): Filters {
    if t.port.Some? && w.port.Some? then Connect(w.after, t.port.value, w.port.value, pair.links, o) else w.after
  }

  /** The status after both halves: connecting overwrites what caching the wave filter reported, and
      the wave filter's status has overwritten the topology filter's. */
  predicate JoinedOk(t: Half, w: Half, pair: Minipair, o: Outcomes) {
    if t.port.Some? && w.port.Some? then o.connects >= |pair.links| else w.ok
  }

  function UndoBoth(s: Filters, t: Half, w: Half, pair: Minipair, o: Outcomes): Filters {
    UndoHalf(UndoHalf(s, t.created, pair.topoName, t.port, o.unregisters),
             w.created, pair.waveName, w.port, o.unregisters)
  }

  function Install(s: Filters, pair: Minipair, o: Outcomes): Installed {
    var t := FindHalf(s, pair.topoName, o.topo);
    var w := FindHalf(t.after, pair.waveName, o.wave);
    if JoinedOk(t, w, pair, o)
    then Installed(Joined(t, w, pair, o), true, t.port, w.port, t.miniport, w.miniport)
    else Installed(UndoBoth(Joined(t, w, pair, o), t, w, pair, o), false, None, None, None, None)
  }

  /** Unregisters one filter and takes it out of the cache. */
  function Withdrawn(s: Filters, name: string, port: Option<Interface>, unregisters: bool): Filters {
    s.(cache := Removed(s.cache, name),
       registered := if port.Some? && unregisters then s.registered - {port.value} else s.registered)
  }

  function Cut(s: Filters, topo: Option<Interface>, wave: Option<Interface>, links: seq<Link>,
               stuck: set<Connection>): Filters {
    if topo.Some? && wave.Some?
    then s.(connections := s.connections - (Wires(topo.value, wave.value, links) - stuck))
    else s
  }

  function Remove(s: Filters, pair: Minipair, topo: Option<Interface>, wave: Option<Interface>,
                  stuck: set<Connection>, unregisters: bool): Filters {
    Withdrawn(Withdrawn(Cut(s, topo, wave, pair.links, stuck), pair.waveName, wave, unregisters),
              pair.topoName, topo, unregisters)
  }

  // ----- what that means

  /** The wave name is cached by the time the wave filter is looked up. */
  predicate WaveNamed(cache: seq<Record>, pair: Minipair, o: Outcomes) {
    || Named(cache, pair.waveName)
    || (pair.waveName == pair.topoName && o.topo.installs && o.topo.caches)
  }

  /** When an installation succeeds.  A topology filter that could not be created or cached goes unnoticed. */
  predicate Succeeds(cache: seq<Record>, pair: Minipair, o: Outcomes) {
    && (WaveNamed(cache, pair, o) || o.wave.installs)
    && (if Named(cache, pair.topoName) || o.topo.installs then o.connects >= |pair.links|
        else WaveNamed(cache, pair, o) || o.wave.caches)
  }

  lemma NamedAppend(cache: seq<Record>, r: Record, name: string)
    ensures Named(cache + [r], name) <==> Named(cache, name) || r.name == name
  {
    if Named(cache, name) {
      assert (cache + [r])[Index(cache, name)].name == name;
    }
    assert (cache + [r])[|cache|] == r;
  }

  /** Success means that the wave filter is there, not that the topology filter is. */
  lemma SuccessExactly(s: Filters, pair: Minipair, o: Outcomes)
    ensures var r := Install(s, pair, o);
      && (r.ok <==> Succeeds(s.cache, pair, o))
      && (r.ok ==> r.wave.Some? && (r.topo.Some? <==> Named(s.cache, pair.topoName) || o.topo.installs))
  {
    NamedAppend(s.cache, Record(pair.topoName, s.next, s.next + 1, o.topo.hasPower, o.topo.hasChange), pair.waveName);
  }

  /** The connections of a pair whose filters were both cached before. */
  function AlreadyWired(cache: seq<Record>, pair: Minipair): set<Connection> {
    if Named(cache, pair.topoName) && Named(cache, pair.waveName)
    then Wires(cache[Index(cache, pair.topoName)].port, cache[Index(cache, pair.waveName)].port, pair.links) else {}
  }

  lemma FreshWires(s: Filters, topo: Interface, wave: Interface, links: seq<Link>)
    requires Sound(s) && (topo >= s.next || wave >= s.next)
    ensures Wires(topo, wave, links) !! s.connections
  {
  }

  // ----- soundness of the state

  lemma AppendSound(s: Filters, r: Record)
    requires Sound(s) && !Named(s.cache, r.name) && r.port < s.next && r.miniport < s.next
    ensures Sound(s.(cache := s.cache + [r]))
  {
    assert forall i :: 0 <= i < |s.cache| ==> s.cache[i].name != r.name;
  }

  lemma RemovedSound(s: Filters, name: string)
    requires Sound(s)
    ensures Sound(s.(cache := Removed(s.cache, name)))
  {
    RemovalRefinesMap(s.cache, name);
  }

  lemma FindHalfSound(s: Filters, name: string, o: HalfOutcome)
    requires Sound(s)
    ensures var h := FindHalf(s, name, o);
      Sound(h.after) && (h.port.Some? ==> h.port.value < h.after.next) && h.after.next >= s.next
  {
    if !Named(s.cache, name) && o.installs {
      var s' := s.(registered := s.registered + {s.next}, next := s.next + 2);
      if o.caches {
        AppendSound(s', Record(name, s.next, s.next + 1, o.hasPower, o.hasChange));
      }
    } else if Named(s.cache, name) {
      assert s.cache[Index(s.cache, name)] in s.cache;
    }
  }

  lemma ConnectSound(s: Filters, topo: Interface, wave: Interface, links: seq<Link>, o: Outcomes)
    requires Sound(s) && topo < s.next && wave < s.next
    ensures Sound(Connect(s, topo, wave, links, o))
  {
  }

  lemma UndoSound(s: Filters, created: bool, name: string, port: Option<Interface>, works: bool)
    requires Sound(s)
    ensures Sound(UndoHalf(s, created, name, port, works))
  {
    RemovedSound(s, name);
  }

  lemma InstallSound(s: Filters, pair: Minipair, o: Outcomes)
    requires Sound(s)
    ensures Sound(Install(s, pair, o).after)
  {
    var t := FindHalf(s, pair.topoName, o.topo);
    var w := FindHalf(t.after, pair.waveName, o.wave);
    FindHalfSound(s, pair.topoName, o.topo);
    FindHalfSound(t.after, pair.waveName, o.wave);
    if t.port.Some? && w.port.Some? {
      ConnectSound(w.after, t.port.value, w.port.value, pair.links, o);
    }
    var after := Joined(t, w, pair, o);
    UndoSound(after, t.created, pair.topoName, t.port, o.unregisters);
    UndoSound(UndoHalf(after, t.created, pair.topoName, t.port, o.unregisters),
              w.created, pair.waveName, w.port, o.unregisters);
  }

  lemma WithdrawnSound(s: Filters, name: string, port: Option<Interface>, unregisters: bool)
    requires Sound(s)
    ensures Sound(Withdrawn(s, name, port, unregisters))
  {
    RemovedSound(s, name);
  }

  lemma RemoveSound(s: Filters, pair: Minipair, topo: Option<Interface>, wave: Option<Interface>,
                    stuck: set<Connection>, unregisters: bool)
    requires Sound(s)
    ensures Sound(Remove(s, pair, topo, wave, stuck, unregisters))
  {
    var c := Cut(s, topo, wave, pair.links, stuck);
    WithdrawnSound(c, pair.waveName, wave, unregisters);
    WithdrawnSound(Withdrawn(c, pair.waveName, wave, unregisters), pair.topoName, topo, unregisters);
  }

  // ----- rollback

  /** Undoing the halves that were created takes both new records out again, whatever the two names are. */
  lemma UndoCache(c: seq<Record>, a: seq<Record>, b: seq<Record>, tn: string, wn: string,
                  tUndone: bool, wUndone: bool)
    requires |a| <= 1 && (a != [] ==> a[0].name == tn && tUndone)
    requires |b| <= 1 && (b != [] ==> b[0].name == wn && wUndone)
    requires (tUndone ==> !Named(c, tn)) && (wUndone ==> !Named(c + a, wn))
    ensures var c1 := if tUndone then Removed(c + a + b, tn) else c + a + b;
      (if wUndone then Removed(c1, wn) else c1) == c
  {
    assert c + [] == c && c + a + [] == c + a;
    if a != [] {
      assert a == [a[0]];
      RemoveAppended(c, a[0], b);
      NamedAppend(c, a[0], wn);
    }
    if b != [] {
      assert b == [b[0]];
      NamedAppend(c, b[0], tn);
      if wUndone && !Named(c, wn) { RemoveAppended(c, b[0], []); }
    }
    RemoveAbsent(c + b, tn);
    RemoveAbsent(c, wn);
    RemoveAbsent(c, tn);
  }

  /** What the two halves add to the cache. */
  lemma HalvesAppend(s: Filters, pair: Minipair, o: Outcomes) returns (a: seq<Record>, b: seq<Record>)
    ensures var t := FindHalf(s, pair.topoName, o.topo);
      var w := FindHalf(t.after, pair.waveName, o.wave);
      && t.after.cache == s.cache + a && w.after.cache == s.cache + a + b
      && |a| <= 1 && |b| <= 1
      && (forall r :: r in a ==> r.name == pair.topoName) && (forall r :: r in b ==> r.name == pair.waveName)
  {
    var t := FindHalf(s, pair.topoName, o.topo);
    var w := FindHalf(t.after, pair.waveName, o.wave);
    a := t.after.cache[|s.cache|..];
    b := w.after.cache[|t.after.cache|..];
  }

  lemma UndoRestoresCache(s: Filters, pair: Minipair, o: Outcomes, after: Filters)
    requires after.cache == FindHalf(FindHalf(s, pair.topoName, o.topo).after, pair.waveName, o.wave).after.cache
    ensures var t := FindHalf(s, pair.topoName, o.topo);
      var w := FindHalf(t.after, pair.waveName, o.wave);
      UndoBoth(after, t, w, pair, o).cache == s.cache
  {
    var t := FindHalf(s, pair.topoName, o.topo);
    var w := FindHalf(t.after, pair.waveName, o.wave);
    var a, b := HalvesAppend(s, pair, o);
    UndoCache(s.cache, a, b, pair.topoName, pair.waveName, t.created && t.port.Some?, w.created && w.port.Some?);
  }

  lemma UndoRestoresRegistrations(s: Filters, pair: Minipair, o: Outcomes, after: Filters)
    requires Sound(s) && o.unregisters
    requires after.registered ==
      FindHalf(FindHalf(s, pair.topoName, o.topo).after, pair.waveName, o.wave).after.registered
    ensures var t := FindHalf(s, pair.topoName, o.topo);
      var w := FindHalf(t.after, pair.waveName, o.wave);
      UndoBoth(after, t, w, pair, o).registered == s.registered
  {
    UndoRegistered(s.registered, s.next);
  }

  /** Undoing both halves restores the cache, and the registrations if unregistering works. */
  lemma UndoRestores(s: Filters, pair: Minipair, o: Outcomes, after: Filters)
    requires Sound(s)
    requires var w := FindHalf(FindHalf(s, pair.topoName, o.topo).after, pair.waveName, o.wave);
      after.cache == w.after.cache && after.registered == w.after.registered
    ensures var t := FindHalf(s, pair.topoName, o.topo);
      var w := FindHalf(t.after, pair.waveName, o.wave);
      var r := UndoBoth(after, t, w, pair, o);
      r.cache == s.cache && (o.unregisters ==> r.registered == s.registered) && r.connections == after.connections
  {
    UndoRestoresCache(s, pair, o, after);
    if o.unregisters {
      UndoRestoresRegistrations(s, pair, o, after);
    }
  }

  lemma UndoRegistered(registered: set<Interface>, next: Interface)
    requires forall x :: x in registered ==> x < next
    ensures registered + {next} - {next} == registered
    ensures registered + {next} + {next + 2} - {next} - {next + 2} == registered
    ensures registered + {next} + {next + 2} - {next + 2} - {next} == registered
  {
  }

  /** The connections a failed installation has tried to make, and those it has made before the failure. */
  function Tried(s: Filters, pair: Minipair, o: Outcomes, links: seq<Link>): set<Connection> {
    var t := FindHalf(s, pair.topoName, o.topo);
    var w := FindHalf(t.after, pair.waveName, o.wave);
    if t.port.Some? && w.port.Some? then Wires(t.port.value, w.port.value, links) else {}
  }

  function Made(s: Filters, pair: Minipair, o: Outcomes): set<Connection> {
    Tried(s, pair, o, if o.connects <= |pair.links| then pair.links[..o.connects] else pair.links)
  }

  /** A failed installation leaves the cache as it was, and the registrations too if unregistering works.  The
      connections are as they were exactly if none that could be undone was there before and none that was made
      is stuck. */
  lemma FailureRollsBack(s: Filters, pair: Minipair, o: Outcomes)
    requires Sound(s) && !Succeeds(s.cache, pair, o)
    ensures var after := Install(s, pair, o).after;
      var undone := Tried(s, pair, o, pair.links) - o.stuck;
      && !Install(s, pair, o).ok
      && after.cache == s.cache
      && (o.unregisters ==> after.registered == s.registered)
      && after.connections == s.connections + Made(s, pair, o) - undone
      && (after.connections == s.connections <==>
            undone !! s.connections && Made(s, pair, o) * o.stuck <= s.connections)
  {
    SuccessExactly(s, pair, o);
    var t := FindHalf(s, pair.topoName, o.topo);
    var w := FindHalf(t.after, pair.waveName, o.wave);
    if t.port.Some? && w.port.Some? {
      UndoRestores(s, pair, o, Connect(w.after, t.port.value, w.port.value, pair.links, o));
      NamedAppend(s.cache, Record(pair.topoName, s.next, s.next + 1, o.topo.hasPower, o.topo.hasChange), pair.waveName);
      assert o.connects < |pair.links|;
      WiresPart(t.port.value, w.port.value, pair.links, o.connects);
      BackAgainExactly(s.connections, Wires(t.port.value, w.port.value, pair.links[..o.connects]),
                       Wires(t.port.value, w.port.value, pair.links), o.stuck);
    } else {
      UndoRestores(s, pair, o, w.after);
    }
  }

  lemma BackAgainExactly(before: set<Connection>, made: set<Connection>, tried: set<Connection>, stuck: set<Connection>)
    requires made <= tried
    ensures before + made - (tried - stuck) == before <==> (tried - stuck !! before && made * stuck <= before)
  {
    var after := before + made - (tried - stuck);
    if after == before {
      forall c | c in made * stuck
        ensures c in before
      {
        assert c in after;
      }
      forall c | c in tried - stuck
        ensures c !in before
      {
        assert c !in after;
      }
    }
    if tried - stuck !! before && made * stuck <= before {
      assert forall c :: c in after <==> c in before;
    }
  }

  /** If nothing is stuck, a failure takes away no connection but those of a pair that was installed before. */
  lemma FailureKeepsOtherConnections(s: Filters, pair: Minipair, o: Outcomes)
    requires Sound(s) && !Succeeds(s.cache, pair, o) && o.stuck == {}
    ensures Install(s, pair, o).after.connections == s.connections - AlreadyWired(s.cache, pair)
  {
    FailureRollsBack(s, pair, o);
    var t := FindHalf(s, pair.topoName, o.topo);
    var w := FindHalf(t.after, pair.waveName, o.wave);
    if t.port.Some? && w.port.Some? {
      SuccessExactly(s, pair, o);
      WiresPart(t.port.value, w.port.value, pair.links, o.connects);
      if t.created || w.created {
        FreshWires(s, t.port.value, w.port.value, pair.links);
      }
      NamedAppend(s.cache, Record(pair.topoName, s.next, s.next + 1, o.topo.hasPower, o.topo.hasChange), pair.waveName);
    }
  }

  lemma InstallKeeps(s: Filters, pair: Minipair, o: Outcomes)
    requires Sound(s)
    ensures Sound(Install(s, pair, o).after)
    ensures !Install(s, pair, o).ok ==> Install(s, pair, o).after.cache == s.cache
  {
    InstallSound(s, pair, o);
    SuccessExactly(s, pair, o);
    if !Succeeds(s.cache, pair, o) {
      FailureRollsBack(s, pair, o);
    }
  }

  lemma InstallThenRemoveConnections(s: Filters, pair: Minipair, o: Outcomes)
    requires Sound(s) && !Named(s.cache, pair.topoName) && !Named(s.cache, pair.waveName)
    requires Install(s, pair, o).ok
    ensures var r := Install(s, pair, o);
      Cut(r.after, r.topo, r.wave, pair.links, {}).connections == s.connections
  {
    var r := Install(s, pair, o);
    if r.topo.Some? && r.wave.Some? {
      FreshWires(s, r.topo.value, r.wave.value, pair.links);
    }
  }

  lemma InstallThenRemoveRecords(s: Filters, pair: Minipair, o: Outcomes)
    requires Sound(s) && !Named(s.cache, pair.topoName) && !Named(s.cache, pair.waveName)
    requires Install(s, pair, o).ok
    ensures Removed(Removed(Install(s, pair, o).after.cache, pair.waveName), pair.topoName) == s.cache
  {
    var t := FindHalf(s, pair.topoName, o.topo);
    var w := FindHalf(t.after, pair.waveName, o.wave);
    NewRecords(s, pair, o);
    RemoveBothNew(s.cache, t.after.cache[|s.cache|..], w.after.cache[|t.after.cache|..], pair.topoName, pair.waveName);
    assert Install(s, pair, o).after.cache == w.after.cache;
  }

  lemma RemoveParts(s: Filters, pair: Minipair, topo: Option<Interface>, wave: Option<Interface>,
                    stuck: set<Connection>)
    ensures var u := Remove(s, pair, topo, wave, stuck, true);
      && u.cache == Removed(Removed(s.cache, pair.waveName), pair.topoName)
      && u.connections == Cut(s, topo, wave, pair.links, stuck).connections
      && u.registered == s.registered - (if wave.Some? then {wave.value} else {})
                                      - (if topo.Some? then {topo.value} else {})
      && u.next == s.next
  {
  }

  /** Removing what was installed for a new pair undoes the installation. */
  lemma {:induction false} InstallThenRemove(s: Filters, pair: Minipair, o: Outcomes)
    requires Sound(s) && !Named(s.cache, pair.topoName) && !Named(s.cache, pair.waveName)
    requires Succeeds(s.cache, pair, o)
    ensures var r := Install(s, pair, o);
      r.ok && Remove(r.after, pair, r.topo, r.wave, {}, true) == s.(next := r.after.next)
  {
    SuccessExactly(s, pair, o);
    var r := Install(s, pair, o);
    InstallThenRemoveRecords(s, pair, o);
    InstallThenRemoveConnections(s, pair, o);
    NewRegistrations(s, pair, o);
    RemoveParts(r.after, pair, r.topo, r.wave, {});
  }

  lemma NewRecords(s: Filters, pair: Minipair, o: Outcomes)
    ensures var t := FindHalf(s, pair.topoName, o.topo);
      var w := FindHalf(t.after, pair.waveName, o.wave);
      && |s.cache| <= |t.after.cache| <= |w.after.cache|
      && w.after.cache == s.cache + t.after.cache[|s.cache|..] + w.after.cache[|t.after.cache|..]
  {
    var t := FindHalf(s, pair.topoName, o.topo);
    var w := FindHalf(t.after, pair.waveName, o.wave);
    assert t.after.cache == s.cache + t.after.cache[|s.cache|..];
    assert w.after.cache == t.after.cache + w.after.cache[|t.after.cache|..];
  }

  lemma NewRegistrations(s: Filters, pair: Minipair, o: Outcomes)
    requires Sound(s) && !Named(s.cache, pair.topoName) && !Named(s.cache, pair.waveName)
    ensures var t := FindHalf(s, pair.topoName, o.topo);
      var w := FindHalf(t.after, pair.waveName, o.wave);
      w.after.registered - (if w.port.Some? then {w.port.value} else {}) - (if t.port.Some? then {t.port.value} else {})
      == s.registered
  {
    var t := FindHalf(s, pair.topoName, o.topo);
    var w := FindHalf(t.after, pair.waveName, o.wave);
    UndoRegistered(s.registered, s.next);
    if !w.created {
      NamedAppend(s.cache, Record(pair.topoName, s.next, s.next + 1, o.topo.hasPower, o.topo.hasChange), pair.waveName);
      assert w.port == t.port;
    }
  }

  lemma RemoveBothNew(c: seq<Record>, a: seq<Record>, b: seq<Record>, tn: string, wn: string)
    requires |a| <= 1 && (a != [] ==> a[0].name == tn) && !Named(c, tn)
    requires |b| <= 1 && (b != [] ==> b[0].name == wn && !Named(c + a, wn)) && !Named(c, wn)
    ensures Removed(Removed(c + a + b, wn), tn) == c
  {
    assert c + [] == c && c + a + [] == c + a;
    if b != [] {
      assert b == [b[0]];
      RemoveAppended(c + a, b[0], []);
    }
    if a != [] {
      assert a == [a[0]];
      RemoveAppended(c, a[0], []);
      NamedAppend(c, a[0], wn);
    }
    RemoveAbsent(c + a, wn);
    RemoveAbsent(c, tn);
  }

  // ----- the cache as a map, over whole operations and runs

  /** What looking up or installing one filter does to the map of cached filters and to the next identity. */
  datatype Entries = Entries(cached: map<string, (Interface, Interface)>, next: Interface)

  function EntriesOf(s: Filters): Entries {
    Entries(AsMap(s.cache), s.next)
  }

  function HalfEntries(e: Entries, name: string, o: HalfOutcome): Entries {
    if name in e.cached || !o.installs then e
    else Entries(if o.caches then e.cached[name := (e.next, e.next + 1)] else e.cached, e.next + 2)
  }

  /** Whether an installation succeeds can be read off the map. */
  predicate EntriesSucceed(e: Entries, pair: Minipair, o: Outcomes) {
    var waveThere := pair.waveName in e.cached || (pair.waveName == pair.topoName && o.topo.installs && o.topo.caches);
    && (waveThere || o.wave.installs)
    && (if pair.topoName in e.cached || o.topo.installs then o.connects >= |pair.links| else waveThere || o.wave.caches)
  }

  /** An installation that succeeds keeps the entries it made: a filter whose record found no room is installed
      without one. */
  function InstallEntries(e: Entries, pair: Minipair, o: Outcomes): Entries {
    var both := HalfEntries(HalfEntries(e, pair.topoName, o.topo), pair.waveName, o.wave);
    if EntriesSucceed(e, pair, o) then both else Entries(e.cached, both.next)
  }

  function RemoveEntries(e: Entries, pair: Minipair): Entries {
    e.(cached := e.cached - {pair.waveName} - {pair.topoName})
  }

  lemma HalfRefinesMap(s: Filters, name: string, o: HalfOutcome)
    requires Sound(s)
    ensures EntriesOf(FindHalf(s, name, o).after) == HalfEntries(EntriesOf(s), name, o)
  {
    if !Named(s.cache, name) && o.installs && o.caches {
      CachingRefinesMap(s.cache, Record(name, s.next, s.next + 1, o.hasPower, o.hasChange));
    }
  }

  lemma InstallRefinesMap(s: Filters, pair: Minipair, o: Outcomes)
    requires Sound(s)
    ensures EntriesOf(Install(s, pair, o).after) == InstallEntries(EntriesOf(s), pair, o)
    ensures Install(s, pair, o).ok <==> EntriesSucceed(EntriesOf(s), pair, o)
  {
    var t := FindHalf(s, pair.topoName, o.topo);
    HalfRefinesMap(s, pair.topoName, o.topo);
    FindHalfSound(s, pair.topoName, o.topo);
    HalfRefinesMap(t.after, pair.waveName, o.wave);
    SuccessExactly(s, pair, o);
    if !Succeeds(s.cache, pair, o) {
      FailureRollsBack(s, pair, o);
    }
  }

  /** `port` and `miniport` are those of the filter `name`: the ones cached before the installation, or else those of a
      registered new filter, which its entry holds afterwards if its record found room. */
  predicate IsFilter(before: map<string, (Interface, Interface)>, next: Interface, name: string, room: bool,
                     port: Option<Interface>, miniport: Option<Interface>,
                     after: map<string, (Interface, Interface)>, registered: set<Interface>) {
    && port.Some? && miniport.Some?
    && (name in before ==> (port.value, miniport.value) == before[name] && name in after && after[name] == before[name])
    && (name !in before ==>
          && next <= port.value && miniport.value == port.value + 1 && port.value in registered
          && (room ==> name in after && after[name] == (port.value, miniport.value)))
  }

  /** For each filter it returns, an installation returns the port and the miniport of that filter. */
  ghost predicate ReturnsFilters(s: Filters, pair: Minipair, o: Outcomes, r: Installed) {
    var before, after := AsMap(s.cache), AsMap(r.after.cache);
    && IsFilter(before, s.next, pair.waveName, o.wave.caches, r.wave, r.miniWave, after, r.after.registered)
    && (r.topo.Some? <==> pair.topoName in before || o.topo.installs)
    && (r.topo.Some? ==>
          IsFilter(before, s.next, pair.topoName, o.topo.caches, r.topo, r.miniTopo, after, r.after.registered))
    && (r.topo == None ==> r.miniTopo == None)
  }

  /** A filter that was cached is found in the map, and a new one takes the next two identities. */
  lemma HalfReturnsPair(s: Filters, name: string, o: HalfOutcome)
    ensures var h := FindHalf(s, name, o); var cached := AsMap(s.cache);
      && (name in cached ==> h.port == Some(cached[name].0) && h.miniport == Some(cached[name].1))
      && (name !in cached && o.installs ==>
            h.port == Some(s.next) && h.miniport == Some(s.next + 1) && s.next in h.after.registered)
      && (name !in cached && !o.installs ==> h.port == None && h.miniport == None)
  {
  }

  lemma HalfReturnsFilter(s: Filters, name: string, o: HalfOutcome)
    requires Sound(s) && FindHalf(s, name, o).port.Some?
    ensures var h := FindHalf(s, name, o);
      IsFilter(AsMap(s.cache), s.next, name, o.caches, h.port, h.miniport, AsMap(h.after.cache), h.after.registered)
  {
    HalfReturnsPair(s, name, o);
    HalfRefinesMap(s, name, o);
    var cached := HalfEntries(EntriesOf(s), name, o).cached;
    assert AsMap(FindHalf(s, name, o).after.cache) == cached;
  }

  /** What is added later leaves the filter's entry alone. */
  lemma FilterStays(before: map<string, (Interface, Interface)>, next: Interface, name: string, room: bool,
                    port: Option<Interface>, miniport: Option<Interface>,
                    after: map<string, (Interface, Interface)>, registered: set<Interface>,
                    later: map<string, (Interface, Interface)>, registeredLater: set<Interface>)
    requires IsFilter(before, next, name, room, port, miniport, after, registered)
    requires registered <= registeredLater && forall n :: n in after ==> n in later && later[n] == after[n]
    ensures IsFilter(before, next, name, room, port, miniport, later, registeredLater)
  {
  }

  lemma InstallReturnsFilters(s: Filters, pair: Minipair, o: Outcomes)
    requires Sound(s) && Install(s, pair, o).ok
    ensures ReturnsFilters(s, pair, o, Install(s, pair, o))
  {
    var t := FindHalf(s, pair.topoName, o.topo);
    var w := FindHalf(t.after, pair.waveName, o.wave);
    SuccessExactly(s, pair, o);
    FindHalfSound(s, pair.topoName, o.topo);
    HalvesRefineMap(s, pair, o);
    WaveReturnsFilter(s, pair, o);
    if t.port.Some? {
      HalfReturnsFilter(s, pair.topoName, o.topo);
      FilterStays(AsMap(s.cache), s.next, pair.topoName, o.topo.caches, t.port, t.miniport, AsMap(t.after.cache),
                  t.after.registered, AsMap(w.after.cache), w.after.registered);
    }
  }

  lemma HalvesRefineMap(s: Filters, pair: Minipair, o: Outcomes)
    requires Sound(s)
    ensures var t := FindHalf(s, pair.topoName, o.topo); var w := FindHalf(t.after, pair.waveName, o.wave);
      && AsMap(t.after.cache) == HalfEntries(EntriesOf(s), pair.topoName, o.topo).cached
      && AsMap(w.after.cache) == HalfEntries(EntriesOf(t.after), pair.waveName, o.wave).cached
      && (t.port.Some? <==> pair.topoName in AsMap(s.cache) || o.topo.installs)
      && (t.port == None ==> t.miniport == None)
  {
    FindHalfSound(s, pair.topoName, o.topo);
    HalfRefinesMap(s, pair.topoName, o.topo);
    HalfRefinesMap(FindHalf(s, pair.topoName, o.topo).after, pair.waveName, o.wave);
    HalfReturnsPair(s, pair.topoName, o.topo);
    assert EntriesOf(FindHalf(s, pair.topoName, o.topo).after).cached
        == HalfEntries(EntriesOf(s), pair.topoName, o.topo).cached;
  }

  lemma WaveReturnsFilter(s: Filters, pair: Minipair, o: Outcomes)
    requires Sound(s)
    requires FindHalf(FindHalf(s, pair.topoName, o.topo).after, pair.waveName, o.wave).port.Some?
    ensures var t := FindHalf(s, pair.topoName, o.topo); var w := FindHalf(t.after, pair.waveName, o.wave);
      IsFilter(AsMap(s.cache), s.next, pair.waveName, o.wave.caches, w.port, w.miniport, AsMap(w.after.cache),
               w.after.registered)
  {
    var t := FindHalf(s, pair.topoName, o.topo);
    FindHalfSound(s, pair.topoName, o.topo);
    HalvesRefineMap(s, pair, o);
    HalfReturnsFilter(t.after, pair.waveName, o.wave);
    HalfReturnsPair(s, pair.topoName, o.topo);
    HalfReturnsPair(t.after, pair.waveName, o.wave);
  }

  /** The success in which the wave filter's record found no room: the filter is connected and not cached. */
  lemma SuccessWithoutRecord(s: Filters, pair: Minipair, o: Outcomes)
    requires Sound(s) && !Named(s.cache, pair.waveName) && pair.waveName != pair.topoName
    requires Named(s.cache, pair.topoName) || o.topo.installs
    requires o.wave.installs && !o.wave.caches && o.connects >= |pair.links|
    ensures var r := Install(s, pair, o);
      && r.ok && r.wave.Some? && r.wave.value in r.after.registered
      && pair.waveName !in EntriesOf(r.after).cached
  {
    InstallRefinesMap(s, pair, o);
  }

  lemma RemoveRefinesMap(s: Filters, pair: Minipair, topo: Option<Interface>, wave: Option<Interface>,
                         stuck: set<Connection>, unregisters: bool)
    requires Sound(s)
    ensures EntriesOf(Remove(s, pair, topo, wave, stuck, unregisters)) == RemoveEntries(EntriesOf(s), pair)
  {
    RemovalRefinesMap(s.cache, pair.waveName);
    RemovalRefinesMap(Removed(s.cache, pair.waveName), pair.topoName);
  }

  datatype Operation =
    | Installing(pair: Minipair, outcomes: Outcomes)
    | Removing(pair: Minipair, topo: Option<Interface>, wave: Option<Interface>,
               stuck: set<Connection>, unregisters: bool)
    | Emptying

  function Perform(s: Filters, op: Operation): Filters {
    match op
    case Installing(pair, o) => Install(s, pair, o).after
    case Removing(pair, topo, wave, stuck, unregisters) => Remove(s, pair, topo, wave, stuck, unregisters)
    case Emptying => s.(cache := [])
  }

  function PerformEntries(e: Entries, op: Operation): Entries {
    match op
    case Installing(pair, o) => InstallEntries(e, pair, o)
    case Removing(pair, _, _, _, _) => RemoveEntries(e, pair)
    case Emptying => e.(cached := map[])
  }

  function PerformAll(s: Filters, ops: seq<Operation>): Filters
    decreases |ops|
  {
    if ops == [] then s else PerformAll(Perform(s, ops[0]), ops[1..])
  }

  function PerformAllEntries(e: Entries, ops: seq<Operation>): Entries
    decreases |ops|
  {
    if ops == [] then e else PerformAllEntries(PerformEntries(e, ops[0]), ops[1..])
  }

  lemma PerformRefinesMap(s: Filters, op: Operation)
    requires Sound(s)
    ensures Sound(Perform(s, op)) && EntriesOf(Perform(s, op)) == PerformEntries(EntriesOf(s), op)
  {
    match op
    case Installing(pair, o) =>
      InstallSound(s, pair, o);
      InstallRefinesMap(s, pair, o);
    case Removing(pair, topo, wave, stuck, unregisters) =>
      RemoveSound(s, pair, topo, wave, stuck, unregisters);
      RemoveRefinesMap(s, pair, topo, wave, stuck, unregisters);
    case Emptying =>
      assert AsMap([]) == map[];
  }

  /** Over every run of installations, removals and clean-outs names stay distinct and the cache is the map. */
  lemma {:induction false} CacheRefinesMap(s: Filters, ops: seq<Operation>)
    requires Sound(s)
    ensures Sound(PerformAll(s, ops))
    ensures EntriesOf(PerformAll(s, ops)) == PerformAllEntries(EntriesOf(s), ops)
    decreases |ops|
  {
    if ops != [] {
      PerformRefinesMap(s, ops[0]);
      CacheRefinesMap(Perform(s, ops[0]), ops[1..]);
    }
  }

  /** Between two filters every link is one connection of its own, which tells pins and direction. */
  lemma WireReadsBack(topology: Interface, wave: Interface, a: Link, b: Link)
    requires topology != wave && Wire(topology, wave, a) == Wire(topology, wave, b)
    ensures a == b
    ensures Wire(topology, wave, a).from == topology <==> a.direction == TopologyOutput
  {
  }

  lemma WiresNext(topology: Interface, wave: Interface, links: seq<Link>, i: nat)
    requires i < |links|
    ensures Wires(topology, wave, links[..i + 1]) ==
      Wires(topology, wave, links[..i]) + {Wire(topology, wave, links[i])}
  {
    assert links[..i + 1] == links[..i] + [links[i]];
    forall c
      ensures c in Wires(topology, wave, links[..i + 1]) <==>
        c in Wires(topology, wave, links[..i]) + {Wire(topology, wave, links[i])}
    {
      if c in Wires(topology, wave, links[..i]) {
        var j :| 0 <= j < i && c == Wire(topology, wave, links[..i][j]);
        assert links[..i + 1][j] == links[..i][j];
      }
      assert links[..i + 1][i] == links[i];
    }
  }

  lemma WiresPart(topology: Interface, wave: Interface, links: seq<Link>, i: nat)
    requires i <= |links|
    ensures Wires(topology, wave, links[..i]) <= Wires(topology, wave, links)
  {
    forall c | c in Wires(topology, wave, links[..i])
      ensures c in Wires(topology, wave, links)
    {
      var j :| 0 <= j < i && c == Wire(topology, wave, links[..i][j]);
      assert links[j] == links[..i][j];
    }
  }
}
