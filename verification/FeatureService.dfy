/** The resolver serving one caller at a time: its cache, a refresh, and the questions it answers. */
module FeatureService {
  import opened Text
  import opened FeatureGates
  import opened FeatureOverlay

  /** The registry's states, the compiled gate map and nobody on the bypass list. */
  function DefaultSnapshot(build: Build): Snapshot { Snapshot(build.defaults, build.gates, {}) }

  /** A snapshot and when it was published. */
  datatype Cache = Cache(snapshot: Option<Snapshot>, at: int)

  /**
   * What one load makes of the cache: nothing within a ttl of the last publication or when the read fails; else a
   * panic exactly on a row keyed "is_enabled", or the overlay of the rows read, published at `later`.
   */
  ghost predicate Loads(build: Build, ttl: int, before: Cache, read: Option<seq<Row>>, now: int, later: int,
                        panicked: bool, after: Cache)
  {
    if before.snapshot.Some? && now < before.at + ttl then !panicked && after == before
    else
      match read
      case None => !panicked && after == before
      case Some(rows) =>
        && (panicked <==> exists i :: 0 <= i < |rows| && rows[i].key == "is_enabled")
        && if panicked then after == before
           else after.snapshot.Some? && IsOverlay(build, Stores(rows), after.snapshot.value) && after.at == later
  }

  class FeatureResolver {
    const build: Build
    const ttl: int
    var current: Option<Snapshot>
    var fetchedAt: int

    constructor (build: Build, ttl: int)
      ensures this.build == build && this.ttl == ttl && current == None
    {
      this.build, this.ttl, current, fetchedAt := build, ttl, None, 0;
    }

    predicate Fresh(now: int)
      reads this
    {
      current.Some? && now - fetchedAt < ttl
    }

    ghost function Cached(): Cache
      reads this
    {
      Cache(current, fetchedAt)
    }

    ghost function Serving(): Snapshot
      reads this
    {
      if current.Some? then current.value else DefaultSnapshot(build)
    }

    /** refresh: `read` is what List returned, None on an error; `now` and `later` are the two clock readings. */
    method Refresh(read: Option<seq<Row>>, now: int, later: int) returns (panicked: bool)
      requires Registered(build)
      modifies this
      ensures Loads(build, ttl, old(Cached()), read, now, later, panicked, Cached())
    {
      if Fresh(now) || read.None? { return false; }
      var next;
      panicked, next := Apply(build, read.value);
      if panicked { return; }
      current, fetchedAt := Some(next), later;
    }

    /** load: the answer is always what is cached afterwards, or the compiled-in defaults while nothing is. */
    method Load(read: Option<seq<Row>>, now: int, later: int) returns (panicked: bool, snapshot: Snapshot)
      requires Registered(build)
      modifies this
      ensures Loads(build, ttl, old(Cached()), read, now, later, panicked, Cached())
      ensures !panicked ==>
        snapshot == if current.Some? then current.value else Snapshot(build.defaults, build.gates, {})
    {
      panicked := false;
      if Fresh(now) { return false, current.value; }
      panicked := Refresh(read, now, later);
      snapshot := if current.Some? then current.value else DefaultSnapshot(build);
    }

    /** Gate: the route's owner and the owner's state come from one snapshot. */
    method Gate(verb: string, route: string, read: Option<seq<Row>>, now: int, later: int)
      returns (panicked: bool, state: Option<State>)
      requires Registered(build)
      modifies this
      ensures Loads(build, ttl, old(Cached()), read, now, later, panicked, Cached())
      ensures !panicked ==> state == GateOf(Serving(), verb, route)
    {
      var snapshot;
      panicked, snapshot := Load(read, now, later);
      state := GateOf(snapshot, verb, route);
    }

    /** BypassesGates: a blank address is refused before the cache is even consulted. */
    method BypassesGates(email: string, read: Option<seq<Row>>, now: int, later: int)
      returns (panicked: bool, bypasses: bool)
      requires Registered(build)
      modifies this
      ensures Blank(email) ==> !panicked && !bypasses && Cached() == old(Cached())
      ensures !Blank(email) ==> Loads(build, ttl, old(Cached()), read, now, later, panicked, Cached())
      ensures !Blank(email) && !panicked ==> (bypasses <==> ToLower(TrimSpace(email)) in Serving().bypass)
    {
      BlankIsEmpty(email);
      assert |Folded(email)| == |TrimSpace(email)|;
      if Folded(email) == "" { return false, false; }
      var snapshot;
      panicked, snapshot := Load(read, now, later);
      bypasses := Folded(email) in snapshot.bypass;
    }
  }
}
