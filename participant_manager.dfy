/**
 * ParticipantManager of the sequence model: a cache from a name to the id of the
 * participant generated for it, and the list of participants in the order they were
 * generated.
 *
 * Symbol resolution and the participant analyzer are inputs given as functions;
 * None stands for an empty Optional or a thrown exception.
 */
module ParticipantTracking {
  import opened Wrappers

  /** A participant of the sequence diagram, reduced to the two fields the manager reads. */
  datatype Participant = Participant(id: string, name: string)

  datatype TextRange = TextRange(startOffset: nat, length: nat)

  /** A symbol's location: the file it is in and its text range there. */
  datatype Location = Location(fileName: string, range: TextRange)

  datatype SymbolRef = SymbolRef(handle: nat)

  datatype SyntaxNodeRef = SyntaxNodeRef(handle: nat)

  /** A name reference node: the text `toString` gives and the node's identity. */
  datatype NameReference = NameReference(text: string, handle: nat)

  /**
   * The compiler services the manager uses: the symbol of a name, its location and its
   * module name, and the syntax node at a text range of a file of a module (the syntax
   * tree lookup followed by the node lookup).
   */
  datatype Frontend = Frontend(
    symbolOf: NameReference -> Option<SymbolRef>,
    locationOf: SymbolRef -> Option<Location>,
    moduleNameOf: SymbolRef -> Option<string>,
    nodeAt: (string, string, TextRange) -> Option<SyntaxNodeRef>)

  /**
   * The participant analyzer: the participant a node describes, given the source id and
   * the module name, or None when visiting the node throws.
   */
  type Analyzer = (SyntaxNodeRef, string, string) -> Option<Participant>

  /** The resolution chain of a cache miss: the participant's node and module name, or None when a step fails. */
  function Resolve(frontend: Frontend, name: NameReference): (r: Option<(SyntaxNodeRef, string)>)
    ensures r.Some? <==> frontend.symbolOf(name).Some?
                         && frontend.locationOf(frontend.symbolOf(name).value).Some?
                         && frontend.moduleNameOf(frontend.symbolOf(name).value).Some?
                         && frontend.nodeAt(frontend.locationOf(frontend.symbolOf(name).value).value.fileName,
                                            frontend.moduleNameOf(frontend.symbolOf(name).value).value,
                                            frontend.locationOf(frontend.symbolOf(name).value).value.range).Some?
    ensures r.Some? ==> r.value.1 == frontend.moduleNameOf(frontend.symbolOf(name).value).value
  {
    match frontend.symbolOf(name)
    case None => None
    case Some(symbol) =>
      match frontend.locationOf(symbol)
      case None => None
      case Some(location) =>
        match frontend.moduleNameOf(symbol)
        case None => None
        case Some(moduleName) =>
          match frontend.nodeAt(location.fileName, moduleName, location.range)
          case None => None
          case Some(node) => Some((node, moduleName))
  }

  /** The manager's state: the name-to-id cache and the participants in the order they were generated. */
  datatype Registry = Registry(cache: map<string, string>, participants: seq<Participant>)

  /** The cache a list of participants induces: each name maps to the id of the last participant with that name. */
  function Index(ps: seq<Participant>): map<string, string> {
    if ps == [] then map[] else Index(ps[..|ps| - 1])[ps[|ps| - 1].name := ps[|ps| - 1].id]
  }

  /** The invariant the manager keeps: its cache is exactly the index of its participants. */
  predicate Consistent(r: Registry) {
    r.cache == Index(r.participants)
  }

  /** Registering a generated participant: appended to the list, its id cached under its own name. */
  function Register(r: Registry, p: Participant): (r': Registry)
    ensures Consistent(r) ==> Consistent(r')
  {
    assert (r.participants + [p])[..|r.participants|] == r.participants;
    Registry(r.cache[p.name := p.id], r.participants + [p])
  }

  /** One lookup of a name from a source: the new state and the returned id (None where the source returns null). */
  function Lookup(r: Registry, frontend: Frontend, analyze: Analyzer, name: NameReference, sourceId: string)
    : (Registry, Option<string>)
  {
    if name.text in r.cache then (r, Some(r.cache[name.text]))
    else
      match Resolve(frontend, name)
      case None => (r, None)
      case Some((node, moduleName)) =>
        match analyze(node, sourceId, moduleName)
        case None => (r, None)
        case Some(p) => (Register(r, p), Some(p.id))
  }

  /** A cached name is answered from the cache: nothing changes and the frontend is not consulted. */
  lemma LookupHit(r: Registry, frontend: Frontend, frontend': Frontend, analyze: Analyzer, analyze': Analyzer,
                  name: NameReference, sourceId: string, sourceId': string)
    requires name.text in r.cache
    ensures Lookup(r, frontend, analyze, name, sourceId).0 == r
    ensures Lookup(r, frontend, analyze, name, sourceId).1 == Some(r.cache[name.text])
    ensures Lookup(r, frontend, analyze, name, sourceId) == Lookup(r, frontend', analyze', name, sourceId')
  {
  }

  /** A lookup never removes or reorders participants and adds at most one. */
  lemma LookupOnlyAppends(r: Registry, frontend: Frontend, analyze: Analyzer, name: NameReference, sourceId: string)
    ensures var r' := Lookup(r, frontend, analyze, name, sourceId).0;
            && r.participants <= r'.participants
            && |r'.participants| <= |r.participants| + 1
            && (|r'.participants| == |r.participants| <==> r' == r)
  {
  }

  /** The cached names are exactly the names of the participants. */
  lemma {:induction false} IndexKeys(ps: seq<Participant>, k: string)
    ensures k in Index(ps) <==> exists i :: 0 <= i < |ps| && ps[i].name == k
  {
    if ps != [] {
      var init := ps[..|ps| - 1];
      IndexKeys(init, k);
      if k in Index(init) {
        var i :| 0 <= i < |init| && init[i].name == k;
        assert ps[i].name == k;
      }
      if i :| 0 <= i < |ps| && ps[i].name == k {
        if i < |init| {
          assert init[i].name == k;
        }
      }
    }
  }

  /** A cached id is the id of the last participant generated under that name. */
  lemma {:induction false} IndexLastWriter(ps: seq<Participant>, k: string)
    requires k in Index(ps)
    ensures exists i :: 0 <= i < |ps| && ps[i] == Participant(Index(ps)[k], k)
                        && forall j :: i < j < |ps| ==> ps[j].name != k
  {
    var last := ps[|ps| - 1];
    var init := ps[..|ps| - 1];
    if last.name == k {
      assert ps[|ps| - 1] == Participant(Index(ps)[k], k);
    } else {
      IndexLastWriter(init, k);
      var i :| 0 <= i < |init| && init[i] == Participant(Index(init)[k], k)
                && forall j :: i < j < |init| ==> init[j].name != k;
      assert ps[i] == Participant(Index(ps)[k], k);
      assert forall j :: i < j < |ps| ==> ps[j].name != k by {
        forall j | i < j < |ps|
          ensures ps[j].name != k
        {
          if j < |init| {
            assert ps[j] == init[j];
          }
        }
      }
    }
  }

  /**
   * In a consistent state a lookup keeps the state consistent. A cache hit returns the id of
   * a listed participant with the looked-up name; a successful miss returns the id of the
   * participant just generated, now last in the list.
   */
  lemma LookupIdBelongs(r: Registry, frontend: Frontend, analyze: Analyzer, name: NameReference, sourceId: string)
    requires Consistent(r)
    ensures var (r', id) := Lookup(r, frontend, analyze, name, sourceId);
            Consistent(r') &&
            (id.Some? ==> exists i :: 0 <= i < |r'.participants| && r'.participants[i].id == id.value) &&
            (name.text in r.cache ==> id.Some? && Participant(id.value, name.text) in r'.participants) &&
            (name.text !in r.cache && id.Some? ==>
               |r'.participants| == |r.participants| + 1 && r'.participants[|r.participants|].id == id.value)
  {
    var (r', id) := Lookup(r, frontend, analyze, name, sourceId);
    if name.text in r.cache {
      IndexLastWriter(r.participants, name.text);
    } else if id.Some? {
      assert r'.participants[|r.participants|].id == id.value;
    }
  }

  /**
   * A participant is cached under its own name, not under the looked-up text: when the
   * two differ, looking the same name up again misses again and generates a second participant.
   */
  lemma RepeatedMissOnNameMismatch(r: Registry, frontend: Frontend, analyze: Analyzer, name: NameReference, sourceId: string)
    requires name.text !in r.cache && Resolve(frontend, name).Some?
    requires var p := analyze(Resolve(frontend, name).value.0, sourceId, Resolve(frontend, name).value.1);
             p.Some? && p.value.name != name.text
    ensures var (r1, _) := Lookup(r, frontend, analyze, name, sourceId);
            var (r2, _) := Lookup(r1, frontend, analyze, name, sourceId);
            name.text !in r1.cache && |r2.participants| == |r.participants| + 2
  {
  }

  /**
   * A repeated lookup returns the same id and changes nothing when the first one hit the
   * cache, failed, or generated a participant named by the looked-up text.
   */
  lemma RepeatedLookupIdempotent(r: Registry, frontend: Frontend, analyze: Analyzer, name: NameReference, sourceId: string)
    requires name.text in r.cache || Resolve(frontend, name).None?
             || var p := analyze(Resolve(frontend, name).value.0, sourceId, Resolve(frontend, name).value.1);
                p.None? || p.value.name == name.text
    ensures var (r1, id1) := Lookup(r, frontend, analyze, name, sourceId);
            Lookup(r1, frontend, analyze, name, sourceId) == (r1, id1)
  {
  }

  /**
   * The manager object: the cache and the participant list it updates in place, and the
   * frontend and analyzer it was initialised with.
   */
  class ParticipantManager {
    var cache: map<string, string>
    var participants: seq<Participant>
    const frontend: Frontend
    const analyze: Analyzer

    function State(): Registry
      reads this
    {
      Registry(cache, participants)
    }

    /** A fresh manager: nothing cached and no participants. */
    constructor Initialize(frontend: Frontend, analyze: Analyzer)
      ensures cache == map[] && participants == []
      ensures Consistent(State())
      ensures this.frontend == frontend && this.analyze == analyze
    {
      cache := map[];
      participants := [];
      this.frontend := frontend;
      this.analyze := analyze;
    }

    /**
     * The id of the participant a name refers to: from the cache when the name's text is
     * cached; otherwise resolved through the frontend and generated, or None when
     * resolution fails.
     */
    method GetParticipantId(name: NameReference, sourceId: string) returns (id: Option<string>)
      requires Consistent(State())
      modifies this
      ensures (State(), id) == Lookup(old(State()), frontend, analyze, name, sourceId)
      ensures Consistent(State())
      ensures name.text in old(cache) ==> id == Some(old(cache)[name.text]) && unchanged(this)
      ensures name.text !in old(cache) && id.None? ==> unchanged(this)
      ensures old(participants) <= participants && |participants| <= |old(participants)| + 1
    {
      LookupOnlyAppends(old(State()), frontend, analyze, name, sourceId);
      if name.text in cache {
        return Some(cache[name.text]);
      }
      var symbol := frontend.symbolOf(name);
      if symbol.None? {
        return None;
      }
      var location := frontend.locationOf(symbol.value);
      if location.None? {
        return None;
      }
      var moduleName := frontend.moduleNameOf(symbol.value);
      if moduleName.None? {
        return None;
      }
      var node := frontend.nodeAt(location.value.fileName, moduleName.value, location.value.range);
      if node.None? {
        return None;
      }
      id := GenerateParticipant(node.value, sourceId, moduleName.value);
    }

    /**
     * Runs the analyzer on a node, appends the participant it describes and caches its id
     * under its name. When the analyzer throws (None) nothing changes and there is no id.
     */
    method GenerateParticipant(node: SyntaxNodeRef, sourceId: string, moduleName: string)
      returns (participantId: Option<string>)
      requires Consistent(State())
      modifies this
      ensures analyze(node, sourceId, moduleName).None? ==> participantId.None? && unchanged(this)
      ensures analyze(node, sourceId, moduleName).Some? ==>
              var p := analyze(node, sourceId, moduleName).value;
              && participants == old(participants) + [p]
              && cache == old(cache)[p.name := p.id]
              && participantId == Some(p.id)
      ensures Consistent(State())
    {
      var analyzed := analyze(node, sourceId, moduleName);
      if analyzed.None? {
        return None;
      }
      var participant := analyzed.value;
      assert State() == old(State());
      participants := participants + [participant];
      cache := cache[participant.name := participant.id];
      participantId := Some(participant.id);
      assert State() == Register(old(State()), participant);
    }

    /** The participants generated so far, in the order they were generated. */
    method GetParticipants() returns (ps: seq<Participant>)
      requires Consistent(State())
      ensures ps == participants
      ensures forall k :: k in cache ==> exists i :: 0 <= i < |ps| && ps[i] == Participant(cache[k], k)
    {
      ps := participants;
      forall k | k in cache
        ensures exists i :: 0 <= i < |ps| && ps[i] == Participant(cache[k], k)
      {
        IndexLastWriter(participants, k);
      }
    }
  }
}
