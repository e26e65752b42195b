// The automatic world of one operation as a value: sessions, committed observations, sticky flags
// and the spool, with one function per operation of the coordinator.

module World {
  import opened Arith
  import opened Classes
  import opened MapSums
  import opened Options
  import opened Semantics

  type Id = int

  const MAX_SESSIONS: nat := 64
  const MAX_EVENTS: nat := 1024
  const MAX_CHUNK_BYTES: nat := 32768
  const MAX_READ_BYTES: nat := 8192
  const MAX_ARTIFACT_BYTES: nat := 1_073_741_824
  const MAX_WORLD_BYTES: nat := 2_147_483_648
  const MAX_SESSION_POSITION: nat := 9_007_199_254_740_991
  const MAX_EVIDENCE_BYTES: nat := 256
  const U16_MAX: nat := 65535

  datatype Fault = CaptureLimit | InvalidTransition | NotFound | WorldNotClosed | Storage | External
  datatype Result<+T> = Ok(value: T) | Err(fault: Fault)

  datatype Stream = RequestStream | ResponseStream
  datatype SessionState = Requesting | Capturing | Replaying(offset: nat) | Overflowed
  datatype Action = CaptureAction | ReplayAction

  datatype Session = Session(
    parent: Option<int>, class_: ObservationClass, requestBytes: nat, responseBytes: nat, position: nat,
    contract: Option<Contract>, state: SessionState)

  datatype Path = RequestFile(id: Id) | ResponseFile(id: Id) | UnownedFile(sequence: nat) | TranscriptFile

  /** Digests are injective: equal digests have equal contents. */
  datatype Digest = OfBytes(bytes: Bytes) | OfInteraction(interaction: Interaction) | OfReference(reference: Reference)
                  | OfObservations(observations: seq<Observation>)
                  | OfCoverage(class_: ObservationClass, evidence: Bytes)

  datatype Uri =
    | StateUri(class_: ObservationClass, request: Digest, position: nat, outcome: Outcome)
    | UnownedUri(sequence: nat, digest: Digest)
  datatype Reference = Reference(digest: Digest, size: nat, uri: Uri)
  datatype Artifact = Artifact(path: Path, reference: Option<Reference>)

  datatype Interaction = Interaction(parent: Option<int>, outcome: Outcome, request: Digest, response: Digest,
                                     sequence: nat, position: nat)

  datatype Observation = Observation(class_: ObservationClass, parent: Option<int>, evidence: Digest, sequence: nat,
                                     owner: Option<int>)

  datatype Registration = Registration(adapter: int, coverage: Option<Digest>)

  // ---- history: what really happened, beside what the coordinator counts -----------------------------

  /** Every opened session has its own class and position. */
  datatype Slot = Slot(class_: ObservationClass, position: nat)

  datatype Fate = Live(id: Id) | Committed(index: nat) | Replayed | Lost

  /** What a committed session exchanged. */
  datatype Exchange = Exchange(id: Id, parent: Option<int>, request: Bytes, response: Bytes, outcome: Outcome)

  datatype History = History(
    fates: map<Slot, Fate>,
    exchanges: map<Slot, Exchange>,      // of the committed sessions
    sources: seq<Option<Slot>>,          // for each observation its session, or none if unowned
    links: seq<Option<nat>>,             // for each observation its transcript interaction
    seen: set<Id>,                       // identifiers ever opened
    reused: bool,                        // a session identifier was opened twice
    drops: nat,
    unownedMarks: nat,                   // calls of mark_unowned in capture mode
    unownedDropped: nat,
    unownedLost: nat)                    // marks lost to local storage or to the recorder

  datatype World = World(
    capture: bool,
    first: map<ObservationClass, nat>,   // the first position of each class (nonzero only in replay)
    registrations: map<ObservationClass, Registration>,
    sessions: map<Id, Session>,
    positions: map<ObservationClass, nat>,
    spool: map<Path, Bytes>,
    artifacts: seq<Artifact>,
    interactions: seq<Interaction>,
    observations: seq<Observation>,
    dropped: nat,
    incomplete: bool,
    overflowed: bool,
    reserved: nat,
    history: History)

  datatype Reply<T> = Reply(world: World, result: Result<T>)

  function NewWorld(capture: bool, registrations: map<ObservationClass, Registration>,
                    first: map<ObservationClass, nat>): World {
    World(capture, first, registrations, map[], first, map[], [], [], [], 0, false, false, 0,
          History(map[], map[], [], [], {}, false, 0, 0, 0, 0))
  }

  const ALL_CLASSES: set<ObservationClass> :=
    {ObservationClass.Clock, ObservationClass.Database, ObservationClass.Environment, ObservationClass.Filesystem,
     ObservationClass.OutboundHttp, ObservationClass.Queue, ObservationClass.Randomness}

  predicate IsDependencyClass(class_: ObservationClass) {
    class_ in {ObservationClass.Clock, ObservationClass.Database, ObservationClass.OutboundHttp, ObservationClass.Queue,
               ObservationClass.Randomness}
  }

  function Position(w: World, class_: ObservationClass): nat {
    if class_ in w.positions then w.positions[class_] else 0
  }

  function FirstPosition(w: World, class_: ObservationClass): nat {
    if class_ in w.first then w.first[class_] else 0
  }

  function SlotOf(s: Session): Slot {
    Slot(s.class_, s.position)
  }

  function File(w: World, path: Path): Bytes {
    if path in w.spool then w.spool[path] else []
  }

  // ---- the operations --------------------------------------------------------------------------------

  function MarkIncomplete(w: World): World {
    w.(incomplete := true)
  }

  /** `bind_native_sentinel_coverage`. */
  function BindCoverage(w: World, evidence: Bytes): Reply<()> {
    if evidence == [] || |evidence| > MAX_EVIDENCE_BYTES then Reply(MarkIncomplete(w), Err(CaptureLimit))
    else if w.registrations.Keys != ALL_CLASSES
            || exists c :: c in w.registrations && w.registrations[c].coverage.Some? then
      Reply(MarkIncomplete(w), Err(WorldNotClosed))
    else
      Reply(w.(registrations := map c | c in w.registrations ::
                 w.registrations[c].(coverage := Some(OfCoverage(c, evidence)))), Ok(()))
  }

  /** `created` is how many of the two session files could be created. */
  function Open(w: World, id: Id, class_: ObservationClass, parent: Option<int>, semantic: bool,
                created: nat): Reply<nat> {
    if w.capture && class_ !in w.registrations then Reply(MarkIncomplete(w), Err(WorldNotClosed))
    else if |w.sessions| >= MAX_SESSIONS || id in w.sessions then Reply(MarkIncomplete(w), Err(CaptureLimit))
    else
      var w1 := Touch(w, id, created);
      if created < 2 then Reply(w1, Err(Storage))
      else
        var position := Position(w, class_);
        if position + 1 > MAX_SESSION_POSITION then
             Reply(w1.(positions := w.positions[class_ := position]), Err(CaptureLimit))
        else Reply(Opened(w1, id, Session(parent, class_, 0, 0, position,
                                          if semantic then Some(ContractFor(class_)) else None, Requesting)),
                   Ok(position))
  }

  /** Creating a file that exists empties it. */
  function Touch(w: World, id: Id, created: nat): World {
    w.(spool := if created == 0 then w.spool
                else if created == 1 then w.spool[RequestFile(id) := []]
                else w.spool[RequestFile(id) := []][ResponseFile(id) := []],
       history := w.history.(seen := w.history.seen + {id}, reused := w.history.reused || id in w.history.seen))
  }

  function Opened(w: World, id: Id, s: Session): World {
    w.(positions := w.positions[s.class_ := s.position + 1], sessions := w.sessions[id := s],
       history := w.history.(fates := w.history.fates[SlotOf(s) := Live(id)]))
  }

  function SetSession(w: World, id: Id, s: Session): World {
    w.(sessions := w.sessions[id := s])
  }

  /** A session changes together with one of its files and the bytes reserved for it. */
  function Update(w: World, id: Id, s: Session, path: Path, content: Bytes, reserved: nat): World {
    w.(sessions := w.sessions[id := s], spool := w.spool[path := content], reserved := w.reserved + reserved)
  }

  /** `overflow_session`. */
  function Overflow(w: World, id: Id): World {
    w.(sessions := if id in w.sessions then w.sessions[id := w.sessions[id].(state := Overflowed)] else w.sessions,
       incomplete := true, overflowed := true, dropped := SatAdd(w.dropped, 1),
       history := w.history.(drops := w.history.drops + 1))
  }

  predicate Accepts(s: Session, stream: Stream) {
    if stream.RequestStream? then s.state.Requesting? else s.state.Capturing?
  }

  function Added(s: Session, stream: Stream, count: nat): Session {
    if stream.RequestStream? then s.(requestBytes := s.requestBytes + count)
    else s.(responseBytes := s.responseBytes + count)
  }

  function StreamBytes(s: Session, stream: Stream): nat {
    if stream.RequestStream? then s.requestBytes else s.responseBytes
  }

  function StreamFile(id: Id, stream: Stream): Path {
    if stream.RequestStream? then RequestFile(id) else ResponseFile(id)
  }

  /** `room` is whether the process grants the bytes, `appended` how many bytes reached the file. */
  function Write(w: World, id: Id, stream: Stream, chunk: Bytes, room: bool, appended: nat): Reply<()> {
    if chunk == [] || |chunk| > MAX_CHUNK_BYTES then Reply(Overflow(w, id), Err(CaptureLimit))
    else if id !in w.sessions then Reply(w, Err(NotFound))
    else
      var s := w.sessions[id];
      if !Accepts(s, stream) then Reply(Overflow(w, id), Err(InvalidTransition))
      else if StreamBytes(s, stream) + |chunk| > MAX_ARTIFACT_BYTES || !room then
            Reply(Overflow(w, id), Err(CaptureLimit))
      else
        var path := StreamFile(id, stream);
        var stored := if appended >= |chunk| then chunk else chunk[..appended];
        var w1 := Update(w, id, Added(s, stream, |chunk|), path, File(w, path) + stored, |chunk|);
        if appended >= |chunk| then Reply(w1, Ok(())) else Reply(MarkIncomplete(w1), Err(Storage))
  }

  /** What a dispatch meets: whether the request file can be read, the replay's answer, room and the response file. */
  datatype DispatchEnv = DispatchEnv(readable: bool, recorded: Option<Bytes>, room: bool, stored: bool, partly: Bytes)

  function Dispatch(w: World, id: Id, codec: Codec, env: DispatchEnv): Reply<Action> {
    if id !in w.sessions then Reply(w, Err(NotFound))
    else
      var s := w.sessions[id];
      if s.contract.Some? && !env.readable then Reply(w, Err(Storage))
      else if !RequestOk(codec, s.contract, s.class_, File(w, RequestFile(id)), s.requestBytes) then
            Reply(w, Err(InvalidTransition))
      else if !s.state.Requesting? || s.requestBytes == 0 then
        Reply(MarkIncomplete(SetSession(w, id, s.(state := Overflowed))), Err(InvalidTransition))
      else if w.capture then Reply(SetSession(w, id, s.(state := Capturing)), Ok(CaptureAction))
      else if !env.readable then Reply(w, Err(Storage))
      else if env.recorded.None? then Reply(w, Err(External))
      else
        var recorded := env.recorded.value;
        var s1 := s.(responseBytes := |recorded|);
        if !env.room then Reply(MarkIncomplete(SetSession(w, id, s1)), Err(CaptureLimit))
        else if !env.stored then Reply(Update(w, id, s1, ResponseFile(id), env.partly, |recorded|), Err(Storage))
        else Reply(Update(w, id, s1.(state := Replaying(0)), ResponseFile(id), recorded, |recorded|), Ok(ReplayAction))
  }

  datatype ReadResult = ReadResult(chunk: Bytes, end: bool)

  /** One file read returns between one and `MAX_READ_BYTES` bytes, or none at the end. */
  function ReadCount(remaining: nat, wanted: nat): nat {
    Min(remaining, Min(MAX_READ_BYTES, if wanted == 0 then 1 else wanted))
  }

  function Read(w: World, id: Id, readable: bool, wanted: nat): Reply<ReadResult> {
    if id !in w.sessions then Reply(w, Err(NotFound))
    else
      var s := w.sessions[id];
      if !s.state.Replaying? then Reply(w, Err(InvalidTransition))
      else if !readable then Reply(w, Err(Storage))
      else
        var file := File(w, ResponseFile(id));
        var offset := s.state.offset;
        var count := if offset <= |file| then ReadCount(|file| - offset, wanted) else 0;
        var chunk := if offset <= |file| then file[offset..offset + count] else [];
        Reply(SetSession(w, id, s.(state := Replaying(offset + count))),
              Ok(ReadResult(chunk, offset + count == s.responseBytes)))
  }

  function Settled(w: World, id: Id, fate: Fate): World
    requires id in w.sessions
  {
    w.(sessions := Removed(w.sessions, id),
       history := w.history.(fates := w.history.fates[SlotOf(w.sessions[id]) := fate]))
  }

  predicate ResponseComplete(s: Session) {
    s.state.Capturing? || (s.state.Replaying? && s.state.offset == s.responseBytes)
  }

  /** `recorded` is whether the recorder accepts the observation; `readable` whether the spool can be read. */
  function Finish(w: World, id: Id, outcome: Outcome, position: nat, codec: Codec, readable: bool,
                  recorded: bool): Reply<()> {
    if id !in w.sessions then Reply(w, Err(NotFound))
    else
      var s := w.sessions[id];
      var lost := MarkIncomplete(Settled(w, id, Lost));
      if !ResponseComplete(s) || s.requestBytes == 0 || s.responseBytes == 0 || position > MAX_SESSION_POSITION then
           Reply(lost, Err(InvalidTransition))
      else if position != s.position then Reply(lost, Err(InvalidTransition))
      else if s.contract.Some? && !readable then Reply(lost, Err(Storage))
      else if !PairOk(codec, s.contract, File(w, RequestFile(id)), s.requestBytes, File(w, ResponseFile(id)),
                      s.responseBytes, outcome) then
        Reply(lost, Err(InvalidTransition))
      else if w.capture then Commit(w, id, outcome, readable, recorded)
      else Reply(Settled(w, id, Replayed), Ok(()))
  }

  function Evidence(w: World, s: Session, x: Exchange): Digest {
    if IsDependencyClass(s.class_) then OfInteraction(InteractionOf(w, s, x)) else OfReference(ReferenceOf(s, x))
  }

  function InteractionOf(w: World, s: Session, x: Exchange): Interaction {
    Interaction(x.parent, x.outcome, OfBytes(x.request), OfBytes(x.response), |w.interactions|, s.position)
  }

  function ReferenceOf(s: Session, x: Exchange): Reference {
    Reference(OfBytes(x.response), |x.response|, StateUri(s.class_, OfBytes(x.request), s.position, x.outcome))
  }

  function ExchangeOf(w: World, id: Id, outcome: Outcome): Exchange
    requires id in w.sessions
  {
    Exchange(id, w.sessions[id].parent, File(w, RequestFile(id)), File(w, ResponseFile(id)), outcome)
  }

  function NewArtifacts(s: Session, x: Exchange): seq<Artifact> {
    if IsDependencyClass(s.class_) then [Artifact(RequestFile(x.id), None), Artifact(ResponseFile(x.id), None)]
    else [Artifact(ResponseFile(x.id), Some(ReferenceOf(s, x)))]
  }

  function NewInteractions(w: World, s: Session, x: Exchange): seq<Interaction> {
    if IsDependencyClass(s.class_) then [InteractionOf(w, s, x)] else []
  }

  /** The artifacts and the interaction that a commit pushes before the observation. */
  function Staged(w: World, s: Session, x: Exchange): World {
    w.(artifacts := w.artifacts + NewArtifacts(s, x), interactions := w.interactions + NewInteractions(w, s, x))
  }

  /** Why a commit stops before it stages anything: the files' lengths must be the declared ones. */
  function CommitFault(w: World, id: Id, readable: bool): Option<Fault>
    requires id in w.sessions
  {
    var s := w.sessions[id];
    if |w.observations| >= MAX_EVENTS then Some(CaptureLimit)
    else if !readable then Some(Storage)
    else if |File(w, RequestFile(id))| != s.requestBytes || |File(w, ResponseFile(id))| != s.responseBytes then
          Some(WorldNotClosed)
    else if IsDependencyClass(s.class_) && |w.interactions| > U16_MAX then Some(CaptureLimit)
    else None
  }

  /** `commit_session`. */
  function Commit(w: World, id: Id, outcome: Outcome, readable: bool, recorded: bool): Reply<()>
    requires id in w.sessions
  {
    var s := w.sessions[id];
    var x := ExchangeOf(w, id, outcome);
    var lost := MarkIncomplete(Settled(w, id, Lost));
    var fault := CommitFault(w, id, readable);
    if fault.Some? then Reply(lost, Err(fault.value))
    else if s.class_ !in w.registrations then Reply(Staged(lost, s, x), Err(WorldNotClosed))
    else if !recorded then Reply(Staged(lost, s, x), Err(External))
    else Reply(Kept(w, id, x), Ok(()))
  }

  function Kept(w: World, id: Id, x: Exchange): World
    requires id in w.sessions && w.sessions[id].class_ in w.registrations
  {
    var s := w.sessions[id];
    var k := |w.observations|;
    var o := Observation(s.class_, s.parent, Evidence(w, s, x), k, Some(w.registrations[s.class_].adapter));
    var link := if IsDependencyClass(s.class_) then Some(|w.interactions|) else None;
    Staged(w, s, x).(
      sessions := Removed(w.sessions, id),
      observations := w.observations + [o],
      history := w.history.(fates := w.history.fates[SlotOf(s) := Committed(k)],
                            exchanges := w.history.exchanges[SlotOf(s) := x],
                            sources := w.history.sources + [Some(SlotOf(s))], links := w.history.links + [link]))
  }

  function Abandon(w: World, id: Id): Reply<()> {
    if id !in w.sessions then Reply(w, Err(NotFound)) else Reply(MarkIncomplete(Settled(w, id, Lost)), Ok(()))
  }

  function Dropped(w: World): World {
    w.(overflowed := true, dropped := SatAdd(w.dropped, 1),
       history := w.history.(drops := w.history.drops + 1, unownedMarks := w.history.unownedMarks + 1,
                             unownedDropped := w.history.unownedDropped + 1))
  }

  function MarkLost(w: World): World {
    w.(history := w.history.(unownedMarks := w.history.unownedMarks + 1, unownedLost := w.history.unownedLost + 1))
  }

  /** `stored` is whether the evidence file can be written. */
  function MarkUnowned(w: World, class_: ObservationClass, parent: Option<int>, evidence: Bytes, room: bool,
                       stored: bool, recorded: bool): Reply<()> {
    if !w.capture then Reply(MarkIncomplete(w), Err(WorldNotClosed))
    else if evidence == [] || |w.observations| >= MAX_EVENTS || |evidence| > MAX_ARTIFACT_BYTES then
          Reply(Dropped(w), Err(CaptureLimit))
    else if !room then Reply(Dropped(w), Err(CaptureLimit))
    else
      if !stored then Reply(MarkLost(w.(reserved := w.reserved + |evidence|)), Err(Storage))
      else if !recorded then Reply(MarkLost(Stored(w, evidence)), Err(External))
      else Reply(Marked(Stored(w, evidence), Observation(class_, parent, OfBytes(evidence), |w.observations|, None)),
                 Ok(()))
  }

  /** The evidence is in the spool and listed as an artifact. */
  function Stored(w: World, evidence: Bytes): World {
    var k := |w.observations|;
    var reference := Reference(OfBytes(evidence), |evidence|, UnownedUri(k, OfBytes(evidence)));
    w.(reserved := w.reserved + |evidence|, spool := w.spool[UnownedFile(k) := evidence],
       artifacts := w.artifacts + [Artifact(UnownedFile(k), Some(reference))])
  }

  /** The observation without an owner is recorded. */
  function Marked(w: World, o: Observation): World {
    w.(observations := w.observations + [o],
       history := w.history.(sources := w.history.sources + [None], links := w.history.links + [None],
                             unownedMarks := w.history.unownedMarks + 1))
  }

  // ---- closing -----------------------------------------------------------------------------------------

  /** `receipts` holds what each class's closure receipt is a digest of. */
  datatype Fence = Fence(dropped: nat, overflowed: bool, unowned: nat, count: nat, digest: Digest,
                         owners: map<ObservationClass, int>,
                         receipts: map<ObservationClass, seq<Digest>>)
  datatype Checkpoint = Checkpoint(references: seq<Reference>, totalBytes: nat, objects: nat)
  datatype Closed = Closed(fence: Fence, checkpoint: Checkpoint, transcript: seq<Interaction>)

  function References(artifacts: seq<Artifact>): seq<Reference> {
    if artifacts == [] then []
    else (if artifacts[0].reference.Some? then [artifacts[0].reference.value] else []) + References(artifacts[1..])
  }

  function TotalBytes(references: seq<Reference>): nat {
    if references == [] then 0 else references[0].size + TotalBytes(references[1..])
  }

  /** The evidence of one class's observations, in order. */
  function ClassEvidence(observations: seq<Observation>, class_: ObservationClass): seq<Digest> {
    if observations == [] then []
    else
      var last := observations[|observations| - 1];
      ClassEvidence(observations[..|observations| - 1], class_)
      + (if last.class_ == class_ then [last.evidence] else [])
  }

  /** `world_closure`: each class's sentinel coverage, then its evidence. */
  function Receipts(registrations: map<ObservationClass, Registration>,
                    observations: seq<Observation>): map<ObservationClass, seq<Digest>> {
    map c | c in registrations && registrations[c].coverage.Some? ::
      [registrations[c].coverage.value] + ClassEvidence(observations, c)
  }

  predicate MayClose(w: World) {
    && !w.overflowed && !w.incomplete && w.sessions == map[] && w.dropped == 0
    && (forall k :: 0 <= k < |w.observations| ==> w.observations[k].owner.Some?)
    && w.registrations.Keys == ALL_CLASSES
    && (forall c :: c in w.registrations ==> w.registrations[c].coverage.Some?)
  }

  /** Room for the transcript, its file, the recorder, and the schema validators of reproit_core. */
  datatype CloseEnv = CloseEnv(room: bool, stored: bool, recorded: bool, valid: bool)

  function Close(w: World, env: CloseEnv): Result<Closed> {
    if !MayClose(w) then Err(WorldNotClosed)
    else if w.interactions != [] && !env.room then Err(CaptureLimit)
    else if w.interactions != [] && !env.stored then Err(Storage)
    else if w.interactions != [] && (!w.capture || !env.recorded) then Err(External)
    else
      var references := References(w.artifacts);
      if TotalBytes(references) > MAX_WORLD_BYTES then Err(CaptureLimit)
      else if !env.valid then Err(External)
      else
        Ok(Closed(
             Fence(w.dropped, w.overflowed, 0, |w.observations|, OfObservations(w.observations),
                   map c | c in w.registrations :: w.registrations[c].adapter,
                   Receipts(w.registrations, w.observations)),
             Checkpoint(references, TotalBytes(references), |references|), w.interactions))
  }
}
